/** Admission of a signed receipt (backend/src/lib/verify.js); the signature check is abstract. */
module Receipts {
  import opened Options
  import L = NodeLedger

  datatype Expected = Expected(nodeId: nat, id: L.Id, startsAt: int, endsAt: int, pricePaiseHr: int)

  datatype Refusal = BadSignature | NodeMismatch | WindowMismatch | ReservationMismatch | PriceIncreased | HoldExpired

  /** None admits the receipt. `signatureOk` is the verdict of the Ed25519 check. */
  function AdmitReceipt(signatureOk: bool, nodeId: nat, body: L.Receipt, expected: Expected, now: int): (r: Option<Refusal>)
  {
    if !signatureOk then Some(BadSignature)
    else if nodeId != expected.nodeId then Some(NodeMismatch)
    else if body.startsAt != expected.startsAt || body.endsAt != expected.endsAt then Some(WindowMismatch)
    else if body.id != expected.id then Some(ReservationMismatch)
    else if body.pricePaiseHr > expected.pricePaiseHr then Some(PriceIncreased)
    else if body.holdExpiresAt <= now then Some(HoldExpired)
    else None
  }

  /** A receipt is admitted if and only if it is signed, is for what was asked at no higher price, and still holds. */
  lemma AdmittedExactly(signatureOk: bool, nodeId: nat, body: L.Receipt, expected: Expected, now: int)
    ensures AdmitReceipt(signatureOk, nodeId, body, expected, now).None? <==>
      (&& signatureOk && nodeId == expected.nodeId && now < body.holdExpiresAt
       && L.Receipt(expected.id, expected.startsAt, expected.endsAt, body.pricePaiseHr, body.holdExpiresAt, body.issuedAt) == body
       && body.pricePaiseHr <= expected.pricePaiseHr)
  {
  }

  /**
   Lock and admission fit together: the receipt a node grants for the request it was sent is
   admitted exactly when the node did not raise its price and the platform's clock has not
   reached the end of the hold.
   */
  lemma GrantedReceiptAdmitted(
      t: L.Table, ttlMs: int, nodeId: nat, id: L.Id, s: int, e: int,
      nodePrice: int, nodeNow: int, askedPrice: int, platformNow: int)
    requires L.TryLock(t, ttlMs, id, s, e, nodePrice, nodeNow).1.Granted?
    ensures AdmitReceipt(true, nodeId, L.TryLock(t, ttlMs, id, s, e, nodePrice, nodeNow).1.receipt,
                         Expected(nodeId, id, s, e, askedPrice), platformNow).None?
      <==> nodePrice <= askedPrice && platformNow < nodeNow + ttlMs
  {
  }

  /**
   What an admitted receipt is worth: the node that granted it holds the very window the platform
   asked for, and as long as its clock stays before the end of the hold and nobody releases the
   reservation, a commit leaves that window confirmed, at no more than the agreed price.
   */
  lemma AdmittedReceiptIsHonoured(
      t: L.Table, ttlMs: int, id: L.Id, s: int, e: int, price: int, nodeNow: int,
      nodeId: nat, expected: Expected, platformNow: int, calls: seq<L.Call>, now: int)
    requires var r := L.TryLock(t, ttlMs, id, s, e, price, nodeNow);
      && r.1.Granted?
      && AdmitReceipt(true, nodeId, r.1.receipt, expected, platformNow).None?
      && L.Before(calls, r.1.receipt.holdExpiresAt) && now < r.1.receipt.holdExpiresAt
    requires !L.Releases(calls, expected.id)
    ensures var u := L.Run(L.TryLock(t, ttlMs, id, s, e, price, nodeNow).0, ttlMs, calls);
      var v := L.Commit(u, expected.id, now).0;
      && expected.id in v && v[expected.id].status == L.Confirmed
      && v[expected.id].startsAt == expected.startsAt && v[expected.id].endsAt == expected.endsAt
      && v[expected.id].pricePaiseHr <= expected.pricePaiseHr
  {
    var r := L.TryLock(t, ttlMs, id, s, e, price, nodeNow);
    L.GrantIsRecorded(t, ttlMs, id, s, e, price, nodeNow);
    AdmittedExactly(true, nodeId, r.1.receipt, expected, platformNow);
    L.HoldIsHonoured(r.0, ttlMs, calls, id, r.1.receipt.holdExpiresAt, now);
  }
}
