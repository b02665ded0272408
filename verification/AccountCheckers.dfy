/** The interceptor's handlers for sending payments: what they read from a request
    and the service calls they make, and that an uninterrupted handler is exactly a
    run of the protocol's steps. */
module AccountCheckers {
  import opened AccountTypes
  import Spec = ServiceSpec
  import opened Protocol
  import opened Finality
  import opened Outcomes
  import opened Ledger
  import opened AccountService

  const EMPTY_HASH: Hash :=
    [0, 0, 0, 0, 0, 0, 0, 0, 0, 0, 0, 0, 0, 0, 0, 0, 0, 0, 0, 0, 0, 0, 0, 0, 0, 0, 0, 0, 0, 0, 0, 0]

  /** A decoded payment request; amount and hash are both optional. */
  datatype PayReq = PayReq(amount: Option<Msat>, hash: Option<Hash>)

  datatype Invoice = NoInvoice | Undecodable | Decoded(payReq: PayReq)

  datatype Target = Target(hash: Hash, amount: Msat)

  datatype Resolved = Rejected | Send(target: Target)

  function MsatFromSatoshis(sat: Int64): Msat {
    ToUint64(sat * 1000)
  }

  function InvoiceAmount(inv: Invoice): Msat {
    if inv.Decoded? && inv.payReq.amount.Some? then inv.payReq.amount.value else 0
  }

  function InvoiceHash(inv: Invoice): Hash {
    if inv.Decoded? && inv.payReq.hash.Some? then inv.payReq.hash.value else EMPTY_HASH
  }

  /** The request names a payment hash, in the right length, and no other one. */
  predicate NamesOneHash(inv: Invoice, hashBytes: seq<Byte>) {
    && !inv.Undecodable?
    && (hashBytes == [] ==> InvoiceHash(inv) != EMPTY_HASH)
    && (hashBytes != [] ==>
          |hashBytes| == 32 && hashBytes != EMPTY_HASH && (InvoiceHash(inv) == EMPTY_HASH || InvoiceHash(inv) == hashBytes))
  }

  /** Every negative number of millisatoshis is read as an amount that does not fit a
      signed word, and no other number is. */
  lemma NegativeReadsLarge(msat: Int64)
    ensures ToUint64(msat) > MAX_INT64 <==> msat < 0
  {
    if msat < 0 {
      assert ToUint64(msat) == msat + TWO_64;
    }
  }

  /** A satoshi is a thousand millisatoshis, as far as these fit the word. */
  lemma SatoshiIsThousand(sat: Int64)
    ensures MsatFromSatoshis(sat) == 1000 * sat <==> 0 <= sat <= 18_446_744_073_709_551
  {
    if 0 <= sat <= 18_446_744_073_709_551 {
      assert 0 <= 1000 * sat < TWO_64;
    }
  }

  /** The hash that stands for none is the one of zeros. */
  lemma NoHashIsZeros(h: Hash)
    ensures h == EMPTY_HASH <==> forall i :: 0 <= i < 32 ==> h[i] == 0
  {
  }

  /** What a request without an invoice, with an invoice only and with both names. */
  lemma NamesOneHashCases(h: Hash, amount: Msat, hashBytes: seq<Byte>)
    requires h != EMPTY_HASH
    ensures NamesOneHash(NoInvoice, hashBytes) <==> |hashBytes| == 32 && exists i :: 0 <= i < 32 && hashBytes[i] != 0
    ensures var inv := Decoded(PayReq(Some(amount), Some(h)));
            && (NamesOneHash(inv, hashBytes) <==> hashBytes == [] || hashBytes == h)
            && InvoiceAmount(inv) == amount && InvoiceHash(inv) == h
    ensures !NamesOneHash(Undecodable, hashBytes)
  {
    if |hashBytes| == 32 {
      NoHashIsZeros(hashBytes);
    }
  }

  /** What a send request asks for: the largest of the amounts it states plus the fee
      limit for that amount, to the one hash it names. */
  method ResolveSend(sat: Int64, msat: Int64, inv: Invoice, hashBytes: seq<Byte>, feeLimit: Msat -> Msat)
    returns (r: Resolved)
    ensures r.Send? <==> NamesOneHash(inv, hashBytes)
    ensures r.Send? ==>
              && r.target.hash == (if hashBytes != [] then hashBytes else InvoiceHash(inv))
              && exists top: Msat ::
                   && (top == MsatFromSatoshis(sat) || top == ToUint64(msat) || top == InvoiceAmount(inv))
                   && MsatFromSatoshis(sat) <= top && ToUint64(msat) <= top && InvoiceAmount(inv) <= top
                   && r.target.amount == ToUint64(top + feeLimit(top))
  {
    var sendAmt := MsatFromSatoshis(sat);
    if ToUint64(msat) > sendAmt {
      sendAmt := ToUint64(msat);
    }
    var pHash := EMPTY_HASH;
    match inv {
      case NoInvoice =>
      case Undecodable => return Rejected;
      case Decoded(p) =>
        if p.amount.Some? && p.amount.value > sendAmt {
          sendAmt := p.amount.value;
        }
        if p.hash.Some? {
          pHash := p.hash.value;
        }
    }
    if |hashBytes| != 0 {
      if |hashBytes| != 32 {
        return Rejected;
      }
      var hash: Hash := hashBytes;
      if pHash != EMPTY_HASH && hash != pHash {
        return Rejected;
      }
      pHash := hash;
    }
    if pHash == EMPTY_HASH {
      return Rejected;
    }
    r := Send(Target(pHash, ToUint64(sendAmt + feeLimit(sendAmt))));
  }

  /** Check the balance, reserve the amount, remember what the request was for. */
  ghost function SendResult(s: Spec.Service, req: Uint64, id: AccountID, t: Target, now: Int64, fails: bool): Spec.Step {
    var verdict := Spec.BalanceVerdict(s.store, id, t.amount, now);
    if verdict.Some? then Spec.Refused(s, verdict.value)
    else
      var r := Spec.AssociatePayment(s, id, t.hash, t.amount, fails);
      if r.error.Some? then r
      else Spec.RegisterValues(r.svc, req, Spec.RequestValues(t.hash, t.amount))
  }

  method HandleSend(svc: InterceptorService, req: Uint64, id: AccountID, t: Target, now: Int64, fails: bool)
    returns (err: Option<Error>)
    modifies svc
    ensures Spec.Step(svc.State(), err) == SendResult(old(svc.State()), req, id, t, now, fails)
  {
    err := svc.CheckBalance(id, t.amount, now);
    if err.Some? {
      return;
    }
    err := svc.AssociatePayment(id, t.hash, t.amount, fails);
    if err.Some? {
      return;
    }
    err := svc.RegisterValues(req, Spec.RequestValues(t.hash, t.amount));
  }

  /** A response for another hash is refused; a failure releases the payment, and
      anything else starts tracking it. */
  ghost function ResponseResult(s: Spec.Service, req: Uint64, id: AccountID, hash: Hash, failed: bool, amount: Msat,
                                f: Spec.TrackFaults): Spec.Step
  {
    if req !in s.requests then Spec.Done(s)
    else if hash != s.requests[req].hash then Spec.Refused(s, HashMismatch)
    else if failed then Spec.RemovePayment(Spec.DeleteValues(s, req), hash, FAILED, f.storeFails)
    else
      var r := Spec.TrackPayment(s, id, hash, amount, f);
      if r.error.Some? then r else Spec.Done(Spec.DeleteValues(r.svc, req))
  }

  method HandleResponse(svc: InterceptorService, req: Uint64, id: AccountID, hash: Hash, failed: bool, amount: Msat,
                        f: Spec.TrackFaults)
    returns (err: Option<Error>)
    modifies svc
    ensures Spec.Step(svc.State(), err) == ResponseResult(old(svc.State()), req, id, hash, failed, amount, f)
  {
    if req !in svc.requestValues {
      return None;
    }
    if hash != svc.requestValues[req].hash {
      return Some(HashMismatch);
    }
    if failed {
      svc.DeleteValues(req);
      err := svc.RemovePayment(hash, FAILED, f.storeFails);
      return;
    }
    err := svc.TrackPayment(id, hash, amount, f);
    if err.Some? {
      return;
    }
    svc.DeleteValues(req);
  }

  /** The amounts of a route, in satoshis and in millisatoshis. */
  datatype Route = Route(totalAmt: Int64, totalAmtMsat: Int64, totalFees: Int64, totalFeesMsat: Int64)

  /** The larger of the two readings of an amount. */
  function Larger(sat: Int64, msat: Int64): (r: Msat)
    ensures r == MsatFromSatoshis(sat) || r == ToUint64(msat)
    ensures r >= MsatFromSatoshis(sat) && r >= ToUint64(msat)
  {
    if ToUint64(msat) > MsatFromSatoshis(sat) then ToUint64(msat) else MsatFromSatoshis(sat)
  }

  /** What a request along a given route asks for: its amount plus its fees. */
  method ResolveRoute(hashBytes: seq<Byte>, route: Option<Route>) returns (r: Resolved)
    ensures r.Send? <==> |hashBytes| == 32 && route.Some?
    ensures r.Send? ==>
              && r.target.hash == hashBytes
              && r.target.amount == ToUint64(Larger(route.value.totalAmt, route.value.totalAmtMsat) +
                                             Larger(route.value.totalFees, route.value.totalFeesMsat))
  {
    if |hashBytes| != 32 || route.None? {
      return Rejected;
    }
    var sendAmt: int := MsatFromSatoshis(route.value.totalAmt);
    if ToUint64(route.value.totalAmtMsat) > sendAmt {
      sendAmt := ToUint64(route.value.totalAmtMsat);
    }
    var fee: int := MsatFromSatoshis(route.value.totalFees);
    if ToUint64(route.value.totalFeesMsat) > fee {
      fee := ToUint64(route.value.totalFeesMsat);
    }
    return Send(Target(hashBytes, ToUint64(sendAmt + fee)));
  }

  /** What the response to a route says of the preimage. */
  datatype Preimage = NoPreimage | Malformed | Of(hash: Hash)

  predicate Contradicts(p: Preimage, hash: Hash) {
    p.Malformed? || (p.Of? && p.hash != hash)
  }

  /** A response along a route is a response for the hash of the request, unless its
      preimage belongs to another one. */
  ghost function RouteResponseResult(s: Spec.Service, req: Uint64, id: AccountID, p: Preimage, route: Option<Route>,
                                     f: Spec.TrackFaults): Spec.Step
  {
    if req !in s.requests then Spec.Done(s)
    else if Contradicts(p, s.requests[req].hash) then Spec.Refused(s, HashMismatch)
    else ResponseResult(s, req, id, s.requests[req].hash, false, RouteTotal(route), f)
  }

  method HandleRouteResponse(svc: InterceptorService, req: Uint64, id: AccountID, p: Preimage, route: Option<Route>,
                             f: Spec.TrackFaults)
    returns (err: Option<Error>)
    modifies svc
    ensures Spec.Step(svc.State(), err) == RouteResponseResult(old(svc.State()), req, id, p, route, f)
  {
    if req !in svc.requestValues {
      return None;
    }
    var hash := svc.requestValues[req].hash;
    if Contradicts(p, hash) {
      return Some(HashMismatch);
    }
    err := svc.TrackPayment(id, hash, RouteTotal(route), f);
    if err.Some? {
      return;
    }
    svc.DeleteValues(req);
  }

  function RouteTotal(route: Option<Route>): Msat {
    if route.None? then 0 else ToUint64(route.value.totalAmtMsat + route.value.totalFeesMsat)
  }

  /** An RPC error disassociates a payment whose tracking has not started. */
  ghost function ErrorResult(s: Spec.Service, req: Uint64, id: AccountID, fails: bool): Spec.Step {
    if req !in s.requests then Spec.Refused(s, NotMapped)
    else
      var r := Spec.PaymentErrored(s, id, s.requests[req].hash, fails);
      if r.error.Some? then r else Spec.Done(Spec.DeleteValues(r.svc, req))
  }

  method HandleError(svc: InterceptorService, req: Uint64, id: AccountID, fails: bool) returns (err: Option<Error>)
    modifies svc
    ensures Spec.Step(svc.State(), err) == ErrorResult(old(svc.State()), req, id, fails)
  {
    if req !in svc.requestValues {
      return Some(NotMapped);
    }
    err := svc.PaymentErrored(id, svc.requestValues[req].hash, fails);
    if err.Some? {
      return;
    }
    svc.DeleteValues(req);
  }

  /** An uninterrupted send handler is a run of the protocol with the same outcome. */
  lemma SendIsARun(w: World, req: Uint64, id: AccountID, t: Target, now: Int64, fails: bool)
    requires IsIdle(w) && (req in w.owners ==> w.owners[req] == id)
    requires Spec.BalanceVerdict(w.svc.store, id, t.amount, now).None?
    ensures var r := SendResult(w.svc, req, id, t, now, fails);
            var check, reserve := Message(SendRequest(req, id, t.hash, t.amount, now)), Message(SendAssociate(fails));
            var es := if Spec.AssociatePayment(w.svc, id, t.hash, t.amount, fails).error.Some? then [check, reserve]
                      else [check, reserve, Message(SendRegister)];
            IsRun(w, es) && After(w, es).svc == r.svc && IsIdle(After(w, es))
  {
    var check, reserve := Message(SendRequest(req, id, t.hash, t.amount, now)), Message(SendAssociate(fails));
    var w1 := Next(w, check);
    var w2 := Next(w1, reserve);
    var a := Spec.AssociatePayment(w.svc, id, t.hash, t.amount, fails);
    assert w2.svc == a.svc;
    if a.error.Some? {
      TwoSteps(w, check, reserve);
    } else {
      TwoSteps(w1, reserve, Message(SendRegister));
      StepThen(w, check, [reserve, Message(SendRegister)]);
    }
  }

  /** So is an uninterrupted response handler: a failure drops the values and then the
      payment, anything else tracks it and then drops the values, unless tracking is
      refused; a response for another hash is no step. */
  lemma ResponseIsARun(w: World, req: Uint64, hash: Hash, failed: bool, amount: Msat, f: Spec.TrackFaults)
    requires IsIdle(w) && req in w.svc.requests && req in w.owners
    ensures var r := ResponseResult(w.svc, req, w.owners[req], hash, failed, amount, f);
            var es := if hash != w.svc.requests[req].hash then []
                      else if failed then [Message(SendFailedResponse(req)), Message(HandlerRemoves(f.storeFails))]
                      else if Spec.TrackPayment(w.svc, w.owners[req], hash, amount, f).error.Some?
                        then [Message(SendResponse(req, amount, f))]
                      else [Message(SendResponse(req, amount, f)), Message(HandlerDeletes)];
            IsRun(w, es) && After(w, es).svc == r.svc && IsIdle(After(w, es))
  {
    if hash == w.svc.requests[req].hash {
      if failed {
        TwoSteps(w, Message(SendFailedResponse(req)), Message(HandlerRemoves(f.storeFails)));
      } else if Spec.TrackPayment(w.svc, w.owners[req], hash, amount, f).error.Some? {
        OneStep(w, Message(SendResponse(req, amount, f)));
      } else {
        TwoSteps(w, Message(SendResponse(req, amount, f)), Message(HandlerDeletes));
      }
    }
  }

  /** And so is an uninterrupted error handler: the entry is deleted, then the values. */
  lemma ErrorIsARun(w: World, req: Uint64, fails: bool)
    requires IsIdle(w) && req in w.svc.requests && req in w.owners
    ensures var r := ErrorResult(w.svc, req, w.owners[req], fails);
            var refused := Spec.PaymentErrored(w.svc, w.owners[req], w.svc.requests[req].hash, fails).error.Some?;
            var es := if refused then [Message(SendError(req, fails))]
                      else [Message(SendError(req, fails)), Message(HandlerDeletes)];
            IsRun(w, es) && After(w, es).svc == r.svc && IsIdle(After(w, es))
  {
    if Spec.PaymentErrored(w.svc, w.owners[req], w.svc.requests[req].hash, fails).error.Some? {
      OneStep(w, Message(SendError(req, fails)));
    } else {
      TwoSteps(w, Message(SendError(req, fails)), Message(HandlerDeletes));
    }
  }

  // ---- What the handlers achieve ----

  /** Exactly when a send is let through, for a covered account: the account has not
      expired and covers the amount (or the amount cannot be seen), the payment is new or
      has failed, and the request id is free. Then the amount is withheld and the values
      are registered; a refused check changes nothing. */
  lemma SendAcceptedIff(s: Spec.Service, req: Uint64, id: AccountID, t: Target, now: Int64, fails: bool)
    requires id in s.store.accounts ==> Slack(s.store.accounts[id]) >= 0
    ensures var r := SendResult(s, req, id, t, now, fails);
            && (r.error.None? <==>
                && id in s.store.accounts
                && (s.store.accounts[id].expiry.Some? ==> now <= s.store.accounts[id].expiry.value)
                && (t.amount <= Slack(s.store.accounts[id]) || t.amount >= 0x8000_0000_0000_0000)
                && !fails && (Known(s, id, t.hash) ==> StatusOf(s, id, t.hash) == FAILED)
                && req !in s.requests)
            && (r.error.None? ==>
                  && r.svc.requests == s.requests[req := Spec.RequestValues(t.hash, t.amount)]
                  && Wrote(s, r.svc, id, t.hash, PaymentEntry(UNKNOWN, t.amount), s.store.accounts[id].balance))
            && (Spec.BalanceVerdict(s.store, id, t.amount, now).Some? ==> r.svc == s)
  {
    CheckPassesIff(s.store, id, t.amount, now);
    ReservedIff(s, id, t.hash, t.amount, fails);
  }

  /** The values of a request are still waiting for a response. */
  ghost predicate Awaits(s: Spec.Service, req: Uint64, id: AccountID, hash: Hash) {
    && s.enabled && id in s.store.accounts
    && req in s.requests && s.requests[req].hash == hash
    && hash !in s.pending && !IsSettled(s, id, hash)
  }

  /** After a response that did not fail the payment is tracked for the account that asked
      for it and withholds the amount; after a failed one it is not tracked. Either way the
      request is done with. */
  lemma ResponseTracksUnlessFailed(s: Spec.Service, req: Uint64, id: AccountID, hash: Hash, failed: bool, amount: Msat,
                                   f: Spec.TrackFaults)
    requires Awaits(s, req, id, hash) && NoFault(f)
    ensures var r := ResponseResult(s, req, id, hash, failed, amount, f);
            && r.error.None? && r.svc.enabled && r.svc.requests == s.requests - {req}
            && if failed then r.svc.pending == s.pending && r.svc.store == s.store
               else
                 var a := s.store.accounts[id];
                 && TrackedFor(r.svc, id, hash)
                 && Wrote(s, r.svc, id, hash,
                          PaymentEntry(UNKNOWN, if amount == 0 && hash in a.payments then a.payments[hash].fullAmount else amount),
                          a.balance)
  {
    if !failed {
      TrackedWithholds(s, id, hash, amount, f);
      TrackedIff(s, id, hash, amount, f);
    }
  }

  /** So does a response along a route, which never reports a failure. */
  lemma RouteResponseTracks(s: Spec.Service, req: Uint64, id: AccountID, hash: Hash, p: Preimage, route: Option<Route>,
                            f: Spec.TrackFaults)
    requires Awaits(s, req, id, hash) && NoFault(f)
    ensures var r := RouteResponseResult(s, req, id, p, route, f);
            if p.Malformed? || (p.Of? && p.hash != hash) then r.error.Some? && r.svc == s
            else
              && r.error.None? && TrackedFor(r.svc, id, hash) && req !in r.svc.requests
              && (route.Some? && 0 < route.value.totalAmtMsat + route.value.totalFeesMsat < TWO_64 ==>
                    Known(r.svc, id, hash) && r.svc.store.accounts[id].payments[hash].fullAmount ==
                                              route.value.totalAmtMsat + route.value.totalFeesMsat)
  {
    ResponseTracksUnlessFailed(s, req, id, hash, false, RouteTotal(route), f);
  }

  /** A failed response for a payment that is tracked after all ends it. */
  lemma FailedResponseEnds(s: Spec.Service, req: Uint64, id: AccountID, hash: Hash, amount: Msat, f: Spec.TrackFaults)
    requires PendingSound(s) && req in s.requests && s.requests[req].hash == hash && hash in s.pending && !f.storeFails
    ensures var r := ResponseResult(s, req, id, hash, true, amount, f);
            var payer := s.pending[hash].account;
            && r.error.None? && r.svc.pending == s.pending - {hash} && r.svc.requests == s.requests - {req}
            && Wrote(s, r.svc, payer, hash, s.store.accounts[payer].payments[hash].(status := FAILED),
                     s.store.accounts[payer].balance)
  {
    SameTracking(s, Spec.DeleteValues(s, req));
    RemovePaymentResult(Spec.DeleteValues(s, req), hash, FAILED);
  }

  /** A request whose values are gone is not answered for. */
  lemma UnknownRequestIgnored(s: Spec.Service, req: Uint64, id: AccountID, hash: Hash, failed: bool, amount: Msat,
                              p: Preimage, route: Option<Route>, f: Spec.TrackFaults)
    requires req !in s.requests
    ensures ResponseResult(s, req, id, hash, failed, amount, f) == Spec.Done(s)
    ensures RouteResponseResult(s, req, id, p, route, f) == Spec.Done(s)
  {
  }
}
