/**
  The reference-counting protocol of a holder as values: the state its
  methods change, the effect of one call on it, and a run of calls made by
  clients who each own the references they were handed.
 */
module Lifecycle {
  import opened Com

  /** The part of a holder its methods update: the reference count and
      whether the count reaching zero has released the object. */
  datatype RefState = RefState(ref: int, freed: bool)

  /** A holder that may still be called: not released, and referenced. */
  predicate Live(s: RefState) {
    !s.freed && s.ref > 0
  }

  /** The state the factory hands to its caller: one reference, not released. */
  const Created := RefState(1, false)

  /** QueryInterface answers for exactly these two identifiers. */
  predicate Supported(iid: Iid) {
    iid.IUnknown? || iid.IHolder?
  }

  /** One call through the holder's interface. Stub stands for any of the
      resource methods (AllocResource … RequestDestroyResource). */
  datatype Call = QueryInterface(iid: Iid) | AddRef | Release | Stub

  /** The references a call hands out to its caller (+1) or takes back (-1). */
  function Delta(c: Call): int {
    match c
    case QueryInterface(iid) => if Supported(iid) then 1 else 0
    case AddRef => 1
    case Release => -1
    case Stub => 0
  }

  /** The effect of one call on a live holder. */
  function Step(s: RefState, c: Call): (t: RefState)
    requires Live(s)
    ensures t.ref == s.ref + Delta(c)
    ensures t.ref >= 0
    ensures t.freed <==> t.ref == 0
    ensures t.freed <==> c.Release? && s.ref == 1
  {
    match c
    case QueryInterface(iid) => if Supported(iid) then RefState(s.ref + 1, false) else s
    case AddRef => RefState(s.ref + 1, false)
    case Release => RefState(s.ref - 1, s.ref - 1 == 0)
    case Stub => s
  }

  /** How many references the clients hold after a sequence of calls that
      follows the factory: the factory's one, plus those handed out, minus
      those given back. */
  function Outstanding(calls: seq<Call>): int {
    if calls == [] then 1
    else Outstanding(calls[..|calls| - 1]) + Delta(calls[|calls| - 1])
  }

  /** Every call is made by a client that holds a reference at that moment. */
  predicate Protocol(calls: seq<Call>) {
    forall k :: 0 <= k < |calls| ==> Outstanding(calls[..k]) > 0
  }

  /** What a sequence of calls on a freshly created holder leads to: the final
      state, or the position of the first call made on a released holder. */
  datatype Outcome = Completed(final: RefState) | UseAfterFree(at: nat)

  function Run(calls: seq<Call>): (r: Outcome)
    ensures r.UseAfterFree? ==> r.at < |calls|
    ensures r.Completed? ==> r.final.ref >= 0 && (r.final.freed <==> r.final.ref == 0)
  {
    if calls == [] then Completed(Created)
    else
      match Run(calls[..|calls| - 1])
      case UseAfterFree(k) => UseAfterFree(k)
      case Completed(s) =>
        if Live(s) then Completed(Step(s, calls[|calls| - 1])) else UseAfterFree(|calls| - 1)
  }

  /** A prefix of a run that follows the protocol follows it too. */
  lemma PrefixProtocol(calls: seq<Call>, n: nat)
    requires Protocol(calls) && n <= |calls|
    ensures Protocol(calls[..n])
  {
    forall k | 0 <= k < n
      ensures Outstanding(calls[..n][..k]) > 0
    {
      assert calls[..n][..k] == calls[..k];
    }
  }

  /** When every call is made by a reference holder, the count always equals
      the references the clients hold, and the holder is released exactly
      when that number reaches zero. */
  lemma {:induction false} RunTracksReferences(calls: seq<Call>)
    requires Protocol(calls)
    ensures Run(calls) == Completed(RefState(Outstanding(calls), Outstanding(calls) == 0))
  {
    if calls != [] {
      var pre := calls[..|calls| - 1];
      PrefixProtocol(calls, |calls| - 1);
      RunTracksReferences(pre);
      assert Outstanding(calls[..|calls| - 1]) > 0;
    }
  }

  /** Conversely, a run in which no call reaches a released holder is one in
      which every call was made by a reference holder. */
  lemma {:induction false} CompletedRunFollowsProtocol(calls: seq<Call>)
    requires Run(calls).Completed?
    ensures Protocol(calls)
  {
    if calls != [] {
      var n := |calls| - 1;
      var pre := calls[..n];
      CompletedRunFollowsProtocol(pre);
      RunTracksReferences(pre);
      forall k | 0 <= k < |calls|
        ensures Outstanding(calls[..k]) > 0
      {
        if k < n {
          assert calls[..k] == pre[..k];
        } else {
          assert calls[..k] == pre;
        }
      }
    }
  }

  /** A run reaches no released holder if and only if it follows the protocol. */
  lemma RunCompletesIffProtocol(calls: seq<Call>)
    ensures Run(calls).Completed? <==> Protocol(calls)
  {
    if Protocol(calls) {
      RunTracksReferences(calls);
    }
    if Run(calls).Completed? {
      CompletedRunFollowsProtocol(calls);
    }
  }

  /** The holder is released at most once: in a run that follows the protocol,
      every state before the last call is live, so only the last call can be
      the one that frees it, and it does so exactly when it drops the last
      outstanding reference. */
  lemma FreedOnlyByLastCall(calls: seq<Call>, k: nat)
    requires Protocol(calls) && k < |calls|
    ensures Run(calls[..k]).Completed? && Live(Run(calls[..k]).final)
  {
    PrefixProtocol(calls, k);
    RunTracksReferences(calls[..k]);
  }
}
