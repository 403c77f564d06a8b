/**
  A run of `processRFIDTap` invocations: the function fires once per new
  `/rfid_events/{eventId}` record, each invocation one atomic step on the documents.
 */
module TapHistory {
  import opened Wrappers
  import opened FareTransfer

  /** The documents after processing `events` in order, starting from `s`. */
  function RunTaps(v: Variant, s: State, events: seq<TapEvent>): State
    decreases |events|
  {
    if events == [] then s else RunTaps(v, ProcessRFIDTap(v, s, events[0]).0, events[1..])
  }

  /** Number of taps in a run that are accepted. */
  function Accepted(v: Variant, s: State, events: seq<TapEvent>): nat
    decreases |events|
  {
    if events == [] then 0
    else
      var r := ProcessRFIDTap(v, s, events[0]);
      (if r.1 == Processed then 1 else 0) + Accepted(v, r.0, events[1..])
  }

  /** Any run of taps conserves the total money in the system. */
  lemma {:induction false} RunConservesTotal(v: Variant, s: State, events: seq<TapEvent>)
    ensures Total(RunTaps(v, s, events)) == Total(s)
    decreases |events|
  {
    if events != [] {
      TapConservesTotal(v, s, events[0]);
      RunConservesTotal(v, ProcessRFIDTap(v, s, events[0]).0, events[1..]);
    }
  }

  /**
    Any run of taps keeps every rider out of debt; with the code's own test this needs every
    rider document to start with a balance field.
   */
  lemma {:induction false} RunPreservesSolvent(v: Variant, s: State, events: seq<TapEvent>)
    requires Solvent(s)
    requires v == AsWritten ==> Funded(s)
    ensures Solvent(RunTaps(v, s, events))
    decreases |events|
  {
    if events != [] {
      TapPreservesSolvent(v, s, events[0]);
      if v == AsWritten {
        TapPreservesFunded(v, s, events[0]);
      }
      RunPreservesSolvent(v, ProcessRFIDTap(v, s, events[0]).0, events[1..]);
    }
  }

  /** A run never creates or deletes rider documents. */
  lemma {:induction false} RunKeepsRiders(v: Variant, s: State, events: seq<TapEvent>)
    ensures RunTaps(v, s, events).users.Keys == s.users.Keys
    decreases |events|
  {
    if events != [] {
      RunKeepsRiders(v, ProcessRFIDTap(v, s, events[0]).0, events[1..]);
    }
  }

  /** The operator's log gains exactly one 'fare_credit' entry per accepted tap. */
  lemma {:induction false} RunOperatorLogCountsAccepted(v: Variant, s: State, events: seq<TapEvent>)
    ensures |RunTaps(v, s, events).operator.log| == |s.operator.log| + Accepted(v, s, events)
    decreases |events|
  {
    if events != [] {
      RunOperatorLogCountsAccepted(v, ProcessRFIDTap(v, s, events[0]).0, events[1..]);
    }
  }
}
