/**
  A sequence of eSewa callbacks delivered one after another. Each write replaces the whole
  document, so a document always reflects the most recent valid callback for its id.
 */
module CallbackHistory {
  import opened Wrappers
  import opened PaymentCallbacks

  /** One delivered request: to `/esewa/success` or to `/esewa/failure`. */
  datatype Callback = SuccessCall(body: Body) | FailureCall(body: Body)

  /** Handle one callback, keeping only the resulting store. */
  function Deliver(store: Store, c: Callback): Store {
    match c
    case SuccessCall(b) => EsewaSuccess(store, b).0
    case FailureCall(b) => EsewaFailure(store, b).0
  }

  /** The store after delivering `calls` in order. */
  function Replay(store: Store, calls: seq<Callback>): Store
    decreases |calls|
  {
    if calls == [] then store else Deliver(Replay(store, calls[..|calls| - 1]), calls[|calls| - 1])
  }

  /** The document a callback writes to `id`, if it is valid and names `id`. */
  function WriteTo(c: Callback, id: string): Option<Doc> {
    match c
    case SuccessCall(b) =>
      if ValidPayment(b) && b.transactionId.value == id
      then Some(Doc(b.userId.value, id, b.amount, Success)) else None
    case FailureCall(b) =>
      if ValidFailure(b) && b.transactionId.value == id
      then Some(Doc(b.userId.value, id, None, Failed)) else None
  }

  /** The document written to `id` by the latest callback in `calls` that writes it. */
  function LastWrite(calls: seq<Callback>, id: string): Option<Doc>
    decreases |calls|
  {
    if calls == [] then None
    else if WriteTo(calls[|calls| - 1], id).Some? then WriteTo(calls[|calls| - 1], id)
    else LastWrite(calls[..|calls| - 1], id)
  }

  /** A single delivery writes `id` exactly as `WriteTo` says and leaves it alone otherwise. */
  lemma DeliverWrites(store: Store, c: Callback, id: string)
    ensures var after := Deliver(store, c);
      && (WriteTo(c, id).Some? ==> id in after && after[id] == WriteTo(c, id).value)
      && (WriteTo(c, id).None? ==> (id in after <==> id in store) && (id in store ==> after[id] == store[id]))
  {
  }

  /**
    Last write wins: after any sequence of callbacks, the document at `id` is the one written
    by the latest valid callback for `id`, or the original document if no callback wrote it.
   */
  lemma {:induction false} ReplayLastWriteWins(store: Store, calls: seq<Callback>, id: string)
    ensures var after := Replay(store, calls);
      && (LastWrite(calls, id).Some? ==> id in after && after[id] == LastWrite(calls, id).value)
      && (LastWrite(calls, id).None? ==> (id in after <==> id in store) && (id in store ==> after[id] == store[id]))
    decreases |calls|
  {
    if calls != [] {
      var prefix := calls[..|calls| - 1];
      ReplayLastWriteWins(store, prefix, id);
      DeliverWrites(Replay(store, prefix), calls[|calls| - 1], id);
    }
  }

  /** No sequence of callbacks ever deletes a document. */
  lemma {:induction false} ReplayNeverDeletes(store: Store, calls: seq<Callback>)
    ensures store.Keys <= Replay(store, calls).Keys
    decreases |calls|
  {
    if calls != [] {
      ReplayNeverDeletes(store, calls[..|calls| - 1]);
    }
  }
}
