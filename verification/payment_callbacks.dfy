/**
  The two eSewa payment callbacks. Each parses a JSON body, tests its fields with Python
  truthiness, and on success overwrites the whole document `transactions/<transaction_id>`
  before answering with a JSON payload; an invalid body writes nothing and is answered
  with an error payload.
 */
module PaymentCallbacks {
  import opened Wrappers

  const PaymentSuccessful: string := "Payment successful"
  const PaymentFailed: string := "Payment failed"
  const InvalidPaymentData: string := "Invalid payment data"
  const InvalidFailureData: string := "Invalid failure data"

  /** The `status` field of a transaction document: "success" or "failed". */
  datatype Status = Success | Failed

  /**
    A document of the `transactions` collection. `amount` is None when the document has no
    `amount` key, which is how failure records are written.
   */
  datatype Doc = Doc(userId: string, transactionId: string, amount: Option<int>, status: Status)

  /** The `transactions` collection, keyed by document id. */
  type Store = map<string, Doc>

  /** The fields the handlers read from the parsed body; None is a missing key or `null`. */
  datatype Body = Body(transactionId: Option<string>, userId: Option<string>, amount: Option<int>)

  /** The JSON payload returned: `{message, transaction_id}` or `{error}`. */
  datatype Response = Confirmed(message: string, transactionId: string) | Rejected(error: string)

  /** Python truthiness of a string value: missing, `None` and "" are falsy. */
  predicate TruthyText(v: Option<string>) {
    v.Some? && v.value != ""
  }

  /** Python truthiness of a number value: missing, `None` and 0 are falsy. */
  predicate TruthyNumber(v: Option<int>) {
    v.Some? && v.value != 0
  }

  /** The test `transaction_id and user_id and amount` of the success endpoint. */
  predicate ValidPayment(b: Body) {
    TruthyText(b.transactionId) && TruthyText(b.userId) && TruthyNumber(b.amount)
  }

  /** The test `transaction_id and user_id` of the failure endpoint. */
  predicate ValidFailure(b: Body) {
    TruthyText(b.transactionId) && TruthyText(b.userId)
  }

  /** `POST /esewa/success`: the store after the request, and the response payload. */
  function EsewaSuccess(store: Store, body: Body): (r: (Store, Response))
    ensures r.1.Confirmed? <==> ValidPayment(body)
    ensures ValidPayment(body) ==>
      var id := body.transactionId.value;
      && r.0.Keys == store.Keys + {id}
      && r.0[id] == Doc(body.userId.value, id, body.amount, Success)
      && r.1 == Confirmed(PaymentSuccessful, id)
    ensures !ValidPayment(body) ==> r.0 == store && r.1 == Rejected(InvalidPaymentData)
    ensures body.transactionId.Some? ==> SameExcept(store, r.0, body.transactionId.value)
  {
    if ValidPayment(body) then
      var id := body.transactionId.value;
      (store[id := Doc(body.userId.value, id, body.amount, Success)], Confirmed(PaymentSuccessful, id))
    else
      (store, Rejected(InvalidPaymentData))
  }

  /** `POST /esewa/failure`: the store after the request, and the response payload. */
  function EsewaFailure(store: Store, body: Body): (r: (Store, Response))
    ensures r.1.Confirmed? <==> ValidFailure(body)
    ensures ValidFailure(body) ==>
      var id := body.transactionId.value;
      && r.0.Keys == store.Keys + {id}
      && r.0[id] == Doc(body.userId.value, id, None, Failed)
      && r.1 == Confirmed(PaymentFailed, id)
    ensures !ValidFailure(body) ==> r.0 == store && r.1 == Rejected(InvalidFailureData)
    ensures body.transactionId.Some? ==> SameExcept(store, r.0, body.transactionId.value)
  {
    if ValidFailure(body) then
      var id := body.transactionId.value;
      (store[id := Doc(body.userId.value, id, None, Failed)], Confirmed(PaymentFailed, id))
    else
      (store, Rejected(InvalidFailureData))
  }

  /** Documents equal on every key except possibly `id`. */
  ghost predicate SameExcept(a: Store, b: Store, id: string) {
    forall k :: k != id ==> (k in a <==> k in b) && (k in a ==> a[k] == b[k])
  }

  /** Delivering the same success body twice leaves the same store as delivering it once. */
  lemma SuccessIdempotent(store: Store, body: Body)
    ensures var once := EsewaSuccess(store, body);
      EsewaSuccess(once.0, body) == once
  {
    if ValidPayment(body) {
      var once := EsewaSuccess(store, body).0;
      var id := body.transactionId.value;
      assert once[id := once[id]] == once;
    }
  }

  /** Delivering the same failure body twice leaves the same store as delivering it once. */
  lemma FailureIdempotent(store: Store, body: Body)
    ensures var once := EsewaFailure(store, body);
      EsewaFailure(once.0, body) == once
  {
    if ValidFailure(body) {
      var once := EsewaFailure(store, body).0;
      var id := body.transactionId.value;
      assert once[id := once[id]] == once;
    }
  }

  /**
    Writes replace the whole document: a valid failure after a valid success for the same
    id leaves status "failed" and no amount.
   */
  lemma FailureOverwritesSuccess(store: Store, paid: Body, failed: Body)
    requires ValidPayment(paid) && ValidFailure(failed)
    requires paid.transactionId == failed.transactionId
    ensures var id := paid.transactionId.value;
      var after := EsewaFailure(EsewaSuccess(store, paid).0, failed).0;
      && id in after
      && after[id].status == Failed
      && after[id].amount == None
      && after[id].userId == failed.userId.value
  {
  }

  /** Likewise a valid success after a valid failure restores status "success" with its amount. */
  lemma SuccessOverwritesFailure(store: Store, failed: Body, paid: Body)
    requires ValidFailure(failed) && ValidPayment(paid)
    requires paid.transactionId == failed.transactionId
    ensures var id := paid.transactionId.value;
      var after := EsewaSuccess(EsewaFailure(store, failed).0, paid).0;
      && id in after
      && after[id].status == Success
      && after[id].amount == paid.amount
  {
  }

  /**
    The shape every document written by the callbacks has: it is keyed by its own truthy
    transaction id, names a truthy user, and carries a truthy amount exactly when its
    status is "success".
   */
  ghost predicate WellFormed(store: Store) {
    forall k :: k in store ==>
      && store[k].transactionId == k
      && k != ""
      && store[k].userId != ""
      && (store[k].status == Success <==> TruthyNumber(store[k].amount))
      && (store[k].status == Failed <==> store[k].amount == None)
  }

  /** Both callbacks keep every document well formed. */
  lemma CallbacksPreserveWellFormed(store: Store, body: Body)
    requires WellFormed(store)
    ensures WellFormed(EsewaSuccess(store, body).0)
    ensures WellFormed(EsewaFailure(store, body).0)
  {
  }

  /** The worked success example: T1 paid 100 by U1. */
  lemma SuccessExample()
    ensures var r := EsewaSuccess(map[], Body(Some("T1"), Some("U1"), Some(100)));
      && r.0 == map["T1" := Doc("U1", "T1", Some(100), Success)]
      && r.1 == Confirmed("Payment successful", "T1")
  {
  }

  /** The worked failure example: a body with no transaction id is refused and writes nothing. */
  lemma FailureExampleMissingId(store: Store)
    ensures EsewaFailure(store, Body(None, Some("U1"), None)) == (store, Rejected("Invalid failure data"))
  {
  }

  /** An amount of 0 is falsy, so the success endpoint refuses it although the key is present. */
  lemma ZeroAmountRefused(store: Store, id: string, user: string)
    ensures EsewaSuccess(store, Body(Some(id), Some(user), Some(0))) == (store, Rejected("Invalid payment data"))
  {
  }
}
