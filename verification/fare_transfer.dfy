/**
  The fare transfer run by the `processRFIDTap` Cloud Function. A bus tap names a rider
  by RFID uid and may carry a fare; inside one Firestore transaction the fare is moved
  from the rider's account to the single bus operator's account and one log entry is
  appended on each side. A thrown error aborts the transaction, so a rejected tap writes
  nothing.
 */
module FareTransfer {
  import opened Wrappers

  /** Fare charged when the tap event carries no truthy `fareAmount`. */
  const DefaultFare: int := 20

  /** Operator name written into every rider-side log entry. */
  const OperatorName: string := "Dummy Bus Operator"

  /** One document of an account's `transactions` sub-collection (timestamps left out). */
  datatype Entry =
    | FarePayment(amount: int, operator: string)   // rider side, type 'fare_payment'
    | FareCredit(amount: int, userUid: string)     // operator side, type 'fare_credit'

  /** A rider or operator document; `balance` is None when the document has no such field. */
  datatype Account = Account(balance: Option<int>, log: seq<Entry>)

  /** The `users` collection keyed by RFID uid, and the `bus_operators/operator` document. */
  datatype State = State(users: map<string, Account>, operator: Account)

  /** A new `/rfid_events/{eventId}` record: the rider's uid and the optional fare. */
  datatype TapEvent = TapEvent(uid: string, fareAmount: Option<int>)

  /** The two errors the transaction body throws. */
  datatype TapError = NotFound | Insufficient

  /** What the function reports after the transaction: the console line it logs. */
  datatype Outcome = Processed | Failed(error: TapError)

  /** JavaScript truthiness of a numeric field: absent and 0 are falsy. */
  predicate Truthy(v: Option<int>) {
    v.Some? && v.value != 0
  }

  /** The fare of a tap: the event's `fareAmount` when truthy, otherwise the default. */
  function Fare(fareAmount: Option<int>): (fare: int)
    ensures fare != 0
    ensures Truthy(fareAmount) ==> fare == fareAmount.value
    ensures fare == DefaultFare || fareAmount == Some(fare)
  {
    if Truthy(fareAmount) then fareAmount.value else DefaultFare
  }

  /** A balance field as `FieldValue.increment` reads it: a missing field counts as 0. */
  function Amount(balance: Option<int>): int {
    balance.GetOr(0)
  }

  /** `FieldValue.increment(delta)` applied to a balance field. */
  function Increment(balance: Option<int>, delta: int): Option<int> {
    Some(Amount(balance) + delta)
  }

  /** The rider side of a successful tap: debit and a 'fare_payment' log entry. */
  function Debit(a: Account, fare: int): Account {
    Account(Increment(a.balance, -fare), a.log + [FarePayment(fare, OperatorName)])
  }

  /** The operator side of a successful tap: credit and a 'fare_credit' log entry. */
  function Credit(a: Account, fare: int, uid: string): Account {
    Account(Increment(a.balance, fare), a.log + [FareCredit(fare, uid)])
  }

  /**
    Exactly the writes of one accepted tap of `fare` by rider `uid`, going from `s` to `t`:
    the rider loses the fare, the operator gains it (both balance fields hold a number
    afterwards, as `FieldValue.increment` writes one), each side gains one log entry, and no
    other rider document changes.
   */
  ghost predicate Transferred(s: State, t: State, uid: string, fare: int) {
    && uid in s.users
    && t.users.Keys == s.users.Keys
    && (forall k :: k in s.users && k != uid ==> t.users[k] == s.users[k])
    && t.users[uid].balance == Some(Amount(s.users[uid].balance) - fare)
    && t.users[uid].log == s.users[uid].log + [FarePayment(fare, OperatorName)]
    && t.operator.balance == Some(Amount(s.operator.balance) + fare)
    && t.operator.log == s.operator.log + [FareCredit(fare, uid)]
  }

  /**
    The body of the Firestore transaction (corrected: a missing balance field reads as 0
    and so must also cover the fare). `Err` stands for a thrown error, after which the
    transaction commits nothing.
   */
  function Tap(s: State, ev: TapEvent): (r: Result<State, TapError>)
    ensures r == Err(NotFound) <==> ev.uid !in s.users
    ensures r == Err(Insufficient) <==>
      ev.uid in s.users && Amount(s.users[ev.uid].balance) < Fare(ev.fareAmount)
    ensures r.Ok? ==> Transferred(s, r.value, ev.uid, Fare(ev.fareAmount))
  {
    if ev.uid !in s.users then Err(NotFound)
    else
      var fare := Fare(ev.fareAmount);
      var user := s.users[ev.uid];
      if Amount(user.balance) < fare then Err(Insufficient)
      else Ok(State(s.users[ev.uid := Debit(user, fare)], Credit(s.operator, fare, ev.uid)))
  }

  /** JavaScript `balance < fare` where `balance` may be `undefined`: always false then. */
  predicate JsLess(balance: Option<int>, fare: int) {
    balance.Some? && balance.value < fare
  }

  /**
    The transaction body exactly as written: a rider document without a `balance` field
    passes the balance test, and the increment then creates the field at `-fare`.
   */
  function TapAsWritten(s: State, ev: TapEvent): (r: Result<State, TapError>)
    ensures r == Err(NotFound) <==> ev.uid !in s.users
    ensures r.Ok? <==> ev.uid in s.users && !JsLess(s.users[ev.uid].balance, Fare(ev.fareAmount))
    ensures r.Ok? ==> Transferred(s, r.value, ev.uid, Fare(ev.fareAmount))
  {
    if ev.uid !in s.users then Err(NotFound)
    else
      var fare := Fare(ev.fareAmount);
      var user := s.users[ev.uid];
      if JsLess(user.balance, fare) then Err(Insufficient)
      else Ok(State(s.users[ev.uid := Debit(user, fare)], Credit(s.operator, fare, ev.uid)))
  }

  /** Which balance test the transaction body applies: the corrected one or the code's own. */
  datatype Variant = Corrected | AsWritten

  /** The transaction body of the chosen variant. */
  function Transaction(v: Variant, s: State, ev: TapEvent): (r: Result<State, TapError>)
    ensures r == Err(NotFound) <==> ev.uid !in s.users
    ensures r.Ok? <==> (
      && ev.uid in s.users
      && if v == Corrected then Amount(s.users[ev.uid].balance) >= Fare(ev.fareAmount)
         else !JsLess(s.users[ev.uid].balance, Fare(ev.fareAmount)))
    ensures r.Ok? ==> Transferred(s, r.value, ev.uid, Fare(ev.fareAmount))
  {
    match v
    case Corrected => Tap(s, ev)
    case AsWritten => TapAsWritten(s, ev)
  }

  /**
    One invocation of `processRFIDTap`: run the transaction and catch its error, so a
    rejected tap leaves every document as it was.
   */
  function ProcessRFIDTap(v: Variant, s: State, ev: TapEvent): (r: (State, Outcome))
    ensures r.1 == Processed <==> Transaction(v, s, ev).Ok?
    ensures r.1 == Processed ==> Transferred(s, r.0, ev.uid, Fare(ev.fareAmount))
    ensures r.1.Failed? ==> r.0 == s && r.1.error == Transaction(v, s, ev).error
  {
    match Transaction(v, s, ev)
    case Ok(t) => (t, Processed)
    case Err(e) => (s, Failed(e))
  }

  // ---------------------------------------------------------------------------
  // Money totals

  /** Sum of the balances of all riders, a missing field counting as 0. */
  ghost function Sum(users: map<string, Account>): int
    decreases |users|
  {
    if users == map[] then 0
    else
      var k :| k in users;
      Amount(users[k].balance) + Sum(users - {k})
  }

  /** All money in the system: every rider's balance plus the operator's. */
  ghost function Total(s: State): int {
    Sum(s.users) + Amount(s.operator.balance)
  }

  /** Sum may be split at any rider, not only the one its definition picks. */
  lemma {:induction false} SumRemove(users: map<string, Account>, k: string)
    requires k in users
    ensures Sum(users) == Amount(users[k].balance) + Sum(users - {k})
    decreases |users|
  {
    var j :| j in users && Sum(users) == Amount(users[j].balance) + Sum(users - {j});
    if j != k {
      SumRemove(users - {j}, k);
      SumRemove(users - {k}, j);
      assert users - {j} - {k} == users - {k} - {j};
    }
  }

  /** Replacing one rider's account changes the sum by exactly that account's difference. */
  lemma SumUpdate(users: map<string, Account>, k: string, a: Account)
    requires k in users
    ensures Sum(users[k := a]) == Sum(users) - Amount(users[k].balance) + Amount(a.balance)
  {
    SumRemove(users, k);
    SumRemove(users[k := a], k);
    assert users[k := a] - {k} == users - {k};
  }

  /** Every tap, accepted or rejected, keeps the rider's plus the operator's balance. */
  lemma TapPreservesPairSum(v: Variant, s: State, ev: TapEvent)
    requires ev.uid in s.users
    ensures var t := ProcessRFIDTap(v, s, ev).0;
      Amount(t.users[ev.uid].balance) + Amount(t.operator.balance)
      == Amount(s.users[ev.uid].balance) + Amount(s.operator.balance)
  {
  }

  /** Every tap, accepted or rejected, conserves the total money in the system. */
  lemma TapConservesTotal(v: Variant, s: State, ev: TapEvent)
    ensures Total(ProcessRFIDTap(v, s, ev).0) == Total(s)
  {
    var t := ProcessRFIDTap(v, s, ev).0;
    if t != s {
      SumUpdate(s.users, ev.uid, t.users[ev.uid]);
      assert t.users == s.users[ev.uid := t.users[ev.uid]];
    }
  }

  /** A balance exactly equal to the fare is accepted and leaves the rider at zero. */
  lemma TapAcceptsExactBalance(v: Variant, s: State, ev: TapEvent)
    requires ev.uid in s.users
    requires Amount(s.users[ev.uid].balance) == Fare(ev.fareAmount)
    ensures ProcessRFIDTap(v, s, ev).1 == Processed
    ensures ProcessRFIDTap(v, s, ev).0.users[ev.uid].balance == Some(0)
  {
  }

  /**
    A rider who was not in debt before a tap is not in debt after it. With the code's own
    test this needs the rider document to have a balance field.
   */
  lemma TapKeepsRiderSolvent(v: Variant, s: State, ev: TapEvent)
    requires ev.uid in s.users
    requires Amount(s.users[ev.uid].balance) >= 0
    requires v == AsWritten ==> s.users[ev.uid].balance.Some?
    ensures Amount(ProcessRFIDTap(v, s, ev).0.users[ev.uid].balance) >= 0
  {
  }

  /** No rider is in debt. */
  ghost predicate Solvent(s: State) {
    forall k :: k in s.users ==> Amount(s.users[k].balance) >= 0
  }

  /** Every rider document has a balance field. */
  ghost predicate Funded(s: State) {
    forall k :: k in s.users ==> s.users[k].balance.Some?
  }

  /** Taps never remove a rider's balance field. */
  lemma TapPreservesFunded(v: Variant, s: State, ev: TapEvent)
    requires Funded(s)
    ensures Funded(ProcessRFIDTap(v, s, ev).0)
  {
  }

  /**
    Taps keep every rider out of debt; with the code's own test this needs every rider
    document to have a balance field.
   */
  lemma TapPreservesSolvent(v: Variant, s: State, ev: TapEvent)
    requires Solvent(s)
    requires v == AsWritten ==> Funded(s)
    ensures Solvent(ProcessRFIDTap(v, s, ev).0)
  {
  }

  /**
    As written, a rider document without a `balance` field is charged anyway and ends in
    debt: rider "u" with no balance, default fare 20, ends at -20.
   */
  lemma AsWrittenOverdrawsUnfundedRider()
    ensures var s := State(map["u" := Account(None, [])], Account(Some(0), []));
      var r := TapAsWritten(s, TapEvent("u", None));
      && Solvent(s)
      && r.Ok?
      && r.value.users["u"].balance == Some(-20)
      && !Solvent(r.value)
  {
  }

  /**
    The corrected and the as-written transaction differ exactly when the rider document has
    no balance field and the fare is positive.
   */
  lemma CorrectionOnlyAffectsMissingBalance(s: State, ev: TapEvent)
    ensures Tap(s, ev) != TapAsWritten(s, ev) <==>
      ev.uid in s.users && s.users[ev.uid].balance.None? && Fare(ev.fareAmount) > 0
  {
  }

  // ---------------------------------------------------------------------------
  // Logs

  /** The signed movement a log entry records for its own account. */
  function Signed(e: Entry): int {
    match e
    case FarePayment(a, _) => -a
    case FareCredit(a, _) => a
  }

  /** Net movement recorded by a whole log. */
  function Net(log: seq<Entry>): int {
    if log == [] then 0 else Net(log[..|log| - 1]) + Signed(log[|log| - 1])
  }

  /**
    On every tap the logs stay in step with the balances: for the rider and for the operator,
    balance minus the net movement recorded in the log is unchanged.
   */
  lemma TapLogMatchesBalance(v: Variant, s: State, ev: TapEvent)
    requires ev.uid in s.users
    ensures var t := ProcessRFIDTap(v, s, ev).0;
      && Amount(t.users[ev.uid].balance) - Net(t.users[ev.uid].log)
         == Amount(s.users[ev.uid].balance) - Net(s.users[ev.uid].log)
      && Amount(t.operator.balance) - Net(t.operator.log)
         == Amount(s.operator.balance) - Net(s.operator.log)
  {
  }
}
