/**
 * The confirmation view `payment_success` (myblog/blog/views.py:177-232) as a
 * transition on the Payment and Subscription tables, and the dashboard's pick of
 * a user's active subscription (myblog/blog/views.py:44).
 */
module Ledger {
  import opened Wrappers
  import opened Records
  import opened Plans

  /** The four query parameters the gateway's redirect carries; any may be absent. */
  datatype Callback = Callback(paymentId: Option<string>, orderId: Option<string>, signature: Option<string>, planType: Option<string>)

  /** Signature verification over (order id, payment id, signature), provided by the gateway library. */
  type Verifier = (string, string, string) -> bool

  /** The two tables the confirmation writes; rows are kept in primary-key order. */
  datatype Tables = Tables(payments: seq<Payment>, subscriptions: seq<SubscriptionRow>)

  /** How a confirmation ends. */
  datatype Confirmation =
    | IncompleteCallback
    | SignatureInvalid
    | InternalError
    | Success(payment: Payment, subscription: SubscriptionRow)

  datatype Step = Step(outcome: Confirmation, tables: Tables)

  /** A query parameter counts only when it is present and not empty. */
  predicate Present(field: Option<string>)
  {
    field.Some? && field.value != ""
  }

  predicate Complete(cb: Callback)
  {
    Present(cb.paymentId) && Present(cb.orderId) && Present(cb.signature) && Present(cb.planType)
  }

  predicate Verified(cb: Callback, verify: Verifier)
    requires Complete(cb)
  {
    verify(cb.orderId.value, cb.paymentId.value, cb.signature.value)
  }

  /** The payment row a completed confirmation appends. */
  function Receipt(user: UserId, cb: Callback, now: Time): Payment
    requires Complete(cb)
  {
    Payment(user, cb.paymentId.value, PlanAmount(cb.planType.value), now, Completed)
  }

  /** What `get(user=...)` finds in the Subscription table. */
  datatype RowLookup = NoRow | OneRow(index: nat) | ManyRows

  /** Looks up the rows of `user`, as `get_or_create` does before deciding to create. */
  function LookupUser(rows: seq<SubscriptionRow>, user: UserId): (r: RowLookup)
    ensures r.NoRow? <==> forall i :: 0 <= i < |rows| ==> rows[i].user != user
    ensures r.OneRow? ==>
      && r.index < |rows| && rows[r.index].user == user
      && forall j :: 0 <= j < |rows| && j != r.index ==> rows[j].user != user
    ensures r.ManyRows? <==>
      exists i, j :: 0 <= i < j < |rows| && rows[i].user == user && rows[j].user == user
  {
    if rows == [] then NoRow
    else
      var n := |rows| - 1;
      var front := LookupUser(rows[..n], user);
      assert forall i :: 0 <= i < n ==> rows[..n][i] == rows[i];
      if rows[n].user != user then front
      else
        match front
        case NoRow => OneRow(n)
        case OneRow(k) => assert rows[k].user == user; ManyRows
        case ManyRows => ManyRows
  }

  /** The first active row of `user`, in key order: what the dashboard shows. */
  function ActiveSubscription(rows: seq<SubscriptionRow>, user: UserId): (r: Option<nat>)
    ensures r.Some? ==>
      && r.value < |rows| && rows[r.value].user == user && rows[r.value].isActive
      && forall j :: 0 <= j < r.value ==> !(rows[j].user == user && rows[j].isActive)
    ensures r.None? <==> forall j :: 0 <= j < |rows| ==> !(rows[j].user == user && rows[j].isActive)
  {
    if rows == [] then None
    else if rows[0].user == user && rows[0].isActive then Some(0)
    else
      match ActiveSubscription(rows[1..], user)
      case None => None
      case Some(k) => Some(k + 1)
  }

  /**
   * One confirmation by `user` at time `now`. Missing parameters stop it before
   * anything else; verification comes next, before any write; then the payment
   * is appended; then the user's subscription row is created or overwritten.
   * When the table holds several rows for the user the upsert fails, after the
   * payment has been written.
   */
  function Confirm(t: Tables, user: UserId, cb: Callback, verify: Verifier, now: Time): (r: Step)
    ensures r.outcome.IncompleteCallback? <==> !Complete(cb)
    ensures r.outcome.SignatureInvalid? <==> Complete(cb) && !Verified(cb, verify)
    ensures r.outcome.IncompleteCallback? || r.outcome.SignatureInvalid? ==> r.tables == t
    ensures Complete(cb) && Verified(cb, verify) ==>
      r.tables.payments == t.payments + [Receipt(user, cb, now)]
    ensures r.outcome.InternalError? <==>
      Complete(cb) && Verified(cb, verify) && LookupUser(t.subscriptions, user).ManyRows?
    ensures r.outcome.InternalError? ==> r.tables.subscriptions == t.subscriptions
    ensures r.outcome.Success? ==>
      && r.outcome.payment == Receipt(user, cb, now)
      && r.outcome.subscription.user == user
      && r.outcome.subscription.planType == cb.planType.value
      && r.outcome.subscription.endDate == now + RenewalWindow
      && r.outcome.subscription.isActive
  {
    if !Complete(cb) then Step(IncompleteCallback, t)
    else if !Verified(cb, verify) then Step(SignatureInvalid, t)
    else
      var payments := t.payments + [Receipt(user, cb, now)];
      var plan := cb.planType.value;
      var endDate := now + RenewalWindow;
      match LookupUser(t.subscriptions, user)
      case ManyRows => Step(InternalError, Tables(payments, t.subscriptions))
      case NoRow =>
        var row := SubscriptionRow(user, plan, now, endDate, true);
        Step(Success(Receipt(user, cb, now), row), Tables(payments, t.subscriptions + [row]))
      case OneRow(i) =>
        var row := t.subscriptions[i].(planType := plan, endDate := endDate, isActive := true);
        Step(Success(Receipt(user, cb, now), row), Tables(payments, t.subscriptions[i := row]))
  }

  /** At most one Subscription row per user: the shape the upsert assumes. */
  predicate OneRowPerUser(rows: seq<SubscriptionRow>)
  {
    forall i, j :: 0 <= i < j < |rows| ==> rows[i].user != rows[j].user
  }

  /**
   * What a successful confirmation leaves in the Subscription table: exactly one
   * row of the user, holding the confirmed plan and the fresh window, shown by
   * the dashboard; a row that existed keeps its start date and position, and a
   * new row starts now; no row is removed and other users' rows are untouched.
   */
  lemma SuccessUpsert(t: Tables, user: UserId, cb: Callback, verify: Verifier, now: Time)
    requires Confirm(t, user, cb, verify, now).outcome.Success?
    ensures var r := Confirm(t, user, cb, verify, now);
      var rows := r.tables.subscriptions;
      && LookupUser(rows, user).OneRow?
      && rows[LookupUser(rows, user).index] == r.outcome.subscription
      && ActiveSubscription(rows, user) == Some(LookupUser(rows, user).index)
      && |t.subscriptions| <= |rows| <= |t.subscriptions| + 1
      && (forall i :: 0 <= i < |t.subscriptions| && t.subscriptions[i].user != user ==> rows[i] == t.subscriptions[i])
      && (forall i :: |t.subscriptions| <= i < |rows| ==> rows[i].user == user)
      && (LookupUser(t.subscriptions, user).NoRow? ==> r.outcome.subscription.startDate == now)
      && (LookupUser(t.subscriptions, user).OneRow? ==>
            && LookupUser(rows, user).index == LookupUser(t.subscriptions, user).index
            && r.outcome.subscription.startDate == t.subscriptions[LookupUser(t.subscriptions, user).index].startDate)
  {
    var r := Confirm(t, user, cb, verify, now);
    var rows := r.tables.subscriptions;
    var k := if LookupUser(t.subscriptions, user).OneRow? then LookupUser(t.subscriptions, user).index else |t.subscriptions|;
    assert k < |rows| && rows[k] == r.outcome.subscription;
    assert forall j :: 0 <= j < |rows| && j != k ==> rows[j].user != user;
    assert LookupUser(rows, user) == OneRow(k);
  }

  /** Starting from at most one row per user, a confirmation keeps it so and never hits the upsert error. */
  lemma ConfirmKeepsOneRowPerUser(t: Tables, user: UserId, cb: Callback, verify: Verifier, now: Time)
    requires OneRowPerUser(t.subscriptions)
    ensures OneRowPerUser(Confirm(t, user, cb, verify, now).tables.subscriptions)
    ensures !Confirm(t, user, cb, verify, now).outcome.InternalError?
  {
    var r := Confirm(t, user, cb, verify, now);
    if r.outcome.Success? {
      SuccessUpsert(t, user, cb, verify, now);
      var rows := r.tables.subscriptions;
      forall i, j | 0 <= i < j < |rows| ensures rows[i].user != rows[j].user {
        if rows[i].user == user || rows[j].user == user {
          assert LookupUser(rows, user).OneRow?;
        } else {
          assert j < |t.subscriptions|;
          assert rows[i] == t.subscriptions[i] && rows[j] == t.subscriptions[j];
        }
      }
    }
  }

  /**
   * Two successful confirmations by the same user, one after the other: both
   * payments are recorded in order, even for the same payment id, and the
   * user's one subscription row carries only the later plan and window.
   */
  lemma LaterConfirmationWins(t: Tables, user: UserId, cb1: Callback, cb2: Callback, verify: Verifier, now1: Time, now2: Time)
    requires Confirm(t, user, cb1, verify, now1).outcome.Success?
    requires Confirm(Confirm(t, user, cb1, verify, now1).tables, user, cb2, verify, now2).outcome.Success?
    ensures var r2 := Confirm(Confirm(t, user, cb1, verify, now1).tables, user, cb2, verify, now2);
      var rows := r2.tables.subscriptions;
      && r2.tables.payments == t.payments + [Receipt(user, cb1, now1), Receipt(user, cb2, now2)]
      && LookupUser(rows, user).OneRow?
      && rows[LookupUser(rows, user).index].planType == cb2.planType.value
      && rows[LookupUser(rows, user).index].endDate == now2 + RenewalWindow
  {
    var r1 := Confirm(t, user, cb1, verify, now1);
    SuccessUpsert(t, user, cb1, verify, now1);
    SuccessUpsert(r1.tables, user, cb2, verify, now2);
  }

  /**
   * The signature covers the order and the payment, not the plan: the same
   * verified payment confirms whatever non-empty plan name the redirect claims,
   * and the recorded amount and subscribed plan follow the claim.
   */
  lemma SignatureDoesNotCoverPlan(t: Tables, user: UserId, cb: Callback, claimed: string, verify: Verifier, now: Time)
    requires Present(cb.planType) && claimed != ""
    ensures var forged := cb.(planType := Some(claimed));
      var r := Confirm(t, user, forged, verify, now);
      var honest := Confirm(t, user, cb, verify, now);
      && (r.outcome.Success? <==> honest.outcome.Success?)
      && (r.outcome.SignatureInvalid? <==> honest.outcome.SignatureInvalid?)
      && (r.outcome.InternalError? <==> honest.outcome.InternalError?)
      && (r.outcome.Success? ==>
            r.outcome.payment.amount == PlanAmount(claimed) && r.outcome.subscription.planType == claimed)
  {
  }

  /** The first purchase of a user: one completed payment at the plan's price and an active row for 30 days. */
  lemma FirstPremiumPurchase(alice: UserId, verify: Verifier, now: Time)
    requires verify("order_1", "pay_1", "sig_1")
    ensures var cb := Callback(Some("pay_1"), Some("order_1"), Some("sig_1"), Some("premium"));
      var r := Confirm(Tables([], []), alice, cb, verify, now);
      && r.tables.payments == [Payment(alice, "pay_1", 29900, now, Completed)]
      && r.tables.subscriptions == [SubscriptionRow(alice, "premium", now, now + RenewalWindow, true)]
  {
    assert NamesPlan("premium", "premium");
  }
}
