/**
 * The blog's database as the views change it in place: the Post table, the
 * append-only Payment table and the Subscription table. Each view that writes
 * is a method, proved against the transition of the Posts or Ledger module
 * that specifies it; each also says which tables it leaves alone.
 */
module Blog {
  import opened Wrappers
  import opened Records
  import opened Plans
  import opened Posts
  import opened Ledger

  /** What the dashboard shows a user: their posts, and one active subscription if any. */
  datatype DashboardView = DashboardView(posts: set<PostId>, subscription: Option<SubscriptionRow>)

  class Database {
    var posts: map<PostId, Post>
    var nextPostId: PostId
    var payments: seq<Payment>
    var subscriptions: seq<SubscriptionRow>

    /** Every post key was handed out before: the next key is fresh. */
    ghost predicate Valid()
      reads this
    {
      forall k :: k in posts ==> k < nextPostId
    }

    constructor ()
      ensures Valid()
      ensures posts == map[] && payments == [] && subscriptions == []
    {
      posts := map[];
      nextPostId := 0;
      payments := [];
      subscriptions := [];
    }

    /** `dashboard` (myblog/blog/views.py:41-48). */
    function Dashboard(user: UserId): (v: DashboardView)
      reads this
      ensures forall k :: k in v.posts <==> Owns(posts, user, k)
      ensures v.subscription.Some? ==>
        && v.subscription.value.user == user && v.subscription.value.isActive
        && exists i :: 0 <= i < |subscriptions| && subscriptions[i] == v.subscription.value
             && forall j :: 0 <= j < i ==> !(subscriptions[j].user == user && subscriptions[j].isActive)
      ensures v.subscription.None? <==>
        forall j :: 0 <= j < |subscriptions| ==> !(subscriptions[j].user == user && subscriptions[j].isActive)
    {
      var mine := set k | k in posts && posts[k].author == user;
      match ActiveSubscription(subscriptions, user)
      case None => DashboardView(mine, None)
      case Some(i) => DashboardView(mine, Some(subscriptions[i]))
    }

    /** `create_post`: the new post takes the next key and the requester as author. */
    method CreatePost(requester: UserId, request: Submission, now: Time) returns (outcome: PostOutcome)
      requires Valid()
      modifies this
      ensures Valid()
      ensures PostStep(outcome, posts) == Create(old(posts), old(nextPostId), requester, request, now)
      ensures payments == old(payments) && subscriptions == old(subscriptions)
    {
      if request.Submit? && request.form.Some? {
        var form := request.form.value;
        var id := nextPostId;
        posts := posts[id := Post(form.title, form.content, requester, now, form.image)];
        nextPostId := nextPostId + 1;
        outcome := Saved(id);
      } else {
        outcome := FormShown;
      }
    }

    /** `edit_post`. */
    method EditPost(requester: UserId, pk: PostId, request: Submission) returns (outcome: PostOutcome)
      requires Valid()
      modifies this
      ensures Valid()
      ensures PostStep(outcome, posts) == Edit(old(posts), requester, pk, request)
      ensures nextPostId == old(nextPostId)
      ensures payments == old(payments) && subscriptions == old(subscriptions)
    {
      if !(pk in posts && posts[pk].author == requester) {
        return NotFound;
      }
      if request.Submit? && request.form.Some? {
        var form := request.form.value;
        var post := posts[pk];
        post := post.(title := form.title, content := form.content, image := form.image);
        posts := posts[pk := post];
        outcome := Saved(pk);
      } else {
        outcome := FormShown;
      }
    }

    /** `delete_post_confirm`: `confirmed` is a POST; a GET only shows the confirmation page. */
    method DeletePostConfirm(requester: UserId, pk: PostId, confirmed: bool) returns (outcome: PostOutcome)
      requires Valid()
      modifies this
      ensures Valid()
      ensures PostStep(outcome, posts) == Delete(old(posts), requester, pk, confirmed)
      ensures nextPostId == old(nextPostId)
      ensures payments == old(payments) && subscriptions == old(subscriptions)
    {
      if !(pk in posts && posts[pk].author == requester) {
        return NotFound;
      }
      if confirmed {
        posts := posts - {pk};
        outcome := Deleted;
      } else {
        outcome := ConfirmShown;
      }
    }

    /**
     * `payment_success`: the payment row is written first, the subscription
     * row second, so an upsert that fails leaves the payment behind. After a
     * success the dashboard shows the subscription just written.
     */
    method PaymentSuccess(user: UserId, cb: Callback, verify: Verifier, now: Time) returns (outcome: Confirmation)
      requires Valid()
      modifies this
      ensures Valid()
      ensures Step(outcome, Tables(payments, subscriptions))
           == Confirm(Tables(old(payments), old(subscriptions)), user, cb, verify, now)
      ensures outcome.Success? ==> Dashboard(user).subscription == Some(outcome.subscription)
      ensures posts == old(posts) && nextPostId == old(nextPostId)
    {
      if !(Present(cb.paymentId) && Present(cb.orderId) && Present(cb.signature) && Present(cb.planType)) {
        return IncompleteCallback;
      }
      var paymentId, orderId, signature, planType := cb.paymentId.value, cb.orderId.value, cb.signature.value, cb.planType.value;
      if !verify(orderId, paymentId, signature) {
        return SignatureInvalid;
      }
      var payment := Payment(user, paymentId, PlanAmount(planType), now, Completed);
      payments := payments + [payment];
      var endDate := now + RenewalWindow;
      ghost var before := Tables(old(payments), subscriptions);
      match LookupUser(subscriptions, user) {
        case ManyRows =>
          outcome := InternalError;
        case NoRow =>
          var row := SubscriptionRow(user, planType, now, endDate, true);
          subscriptions := subscriptions + [row];
          outcome := Success(payment, row);
        case OneRow(i) =>
          var row := subscriptions[i];
          row := row.(planType := planType);
          row := row.(endDate := endDate);
          row := row.(isActive := true);
          subscriptions := subscriptions[i := row];
          outcome := Success(payment, row);
      }
      assert Confirm(before, user, cb, verify, now) == Step(outcome, Tables(payments, subscriptions));
      if outcome.Success? {
        SuccessUpsert(before, user, cb, verify, now);
      }
    }
  }
}
