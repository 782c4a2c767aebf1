/**
 * The plan catalogue as the two views use it (myblog/blog/views.py): the
 * checkout view prices a plan from one table and refuses unknown names; the
 * confirmation view records an amount from a second table that falls back to
 * the basic price. Both look the plan name up after lower-casing it.
 */
module Plans {
  import opened Wrappers
  import opened Records

  /** Lower-cases one character: the letters A to Z, everything else stays. */
  function LowerChar(c: char): char
  {
    if 'A' <= c <= 'Z' then (c as int + 32) as char else c
  }

  /** `s.lower()`, character by character. */
  function Lower(s: string): (r: string)
    ensures |r| == |s|
    ensures forall i :: 0 <= i < |s| ==> r[i] == LowerChar(s[i])
  {
    if s == [] then [] else [LowerChar(s[0])] + Lower(s[1..])
  }

  /**
   * `s` spells the lower-case name `name` in some mix of letter cases:
   * an independent statement of case-insensitive equality.
   */
  predicate NamesPlan(s: string, name: string)
  {
    |s| == |name| && forall i :: 0 <= i < |s| ==> LowerChar(s[i]) == name[i]
  }

  /** A plan name written any way round is the same key once lower-cased. */
  lemma LowerMatchesName(s: string, name: string)
    ensures Lower(s) == name <==> NamesPlan(s, name)
  {
    if NamesPlan(s, name) {
      assert forall i :: 0 <= i < |s| ==> Lower(s)[i] == name[i];
    }
  }

  /** Prices in paise of the checkout view (myblog/blog/views.py:130-134). */
  const CheckoutPrices: map<string, nat> := map["basic" := 9900, "standard" := 19900, "premium" := 29900]

  /** Amounts of `get_plan_amount`, in paise (myblog/blog/views.py:235-239). */
  const RecordedAmounts: map<string, nat> := map["basic" := 9900, "standard" := 19900, "premium" := 29900]

  /** What `get_plan_amount` records for a plan it does not know: 99.00 rupees. */
  const FallbackAmount: nat := 9900

  /**
   * The checkout view's price lookup: the three plan names in any letter case
   * have a price, every other string has none.
   */
  function CheckoutPrice(planType: string): (r: Option<nat>)
    ensures r == Some(9900) <==> NamesPlan(planType, "basic")
    ensures r == Some(19900) <==> NamesPlan(planType, "standard")
    ensures r == Some(29900) <==> NamesPlan(planType, "premium")
    ensures r.None? <==>
      !NamesPlan(planType, "basic") && !NamesPlan(planType, "standard") && !NamesPlan(planType, "premium")
  {
    LowerMatchesName(planType, "basic");
    LowerMatchesName(planType, "standard");
    LowerMatchesName(planType, "premium");
    var key := Lower(planType);
    if key in CheckoutPrices then Some(CheckoutPrices[key]) else None
  }

  /**
   * `get_plan_amount`: the amount a confirmation records. It never fails:
   * a name that is not one of the three plans is charged as basic.
   */
  function PlanAmount(planType: string): (r: nat)
    ensures NamesPlan(planType, "standard") ==> r == 19900
    ensures NamesPlan(planType, "premium") ==> r == 29900
    ensures !NamesPlan(planType, "standard") && !NamesPlan(planType, "premium") ==> r == 9900
  {
    LowerMatchesName(planType, "basic");
    LowerMatchesName(planType, "standard");
    LowerMatchesName(planType, "premium");
    var key := Lower(planType);
    if key in RecordedAmounts then RecordedAmounts[key] else FallbackAmount
  }

  /**
   * The two tables agree: whatever the checkout view charges for a plan is what
   * a confirmation records for it, and only unknown names fall back.
   */
  lemma PricesAgree(planType: string)
    ensures CheckoutPrice(planType).Some? ==> PlanAmount(planType) == CheckoutPrice(planType).value
    ensures CheckoutPrice(planType).None? ==> PlanAmount(planType) == FallbackAmount
  {
  }

  /** The order the checkout view asks the gateway to create. */
  datatype OrderRequest = OrderRequest(amount: nat, currency: string, user: UserId, planType: string)

  /** How the checkout view ends: back to the plan page, or on the payment page. */
  datatype CheckoutOutcome =
    | InvalidPlan
    | GatewayError
    | OrderCreated(orderId: string, amount: nat, planType: string)

  /**
   * The checkout view `payment` (myblog/blog/views.py:128-173). `createOrder` is
   * the gateway: the id of the order it creates, or None when it raises.
   */
  function Checkout(user: UserId, planType: string, createOrder: OrderRequest -> Option<string>): (r: CheckoutOutcome)
    ensures r.InvalidPlan? <==> CheckoutPrice(planType).None?
    ensures r.GatewayError? <==>
      CheckoutPrice(planType).Some? && createOrder(OrderRequest(CheckoutPrice(planType).value, "INR", user, planType)).None?
    ensures r.OrderCreated? ==>
      && r.amount == CheckoutPrice(planType).value
      && r.planType == planType
      && createOrder(OrderRequest(r.amount, "INR", user, planType)) == Some(r.orderId)
  {
    var amount := CheckoutPrice(planType);
    if amount.None? || amount.value == 0 then InvalidPlan
    else
      match createOrder(OrderRequest(amount.value, "INR", user, planType))
      case None => GatewayError
      case Some(orderId) => OrderCreated(orderId, amount.value, planType)
  }

  /** An unknown plan never reaches the gateway: the outcome is the same whatever it would answer. */
  lemma InvalidPlanCreatesNoOrder(user: UserId, planType: string, g1: OrderRequest -> Option<string>, g2: OrderRequest -> Option<string>)
    requires CheckoutPrice(planType).None?
    ensures Checkout(user, planType, g1) == Checkout(user, planType, g2) == InvalidPlan
  {
  }

  /** Mixed-case names price as their plan; a near miss has no price. */
  lemma CaseExamples()
    ensures CheckoutPrice("Premium") == Some(29900)
    ensures CheckoutPrice("BASIC") == Some(9900)
    ensures CheckoutPrice("gold") == None
    ensures PlanAmount("StAnDaRd") == 19900
    ensures PlanAmount("gold") == FallbackAmount
  {
    assert NamesPlan("Premium", "premium");
    assert NamesPlan("BASIC", "basic");
    assert NamesPlan("StAnDaRd", "standard");
    assert !NamesPlan("gold", "basic") && !NamesPlan("gold", "standard") && !NamesPlan("gold", "premium");
  }
}
