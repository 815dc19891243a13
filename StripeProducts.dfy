// The storyforge subscription catalogue: the four Stripe products, the
// plan-name lookup table and the plan list shown to buyers. A monthly
// allowance of 0 means unlimited.
module StripeProducts {
  import opened Common

  datatype Product = Product(
    name: string,
    description: string,
    stripeProductId: Option<string>,
    stripePriceId: Option<string>,
    amount: Option<nat>,
    currency: Option<string>,
    interval: Option<string>,
    booksPerMonth: nat,
    imagesPerMonth: nat,
    features: seq<string>)

  /** An entry of `getAllPlans`: the plan's key and the product's fields. */
  datatype PlanListing = PlanListing(id: string, product: Product)

  const FREE := Product("Free Plan", "Create up to 2 books per month with basic features",
    None, None, None, None, None, 2, 0, FREE_FEATURES)

  const STARTER := Product("Starter Plan", "Perfect for parents and educators",
    Some("prod_starter_plan"), Some("price_starter_monthly"), Some(999), Some("usd"), Some("month"), 10, 0, STARTER_FEATURES)

  const PRO := Product("Pro Plan", "For serious creators and small publishers",
    Some("prod_pro_plan"), Some("price_pro_monthly"), Some(2999), Some("usd"), Some("month"), 0, 0, PRO_FEATURES)

  const ENTERPRISE := Product("Enterprise Plan", "For publishers and organizations",
    Some("prod_enterprise_plan"), Some("price_enterprise_monthly"), Some(9999), Some("usd"), Some("month"), 0, 0, ENTERPRISE_FEATURES)

  const FREE_FEATURES: seq<string> := [
    "Create up to 2 books per month",
    "Basic story generation",
    "Placeholder illustrations",
    "PDF export"]

  const STARTER_FEATURES: seq<string> := [
    "Create up to 10 books per month",
    "Advanced story generation with AI refinement",
    "Real AI-generated illustrations",
    "High-resolution PDF export with KDP formatting",
    "Audio narration for all books",
    "Batch image generation",
    "Marketing content generator"]

  const PRO_FEATURES: seq<string> := [
    "Unlimited book creation",
    "Unlimited AI-generated illustrations",
    "Advanced story refinement and plot improvements",
    "Character dialogue generation",
    "Age-appropriate content variations",
    "Professional PDF export with KDP formatting",
    "Full audio narration with multiple voices",
    "Bulk PDF export for series",
    "Advanced marketing content generator",
    "Social media scheduling",
    "Priority support"]

  const ENTERPRISE_FEATURES: seq<string> := [
    "Everything in Pro Plan",
    "Unlimited team members",
    "Advanced analytics and reporting",
    "Custom branding options",
    "API access for integrations",
    "Dedicated account manager",
    "Custom integration support",
    "White-label options"]

  /** `PLAN_CONFIG`: the lower-case plan names, each bound to its product. */
  function PlanConfig(): (r: map<string, Product>)
    ensures r.Keys == {"free", "starter", "pro", "enterprise"}
    ensures r["free"] == FREE && r["starter"] == STARTER && r["pro"] == PRO && r["enterprise"] == ENTERPRISE
  {
    map["free" := FREE, "starter" := STARTER, "pro" := PRO, "enterprise" := ENTERPRISE]
  }

  /** `getPlanConfig(plan)`, which is `PLAN_CONFIG[plan]`: undefined (None)
      for a name that is not a plan. */
  function GetPlanConfig(plan: string): (r: Option<Product>)
    ensures r.Some? <==> plan in PlanConfig()
    ensures r.Some? ==> r.value == PlanConfig()[plan]
  {
    if plan in PlanConfig() then Some(PlanConfig()[plan]) else None
  }

  /** `getAllPlans`: the four plans, cheapest first. */
  function GetAllPlans(): (r: seq<PlanListing>)
    ensures |r| == 4
    ensures r[0].id == "free" && r[1].id == "starter" && r[2].id == "pro" && r[3].id == "enterprise"
    ensures forall i :: 0 <= i < |r| ==> r[i].id in PlanConfig() && r[i].product == PlanConfig()[r[i].id]
  {
    [PlanListing("free", FREE), PlanListing("starter", STARTER), PlanListing("pro", PRO), PlanListing("enterprise", ENTERPRISE)]
  }

  /** Every plan name appears exactly once in the list. */
  lemma AllPlansListsEachPlanOnce(plan: string)
    requires plan in PlanConfig()
    ensures exists i :: 0 <= i < |GetAllPlans()| && GetAllPlans()[i].id == plan
    ensures forall i, j :: 0 <= i < j < |GetAllPlans()| ==> GetAllPlans()[i].id != GetAllPlans()[j].id
  {
    var plans := GetAllPlans();
    if plan == "free" {
      assert plans[0].id == plan;
    } else if plan == "starter" {
      assert plans[1].id == plan;
    } else if plan == "pro" {
      assert plans[2].id == plan;
    } else {
      assert plans[3].id == plan;
    }
  }

  /** The paid plans cost 999, 2999 and 9999 cents, strictly increasing in
      list order; the free plan has no amount and no price. */
  lemma PricesIncrease()
    ensures FREE.amount.None? && FREE.stripePriceId.None? && FREE.stripeProductId.None?
    ensures STARTER.amount == Some(999) && PRO.amount == Some(2999) && ENTERPRISE.amount == Some(9999)
    ensures forall i, j :: 1 <= i < j < |GetAllPlans()| ==>
      GetAllPlans()[i].product.amount.Some? && GetAllPlans()[j].product.amount.Some?
      && GetAllPlans()[i].product.amount.value < GetAllPlans()[j].product.amount.value
  {
    var plans := GetAllPlans();
    assert plans[1].product == STARTER && plans[2].product == PRO && plans[3].product == ENTERPRISE;
  }

  /** Monthly allowances: 2 and 10 books for free and starter, unlimited (0)
      for pro and enterprise; images are unlimited in every plan. */
  lemma Allowances()
    ensures PlanConfig()["free"].booksPerMonth == 2 && PlanConfig()["starter"].booksPerMonth == 10
    ensures PlanConfig()["pro"].booksPerMonth == 0 && PlanConfig()["enterprise"].booksPerMonth == 0
    ensures forall p :: p in PlanConfig() ==> PlanConfig()[p].imagesPerMonth == 0
  {
  }
}
