/** Subscription plans and the premium 5-hour limit (auth/premium_rate_limit.go). */
module Plans {
  import opened Basics

  function NormalizePlanType(plan: string): string {
    var normalized := Lower(Trim(plan));
    if normalized in {"prolite", "pro_lite", "pro-lite"} then "pro" else normalized
  }

  predicate IsPremium5hPlan(plan: string) {
    NormalizePlanType(plan) in {"plus", "pro", "team"}
  }

  predicate IsPlusOrHigherPlan(plan: string) {
    var p := NormalizePlanType(plan);
    && p != "" && p != "free"
    && (|| p in {"plus", "pro", "team", "teamplus", "enterprise", "business", "edu", "education"}
        || Contains(p, "plus") || HasPrefix(p, "pro") || HasPrefix(p, "team")
        || Contains(p, "enterprise") || Contains(p, "business"))
  }

  /** strings.EqualFold(plan, "free"): no trimming, unlike the tests above. */
  predicate IsFreePlan(plan: string) {
    Lower(plan) == "free"
  }

  lemma FreePlanIsItsOwnNormalForm(plan: string)
    requires IsFreePlan(plan)
    ensures NormalizePlanType(plan) == "free"
  {
    assert |plan| == 4;
    assert LowerChar(plan[0]) == Lower(plan)[0] == 'f';
    assert LowerChar(plan[3]) == Lower(plan)[3] == 'e';
    assert Trim(plan) == plan;
  }

  /** A premium 5h plan is a paid plan and never the free one, so the two limits never meet. */
  lemma PremiumPlansArePaid(plan: string)
    requires IsPremium5hPlan(plan)
    ensures IsPlusOrHigherPlan(plan)
    ensures !IsFreePlan(plan)
  {
    if IsFreePlan(plan) {
      FreePlanIsItsOwnNormalForm(plan);
    }
  }
}
