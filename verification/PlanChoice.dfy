/** Choosing a partner's tariff: the matching plans with the most conditions, weighed 4/2/1. */
module PlanChoice {
  import opened Options
  import opened Sequences
  import opened Tariffs

  /** Who is being accommodated: the partner and, when named, the account, customer and kind of guest. */
  datatype Query = Query(partner: Id, account: Option<Id>, customer: Option<Id>, guestKind: Option<GuestKind>)

  function Specificity(p: Plan): nat {
    (if p.customer.Some? then 4 else 0) + (if p.account.Some? then 2 else 0) + (if p.guestKind.Some? then 1 else 0)
  }

  predicate Matches(p: Plan, q: Query) {
    && p.isActive
    && p.partner == Some(q.partner)
    && (p.account.Some? ==> p.account == q.account)
    && (p.customer.Some? ==> p.customer == q.customer)
    && (p.guestKind.Some? ==> p.guestKind == q.guestKind)
  }

  function Fits(q: Query): Plan -> bool {
    (p: Plan) => Matches(p, q)
  }

  function AsSpecificAs(best: nat): Plan -> bool {
    (p: Plan) => Specificity(p) == best
  }

  function MaxSpecificity(plans: seq<Plan>): nat
    requires plans != []
  {
    if |plans| == 1 then Specificity(plans[0])
    else
      var rest := MaxSpecificity(plans[1..]);
      if Specificity(plans[0]) > rest then Specificity(plans[0]) else rest
  }

  function PickPartnerPlans(plans: seq<Plan>, q: Query): seq<Plan> {
    var fit := Filter(Fits(q), plans);
    if fit == [] then [] else Filter(AsSpecificAs(MaxSpecificity(fit)), fit)
  }

  lemma {:induction false} MaxSpecificityMeaning(plans: seq<Plan>)
    requires plans != []
    ensures forall p :: p in plans ==> Specificity(p) <= MaxSpecificity(plans)
    ensures exists p :: p in plans && Specificity(p) == MaxSpecificity(plans)
  {
    assert plans[0] in plans;
    if |plans| > 1 {
      MaxSpecificityMeaning(plans[1..]);
      assert forall p :: p in plans <==> p == plans[0] || p in plans[1..];
    }
  }

  /** The picked plans are exactly the matching plans no matching plan is more specific than. */
  lemma PickedAreMostSpecific(plans: seq<Plan>, q: Query)
    ensures forall p :: p in PickPartnerPlans(plans, q) <==>
              p in plans && Matches(p, q) && forall r :: r in plans && Matches(r, q) ==> Specificity(r) <= Specificity(p)
    ensures PickPartnerPlans(plans, q) == [] <==> forall p :: p in plans ==> !Matches(p, q)
  {
    var fit := Filter(Fits(q), plans);
    if fit != [] {
      MaxSpecificityMeaning(fit);
      var best := MaxSpecificity(fit);
      var top :| top in fit && Specificity(top) == best;
      assert top in PickPartnerPlans(plans, q);
      assert forall r :: r in plans && Matches(r, q) ==> r in fit;
    } else {
      assert forall r :: r in plans && Matches(r, q) ==> r in fit;
    }
  }

  /** A plan serves a request of its partner exactly when it is active and every condition it names is the request's. */
  lemma MatchesIff(p: Plan, q: Query)
    ensures Matches(p, q) <==>
              && p.isActive && p.partner == Some(q.partner)
              && p.account in {None, q.account} && p.customer in {None, q.customer} && p.guestKind in {None, q.guestKind}
  {
  }

  /**
   * A named customer outweighs everything else, then a named account, then a named kind of guest: a picked plan
   * names the customer when any matching plan does, and so on down.
   */
  lemma PickedByCondition(plans: seq<Plan>, q: Query, p: Plan, r: Plan)
    requires p in PickPartnerPlans(plans, q) && r in plans && Matches(r, q)
    ensures r.customer.Some? ==> p.customer.Some?
    ensures p.customer.Some? == r.customer.Some? && r.account.Some? ==> p.account.Some?
    ensures p.customer.Some? == r.customer.Some? && p.account.Some? == r.account.Some? && r.guestKind.Some? ==> p.guestKind.Some?
  {
    PickedAreMostSpecific(plans, q);
  }

  /** The same conditions of use. */
  ghost predicate SameScope(p: Plan, r: Plan) {
    p.partner == r.partner && p.account == r.account && p.customer == r.customer && p.guestKind == r.guestKind
  }

  /** The weights leave no room for confusion: equally specific matches have equal conditions. */
  lemma EquallySpecificSameScope(p: Plan, r: Plan, q: Query)
    requires Matches(p, q) && Matches(r, q) && Specificity(p) == Specificity(r)
    ensures SameScope(p, r)
  {
  }

  /** No two active partner plans share their conditions and meal plan. */
  ghost predicate UniqueScopes(plans: map<Id, Plan>) {
    forall i, j :: i in plans && j in plans && i != j && plans[i].isActive && plans[j].isActive ==>
      (plans[i].partner.Some? && SameScope(plans[i], plans[j]) ==> plans[i].mealPlan != plans[j].mealPlan)
  }

  /** A list of the stored plans, each once, in the order the query returns them. */
  ghost predicate Lists(listed: seq<Plan>, plans: map<Id, Plan>) {
    && (forall p :: p in listed ==> p.id in plans && plans[p.id] == p)
    && (forall i, j :: 0 <= i < j < |listed| ==> listed[i].id != listed[j].id)
  }

  /** The position of the k-th kept row in the original list. */
  lemma {:induction false} FilterPositions<T(!new)>(keep: T -> bool, s: seq<T>, i: nat, j: nat) returns (k: nat, l: nat)
    requires i < j < |Filter(keep, s)|
    ensures k < l < |s| && s[k] == Filter(keep, s)[i] && s[l] == Filter(keep, s)[j]
  {
    if keep(s[0]) {
      assert Filter(keep, s)[1..] == Filter(keep, s[1..]);
      if i == 0 {
        var x := Filter(keep, s)[j];
        assert x == Filter(keep, s[1..])[j-1] && x in s[1..];
        k := 0;
        var m :| 0 <= m < |s[1..]| && s[1..][m] == x;
        l := m + 1;
      } else {
        k, l := FilterPositions(keep, s[1..], i - 1, j - 1);
        k, l := k + 1, l + 1;
      }
    } else {
      k, l := FilterPositions(keep, s[1..], i, j);
      k, l := k + 1, l + 1;
    }
  }

  /** Two plans picked for one request always differ in their meal plan. */
  lemma PickedDifferInMeals(plans: map<Id, Plan>, listed: seq<Plan>, q: Query)
    requires UniqueScopes(plans) && Lists(listed, plans)
    ensures var picked := PickPartnerPlans(listed, q);
            forall i, j :: 0 <= i < j < |picked| ==> picked[i].mealPlan != picked[j].mealPlan
  {
    var picked := PickPartnerPlans(listed, q);
    PickedAreMostSpecific(listed, q);
    forall i, j | 0 <= i < j < |picked| ensures picked[i].mealPlan != picked[j].mealPlan {
      var p, r := picked[i], picked[j];
      assert p in picked && r in picked;
      EquallySpecificSameScope(p, r, q);
      var fit := Filter(Fits(q), listed);
      var k, l := FilterPositions(AsSpecificAs(MaxSpecificity(fit)), fit, i, j);
      k, l := FilterPositions(Fits(q), listed, k, l);
      assert p.id != r.id;
    }
  }
}
