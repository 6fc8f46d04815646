/**
 * The plan editor of a hotel and the partner's review of its tariffs. Each
 * operation is one transaction on the stored rows; a refused one changes nothing.
 */
module RatePlans {
  import opened Options
  import opened Sequences
  import opened Tariffs
  import opened Fingerprint
  import opened PlanChoice

  datatype Verdict = CONFIRMED | REJECTED
  datatype Review = Review(verdict: Verdict, seen: Content)
  /** An entry of a partner's directory: a legal entity or a customer. */
  datatype Entry = Entry(partner: Id, isActive: bool)

  datatype Hotel = Hotel(
    plans: map<Id, Plan>,
    reviews: map<Id, Review>,
    tables: PriceTables,
    docs: seq<ContractDoc>,
    partners: map<Id, bool>,
    accounts: map<Id, Entry>,
    customers: map<Id, Entry>,
    karsAvia: Option<Id>)

  /** A nullable field of an edit: left out, or set (possibly to nothing). */
  datatype Change<T> = Keep | Set(value: Option<T>)

  datatype PlanDto = PlanDto(
    code: Option<string>,
    name: Option<string>,
    mealPlan: Option<string>,
    occupancyPricing: Option<bool>,
    parent: Change<Id>,
    modifierType: Option<ModifierType>,
    modifierValue: Option<int>,
    isActive: Option<bool>,
    forOperator: Option<bool>,
    partner: Change<Id>,
    account: Change<Id>,
    customer: Change<Id>,
    guestKind: Change<GuestKind>,
    vatRate: Change<int>,
    operatorContract: Change<string>)

  datatype Scope = Scope(partner: Option<Id>, account: Option<Id>, customer: Option<Id>, guestKind: Option<GuestKind>, vatRate: Option<int>)

  datatype Refusal = NotFound | OwnParent | PartnerInactive | ForeignAccount | ForeignCustomer | InheritsPrices | RivalPlan
                   | CodeTaken | NotForOperator | NoDocuments | PricesMoved
  datatype Outcome = Done | Refused(why: Refusal)

  function Pick<T>(c: Change<T>, before: Option<T>): Option<T> {
    if c.Keep? then before else c.value
  }

  /** The conditions a plan gets from an edit; `before` is the plan being edited, if any. */
  function PartnerScope(h: Hotel, dto: PlanDto, before: Option<Plan>): Scope {
    var named := Pick(dto.partner, if before.Some? then before.value.partner else None);
    var partner :=
      if dto.forOperator == Some(false) then None
      else if dto.forOperator == Some(true) && named.None? then h.karsAvia
      else named;
    if partner.None? then Scope(None, None, None, None, None)
    else Scope(partner,
               Pick(dto.account, if before.Some? then before.value.account else None),
               Pick(dto.customer, if before.Some? then before.value.customer else None),
               Pick(dto.guestKind, if before.Some? then before.value.guestKind else None),
               Pick(dto.vatRate, if before.Some? then before.value.vatRate else None))
  }

  predicate InDirectory(entries: map<Id, Entry>, id: Option<Id>, partner: Id) {
    id.Some? ==> id.value in entries && entries[id.value].isActive && entries[id.value].partner == partner
  }

  function ScopeRefusal(h: Hotel, s: Scope): Option<Refusal> {
    if s.partner.None? then None
    else if !(s.partner.value in h.partners && h.partners[s.partner.value]) then Some(PartnerInactive)
    else if !InDirectory(h.accounts, s.account, s.partner.value) then Some(ForeignAccount)
    else if !InDirectory(h.customers, s.customer, s.partner.value) then Some(ForeignCustomer)
    else None
  }

  /** Another active plan already serves these conditions with this meal plan. */
  predicate HasRival(plans: map<Id, Plan>, s: Scope, mealPlan: string, except: Option<Id>) {
    exists i :: i in plans && Some(i) != except && plans[i].isActive && plans[i].partner == s.partner
                && plans[i].account == s.account && plans[i].customer == s.customer
                && plans[i].guestKind == s.guestKind && plans[i].mealPlan == mealPlan
  }

  predicate CodeInUse(plans: map<Id, Plan>, code: string, except: Option<Id>) {
    exists i :: i in plans && Some(i) != except && plans[i].code == code
  }

  /** The checks an edit passes before it is written, in their order. */
  function EditRefusal(h: Hotel, s: Scope, parent: Option<Id>, mealPlan: string, isActive: bool, code: string, id: Option<Id>): Option<Refusal> {
    if ScopeRefusal(h, s).Some? then ScopeRefusal(h, s)
    else if s.partner.Some? && parent.Some? then Some(InheritsPrices)
    else if s.partner.Some? && isActive && HasRival(h.plans, s, mealPlan, id) then Some(RivalPlan)
    else if CodeInUse(h.plans, code, id) then Some(CodeTaken)
    else None
  }

  function NewPlan(id: Id, dto: PlanDto, s: Scope): Plan {
    Plan(id, Or(dto.code, ""), Or(dto.name, ""), Or(dto.mealPlan, "NONE"),
         Or(dto.occupancyPricing, false), Pick(dto.parent, None), Or(dto.modifierType, PERCENT),
         Or(dto.modifierValue, 0), Or(dto.isActive, true), s.partner.Some?,
         s.partner, s.account, s.customer, s.guestKind, s.vatRate, Pick(dto.operatorContract, None))
  }

  function EditedPlan(p: Plan, dto: PlanDto, s: Scope): Plan {
    Plan(p.id, Or(dto.code, p.code), Or(dto.name, p.name), Or(dto.mealPlan, p.mealPlan),
         Or(dto.occupancyPricing, p.occupancyPricing), Pick(dto.parent, p.parent), Or(dto.modifierType, p.modifierType),
         Or(dto.modifierValue, p.modifierValue), Or(dto.isActive, p.isActive), s.partner.Some?,
         s.partner, s.account, s.customer, s.guestKind, s.vatRate, Pick(dto.operatorContract, p.operatorContract))
  }

  function OrphanedFrom(plans: map<Id, Plan>, id: Id): map<Id, Plan> {
    map i | i in plans && i != id :: if plans[i].parent == Some(id) then plans[i].(parent := None) else plans[i]
  }

  function OtherDays(id: Id): DayRate -> bool {
    (r: DayRate) => r.plan != id
  }

  function OtherStandards(id: Id): StandardRate -> bool {
    (r: StandardRate) => r.plan != id
  }

  /** Removing a plan takes its price rows along. */
  function TablesWithout(t: PriceTables, id: Id): PriceTables {
    PriceTables(Filter(OtherDays(id), t.days), Filter(SeasonOfOther(id), t.seasons), Filter(OtherStandards(id), t.standards))
  }

  /** The fingerprint of a stored plan as it stands. */
  function CurrentContent(c: Collation, h: Hotel, id: Id): Content
    requires id in h.plans
  {
    TariffFingerprint(c, h.docs, h.plans[id], h.tables)
  }

  /** The documents the plan is checked against. */
  function Mine(h: Hotel, p: Plan): seq<ContractDoc> {
    DocsOfContract(h.docs, p.operatorContract, p.partner)
  }

  // ── The operations on values ─────────────────────────────────────────────

  datatype Event =
    | CreatePlan(id: Id, dto: PlanDto)
    | UpdatePlan(id: Id, dto: PlanDto)
    | RemovePlan(id: Id)
    | ReviewPlan(id: Id, verdict: Verdict, seen: Content)
    | EditPrices(tables: PriceTables)
    | SyncDocuments(docs: seq<ContractDoc>)
    | SyncDirectories(partners: map<Id, bool>, accounts: map<Id, Entry>, customers: map<Id, Entry>)

  /** A new row takes an unused identifier. */
  predicate FreshId(h: Hotel, id: Id) {
    id !in h.plans && id !in h.reviews
  }

  function CreateOn(h: Hotel, id: Id, dto: PlanDto): (Hotel, Outcome) {
    var s := PartnerScope(h, dto, None);
    var refusal := EditRefusal(h, s, Pick(dto.parent, None), Or(dto.mealPlan, "NONE"), Or(dto.isActive, true),
                               Or(dto.code, ""), None);
    if refusal.Some? then (h, Refused(refusal.value))
    else (h.(plans := h.plans[id := NewPlan(id, dto, s)]), Done)
  }

  function UpdateOn(h: Hotel, id: Id, dto: PlanDto): (Hotel, Outcome) {
    if dto.parent == Set(Some(id)) then (h, Refused(OwnParent))
    else if id !in h.plans then (h, Refused(NotFound))
    else
      var p := h.plans[id];
      var s := PartnerScope(h, dto, Some(p));
      var refusal := EditRefusal(h, s, Pick(dto.parent, p.parent), Or(dto.mealPlan, p.mealPlan),
                                 Or(dto.isActive, p.isActive), Or(dto.code, p.code), Some(id));
      if refusal.Some? then (h, Refused(refusal.value))
      else (h.(plans := h.plans[id := EditedPlan(p, dto, s)]), Done)
  }

  function RemoveOn(h: Hotel, id: Id): (Hotel, Outcome) {
    if id !in h.plans then (h, Refused(NotFound))
    else (h.(plans := OrphanedFrom(h.plans, id), reviews := h.reviews - {id}, tables := TablesWithout(h.tables, id)), Done)
  }

  function ReviewOn(c: Collation, h: Hotel, id: Id, verdict: Verdict, seen: Content): (Hotel, Outcome) {
    if id !in h.plans then (h, Refused(NotFound))
    else if !h.plans[id].forOperator then (h, Refused(NotForOperator))
    else if Mine(h, h.plans[id]) == [] then (h, Refused(NoDocuments))
    else if seen != CurrentContent(c, h, id) then (h, Refused(PricesMoved))
    else (h.(reviews := h.reviews[id := Review(verdict, CurrentContent(c, h, id))]), Done)
  }

  function Step(c: Collation, h: Hotel, e: Event): (Hotel, Outcome) {
    match e
    case CreatePlan(id, dto) => if FreshId(h, id) then CreateOn(h, id, dto) else (h, Refused(CodeTaken))
    case UpdatePlan(id, dto) => UpdateOn(h, id, dto)
    case RemovePlan(id) => RemoveOn(h, id)
    case ReviewPlan(id, verdict, seen) => ReviewOn(c, h, id, verdict, seen)
    case EditPrices(tables) => (h.(tables := tables), Done)
    case SyncDocuments(docs) => (h.(docs := docs), Done)
    case SyncDirectories(partners, accounts, customers) =>
      (h.(partners := partners, accounts := accounts, customers := customers), Done)
  }

  function Run(c: Collation, h: Hotel, events: seq<Event>): Hotel {
    if events == [] then h else Step(c, Run(c, h, events[..|events|-1]), events[|events|-1]).0
  }

  // ── What every operation keeps ───────────────────────────────────────────

  /** Conditions only on partner plans, which stand alone and are unique in conditions and meal. */
  ghost predicate PlansOk(plans: map<Id, Plan>) {
    && UniqueScopes(plans)
    && (forall i :: i in plans ==> PlanOk(i, plans[i]))
  }

  ghost predicate PlanOk(i: Id, p: Plan) {
    && p.id == i
    && p.forOperator == p.partner.Some?
    && (p.partner.Some? ==> p.parent.None?)
    && (p.partner.None? ==> p.account.None? && p.customer.None? && p.guestKind.None? && p.vatRate.None?)
  }

  /** Writing a plan that no other stored plan rivals keeps the scopes unique. */
  lemma WriteKeepsUnique(plans: map<Id, Plan>, id: Id, p: Plan)
    requires UniqueScopes(plans)
    requires p.partner.Some? && p.isActive ==>
               !HasRival(plans, Scope(p.partner, p.account, p.customer, p.guestKind, p.vatRate), p.mealPlan, Some(id))
    ensures UniqueScopes(plans[id := p])
  {
  }

  lemma CreateKeepsPlansOk(h: Hotel, id: Id, dto: PlanDto)
    requires PlansOk(h.plans) && FreshId(h, id)
    ensures PlansOk(CreateOn(h, id, dto).0.plans)
  {
    if CreateOn(h, id, dto).1.Done? {
      WriteKeepsUnique(h.plans, id, NewPlan(id, dto, PartnerScope(h, dto, None)));
    }
  }

  lemma UpdateKeepsPlansOk(h: Hotel, id: Id, dto: PlanDto)
    requires PlansOk(h.plans)
    ensures PlansOk(UpdateOn(h, id, dto).0.plans)
  {
    if UpdateOn(h, id, dto).1.Done? {
      WriteKeepsUnique(h.plans, id, EditedPlan(h.plans[id], dto, PartnerScope(h, dto, Some(h.plans[id]))));
    }
  }

  lemma RemoveKeepsPlansOk(h: Hotel, id: Id)
    requires PlansOk(h.plans)
    ensures PlansOk(RemoveOn(h, id).0.plans)
  {
  }

  lemma StepKeepsPlansOk(c: Collation, h: Hotel, e: Event)
    requires PlansOk(h.plans)
    ensures PlansOk(Step(c, h, e).0.plans)
  {
    match e
    case CreatePlan(id, dto) =>
      if FreshId(h, id) {
        CreateKeepsPlansOk(h, id, dto);
      }
    case UpdatePlan(id, dto) => UpdateKeepsPlansOk(h, id, dto);
    case RemovePlan(id) => RemoveKeepsPlansOk(h, id);
    case _ =>
  }

  lemma {:induction false} RunKeepsPlansOk(c: Collation, h: Hotel, events: seq<Event>)
    requires PlansOk(h.plans)
    ensures PlansOk(Run(c, h, events).plans)
  {
    if events != [] {
      RunKeepsPlansOk(c, h, events[..|events|-1]);
      StepKeepsPlansOk(c, Run(c, h, events[..|events|-1]), events[|events|-1]);
    }
  }

  /** After any run of the plan editor the tariffs picked for a request differ in their meals. */
  lemma ChoiceIsByMeal(c: Collation, h: Hotel, events: seq<Event>, listed: seq<Plan>, q: Query)
    requires PlansOk(h.plans) && Lists(listed, Run(c, h, events).plans)
    ensures var picked := PickPartnerPlans(listed, q);
            && (forall p :: p in picked <==> p in listed && Matches(p, q)
                                             && forall r :: r in listed && Matches(r, q) ==> Specificity(r) <= Specificity(p))
            && (forall i, j :: 0 <= i < j < |picked| ==> picked[i].mealPlan != picked[j].mealPlan)
  {
    RunKeepsPlansOk(c, h, events);
    PickedAreMostSpecific(listed, q);
    PickedDifferInMeals(Run(c, h, events).plans, listed, q);
  }

  // ── What an edit makes of a plan ─────────────────────────────────────────

  /** A plan as the defaults leave it when nothing is sent. */
  function Blank(id: Id): Plan {
    Plan(id, "", "", "NONE", false, None, PERCENT, 0, true, false, None, None, None, None, None, None)
  }

  /** Fields that are sent are written, the others kept. */
  ghost predicate FieldsEdited(p: Plan, dto: PlanDto, q: Plan) {
    && q.id == p.id
    && q.code == (if dto.code.Some? then dto.code.value else p.code)
    && q.name == (if dto.name.Some? then dto.name.value else p.name)
    && q.mealPlan == (if dto.mealPlan.Some? then dto.mealPlan.value else p.mealPlan)
    && q.occupancyPricing == (if dto.occupancyPricing.Some? then dto.occupancyPricing.value else p.occupancyPricing)
    && q.modifierType == (if dto.modifierType.Some? then dto.modifierType.value else p.modifierType)
    && q.modifierValue == (if dto.modifierValue.Some? then dto.modifierValue.value else p.modifierValue)
    && q.isActive == (if dto.isActive.Some? then dto.isActive.value else p.isActive)
    && q.parent == (if dto.parent.Keep? then p.parent else dto.parent.value)
    && q.operatorContract == (if dto.operatorContract.Keep? then p.operatorContract else dto.operatorContract.value)
  }

  /** Whose the plan becomes: "not for the operator" makes it the hotel's own; "for the operator" without a partner is the first partner's. */
  ghost predicate PartnerEdited(h: Hotel, p: Plan, dto: PlanDto, q: Plan) {
    var named := if dto.partner.Keep? then p.partner else dto.partner.value;
    && q.forOperator == q.partner.Some?
    && (dto.forOperator == Some(false) ==> q.partner.None?)
    && (dto.forOperator != Some(false) && named.Some? ==> q.partner == named)
    && (dto.forOperator == Some(true) && named.None? ==> q.partner == h.karsAvia)
    && (dto.forOperator == None && named.None? ==> q.partner.None?)
  }

  /** A condition left out is kept, a condition sent is written, and a hotel's own plan has none. */
  ghost predicate ConditionsEdited(p: Plan, dto: PlanDto, q: Plan) {
    && (q.partner.None? ==> q.account.None? && q.customer.None? && q.guestKind.None? && q.vatRate.None?)
    && (q.partner.Some? ==>
          && q.account == (if dto.account.Keep? then p.account else dto.account.value)
          && q.customer == (if dto.customer.Keep? then p.customer else dto.customer.value)
          && q.guestKind == (if dto.guestKind.Keep? then p.guestKind else dto.guestKind.value)
          && q.vatRate == (if dto.vatRate.Keep? then p.vatRate else dto.vatRate.value))
  }

  ghost predicate EditOf(h: Hotel, p: Plan, dto: PlanDto, q: Plan) {
    FieldsEdited(p, dto, q) && PartnerEdited(h, p, dto, q) && ConditionsEdited(p, dto, q)
  }

  /**
   * A partner's plan needs a working partner, an account and a customer of that partner's directory that are not
   * switched off, no parent, and no other active plan with its conditions and meal; every plan needs a code of its own.
   */
  ghost predicate Acceptable(h: Hotel, q: Plan) {
    && (q.partner.Some? ==>
          && q.partner.value in h.partners && h.partners[q.partner.value]
          && (q.account.Some? ==> q.account.value in h.accounts && h.accounts[q.account.value] == Entry(q.partner.value, true))
          && (q.customer.Some? ==> q.customer.value in h.customers && h.customers[q.customer.value] == Entry(q.partner.value, true))
          && q.parent.None?
          && (q.isActive ==> forall i :: i in h.plans && i != q.id && h.plans[i].isActive && SameScope(h.plans[i], q) ==>
                                           h.plans[i].mealPlan != q.mealPlan))
    && forall i :: i in h.plans && i != q.id ==> h.plans[i].code != q.code
  }

  lemma AcceptableIff(h: Hotel, s: Scope, q: Plan, id: Option<Id>)
    requires q.partner == s.partner && q.account == s.account && q.customer == s.customer && q.guestKind == s.guestKind
    requires (id == Some(q.id) || (id.None? && q.id !in h.plans))
    ensures EditRefusal(h, s, q.parent, q.mealPlan, q.isActive, q.code, id).None? <==> Acceptable(h, q)
  {
    assert forall i :: i in h.plans ==> (Some(i) != id <==> i != q.id);
  }

  /** An edit is accepted exactly when it leaves an acceptable plan that is not its own parent, and stores that plan and nothing else. */
  lemma UpdateIff(h: Hotel, id: Id, dto: PlanDto) returns (q: Plan)
    requires id in h.plans && h.plans[id].id == id
    ensures EditOf(h, h.plans[id], dto, q)
    ensures UpdateOn(h, id, dto).1.Done? <==> Acceptable(h, q) && dto.parent != Set(Some(id))
    ensures UpdateOn(h, id, dto).0 == if UpdateOn(h, id, dto).1.Done? then h.(plans := h.plans[id := q]) else h
  {
    var p := h.plans[id];
    var s := PartnerScope(h, dto, Some(p));
    q := EditedPlan(p, dto, s);
    AcceptableIff(h, s, q, Some(id));
  }

  /** A creation is an edit of a blank plan. */
  lemma CreateIff(h: Hotel, id: Id, dto: PlanDto) returns (q: Plan)
    requires FreshId(h, id)
    ensures EditOf(h, Blank(id), dto, q)
    ensures CreateOn(h, id, dto).1.Done? <==> Acceptable(h, q)
    ensures CreateOn(h, id, dto).0 == if CreateOn(h, id, dto).1.Done? then h.(plans := h.plans[id := q]) else h
  {
    var s := PartnerScope(h, dto, None);
    q := NewPlan(id, dto, s);
    AcceptableIff(h, s, q, None);
  }

  /** What each refusal of an edit says about the plan it would have left. */
  ghost predicate IsTrue(h: Hotel, q: Plan, why: Refusal) {
    match why
    case PartnerInactive => q.partner.Some? && !(q.partner.value in h.partners && h.partners[q.partner.value])
    case ForeignAccount =>
      q.partner.Some? && q.account.Some? && !(q.account.value in h.accounts && h.accounts[q.account.value] == Entry(q.partner.value, true))
    case ForeignCustomer =>
      q.partner.Some? && q.customer.Some? && !(q.customer.value in h.customers && h.customers[q.customer.value] == Entry(q.partner.value, true))
    case InheritsPrices => q.partner.Some? && q.parent.Some?
    case RivalPlan =>
      q.partner.Some? && q.isActive && exists i :: i in h.plans && i != q.id && h.plans[i].isActive && SameScope(h.plans[i], q)
                                                   && h.plans[i].mealPlan == q.mealPlan
    case CodeTaken => exists i :: i in h.plans && i != q.id && h.plans[i].code == q.code
    case OwnParent => q.parent == Some(q.id)
    case _ => false
  }

  /** What was sent leaves one plan and no other. */
  lemma OneEdit(h: Hotel, p: Plan, dto: PlanDto, q: Plan, r: Plan)
    requires EditOf(h, p, dto, q) && EditOf(h, p, dto, r)
    ensures q == r
  {
    assert dto.forOperator == None || dto.forOperator == Some(true) || dto.forOperator == Some(false) by {
      assert dto.forOperator.Some? && dto.forOperator.value ==> dto.forOperator == Some(true);
    }
    assert q.partner == r.partner;
  }

  /** The plan an edit would leave. */
  function EditResult(h: Hotel, id: Id, dto: PlanDto): Plan
    requires id in h.plans
  {
    EditedPlan(h.plans[id], dto, PartnerScope(h, dto, Some(h.plans[id])))
  }

  lemma ResultIsEdit(h: Hotel, id: Id, dto: PlanDto)
    requires id in h.plans && h.plans[id].id == id
    ensures EditOf(h, h.plans[id], dto, EditResult(h, id, dto))
  {
  }

  lemma ResultRefused(h: Hotel, id: Id, dto: PlanDto)
    requires id in h.plans && h.plans[id].id == id
    ensures match UpdateOn(h, id, dto).1
            case Done => true
            case Refused(why) => IsTrue(h, EditResult(h, id, dto), why)
  {
    if dto.parent != Set(Some(id)) {
      RefusalHolds(h, PartnerScope(h, dto, Some(h.plans[id])), EditResult(h, id, dto));
    }
  }

  /** An edit is refused only for a reason that holds of the plan it would have left. */
  lemma EditRefusalIsTrue(h: Hotel, id: Id, dto: PlanDto, q: Plan)
    requires id in h.plans && h.plans[id].id == id && EditOf(h, h.plans[id], dto, q)
    ensures match UpdateOn(h, id, dto).1
            case Done => true
            case Refused(why) => IsTrue(h, q, why)
  {
    ResultIsEdit(h, id, dto);
    OneEdit(h, h.plans[id], dto, EditResult(h, id, dto), q);
    ResultRefused(h, id, dto);
  }

  lemma RefusalHolds(h: Hotel, s: Scope, q: Plan)
    requires q.partner == s.partner && q.account == s.account && q.customer == s.customer && q.guestKind == s.guestKind
    ensures match EditRefusal(h, s, q.parent, q.mealPlan, q.isActive, q.code, Some(q.id))
            case None => true
            case Some(why) => IsTrue(h, q, why)
  {
  }

  /** A removed plan takes its review and all its price rows along; its children lose their parent; nothing else changes. */
  lemma RemovedMeaning(h: Hotel, id: Id)
    requires id in h.plans
    ensures var after := RemoveOn(h, id).0;
            && RemoveOn(h, id).1.Done?
            && after.plans.Keys == h.plans.Keys - {id} && after.reviews == h.reviews - {id} && after.docs == h.docs
            && (forall i :: i in after.plans ==>
                  after.plans[i] == if h.plans[i].parent == Some(id) then h.plans[i].(parent := None) else h.plans[i])
            && (forall r :: r in after.tables.days <==> r in h.tables.days && r.plan != id)
            && (forall r :: r in after.tables.seasons <==> r in h.tables.seasons && r.plan != id)
            && (forall r :: r in after.tables.standards <==> r in h.tables.standards && r.plan != id)
  {
  }

  /** A verdict is recorded exactly for a partner's plan with a document, about the content as it stands. */
  lemma ReviewIff(c: Collation, h: Hotel, id: Id, verdict: Verdict, seen: Content)
    ensures ReviewOn(c, h, id, verdict, seen).1.Done? <==>
              && id in h.plans && h.plans[id].forOperator
              && (exists d :: d in h.docs && Concerns(d, h.plans[id]))
              && seen == TariffFingerprint(c, h.docs, h.plans[id], h.tables)
    ensures ReviewOn(c, h, id, verdict, seen).0
            == if ReviewOn(c, h, id, verdict, seen).1.Done? then h.(reviews := h.reviews[id := Review(verdict, seen)]) else h
  {
    if id in h.plans {
      var mine := Mine(h, h.plans[id]);
      if mine != [] {
        ConcernedDocs(h.docs, h.plans[id], mine[0]);
      }
      if d :| d in h.docs && Concerns(d, h.plans[id]) {
        ConcernedDocs(h.docs, h.plans[id], d);
      }
    }
  }

  // ── The service ──────────────────────────────────────────────────────────

  class RatePlansService {
    var plans: map<Id, Plan>
    var reviews: map<Id, Review>
    var tables: PriceTables
    var docs: seq<ContractDoc>
    var partners: map<Id, bool>
    var accounts: map<Id, Entry>
    var customers: map<Id, Entry>
    const karsAvia: Option<Id>
    const collation: Collation

    constructor (karsAvia: Option<Id>, collation: Collation)
      ensures View() == Hotel(map[], map[], PriceTables([], [], []), [], map[], map[], map[], karsAvia)
      ensures this.collation == collation && PlansOk(plans)
    {
      plans, reviews, tables, docs := map[], map[], PriceTables([], [], []), [];
      partners, accounts, customers := map[], map[], map[];
      this.karsAvia, this.collation := karsAvia, collation;
    }

    function View(): Hotel
      reads this
    {
      Hotel(plans, reviews, tables, docs, partners, accounts, customers, karsAvia)
    }

    method Create(id: Id, dto: PlanDto) returns (outcome: Outcome)
      requires FreshId(View(), id) && PlansOk(plans)
      modifies this`plans
      ensures (View(), outcome) == old(CreateOn(View(), id, dto)) && PlansOk(plans)
    {
      StepKeepsPlansOk(collation, View(), CreatePlan(id, dto));
      var scope := PartnerScope(View(), dto, None);
      var refusal := EditRefusal(View(), scope, Pick(dto.parent, None), Or(dto.mealPlan, "NONE"),
                                 Or(dto.isActive, true), Or(dto.code, ""), None);
      if refusal.Some? {
        return Refused(refusal.value);
      }
      plans := plans[id := NewPlan(id, dto, scope)];
      outcome := Done;
    }

    method Update(id: Id, dto: PlanDto) returns (outcome: Outcome)
      requires PlansOk(plans)
      modifies this`plans
      ensures (View(), outcome) == old(UpdateOn(View(), id, dto)) && PlansOk(plans)
    {
      StepKeepsPlansOk(collation, View(), UpdatePlan(id, dto));
      if dto.parent == Set(Some(id)) {
        return Refused(OwnParent);
      }
      if id !in plans {
        return Refused(NotFound);
      }
      var before := plans[id];
      var scope := PartnerScope(View(), dto, Some(before));
      var refusal := EditRefusal(View(), scope, Pick(dto.parent, before.parent), Or(dto.mealPlan, before.mealPlan),
                                 Or(dto.isActive, before.isActive), Or(dto.code, before.code), Some(id));
      if refusal.Some? {
        return Refused(refusal.value);
      }
      plans := plans[id := EditedPlan(before, dto, scope)];
      outcome := Done;
    }

    method Remove(id: Id) returns (outcome: Outcome)
      requires PlansOk(plans)
      modifies this`plans, this`reviews, this`tables
      ensures (View(), outcome) == old(RemoveOn(View(), id)) && PlansOk(plans)
    {
      StepKeepsPlansOk(collation, View(), RemovePlan(id));
      if id !in plans {
        return Refused(NotFound);
      }
      plans := OrphanedFrom(plans, id);
      reviews := reviews - {id};
      tables := TablesWithout(tables, id);
      outcome := Done;
    }

    /** Records a verdict only about the content the operator saw, and only over a document. */
    method ApplyOperatorReview(id: Id, verdict: Verdict, seenFingerprint: Content) returns (outcome: Outcome)
      modifies this`reviews
      ensures (View(), outcome) == old(ReviewOn(collation, View(), id, verdict, seenFingerprint))
    {
      if id !in plans {
        return Refused(NotFound);
      }
      var plan := plans[id];
      if !plan.forOperator {
        return Refused(NotForOperator);
      }
      var mine := DocsOfContract(docs, plan.operatorContract, plan.partner);
      if mine == [] {
        return Refused(NoDocuments);
      }
      var fingerprint := TariffFingerprint(collation, docs, plan, tables);
      if seenFingerprint != fingerprint {
        return Refused(PricesMoved);
      }
      reviews := reviews[id := Review(verdict, fingerprint)];
      outcome := Done;
    }
  }
}
