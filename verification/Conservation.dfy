/** Request contexts and the conservation relation that every adapter boundary must keep. */
module Conservation {
  import opened Common

  /** Digests carry the content they hash. */
  datatype Digest =
    | Opaque(content: string)
    | DebitDigest(money: nat, tokens: nat, retries: nat, elapsed: nat, ordinal: nat)
    | RetryDigest(debit: Digest, retry: nat)

  type Scope = set<string>

  datatype Principal = Principal(id: string, groups: set<string>)

  datatype Link = Link(from: string, to: string, scope: Scope, proof: Digest)

  datatype SideEffectClass = ReadOnly | IdempotentWrite | NonIdempotentWrite

  datatype SideEffect = SideEffect(class_: SideEffectClass, idempotencyIdentity: Option<string>, compensationAllowed: bool)

  datatype Protocol = Protocol(revision: string, peer: Digest)

  datatype Classification = Public | Internal | Confidential | Restricted

  function Rank(c: Classification): nat {
    match c case Public => 0 case Internal => 1 case Confidential => 2 case Restricted => 3
  }

  /** Which classifications may follow one another across a boundary. */
  predicate MayBecome(a: Classification, b: Classification) {
    match a
    case Public => true
    case Internal => !b.Public?
    case Confidential => b.Confidential? || b.Restricted?
    case Restricted => b.Restricted?
  }

  datatype Context = Context(
    requestId: string, principal: Principal, delegation: seq<Link>, tenant: string, scope: Scope,
    classification: Classification, deadline: nat, money: nat, tokens: nat, retries: nat,
    sideEffect: SideEffect, causalRoot: string, causalParent: Option<string>, traceParent: string,
    protocol: Protocol, capability: Option<string>, schema: Digest, routePolicy: Digest, provenance: Digest,
    observations: seq<Digest>, routeDecisions: seq<Digest>, policyDecisions: seq<Digest>,
    retryAttempts: seq<Digest>, budgetDebits: seq<Digest>)

  datatype Invariant =
    | Request | PrincipalId | Tenant | ScopeSet | Deadline | MonetaryBudget | TokenBudget | RetryBudget
    | DataClassification | CausalRoot | CausalParent | Capability | SideEffectContract | Schema | TraceParent
    | DataProvenance | RoutePolicy | Delegation | CausalObservations | RouteDecisions | PolicyDecisions
    | RetryAttempts | BudgetDebits

  datatype Code =
    | PrincipalLost | TenantChanged | ScopeExpanded | DeadlineExtended | BudgetIncreased | RetryAmplified
    | DataDowngraded | CausalityBroken | SchemaUnbound

  datatype Violation = Violation(invariant_: Invariant, code: Code)

  datatype Report = Report(preserved: seq<Invariant>, strengthened: seq<Invariant>, violations: seq<Violation>)

  // ---- delegation ----

  /** Every principal a context already involves. */
  function Seen(c: Context): set<string> {
    (set i | 0 <= i < |c.delegation| :: c.delegation[i].from) + (set i | 0 <= i < |c.delegation| :: c.delegation[i].to)
    + {c.principal.id}
  }

  /** Who holds the delegation before link `i` of an extension, and with which scope. */
  function HolderBefore(source: Context, links: seq<Link>, i: nat): string
    requires i <= |links|
  {
    if i == 0 then source.principal.id else links[i - 1].to
  }

  function ScopeBefore(source: Context, links: seq<Link>, i: nat): Scope
    requires i <= |links|
  {
    if i == 0 then source.scope else links[i - 1].scope
  }

  predicate LinkOk(source: Context, links: seq<Link>, i: nat)
    requires i < |links|
  {
    && links[i].from == HolderBefore(source, links, i)
    && links[i].scope <= ScopeBefore(source, links, i)
    && links[i].to !in Seen(source)
    && forall j | 0 <= j < i :: links[j].to != links[i].to
  }

  /** The links connect the source's principal onward, never widen the scope and never return to a principal. */
  predicate Connected(source: Context, links: seq<Link>) {
    forall i | 0 <= i < |links| :: LinkOk(source, links, i)
  }

  predicate ValidExtension(source: Context, target: Context) {
    && source.delegation <= target.delegation
    && var links := target.delegation[|source.delegation|..];
    && links != [] && Connected(source, links)
    && HolderBefore(source, links, |links|) == target.principal.id
    && target.scope <= ScopeBefore(source, links, |links|)
  }

  /** A link of the target goes on from the one before it, or from the source, to somebody new, with no wider scope. */
  predicate Continues(s: Context, t: Context, i: nat)
    requires |s.delegation| <= i < |t.delegation|
  {
    var n, all := |s.delegation|, t.delegation;
    && (if i == n then all[n].from == s.principal.id && all[n].scope <= s.scope
        else all[i].from == all[i - 1].to && all[i].scope <= all[i - 1].scope)
    && all[i].to != s.principal.id
    && (forall j | 0 <= j < i :: all[i].to != all[j].to)
    && (forall j | 0 <= j < n :: all[i].to != all[j].from)
  }

  /**
   * What a valid extension is, link by link: it goes from the source's principal to the target's, each
   * link to somebody new, and the scope never widens on the way.
   */
  lemma ExtensionExactly(s: Context, t: Context)
    ensures ValidExtension(s, t) <==>
              && |s.delegation| < |t.delegation| && t.delegation[..|s.delegation|] == s.delegation
              && (forall i | |s.delegation| <= i < |t.delegation| :: Continues(s, t, i))
              && t.delegation[|t.delegation| - 1].to == t.principal.id && t.scope <= t.delegation[|t.delegation| - 1].scope
  {
    var n := |s.delegation|;
    if n < |t.delegation| && t.delegation[..n] == s.delegation {
      var links := t.delegation[n..];
      forall i | 0 <= i < |links|
        ensures LinkOk(s, links, i) <==> Continues(s, t, n + i)
      {
        LinkContinues(s, t, i);
      }
      hide LinkOk, Continues;
      if Connected(s, links) {
        forall i | n <= i < |t.delegation|
          ensures Continues(s, t, i)
        {
          assert LinkOk(s, links, i - n);
        }
      }
    }
  }

  lemma LinkContinues(s: Context, t: Context, i: nat)
    requires |s.delegation| + i < |t.delegation| && t.delegation[..|s.delegation|] == s.delegation
    ensures LinkOk(s, t.delegation[|s.delegation|..], i) <==> Continues(s, t, |s.delegation| + i)
  {
    var n, all := |s.delegation|, t.delegation;
    var links := all[n..];
    assert forall j | 0 <= j < n :: all[j] == s.delegation[j];
    assert forall j | 0 <= j < |links| :: links[j] == all[n + j];
    assert forall j | n <= j < |all| :: all[j] == links[j - n];
  }

  method ValidDelegationExtension(source: Context, target: Context) returns (ok: bool)
    ensures ok == ValidExtension(source, target)
  {
    if !(source.delegation <= target.delegation) {
      return false;
    }
    var current, scope := source.principal.id, source.scope;
    var seen := Seen(source);
    var links := target.delegation[|source.delegation|..];
    if links == [] {
      return false;
    }
    for i := 0 to |links|
      invariant current == HolderBefore(source, links, i) && scope == ScopeBefore(source, links, i)
      invariant seen == Seen(source) + set j | 0 <= j < i :: links[j].to
      invariant forall j | 0 <= j < i :: LinkOk(source, links, j)
    {
      var link := links[i];
      if link.from != current || !(link.scope <= scope) || link.to in seen {
        assert !LinkOk(source, links, i);
        return false;
      }
      seen := seen + {link.to};
      current, scope := link.to, link.scope;
    }
    return current == target.principal.id && target.scope <= scope;
  }

  // ---- the relation ----

  predicate AllDistinct(s: seq<Digest>) {
    forall i, j | 0 <= i < j < |s| :: s[i] != s[j]
  }

  /** A causal record without a self-edge or a repeated observation. */
  predicate WellFormed(c: Context) {
    AllDistinct(c.observations) && c.causalParent != Some(c.causalRoot)
  }

  predicate SameIdentity(s: Context, t: Context) {
    && s.requestId == t.requestId && s.tenant == t.tenant
    && s.causalRoot == t.causalRoot && s.causalParent == t.causalParent
    && s.sideEffect == t.sideEffect && s.schema == t.schema && s.traceParent == t.traceParent
    && s.provenance == t.provenance && s.routePolicy == t.routePolicy && s.capability == t.capability
  }

  predicate HistoryExtends(s: Context, t: Context) {
    && s.observations <= t.observations && s.routeDecisions <= t.routeDecisions && s.policyDecisions <= t.policyDecisions
    && s.retryAttempts <= t.retryAttempts && s.budgetDebits <= t.budgetDebits
  }

  predicate AuthorityShrinks(s: Context, t: Context) {
    && t.scope <= s.scope && t.deadline <= s.deadline && t.money <= s.money && t.tokens <= s.tokens && t.retries <= s.retries
    && Rank(s.classification) <= Rank(t.classification)
  }

  predicate SamePrincipal(s: Context, t: Context) {
    s.principal == t.principal && s.delegation == t.delegation
  }

  /** What crossing an adapter boundary must keep. */
  predicate Conserves(s: Context, t: Context) {
    && SameIdentity(s, t) && HistoryExtends(s, t) && AuthorityShrinks(s, t) && WellFormed(t)
    && (SamePrincipal(s, t) || ValidExtension(s, t))
  }

  // ---- how the report is built ----

  datatype Class = Kept | Stronger | Broken

  function Compare(equal: bool, valid: bool): Class {
    if equal then Kept else if valid then Stronger else Broken
  }

  function ClassOf(s: Context, t: Context, id: Invariant): Class {
    match id
    case PrincipalId => Compare(s.principal == t.principal, ValidExtension(s, t))
    case Request => Compare(s.requestId == t.requestId, false)
    case Tenant => Compare(s.tenant == t.tenant, false)
    case CausalRoot => Compare(s.causalRoot == t.causalRoot, false)
    case CausalParent => Compare(s.causalParent == t.causalParent, false)
    case SideEffectContract => Compare(s.sideEffect == t.sideEffect, false)
    case Schema => Compare(s.schema == t.schema, false)
    case TraceParent => Compare(s.traceParent == t.traceParent, false)
    case DataProvenance => Compare(s.provenance == t.provenance, false)
    case RoutePolicy => Compare(s.routePolicy == t.routePolicy, false)
    case Capability => Compare(s.capability == t.capability, false)
    case Delegation => Compare(t.delegation == s.delegation, s.delegation <= t.delegation)
    case CausalObservations => Compare(t.observations == s.observations, s.observations <= t.observations)
    case RouteDecisions => Compare(t.routeDecisions == s.routeDecisions, s.routeDecisions <= t.routeDecisions)
    case PolicyDecisions => Compare(t.policyDecisions == s.policyDecisions, s.policyDecisions <= t.policyDecisions)
    case RetryAttempts => Compare(t.retryAttempts == s.retryAttempts, s.retryAttempts <= t.retryAttempts)
    case BudgetDebits => Compare(t.budgetDebits == s.budgetDebits, s.budgetDebits <= t.budgetDebits)
    case ScopeSet => Compare(t.scope == s.scope, t.scope <= s.scope)
    case Deadline => Compare(t.deadline == s.deadline, t.deadline <= s.deadline)
    case MonetaryBudget => Compare(t.money == s.money, t.money <= s.money)
    case TokenBudget => Compare(t.tokens == s.tokens, t.tokens <= s.tokens)
    case RetryBudget => Compare(t.retries == s.retries, t.retries <= s.retries)
    case DataClassification => Compare(t.classification == s.classification, Rank(s.classification) <= Rank(t.classification))
  }

  /** The place of each of the 23 invariants in the order they are examined. */
  function Index(id: Invariant): nat {
    match id
    case PrincipalId => 0 case Request => 1 case Tenant => 2 case CausalRoot => 3 case CausalParent => 4
    case SideEffectContract => 5 case Schema => 6 case TraceParent => 7 case DataProvenance => 8 case RoutePolicy => 9
    case Capability => 10 case Delegation => 11 case CausalObservations => 12 case RouteDecisions => 13
    case PolicyDecisions => 14 case RetryAttempts => 15 case BudgetDebits => 16 case ScopeSet => 17 case Deadline => 18
    case MonetaryBudget => 19 case TokenBudget => 20 case RetryBudget => 21 case DataClassification => 22
  }

  lemma IndexIsInjective(x: Invariant, y: Invariant)
    requires Index(x) == Index(y)
    ensures x == y
  {
  }

  /** `list` holds, once each, the first `k` invariants whose comparison came out as `class_`. */
  ghost predicate Selected(s: Context, t: Context, k: nat, class_: Class, list: seq<Invariant>) {
    && (forall id :: id in list <==> Index(id) < k && ClassOf(s, t, id) == class_)
    && (forall id :: multiset(list)[id] <= 1)
  }

  /** The code that a broken comparison reports. */
  function CodeOf(id: Invariant): Code {
    match id
    case PrincipalId => PrincipalLost
    case Tenant => TenantChanged
    case Schema => SchemaUnbound
    case Capability => SchemaUnbound
    case RetryAttempts => RetryAmplified
    case RetryBudget => RetryAmplified
    case BudgetDebits => BudgetIncreased
    case MonetaryBudget => BudgetIncreased
    case TokenBudget => BudgetIncreased
    case ScopeSet => ScopeExpanded
    case Deadline => DeadlineExtended
    case DataClassification => DataDowngraded
    case _ => CausalityBroken
  }

  /** The violations after `k` invariants: the broken comparisons, and what the checks beside them added. */
  ghost predicate Flagged(s: Context, t: Context, k: nat, extras: set<Violation>, list: seq<Violation>) {
    forall v :: v in list <==>
      (Index(v.invariant_) < k && ClassOf(s, t, v.invariant_) == Broken && v.code == CodeOf(v.invariant_)) || v in extras
  }

  /** The report after `k` invariants. */
  ghost predicate Tally(s: Context, t: Context, k: nat, extras: set<Violation>, r: Report) {
    && Selected(s, t, k, Kept, r.preserved)
    && Selected(s, t, k, Stronger, r.strengthened)
    && Flagged(s, t, k, extras, r.violations)
  }

  lemma FlaggedGrows(s: Context, t: Context, k: nat, extras: set<Violation>, list: seq<Violation>, id: Invariant)
    requires Flagged(s, t, k, extras, list) && Index(id) == k
    ensures Flagged(s, t, k + 1, extras, if ClassOf(s, t, id) == Broken then list + [Violation(id, CodeOf(id))] else list)
  {
    hide ClassOf, Index, CodeOf;
    forall x | Index(x) == k
      ensures x == id
    {
      IndexIsInjective(x, id);
    }
  }

  lemma SelectedGrows(s: Context, t: Context, k: nat, class_: Class, list: seq<Invariant>, id: Invariant)
    requires Selected(s, t, k, class_, list) && Index(id) == k
    ensures Selected(s, t, k + 1, class_, if ClassOf(s, t, id) == class_ then list + [id] else list)
  {
    hide ClassOf, Index;
    var list' := if ClassOf(s, t, id) == class_ then list + [id] else list;
    assert id !in list;
    forall x
      ensures x in list' <==> Index(x) < k + 1 && ClassOf(s, t, x) == class_
      ensures multiset(list')[x] <= 1
    {
      if Index(x) == k {
        IndexIsInjective(x, id);
      }
      assert multiset(list + [id]) == multiset(list) + multiset{id};
    }
  }

  /** When this violation belongs in the report. */
  predicate Violates(s: Context, t: Context, v: Violation) {
    match v
    case Violation(PrincipalId, PrincipalLost) => s.principal != t.principal && !ValidExtension(s, t)
    case Violation(Request, CausalityBroken) => s.requestId != t.requestId
    case Violation(Tenant, TenantChanged) => s.tenant != t.tenant
    case Violation(CausalRoot, CausalityBroken) => s.causalRoot != t.causalRoot
    case Violation(CausalParent, CausalityBroken) => s.causalParent != t.causalParent
    case Violation(SideEffectContract, CausalityBroken) => s.sideEffect != t.sideEffect
    case Violation(Schema, SchemaUnbound) => s.schema != t.schema
    case Violation(TraceParent, CausalityBroken) => s.traceParent != t.traceParent
    case Violation(DataProvenance, CausalityBroken) => s.provenance != t.provenance
    case Violation(RoutePolicy, CausalityBroken) => s.routePolicy != t.routePolicy
    case Violation(Capability, SchemaUnbound) => s.capability != t.capability
    case Violation(Delegation, CausalityBroken) => !(s.delegation <= t.delegation)
    case Violation(Delegation, PrincipalLost) => |t.delegation| > |s.delegation| && !ValidExtension(s, t)
    case Violation(CausalObservations, CausalityBroken) =>
      || !(s.observations <= t.observations) || t.causalParent == Some(t.causalRoot)
      || exists i, j | 0 <= i < j < |t.observations| :: t.observations[i] == t.observations[j]
    case Violation(RouteDecisions, CausalityBroken) => !(s.routeDecisions <= t.routeDecisions)
    case Violation(PolicyDecisions, CausalityBroken) => !(s.policyDecisions <= t.policyDecisions)
    case Violation(RetryAttempts, RetryAmplified) => !(s.retryAttempts <= t.retryAttempts)
    case Violation(BudgetDebits, BudgetIncreased) => !(s.budgetDebits <= t.budgetDebits)
    case Violation(ScopeSet, ScopeExpanded) => !(t.scope <= s.scope)
    case Violation(Deadline, DeadlineExtended) => t.deadline > s.deadline
    case Violation(MonetaryBudget, BudgetIncreased) => t.money > s.money
    case Violation(TokenBudget, BudgetIncreased) => t.tokens > s.tokens
    case Violation(RetryBudget, RetryAmplified) => t.retries > s.retries
    case Violation(DataClassification, DataDowngraded) => !MayBecome(s.classification, t.classification)
    case _ => false
  }

  /** Pushes one invariant onto the list its comparison belongs to. */
  method Examine(r: Report, equal: bool, valid: bool, id: Invariant, code: Code, ghost s: Context, ghost t: Context, ghost k: nat,
                 ghost extras: set<Violation>)
    returns (r': Report)
    requires Index(id) == k && Tally(s, t, k, extras, r) && ClassOf(s, t, id) == Compare(equal, valid) && code == CodeOf(id)
    ensures Tally(s, t, k + 1, extras, r')
  {
    hide ClassOf, Index, Selected, Flagged, CodeOf;
    SelectedGrows(s, t, k, Kept, r.preserved, id);
    SelectedGrows(s, t, k, Stronger, r.strengthened, id);
    FlaggedGrows(s, t, k, extras, r.violations, id);
    if equal {
      r' := r.(preserved := r.preserved + [id]);
    } else if valid {
      r' := r.(strengthened := r.strengthened + [id]);
    } else {
      r' := r.(violations := r.violations + [Violation(id, code)]);
    }
  }

  /** What the two checks beside the comparisons add. */
  function Extra(failed: bool, id: Invariant, code: Code): set<Violation> {
    if failed then {Violation(id, code)} else {}
  }

  /** Pushes a violation when one of the two checks beside the comparisons fails. */
  method Refuse(r: Report, failed: bool, id: Invariant, code: Code, ghost s: Context, ghost t: Context, ghost k: nat,
                ghost extras: set<Violation>)
    returns (r': Report)
    requires Tally(s, t, k, extras, r)
    ensures Tally(s, t, k, extras + Extra(failed, id, code), r')
  {
    hide ClassOf, Index, Selected, CodeOf;
    r' := if failed then r.(violations := r.violations + [Violation(id, code)]) else r;
  }

  lemma IdentityComparisons(s: Context, t: Context)
    ensures Index(PrincipalId) == 0 && ClassOf(s, t, PrincipalId) == Compare(s.principal == t.principal, ValidExtension(s, t))
    ensures Index(Request) == 1 && ClassOf(s, t, Request) == Compare(s.requestId == t.requestId, false)
    ensures Index(Tenant) == 2 && ClassOf(s, t, Tenant) == Compare(s.tenant == t.tenant, false)
    ensures Index(CausalRoot) == 3 && ClassOf(s, t, CausalRoot) == Compare(s.causalRoot == t.causalRoot, false)
    ensures Index(CausalParent) == 4 && ClassOf(s, t, CausalParent) == Compare(s.causalParent == t.causalParent, false)
  {
    hide Compare, ValidExtension;
  }

  lemma BindingComparisons(s: Context, t: Context)
    ensures Index(SideEffectContract) == 5 && ClassOf(s, t, SideEffectContract) == Compare(s.sideEffect == t.sideEffect, false)
    ensures Index(Schema) == 6 && ClassOf(s, t, Schema) == Compare(s.schema == t.schema, false)
    ensures Index(TraceParent) == 7 && ClassOf(s, t, TraceParent) == Compare(s.traceParent == t.traceParent, false)
    ensures Index(DataProvenance) == 8 && ClassOf(s, t, DataProvenance) == Compare(s.provenance == t.provenance, false)
    ensures Index(RoutePolicy) == 9 && ClassOf(s, t, RoutePolicy) == Compare(s.routePolicy == t.routePolicy, false)
    ensures Index(Capability) == 10 && ClassOf(s, t, Capability) == Compare(s.capability == t.capability, false)
  {
    hide Compare, ValidExtension;
  }

  method ExamineIdentity(s: Context, t: Context, extended: bool) returns (r: Report)
    requires extended == ValidExtension(s, t)
    ensures Tally(s, t, 11, {}, r)
  {
    hide ValidExtension, Tally, ClassOf, Compare, Index;
    IdentityComparisons(s, t);
    EmptyTally(s, t);
    r := Report([], [], []);
    r := Examine(r, s.principal == t.principal, extended, PrincipalId, PrincipalLost, s, t, 0, {});
    r := Examine(r, s.requestId == t.requestId, false, Request, CausalityBroken, s, t, 1, {});
    r := Examine(r, s.tenant == t.tenant, false, Tenant, TenantChanged, s, t, 2, {});
    r := Examine(r, s.causalRoot == t.causalRoot, false, CausalRoot, CausalityBroken, s, t, 3, {});
    r := Examine(r, s.causalParent == t.causalParent, false, CausalParent, CausalityBroken, s, t, 4, {});
    r := ExamineBinding(s, t, r);
  }

  method ExamineBinding(s: Context, t: Context, r0: Report) returns (r: Report)
    requires Tally(s, t, 5, {}, r0)
    ensures Tally(s, t, 11, {}, r)
  {
    hide ValidExtension, Tally, ClassOf, Compare, Index;
    BindingComparisons(s, t);
    r := Examine(r0, s.sideEffect == t.sideEffect, false, SideEffectContract, CausalityBroken, s, t, 5, {});
    r := Examine(r, s.schema == t.schema, false, Schema, SchemaUnbound, s, t, 6, {});
    r := Examine(r, s.traceParent == t.traceParent, false, TraceParent, CausalityBroken, s, t, 7, {});
    r := Examine(r, s.provenance == t.provenance, false, DataProvenance, CausalityBroken, s, t, 8, {});
    r := Examine(r, s.routePolicy == t.routePolicy, false, RoutePolicy, CausalityBroken, s, t, 9, {});
    r := Examine(r, s.capability == t.capability, false, Capability, SchemaUnbound, s, t, 10, {});
  }

  lemma EmptyTally(s: Context, t: Context)
    ensures Tally(s, t, 0, {}, Report([], [], []))
  {
  }

  /** Neither check beside the comparisons fails. */
  predicate ExtrasPass(s: Context, t: Context) {
    && (|t.delegation| > |s.delegation| ==> ValidExtension(s, t))
    && WellFormed(t)
  }

  function Extras(s: Context, t: Context): set<Violation> {
    Extra(|t.delegation| > |s.delegation| && !ValidExtension(s, t), Delegation, PrincipalLost)
    + Extra(!WellFormed(t), CausalObservations, CausalityBroken)
  }

  lemma HistoryComparisons(s: Context, t: Context)
    ensures Index(Delegation) == 11 && ClassOf(s, t, Delegation) == Compare(t.delegation == s.delegation, s.delegation <= t.delegation)
    ensures Index(CausalObservations) == 12
         && ClassOf(s, t, CausalObservations) == Compare(t.observations == s.observations, s.observations <= t.observations)
    ensures Index(RouteDecisions) == 13
         && ClassOf(s, t, RouteDecisions) == Compare(t.routeDecisions == s.routeDecisions, s.routeDecisions <= t.routeDecisions)
    ensures Index(PolicyDecisions) == 14
         && ClassOf(s, t, PolicyDecisions) == Compare(t.policyDecisions == s.policyDecisions, s.policyDecisions <= t.policyDecisions)
    ensures Index(RetryAttempts) == 15
         && ClassOf(s, t, RetryAttempts) == Compare(t.retryAttempts == s.retryAttempts, s.retryAttempts <= t.retryAttempts)
    ensures Index(BudgetDebits) == 16
         && ClassOf(s, t, BudgetDebits) == Compare(t.budgetDebits == s.budgetDebits, s.budgetDebits <= t.budgetDebits)
  {
    hide Compare, ValidExtension;
  }

  /** The delegation chain, and the two checks beside the comparisons. */
  method ExamineDelegation(s: Context, t: Context, extended: bool, r0: Report) returns (r: Report)
    requires extended == ValidExtension(s, t) && Tally(s, t, 11, {}, r0)
    ensures Tally(s, t, 12, Extras(s, t), r)
  {
    hide ValidExtension, Tally, ClassOf, Compare, Index;
    HistoryComparisons(s, t);
    r := Examine(r0, t.delegation == s.delegation, s.delegation <= t.delegation, Delegation, CausalityBroken, s, t, 11, {});
    var broken := |t.delegation| > |s.delegation| && !extended;
    r := Refuse(r, broken, Delegation, PrincipalLost, s, t, 12, {});
    r := Refuse(r, !WellFormed(t), CausalObservations, CausalityBroken, s, t, 12, {} + Extra(broken, Delegation, PrincipalLost));
    assert {} + Extra(broken, Delegation, PrincipalLost) + Extra(!WellFormed(t), CausalObservations, CausalityBroken) == Extras(s, t);
  }

  method ExamineHistory(s: Context, t: Context, r0: Report) returns (r: Report)
    requires Tally(s, t, 12, Extras(s, t), r0)
    ensures Tally(s, t, 17, Extras(s, t), r)
  {
    hide Extras, Tally, ClassOf, Compare, Index;
    HistoryComparisons(s, t);
    ghost var extras := Extras(s, t);
    r := Examine(r0, t.observations == s.observations, s.observations <= t.observations, CausalObservations, CausalityBroken, s, t, 12, extras);
    r := Examine(r, t.routeDecisions == s.routeDecisions, s.routeDecisions <= t.routeDecisions, RouteDecisions, CausalityBroken, s, t, 13, extras);
    r := Examine(r, t.policyDecisions == s.policyDecisions, s.policyDecisions <= t.policyDecisions, PolicyDecisions, CausalityBroken, s, t, 14, extras);
    r := Examine(r, t.retryAttempts == s.retryAttempts, s.retryAttempts <= t.retryAttempts, RetryAttempts, RetryAmplified, s, t, 15, extras);
    r := Examine(r, t.budgetDebits == s.budgetDebits, s.budgetDebits <= t.budgetDebits, BudgetDebits, BudgetIncreased, s, t, 16, extras);
  }

  method ExamineAuthority(s: Context, t: Context, r0: Report) returns (r: Report)
    requires Tally(s, t, 17, Extras(s, t), r0)
    ensures Tally(s, t, 23, Extras(s, t), r)
  {
    hide ValidExtension, Tally, Extras;
    ghost var extras := Extras(s, t);
    r := Examine(r0, t.scope == s.scope, t.scope <= s.scope, ScopeSet, ScopeExpanded, s, t, 17, extras);
    r := Examine(r, t.deadline == s.deadline, t.deadline <= s.deadline, Deadline, DeadlineExtended, s, t, 18, extras);
    r := Examine(r, t.money == s.money, t.money <= s.money, MonetaryBudget, BudgetIncreased, s, t, 19, extras);
    r := Examine(r, t.tokens == s.tokens, t.tokens <= s.tokens, TokenBudget, BudgetIncreased, s, t, 20, extras);
    r := Examine(r, t.retries == s.retries, t.retries <= s.retries, RetryBudget, RetryAmplified, s, t, 21, extras);
    r := Examine(r, t.classification == s.classification, Rank(s.classification) <= Rank(t.classification),
                 DataClassification, DataDowngraded, s, t, 22, extras);
  }

  /** No comparison is broken and the extra checks pass exactly when the relation holds. */
  lemma PassesIffConserves(s: Context, t: Context)
    ensures (ExtrasPass(s, t) && forall id :: ClassOf(s, t, id) != Broken) <==> Conserves(s, t)
  {
    hide ClassOf, HistoryExtends, AuthorityShrinks, SameIdentity, ValidExtension;
    IdentityClasses(s, t);
    HistoryClasses(s, t);
    AuthorityClasses(s, t);
    PrincipalClasses(s, t);
    if Conserves(s, t) {
      forall id
        ensures ClassOf(s, t, id) != Broken
      {
        match id {
          case Request => case PrincipalId => case Tenant => case ScopeSet => case Deadline => case MonetaryBudget =>
          case TokenBudget => case RetryBudget => case DataClassification => case CausalRoot => case CausalParent =>
          case Capability => case SideEffectContract => case Schema => case TraceParent => case DataProvenance =>
          case RoutePolicy => case Delegation => case CausalObservations => case RouteDecisions => case PolicyDecisions =>
          case RetryAttempts => case BudgetDebits =>
        }
      }
    }
  }

  lemma IdentityClasses(s: Context, t: Context)
    ensures SameIdentity(s, t) <==>
              && ClassOf(s, t, Request) != Broken && ClassOf(s, t, Tenant) != Broken && ClassOf(s, t, CausalRoot) != Broken
              && ClassOf(s, t, CausalParent) != Broken && ClassOf(s, t, SideEffectContract) != Broken && ClassOf(s, t, Schema) != Broken
              && ClassOf(s, t, TraceParent) != Broken && ClassOf(s, t, DataProvenance) != Broken
              && ClassOf(s, t, RoutePolicy) != Broken && ClassOf(s, t, Capability) != Broken
  {
  }

  lemma HistoryClasses(s: Context, t: Context)
    ensures HistoryExtends(s, t) <==>
              && ClassOf(s, t, CausalObservations) != Broken && ClassOf(s, t, RouteDecisions) != Broken
              && ClassOf(s, t, PolicyDecisions) != Broken && ClassOf(s, t, RetryAttempts) != Broken
              && ClassOf(s, t, BudgetDebits) != Broken
  {
  }

  lemma AuthorityClasses(s: Context, t: Context)
    ensures AuthorityShrinks(s, t) <==>
              && ClassOf(s, t, ScopeSet) != Broken && ClassOf(s, t, Deadline) != Broken && ClassOf(s, t, MonetaryBudget) != Broken
              && ClassOf(s, t, TokenBudget) != Broken && ClassOf(s, t, RetryBudget) != Broken
              && ClassOf(s, t, DataClassification) != Broken
  {
  }

  lemma PrincipalClasses(s: Context, t: Context)
    ensures (ClassOf(s, t, PrincipalId) != Broken && ClassOf(s, t, Delegation) != Broken
             && (|t.delegation| > |s.delegation| ==> ValidExtension(s, t)))
       <==> (SamePrincipal(s, t) || ValidExtension(s, t))
  {
    ExtensionChangesPrincipal(s, t);
    hide ValidExtension;
  }

  /** A delegation always ends at somebody new, and it always adds a link. */
  lemma ExtensionChangesPrincipal(s: Context, t: Context)
    ensures ValidExtension(s, t) ==> t.principal.id != s.principal.id && |t.delegation| > |s.delegation| && s.delegation <= t.delegation
  {
    if ValidExtension(s, t) {
      var links := t.delegation[|s.delegation|..];
      assert LinkOk(s, links, |links| - 1);
    }
  }

  /**
   * The report passes exactly when the relation holds; each invariant is listed at most once as
   * preserved or strengthened, and in a passing report all of the 23 are.
   */
  method Conserve(s: Context, t: Context) returns (r: Report)
    ensures r.violations == [] <==> Conserves(s, t)
    ensures forall v :: v in r.violations <==> Violates(s, t, v)
    ensures forall id :: id in r.preserved <==> Unchanged(s, t, id)
    ensures forall id :: id in r.preserved <==> ClassOf(s, t, id) == Kept
    ensures forall id :: id in r.strengthened <==> ClassOf(s, t, id) == Stronger
    ensures forall id :: multiset(r.preserved + r.strengthened)[id] <= 1
    ensures r.violations == [] ==> forall id :: multiset(r.preserved + r.strengthened)[id] == 1
  {
    hide ClassOf, Extras, ExtrasPass, Conserves, Index, Violates, Unchanged, CodeOf;
    var extended := ValidDelegationExtension(s, t);
    r := ExamineIdentity(s, t, extended);
    r := ExamineDelegation(s, t, extended, r);
    r := ExamineHistory(s, t, r);
    r := ExamineAuthority(s, t, r);
    PassesIffConserves(s, t);
    forall id
      ensures ClassOf(s, t, id) == Kept <==> Unchanged(s, t, id)
    {
      KeptIsUnchanged(s, t, id);
    }
    forall id
      ensures Index(id) < 23
    {
      IndexIsBounded(id);
    }
    assert Flagged(s, t, 23, Extras(s, t), r.violations);
    forall v
      ensures v in r.violations <==> Violates(s, t, v)
    {
      FlaggedIsViolation(s, t, v);
    }
    NoneFlagged(s, t, r.violations);
    assert multiset(r.preserved + r.strengthened) == multiset(r.preserved) + multiset(r.strengthened);
    assert Selected(s, t, 23, Kept, r.preserved) && Selected(s, t, 23, Stronger, r.strengthened);
    forall id
      ensures multiset(r.preserved + r.strengthened)[id] == if ClassOf(s, t, id) == Broken then 0 else 1
    {
      assert id in multiset(r.preserved) <==> id in r.preserved;
      assert id in multiset(r.strengthened) <==> id in r.strengthened;
    }
  }

  /** The field an invariant speaks of is the same on both sides. */
  predicate Unchanged(s: Context, t: Context, id: Invariant) {
    match id
    case Request => s.requestId == t.requestId
    case PrincipalId => s.principal == t.principal
    case Tenant => s.tenant == t.tenant
    case ScopeSet => s.scope == t.scope
    case Deadline => s.deadline == t.deadline
    case MonetaryBudget => s.money == t.money
    case TokenBudget => s.tokens == t.tokens
    case RetryBudget => s.retries == t.retries
    case DataClassification => s.classification == t.classification
    case CausalRoot => s.causalRoot == t.causalRoot
    case CausalParent => s.causalParent == t.causalParent
    case Capability => s.capability == t.capability
    case SideEffectContract => s.sideEffect == t.sideEffect
    case Schema => s.schema == t.schema
    case TraceParent => s.traceParent == t.traceParent
    case DataProvenance => s.provenance == t.provenance
    case RoutePolicy => s.routePolicy == t.routePolicy
    case Delegation => s.delegation == t.delegation
    case CausalObservations => s.observations == t.observations
    case RouteDecisions => s.routeDecisions == t.routeDecisions
    case PolicyDecisions => s.policyDecisions == t.policyDecisions
    case RetryAttempts => s.retryAttempts == t.retryAttempts
    case BudgetDebits => s.budgetDebits == t.budgetDebits
  }

  lemma FlaggedIsViolation(s: Context, t: Context, v: Violation)
    ensures (ClassOf(s, t, v.invariant_) == Broken && v.code == CodeOf(v.invariant_)) || v in Extras(s, t) <==> Violates(s, t, v)
  {
    hide ValidExtension;
  }

  lemma NoneFlagged(s: Context, t: Context, list: seq<Violation>)
    requires Flagged(s, t, 23, Extras(s, t), list) && forall id :: Index(id) < 23
    ensures list == [] <==> ExtrasPass(s, t) && forall id :: ClassOf(s, t, id) != Broken
  {
    hide ClassOf, ValidExtension, WellFormed, Index, CodeOf;
    if list != [] {
      assert list[0] in list;
    }
    if !ExtrasPass(s, t) {
      assert Violation(Delegation, PrincipalLost) in Extras(s, t) || Violation(CausalObservations, CausalityBroken) in Extras(s, t);
    }
    if id :| ClassOf(s, t, id) == Broken {
      assert Violation(id, CodeOf(id)) in list;
    }
  }

  lemma KeptIsUnchanged(s: Context, t: Context, id: Invariant)
    ensures ClassOf(s, t, id) == Kept <==> Unchanged(s, t, id)
  {
    hide ValidExtension;
  }

  lemma IndexIsBounded(id: Invariant)
    ensures Index(id) < 23
  {
  }

  // ---- a preorder ----

  /** A context passes against itself exactly when its own causal record is well formed. */
  lemma ConservesReflexive(c: Context)
    ensures Conserves(c, c) <==> WellFormed(c)
  {
  }

  lemma ExtensionAfterShrink(a: Context, b: Context, c: Context)
    requires SamePrincipal(a, b) && b.scope <= a.scope && ValidExtension(b, c)
    ensures ValidExtension(a, c)
  {
    var links := c.delegation[|b.delegation|..];
    assert Seen(a) == Seen(b);
    forall i | 0 <= i < |links|
      ensures LinkOk(a, links, i)
    {
      assert LinkOk(b, links, i);
    }
  }

  lemma ExtensionThenShrink(a: Context, b: Context, c: Context)
    requires ValidExtension(a, b) && SamePrincipal(b, c) && c.scope <= b.scope
    ensures ValidExtension(a, c)
  {
  }

  /** Everybody on the way is already known to the middle context. */
  lemma MiddleHasSeen(a: Context, b: Context)
    requires ValidExtension(a, b)
    ensures Seen(a) <= Seen(b)
    ensures forall i | 0 <= i < |b.delegation| :: b.delegation[i].to in Seen(b)
  {
    var n := |a.delegation|;
    var links := b.delegation[n..];
    forall i | 0 <= i < n
      ensures a.delegation[i] == b.delegation[i]
    {
    }
    assert LinkOk(a, links, 0) && links[0] == b.delegation[n];
  }

  /** Two delegation walks end to end are one walk. */
  lemma ExtensionsCompose(a: Context, b: Context, c: Context)
    requires ValidExtension(a, b) && ValidExtension(b, c)
    ensures ValidExtension(a, c)
  {
    var n, m := |a.delegation|, |b.delegation|;
    var first, second, all := b.delegation[n..], c.delegation[m..], c.delegation[n..];
    assert b.delegation == c.delegation[..m] && a.delegation == b.delegation[..n];
    assert a.delegation == c.delegation[..n];
    assert all == first + second;
    MiddleHasSeen(a, b);
    forall i | 0 <= i < |all|
      ensures LinkOk(a, all, i)
    {
      if i < |first| {
        assert LinkOk(a, first, i);
      } else {
        ComposedLink(a, b, first, second, i - |first|);
      }
    }
  }

  lemma ComposedLink(a: Context, b: Context, first: seq<Link>, second: seq<Link>, i: nat)
    requires i < |second| && first != [] && LinkOk(b, second, i) && Seen(a) <= Seen(b)
    requires forall k | 0 <= k < |first| :: first[k].to in Seen(b)
    requires HolderBefore(a, first, |first|) == b.principal.id && b.scope <= ScopeBefore(a, first, |first|)
    ensures LinkOk(a, first + second, |first| + i)
  {
    hide Seen;
    var all, n := first + second, |first| + i;
    assert all[n] == second[i];
    if i > 0 {
      assert all[n - 1] == second[i - 1];
    }
    forall j | 0 <= j < n
      ensures all[j].to != all[n].to
    {
      if j >= |first| {
        assert all[j] == second[j - |first|];
      }
    }
  }

  lemma PrefixTransitive<T>(x: seq<T>, y: seq<T>, z: seq<T>)
    requires x <= y && y <= z
    ensures x <= z
  {
    assert y == z[..|y|] && x == y[..|x|];
  }

  lemma HistoryTransitive(a: Context, b: Context, c: Context)
    requires HistoryExtends(a, b) && HistoryExtends(b, c)
    ensures HistoryExtends(a, c)
  {
    PrefixTransitive(a.observations, b.observations, c.observations);
    PrefixTransitive(a.routeDecisions, b.routeDecisions, c.routeDecisions);
    PrefixTransitive(a.policyDecisions, b.policyDecisions, c.policyDecisions);
    PrefixTransitive(a.retryAttempts, b.retryAttempts, c.retryAttempts);
    PrefixTransitive(a.budgetDebits, b.budgetDebits, c.budgetDebits);
  }

  /** Passing composes: two boundaries crossed in turn conserve what one would. */
  lemma ConservesTransitive(a: Context, b: Context, c: Context)
    requires Conserves(a, b) && Conserves(b, c)
    ensures Conserves(a, c)
  {
    hide HistoryExtends, ValidExtension, WellFormed;
    HistoryTransitive(a, b, c);
    if ValidExtension(a, b) && ValidExtension(b, c) {
      ExtensionsCompose(a, b, c);
    } else if ValidExtension(a, b) {
      ExtensionThenShrink(a, b, c);
    } else if ValidExtension(b, c) {
      ExtensionAfterShrink(a, b, c);
    }
  }

  /** Any chain of adapters whose every hop passes also passes end to end. */
  lemma {:induction false} ChainConserves(chain: seq<Context>)
    requires |chain| > 0 && WellFormed(chain[0])
    requires forall i | 0 < i < |chain| :: Conserves(chain[i - 1], chain[i])
    ensures Conserves(chain[0], chain[|chain| - 1])
  {
    hide Conserves;
    var n := |chain|;
    if n == 1 {
      ConservesReflexive(chain[0]);
    } else {
      ChainConserves(chain[..n - 1]);
      assert Conserves(chain[n - 2], chain[n - 1]);
      ConservesTransitive(chain[0], chain[n - 2], chain[n - 1]);
    }
  }

  // ---- what a classification may become ----

  /** Changing nothing but the classification of a well-formed context passes for exactly these pairs. */
  lemma ClassificationLaw(c: Context, to: Classification)
    requires WellFormed(c)
    ensures Conserves(c, c.(classification := to)) <==>
              match (c.classification, to)
              case (Public, _) => true
              case (Internal, Public) => false
              case (Internal, _) => true
              case (Confidential, Confidential) => true
              case (Confidential, Restricted) => true
              case (Confidential, _) => false
              case (Restricted, x) => x.Restricted?
  {
    hide ValidExtension;
    var t := c.(classification := to);
    assert t.observations == c.observations;
  }

  lemma PassingMayBecome(s: Context, t: Context)
    requires Conserves(s, t)
    ensures MayBecome(s.classification, t.classification)
  {
    hide SameIdentity, HistoryExtends, ValidExtension, WellFormed;
  }

  /**
   * Along any chain of passing hops a restricted context stays restricted, a confidential one never
   * becomes internal, and none that was not public becomes public.
   */
  lemma ChainKeepsClassification(chain: seq<Context>, i: nat, j: nat)
    requires i <= j < |chain| && forall k | 0 < k < |chain| :: Conserves(chain[k - 1], chain[k])
    ensures MayBecome(chain[i].classification, chain[j].classification)
    decreases j - i
  {
    hide Conserves;
    if i < j {
      ChainKeepsClassification(chain, i, j - 1);
      PassingMayBecome(chain[j - 1], chain[j]);
    }
  }
}
