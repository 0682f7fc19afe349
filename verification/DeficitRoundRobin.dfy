/** The deficit round robin scheduler: its queues, what every operation keeps, and how fair it is. */
module DeficitRoundRobin {
  import opened Common

  const MAX_COST: nat := 10_000

  datatype Item<T> = Item(cost: nat, value: T)

  datatype Queue<T> = Queue(tenant: string, deficit: nat, quantum: nat, items: seq<Item<T>>)

  datatype Limits = Limits(perTenant: nat, tenants: nat)

  datatype Overloaded = Overloaded(retryAfter: nat)

  type Rotation<T> = seq<Queue<T>>

  /** An item together with the tenant it belongs to. */
  datatype Entry<T> = Entry(tenant: string, item: Item<T>)

  // ---- what every operation keeps ----

  predicate QueueOk<T>(q: Queue<T>, limits: Limits) {
    && q.tenant != "" && q.quantum == 1
    && 1 <= |q.items| <= limits.perTenant
    && (forall k | 0 <= k < |q.items| :: 1 <= q.items[k].cost <= MAX_COST)
    && q.deficit < q.items[0].cost
  }

  predicate Distinct<T>(r: Rotation<T>) {
    forall i, j | 0 <= i < j < |r| :: r[i].tenant != r[j].tenant
  }

  /** No stored queue is empty, no tenant appears twice, and every deficit is below the front cost. */
  predicate RotationOk<T>(r: Rotation<T>, limits: Limits) {
    && |r| <= limits.tenants
    && Distinct(r)
    && forall i | 0 <= i < |r| :: QueueOk(r[i], limits)
  }

  function Total<T>(r: Rotation<T>): nat {
    if r == [] then 0 else |r[0].items| + Total(r[1..])
  }

  // ---- one visit and one pop ----

  function Credited<T>(q: Queue<T>): Queue<T> {
    q.(deficit := q.deficit + q.quantum)
  }

  predicate Affordable<T>(q: Queue<T>) {
    q.items != [] && q.items[0].cost <= q.deficit
  }

  function AfterService<T>(q: Queue<T>): Queue<T>
    requires Affordable(q)
  {
    q.(deficit := q.deficit - q.items[0].cost, items := q.items[1..])
  }

  /** The front queue gets its quantum; if it can then pay for its front item, that item is served. */
  function Visit<T>(r: Rotation<T>): (Rotation<T>, Option<Entry<T>>)
    requires r != []
  {
    var q := Credited(r[0]);
    if Affordable(q) then
      (r[1..] + (if |q.items| > 1 then [AfterService(q)] else []), Some(Entry(q.tenant, q.items[0])))
    else (r[1..] + [q], None)
  }

  /** Up to `n` visits, stopping at the first service. */
  function Sweep<T>(r: Rotation<T>, n: nat): (Rotation<T>, Option<Entry<T>>)
    requires n <= |r|
    decreases n
  {
    if n == 0 then (r, None)
    else
      var (next, served) := Visit(r);
      if served.Some? then (next, served) else Sweep(next, n - 1)
  }

  function PopOne<T>(r: Rotation<T>): (Rotation<T>, Option<Entry<T>>) {
    Sweep(r, |r|)
  }

  // ---- push ----

  function Tenants<T>(r: Rotation<T>): set<string> {
    set i | 0 <= i < |r| :: r[i].tenant
  }

  function Position<T>(r: Rotation<T>, tenant: string): nat
    requires tenant in Tenants(r)
    ensures Position(r, tenant) < |r| && r[Position(r, tenant)].tenant == tenant
  {
    if r[0].tenant == tenant then 0
    else
      assert r[1..] == r[1..] && tenant in Tenants(r[1..]) by {
        var i :| 0 <= i < |r| && r[i].tenant == tenant;
        assert r[1..][i - 1].tenant == tenant;
      }
      1 + Position(r[1..], tenant)
  }

  function WithItem<T>(q: Queue<T>, item: Item<T>): Queue<T> {
    q.(items := q.items + [item])
  }

  function PushOne<T>(r: Rotation<T>, limits: Limits, tenant: string, cost: nat, value: T): Result<Rotation<T>, Overloaded> {
    if tenant == "" || cost > MAX_COST then Err(Overloaded(100))
    else
      var item := Item(Max(cost, 1), value);
      if tenant in Tenants(r) then
        var i := Position(r, tenant);
        if |r[i].items| >= limits.perTenant then Err(Overloaded(100)) else Ok(r[i := WithItem(r[i], item)])
      else if |r| >= limits.tenants then Err(Overloaded(100))
      else Ok(r + [Queue(tenant, 0, 1, [item])])
  }

  // ---- preservation ----

  lemma VisitKeepsOk<T>(r: Rotation<T>, limits: Limits)
    requires RotationOk(r, limits) && r != []
    ensures RotationOk(Visit(r).0, limits)
  {
    var r' := Visit(r).0;
    forall i | 0 <= i < |r'|
      ensures QueueOk(r'[i], limits) && (i < |r| - 1 ==> r'[i] == r[i + 1])
    {
      assert QueueOk(r[0], limits);
      if i < |r| - 1 {
        assert r'[i] == r[i + 1];
      }
    }
  }

  lemma {:induction false} SweepKeepsOk<T>(r: Rotation<T>, limits: Limits, n: nat)
    requires RotationOk(r, limits) && n <= |r|
    ensures RotationOk(Sweep(r, n).0, limits)
    decreases n
  {
    if n > 0 {
      VisitKeepsOk(r, limits);
      if Visit(r).1.None? {
        SweepKeepsOk(Visit(r).0, limits, n - 1);
      }
    }
  }

  lemma PushKeepsOk<T>(r: Rotation<T>, limits: Limits, tenant: string, cost: nat, value: T)
    requires RotationOk(r, limits) && limits.perTenant > 0
    ensures var p := PushOne(r, limits, tenant, cost, value); p.Ok? ==> RotationOk(p.value, limits)
  {
    var p := PushOne(r, limits, tenant, cost, value);
    if p.Ok? && tenant !in Tenants(r) {
      assert forall i | 0 <= i < |r| :: r[i].tenant in Tenants(r);
    }
  }

  lemma {:induction false} TotalAppend<T>(a: Rotation<T>, b: Rotation<T>)
    ensures Total(a + b) == Total(a) + Total(b)
  {
    if a == [] {
      assert a + b == b;
    } else {
      assert (a + b)[1..] == a[1..] + b;
      TotalAppend(a[1..], b);
    }
  }

  lemma TotalReplaced<T>(r: Rotation<T>, i: nat, q: Queue<T>)
    requires i < |r|
    ensures Total(r[i := q]) == Total(r) - |r[i].items| + |q.items|
  {
    assert r[i := q] == r[..i] + ([q] + r[i + 1..]);
    assert r == r[..i] + ([r[i]] + r[i + 1..]);
    TotalAppend(r[..i], [q] + r[i + 1..]);
    TotalAppend(r[..i], [r[i]] + r[i + 1..]);
  }

  lemma VisitTotal<T>(r: Rotation<T>)
    requires r != []
    ensures Total(r) == Total(Visit(r).0) + (if Visit(r).1.Some? then 1 else 0)
  {
    var q := Credited(r[0]);
    var back := if !Affordable(q) then [q] else if |q.items| > 1 then [AfterService(q)] else [];
    TotalAppend(r[1..], back);
    assert Visit(r).0 == r[1..] + back;
  }

  lemma {:induction false} SweepTotal<T>(r: Rotation<T>, n: nat)
    requires n <= |r|
    ensures Total(r) == Total(Sweep(r, n).0) + (if Sweep(r, n).1.Some? then 1 else 0)
    decreases n
  {
    if n > 0 {
      VisitTotal(r);
      if Visit(r).1.None? {
        SweepTotal(Visit(r).0, n - 1);
      }
    }
  }

  lemma PushTotal<T>(r: Rotation<T>, limits: Limits, tenant: string, cost: nat, value: T)
    ensures var p := PushOne(r, limits, tenant, cost, value); p.Ok? ==> Total(p.value) == Total(r) + 1
  {
    var p := PushOne(r, limits, tenant, cost, value);
    if p.Ok? {
      if tenant in Tenants(r) {
        var i := Position(r, tenant);
        TotalReplaced(r, i, WithItem(r[i], Item(Max(cost, 1), value)));
      } else {
        TotalAppend(r, [Queue(tenant, 0, 1, [Item(Max(cost, 1), value)])]);
      }
    }
  }

  // ---- the scheduler itself ----

  class Scheduler<T> {
    var tenants: Rotation<T>
    const limits: Limits
    var totalItems: nat

    ghost predicate Valid()
      reads this
    {
      RotationOk(tenants, limits) && limits.perTenant > 0 && limits.tenants > 0 && totalItems == Total(tenants)
    }

    constructor (maxPerTenant: nat, maxTenants: nat)
      requires maxPerTenant > 0 && maxTenants > 0
      ensures Valid() && tenants == [] && limits == Limits(maxPerTenant, maxTenants)
    {
      tenants := [];
      limits := Limits(maxPerTenant, maxTenants);
      totalItems := 0;
    }

    method Push(tenant: string, cost: nat, value: T) returns (result: Result<(), Overloaded>)
      requires Valid()
      modifies this
      ensures Valid()
      ensures match PushOne(old(tenants), limits, tenant, cost, value)
              case Err(e) => result == Err(e) && tenants == old(tenants)
              case Ok(r) => result == Ok(()) && tenants == r
    {
      PushKeepsOk(tenants, limits, tenant, cost, value);
      PushTotal(tenants, limits, tenant, cost, value);
      if tenant == "" || cost > MAX_COST || (tenant !in Tenants(tenants) && |tenants| >= limits.tenants) {
        return Err(Overloaded(100));
      }
      var item := Item(Max(cost, 1), value);
      if tenant in Tenants(tenants) {
        var position := Position(tenants, tenant);
        if |tenants[position].items| >= limits.perTenant {
          return Err(Overloaded(100));
        }
        tenants := tenants[position := WithItem(tenants[position], item)];
      } else {
        tenants := tenants + [Queue(tenant, 0, 1, [item])];
      }
      totalItems := totalItems + 1;
      return Ok(());
    }

    method Pop() returns (value: Option<T>)
      requires Valid()
      modifies this
      ensures Valid()
      ensures tenants == PopOne(old(tenants)).0
      ensures value == match PopOne(old(tenants)).1 case None => None case Some(e) => Some(e.item.value)
      ensures totalItems == old(totalItems) - (if value.Some? then 1 else 0)
    {
      SweepKeepsOk(tenants, limits, |tenants|);
      SweepTotal(tenants, |tenants|);
      var n := |tenants|;
      for i := 0 to n
        invariant RotationOk(tenants, limits) && |tenants| == n && totalItems == old(totalItems)
        invariant Sweep(tenants, n - i) == PopOne(old(tenants))
      {
        var queue := tenants[0];
        assert QueueOk(queue, limits);
        VisitKeepsOk(tenants, limits);
        VisitTotal(tenants);
        ghost var before := tenants;
        tenants := tenants[1..];
        queue := queue.(deficit := SaturatingAdd(queue.deficit, queue.quantum));
        if queue.items[0].cost <= queue.deficit {
          var Item(cost, served) := queue.items[0];
          queue := queue.(items := queue.items[1..], deficit := queue.deficit - cost);
          totalItems := SaturatingSub(totalItems, 1);
          if queue.items != [] {
            tenants := tenants + [queue];
          }
          assert tenants == Visit(before).0;
          return Some(served);
        }
        tenants := tenants + [queue];
      }
      return None;
    }
  }

  // ---- a pop that serves nothing ----

  function AllCredited<T>(r: Rotation<T>): Rotation<T> {
    seq(|r|, i requires 0 <= i < |r| => Credited(r[i]))
  }

  lemma {:induction false} FruitlessSweep<T>(r: Rotation<T>, n: nat)
    requires n <= |r| && Sweep(r, n).1.None?
    ensures Sweep(r, n).0 == r[n..] + AllCredited(r[..n])
    decreases n
  {
    if n > 0 {
      FruitlessSweep(Visit(r).0, n - 1);
      assert Visit(r).0[n - 1..] == r[n..] + [Credited(r[0])];
      assert Visit(r).0[..n - 1] == r[1..n];
      assert AllCredited(r[..n]) == [Credited(r[0])] + AllCredited(r[1..n]);
    }
  }

  /** A pop that answers nothing leaves every queue in place, each with one more credit. */
  lemma FruitlessPop<T>(r: Rotation<T>)
    requires PopOne(r).1.None?
    ensures PopOne(r).0 == AllCredited(r)
  {
    FruitlessSweep(r, |r|);
    assert r[..|r|] == r;
  }

  // ---- whole runs: conservation and order ----

  datatype Op<T> = Push(tenant: string, cost: nat, value: T) | Pop

  /** The scheduler together with everything it has accepted and served so far. */
  datatype Log<T> = Log(rotation: Rotation<T>, accepted: seq<Entry<T>>, served: seq<Entry<T>>)

  function Apply<T>(log: Log<T>, limits: Limits, op: Op<T>): Log<T> {
    match op
    case Push(tenant, cost, value) =>
      (match PushOne(log.rotation, limits, tenant, cost, value)
       case Err(_) => log
       case Ok(r) => log.(rotation := r, accepted := log.accepted + [Entry(tenant, Item(Max(cost, 1), value))]))
    case Pop =>
      var (r, served) := PopOne(log.rotation);
      log.(rotation := r, served := log.served + OptionSeq(served))
  }

  function Run<T>(start: Rotation<T>, limits: Limits, ops: seq<Op<T>>): Log<T> {
    if ops == [] then Log(start, [], [])
    else Apply(Run(start, limits, ops[..|ops| - 1]), limits, ops[|ops| - 1])
  }

  /** One tenant's items, in order. */
  function ItemsOf<T>(entries: seq<Entry<T>>, tenant: string): seq<Item<T>> {
    if entries == [] then []
    else
      var last := entries[|entries| - 1];
      ItemsOf(entries[..|entries| - 1], tenant) + (if last.tenant == tenant then [last.item] else [])
  }

  function Queued<T>(r: Rotation<T>, tenant: string): seq<Item<T>> {
    if tenant in Tenants(r) then r[Position(r, tenant)].items else []
  }

  lemma PositionIs<T>(r: Rotation<T>, i: nat)
    requires Distinct(r) && i < |r|
    ensures r[i].tenant in Tenants(r) && Position(r, r[i].tenant) == i
  {
    assert r[i].tenant in Tenants(r);
  }

  lemma QueuedIs<T>(r: Rotation<T>, i: nat)
    requires Distinct(r) && i < |r|
    ensures Queued(r, r[i].tenant) == r[i].items
  {
    PositionIs(r, i);
  }

  lemma ItemsOfAppend<T>(entries: seq<Entry<T>>, e: Entry<T>, tenant: string)
    ensures ItemsOf(entries + [e], tenant) == ItemsOf(entries, tenant) + (if e.tenant == tenant then [e.item] else [])
  {
    assert (entries + [e])[..|entries|] == entries;
  }

  function OptionSeq<T>(e: Option<T>): seq<T> {
    if e.Some? then [e.value] else []
  }

  function ServedItem<T>(e: Option<Entry<T>>, tenant: string): seq<Item<T>> {
    if e.Some? && e.value.tenant == tenant then [e.value.item] else []
  }

  lemma ItemsOfServed<T>(entries: seq<Entry<T>>, e: Option<Entry<T>>, tenant: string)
    ensures ItemsOf(entries + OptionSeq(e), tenant) == ItemsOf(entries, tenant) + ServedItem(e, tenant)
  {
    if e.Some? {
      ItemsOfAppend(entries, e.value, tenant);
    } else {
      assert entries + OptionSeq(e) == entries;
    }
  }

  lemma VisitConserves<T>(r: Rotation<T>, limits: Limits, tenant: string)
    requires RotationOk(r, limits) && r != []
    ensures Queued(r, tenant) == ServedItem(Visit(r).1, tenant) + Queued(Visit(r).0, tenant)
  {
    var r' := Visit(r).0;
    assert QueueOk(r[0], limits);
    VisitKeepsOk(r, limits);
    if tenant in Tenants(r) {
      var i := Position(r, tenant);
      if i > 0 {
        assert r'[i - 1] == r[i];
        QueuedIs(r', i - 1);
        assert r[0].tenant != tenant;
      } else if |r'| == |r| {
        QueuedIs(r', |r| - 1);
      } else {
        forall j | 0 <= j < |r'|
          ensures r'[j].tenant != tenant
        {
          assert r'[j] == r[j + 1];
        }
      }
    } else {
      assert forall j | 0 <= j < |r| :: r[j].tenant in Tenants(r);
      forall j | 0 <= j < |r'|
        ensures r'[j].tenant != tenant
      {
        assert j < |r| - 1 ==> r'[j] == r[j + 1];
      }
    }
  }

  lemma {:induction false} SweepConserves<T>(r: Rotation<T>, limits: Limits, n: nat, tenant: string)
    requires RotationOk(r, limits) && n <= |r|
    ensures Queued(r, tenant) == ServedItem(Sweep(r, n).1, tenant) + Queued(Sweep(r, n).0, tenant)
    decreases n
  {
    if n > 0 {
      VisitConserves(r, limits, tenant);
      VisitKeepsOk(r, limits);
      if Visit(r).1.None? {
        SweepConserves(Visit(r).0, limits, n - 1, tenant);
      }
    }
  }

  lemma PushConserves<T>(r: Rotation<T>, limits: Limits, name: string, cost: nat, value: T, tenant: string)
    requires RotationOk(r, limits) && limits.perTenant > 0 && PushOne(r, limits, name, cost, value).Ok?
    ensures Queued(PushOne(r, limits, name, cost, value).value, tenant)
         == Queued(r, tenant) + (if name == tenant then [Item(Max(cost, 1), value)] else [])
  {
    var r' := PushOne(r, limits, name, cost, value).value;
    PushKeepsOk(r, limits, name, cost, value);
    assert forall i | 0 <= i < |r'| :: r'[i].tenant in Tenants(r');
    assert forall i | 0 <= i < |r| :: r'[i].tenant == r[i].tenant;
    assert name in Tenants(r') by {
      if name !in Tenants(r) {
        assert r'[|r|].tenant == name;
      }
    }
    if tenant in Tenants(r') {
      var i := Position(r', tenant);
      if i < |r| {
        QueuedIs(r, i);
        assert name in Tenants(r) ==> (i == Position(r, name) <==> name == tenant) by {
          if name in Tenants(r) {
            PositionIs(r, i);
          }
        }
        if name == tenant {
          PositionIs(r, i);
        }
      } else {
        assert tenant !in Tenants(r);
      }
    }
  }

  lemma {:induction false} RunKeepsOk<T>(start: Rotation<T>, limits: Limits, ops: seq<Op<T>>)
    requires RotationOk(start, limits) && limits.perTenant > 0
    ensures RotationOk(Run(start, limits, ops).rotation, limits)
  {
    if ops != [] {
      var before := Run(start, limits, ops[..|ops| - 1]).rotation;
      RunKeepsOk(start, limits, ops[..|ops| - 1]);
      match ops[|ops| - 1] {
        case Push(tenant, cost, value) => PushKeepsOk(before, limits, tenant, cost, value);
        case Pop => SweepKeepsOk(before, limits, |before|);
      }
    }
  }

  /**
   * Over any sequence of pushes and pops, what a tenant had queued followed by what was accepted
   * for it is what was served to it followed by what it still has queued, in the same order.
   */
  lemma {:induction false} ItemsAreConservedInOrder<T>(start: Rotation<T>, limits: Limits, ops: seq<Op<T>>, tenant: string)
    requires RotationOk(start, limits) && limits.perTenant > 0
    ensures var log := Run(start, limits, ops);
      Queued(start, tenant) + ItemsOf(log.accepted, tenant) == ItemsOf(log.served, tenant) + Queued(log.rotation, tenant)
  {
    if ops != [] {
      hide Apply, Queued, RotationOk;
      var before := Run(start, limits, ops[..|ops| - 1]);
      var after := Apply(before, limits, ops[|ops| - 1]);
      assert after == Run(start, limits, ops);
      hide Run, ItemsOf;
      ItemsAreConservedInOrder(start, limits, ops[..|ops| - 1], tenant);
      RunKeepsOk(start, limits, ops[..|ops| - 1]);
      var x, y := ApplyConserves(before, limits, ops[|ops| - 1], tenant);
      MovesCompose(Queued(start, tenant), ItemsOf(before.accepted, tenant), ItemsOf(before.served, tenant),
                   Queued(before.rotation, tenant), x, y, Queued(after.rotation, tenant));
    } else {
      assert Queued(start, tenant) + [] == [] + Queued(start, tenant);
    }
  }

  lemma MovesCompose<T>(start: seq<T>, accepted: seq<T>, served: seq<T>, queued: seq<T>, x: seq<T>, y: seq<T>, queued': seq<T>)
    requires start + accepted == served + queued && queued + x == y + queued'
    ensures start + (accepted + x) == (served + y) + queued'
  {
    calc {
      start + (accepted + x);
      (start + accepted) + x;
      (served + queued) + x;
      served + (queued + x);
      served + (y + queued');
      (served + y) + queued';
    }
  }

  /** One operation moves `x` in at the back and `y` out at the front. */
  lemma ApplyConserves<T>(log: Log<T>, limits: Limits, op: Op<T>, tenant: string) returns (x: seq<Item<T>>, y: seq<Item<T>>)
    requires RotationOk(log.rotation, limits) && limits.perTenant > 0
    ensures var after := Apply(log, limits, op);
      && ItemsOf(after.accepted, tenant) == ItemsOf(log.accepted, tenant) + x
      && ItemsOf(after.served, tenant) == ItemsOf(log.served, tenant) + y
      && Queued(log.rotation, tenant) + x == y + Queued(after.rotation, tenant)
  {
    hide RotationOk, Queued, ItemsOf, PushOne, PopOne, Sweep;
    x, y := [], [];
    match op {
      case Push(name, cost, value) =>
        if PushOne(log.rotation, limits, name, cost, value).Ok? {
          PushConserves(log.rotation, limits, name, cost, value, tenant);
          ItemsOfAppend(log.accepted, Entry(name, Item(Max(cost, 1), value)), tenant);
          if name == tenant {
            x := [Item(Max(cost, 1), value)];
          }
        }
      case Pop =>
        PopConserves(log.rotation, limits, tenant);
        var served := PopOne(log.rotation).1;
        ItemsOfServed(log.served, served, tenant);
        y := ServedItem(served, tenant);
    }
  }

  lemma PopConserves<T>(r: Rotation<T>, limits: Limits, tenant: string)
    requires RotationOk(r, limits)
    ensures Queued(r, tenant) == ServedItem(PopOne(r).1, tenant) + Queued(PopOne(r).0, tenant)
  {
    SweepConserves(r, limits, |r|, tenant);
  }

  /**
   * Exactly when a push is accepted: for a named tenant, at a cost of at most 10,000, with room in the
   * tenant's queue or, for a new tenant, in the rotation. It then joins the end of its tenant's queue
   * at a cost of at least one, and no tenant changes its place.
   */
  lemma PushAccepted<T>(r: Rotation<T>, limits: Limits, tenant: string, cost: nat, value: T)
    requires RotationOk(r, limits) && limits.perTenant > 0
    ensures var p := PushOne(r, limits, tenant, cost, value);
      && (p.Ok? <==> tenant != "" && cost <= 10_000
                     && (if Queued(r, tenant) == [] then |r| < limits.tenants else |Queued(r, tenant)| < limits.perTenant))
      && (p.Err? ==> p.error.retryAfter == 100)
      && (p.Ok? ==>
            && Queued(p.value, tenant) == Queued(r, tenant) + [Item(if cost == 0 then 1 else cost, value)]
            && (forall other | other != tenant :: Queued(p.value, other) == Queued(r, other))
            && |r| <= |p.value| <= |r| + 1
            && forall i | 0 <= i < |r| :: p.value[i].tenant == r[i].tenant && p.value[i].deficit == r[i].deficit)
  {
    assert Queued(r, tenant) == [] <==> tenant !in Tenants(r) by {
      if tenant in Tenants(r) {
        assert QueueOk(r[Position(r, tenant)], limits);
      }
    }
    var p := PushOne(r, limits, tenant, cost, value);
    if p.Ok? {
      PushConserves(r, limits, tenant, cost, value, tenant);
      forall other | other != tenant
        ensures Queued(p.value, other) == Queued(r, other)
      {
        PushConserves(r, limits, tenant, cost, value, other);
      }
    }
  }

  // ---- no starvation ----

  function Deficit<T>(r: Rotation<T>, tenant: string): nat
    requires tenant in Tenants(r)
  {
    r[Position(r, tenant)].deficit
  }

  /** An upper bound on the visits that remain until the tenant's front item is served. */
  function Wait<T>(r: Rotation<T>, limits: Limits, tenant: string): int
    requires tenant in Tenants(r) && RotationOk(r, limits)
  {
    var i := Position(r, tenant);
    assert QueueOk(r[i], limits);
    (r[i].items[0].cost - r[i].deficit - 1) * limits.tenants + i + 1
  }

  predicate ServedTo<T>(e: Option<Entry<T>>, tenant: string) {
    e.Some? && e.value.tenant == tenant
  }

  lemma WaitOneRound(c: nat, n: nat, m: nat)
    requires c >= 1 && n <= m
    ensures 0 <= (c - 1) * m && (c - 1) * m + n <= c * m
  {
  }

  lemma VisitShortensWait<T>(r: Rotation<T>, limits: Limits, tenant: string)
    requires RotationOk(r, limits) && tenant in Tenants(r) && !ServedTo(Visit(r).1, tenant)
    ensures RotationOk(Visit(r).0, limits) && tenant in Tenants(Visit(r).0)
    ensures Wait(Visit(r).0, limits, tenant) < Wait(r, limits, tenant)
  {
    var r' := Visit(r).0;
    var i := Position(r, tenant);
    assert QueueOk(r[i], limits);
    VisitKeepsOk(r, limits);
    if i > 0 {
      assert r'[i - 1] == r[i];
      PositionIs(r', i - 1);
    } else {
      assert r'[|r| - 1] == Credited(r[0]);
      PositionIs(r', |r| - 1);
      WaitOneRound(r[0].items[0].cost - r[0].deficit - 1, |r|, limits.tenants);
    }
  }

  lemma {:induction false} SweepShortensWait<T>(r: Rotation<T>, limits: Limits, n: nat, tenant: string)
    requires RotationOk(r, limits) && tenant in Tenants(r) && 1 <= n <= |r| && !ServedTo(Sweep(r, n).1, tenant)
    ensures RotationOk(Sweep(r, n).0, limits) && tenant in Tenants(Sweep(r, n).0)
    ensures Wait(Sweep(r, n).0, limits, tenant) < Wait(r, limits, tenant)
    decreases n
  {
    VisitShortensWait(r, limits, tenant);
    if Visit(r).1.None? && n > 1 {
      SweepShortensWait(Visit(r).0, limits, n - 1, tenant);
    }
  }

  lemma PushKeepsWait<T>(r: Rotation<T>, limits: Limits, name: string, cost: nat, value: T, tenant: string)
    requires RotationOk(r, limits) && limits.perTenant > 0 && tenant in Tenants(r) && PushOne(r, limits, name, cost, value).Ok?
    ensures var r' := PushOne(r, limits, name, cost, value).value;
      RotationOk(r', limits) && tenant in Tenants(r') && Wait(r', limits, tenant) == Wait(r, limits, tenant)
  {
    var r' := PushOne(r, limits, name, cost, value).value;
    PushKeepsOk(r, limits, name, cost, value);
    var i := Position(r, tenant);
    assert QueueOk(r[i], limits);
    assert r'[i].tenant == tenant && r'[i].deficit == r[i].deficit && r'[i].items[0] == r[i].items[0];
    PositionIs(r', i);
  }

  function Pops<T>(ops: seq<Op<T>>): nat {
    if ops == [] then 0 else Pops(ops[..|ops| - 1]) + (if ops[|ops| - 1].Pop? then 1 else 0)
  }

  lemma {:induction false} UnservedTenantWaits<T>(start: Rotation<T>, limits: Limits, ops: seq<Op<T>>, tenant: string)
    requires RotationOk(start, limits) && limits.perTenant > 0 && tenant in Tenants(start)
    requires ItemsOf(Run(start, limits, ops).served, tenant) == []
    ensures RotationOk(Run(start, limits, ops).rotation, limits) && tenant in Tenants(Run(start, limits, ops).rotation)
    ensures Wait(Run(start, limits, ops).rotation, limits, tenant) + Pops(ops) <= Wait(start, limits, tenant)
  {
    if ops != [] {
      var before := Run(start, limits, ops[..|ops| - 1]);
      match ops[|ops| - 1] {
        case Push(name, cost, value) =>
          UnservedTenantWaits(start, limits, ops[..|ops| - 1], tenant);
          if PushOne(before.rotation, limits, name, cost, value).Ok? {
            PushKeepsWait(before.rotation, limits, name, cost, value, tenant);
          }
        case Pop =>
          var served := PopOne(before.rotation).1;
          ItemsOfServed(before.served, served, tenant);
          UnservedTenantWaits(start, limits, ops[..|ops| - 1], tenant);
          SweepShortensWait(before.rotation, limits, |before.rotation|, tenant);
      }
    }
  }

  lemma WaitIsPositive<T>(r: Rotation<T>, limits: Limits, tenant: string)
    requires RotationOk(r, limits) && tenant in Tenants(r)
    ensures 0 < Wait(r, limits, tenant)
    ensures Wait(r, limits, tenant) <= (Queued(r, tenant)[0].cost - Deficit(r, tenant)) * limits.tenants
  {
    var i := Position(r, tenant);
    assert QueueOk(r[i], limits);
    hide RotationOk, QueueOk, Position, Tenants;
    WaitOneRound(r[i].items[0].cost - r[i].deficit, i + 1, limits.tenants);
  }

  /**
   * Whatever is pushed meanwhile, a tenant's front item is served within (cost - deficit) times
   * the tenant limit pops, and it is the first item that tenant is served.
   */
  lemma FrontItemIsServed<T>(start: Rotation<T>, limits: Limits, ops: seq<Op<T>>, tenant: string)
    requires RotationOk(start, limits) && limits.perTenant > 0 && tenant in Tenants(start)
    requires Pops(ops) >= (Queued(start, tenant)[0].cost - Deficit(start, tenant)) * limits.tenants
    ensures ItemsOf(Run(start, limits, ops).served, tenant) != []
    ensures ItemsOf(Run(start, limits, ops).served, tenant)[0] == Queued(start, tenant)[0]
  {
    var log := Run(start, limits, ops);
    if ItemsOf(log.served, tenant) == [] {
      UnservedTenantWaits(start, limits, ops, tenant);
      WaitIsPositive(log.rotation, limits, tenant);
      WaitIsPositive(start, limits, tenant);
      assert false;
    }
    assert QueueOk(start[Position(start, tenant)], limits);
    ItemsAreConservedInOrder(start, limits, ops, tenant);
    var a, b := Queued(start, tenant) + ItemsOf(log.accepted, tenant), ItemsOf(log.served, tenant) + Queued(log.rotation, tenant);
    assert a[0] == Queued(start, tenant)[0] && b[0] == ItemsOf(log.served, tenant)[0];
  }

  lemma {:induction false} SweepSettles<T>(r: Rotation<T>, limits: Limits, n: nat, tenant: string)
    requires RotationOk(r, limits) && n <= |r|
    requires ServedTo(Sweep(r, n).1, tenant) && tenant in Tenants(Sweep(r, n).0)
    ensures Deficit(Sweep(r, n).0, tenant) == 0
    decreases n
  {
    VisitKeepsOk(r, limits);
    if Visit(r).1.Some? {
      var i, i' := VisitMoves(r, limits, tenant);
      assert QueueOk(r[0], limits);
      PositionIs(Visit(r).0, i');
    } else {
      SweepSettles(Visit(r).0, limits, n - 1, tenant);
    }
  }

  /** Service uses a tenant's credit up exactly: nothing is carried over to its next item. */
  lemma ServiceUsesExactCredit<T>(r: Rotation<T>, limits: Limits, tenant: string)
    requires RotationOk(r, limits) && ServedTo(PopOne(r).1, tenant) && tenant in Tenants(PopOne(r).0)
    ensures Deficit(PopOne(r).0, tenant) == 0
  {
    SweepSettles(r, limits, |r|, tenant);
  }

  // ---- fairness ----

  function Cost<T>(items: seq<Item<T>>): nat {
    if items == [] then 0 else Cost(items[..|items| - 1]) + items[|items| - 1].cost
  }

  /** Which of two tenants is next to be visited, and how far their deficits are apart. */
  function Balance<T>(r: Rotation<T>, a: string, b: string): int
    requires a in Tenants(r) && b in Tenants(r)
  {
    (if Position(r, a) < Position(r, b) then 0 else 1) - Deficit(r, a) + Deficit(r, b)
  }

  lemma BalanceAt<T>(r: Rotation<T>, i: nat, j: nat)
    requires Distinct(r) && i < |r| && j < |r|
    ensures r[i].tenant in Tenants(r) && r[j].tenant in Tenants(r)
    ensures Balance(r, r[i].tenant, r[j].tenant) == (if i < j then 0 else 1) - r[i].deficit + r[j].deficit
  {
    PositionIs(r, i);
    PositionIs(r, j);
  }

  /** Where a tenant's queue is after a visit, and what it paid for. */
  lemma VisitMoves<T>(r: Rotation<T>, limits: Limits, t: string) returns (i: nat, i': nat)
    requires RotationOk(r, limits) && t in Tenants(r) && t in Tenants(Visit(r).0)
    ensures i < |r| && r[i].tenant == t && i' < |Visit(r).0| && Visit(r).0[i'].tenant == t
    ensures i > 0 ==> i' == i - 1 && Visit(r).0[i'].deficit == r[i].deficit && !ServedTo(Visit(r).1, t)
    ensures i == 0 ==> i' == |r| - 1 && Visit(r).0[i'].deficit == r[0].deficit + 1 - Cost(ServedItem(Visit(r).1, t))
  {
    var r' := Visit(r).0;
    VisitKeepsOk(r, limits);
    i := Position(r, t);
    assert QueueOk(r[i], limits);
    if i > 0 {
      i' := i - 1;
      assert r'[i'] == r[i];
      assert r[0].tenant != t;
    } else {
      i' := |r| - 1;
      var p := Position(r', t);
      assert p < |r| - 1 ==> r'[p] == r[p + 1];
    }
  }

  lemma VisitBalances<T>(r: Rotation<T>, limits: Limits, a: string, b: string)
    requires RotationOk(r, limits) && a != b && a in Tenants(r) && b in Tenants(r)
    requires a in Tenants(Visit(r).0) && b in Tenants(Visit(r).0)
    ensures Cost(ServedItem(Visit(r).1, a)) - Cost(ServedItem(Visit(r).1, b))
         == Balance(Visit(r).0, a, b) - Balance(r, a, b)
  {
    VisitKeepsOk(r, limits);
    var i, i' := VisitMoves(r, limits, a);
    var j, j' := VisitMoves(r, limits, b);
    BalanceAt(r, i, j);
    BalanceAt(Visit(r).0, i', j');
  }

  /** Visits only remove tenants. */
  lemma {:induction false} SweepOnlyRemoves<T>(r: Rotation<T>, n: nat)
    requires n <= |r|
    ensures Tenants(Sweep(r, n).0) <= Tenants(r)
    decreases n
  {
    if n > 0 {
      var r' := Visit(r).0;
      forall t | t in Tenants(r')
        ensures t in Tenants(r)
      {
        var i := Position(r', t);
        assert i < |r| - 1 ==> r'[i] == r[i + 1];
      }
      if Visit(r).1.None? {
        SweepOnlyRemoves(r', n - 1);
      }
    }
  }

  lemma {:induction false} SweepBalances<T>(r: Rotation<T>, limits: Limits, n: nat, a: string, b: string)
    requires RotationOk(r, limits) && n <= |r| && a != b && a in Tenants(r) && b in Tenants(r)
    requires a in Tenants(Sweep(r, n).0) && b in Tenants(Sweep(r, n).0)
    ensures Cost(ServedItem(Sweep(r, n).1, a)) - Cost(ServedItem(Sweep(r, n).1, b))
         == Balance(Sweep(r, n).0, a, b) - Balance(r, a, b)
    decreases n
  {
    if n > 0 {
      VisitKeepsOk(r, limits);
      if Visit(r).1.None? {
        SweepOnlyRemoves(Visit(r).0, n - 1);
        VisitBalances(r, limits, a, b);
        SweepBalances(Visit(r).0, limits, n - 1, a, b);
      } else {
        VisitBalances(r, limits, a, b);
      }
    }
  }

  lemma PushKeepsBalance<T>(r: Rotation<T>, limits: Limits, name: string, cost: nat, value: T, a: string, b: string)
    requires RotationOk(r, limits) && limits.perTenant > 0 && a in Tenants(r) && b in Tenants(r)
    requires PushOne(r, limits, name, cost, value).Ok?
    ensures var r' := PushOne(r, limits, name, cost, value).value;
      a in Tenants(r') && b in Tenants(r') && Balance(r', a, b) == Balance(r, a, b)
  {
    var r' := PushOne(r, limits, name, cost, value).value;
    PushKeepsOk(r, limits, name, cost, value);
    var i, j := Position(r, a), Position(r, b);
    assert r'[i].tenant == a && r'[i].deficit == r[i].deficit;
    assert r'[j].tenant == b && r'[j].deficit == r[j].deficit;
    BalanceAt(r', i, j);
  }

  function After<T>(start: Rotation<T>, limits: Limits, ops: seq<Op<T>>, k: nat): Rotation<T>
    requires k <= |ops|
  {
    Run(start, limits, ops[..k]).rotation
  }

  /** The tenant has work queued at the start and after every operation. */
  ghost predicate Backlogged<T>(start: Rotation<T>, limits: Limits, ops: seq<Op<T>>, tenant: string) {
    forall k | 0 <= k <= |ops| :: tenant in Tenants(After(start, limits, ops, k))
  }

  lemma BackloggedPrefix<T>(start: Rotation<T>, limits: Limits, ops: seq<Op<T>>, tenant: string)
    requires Backlogged(start, limits, ops, tenant)
    ensures tenant in Tenants(Run(start, limits, ops).rotation) && tenant in Tenants(start)
    ensures ops != [] ==> Backlogged(start, limits, ops[..|ops| - 1], tenant)
  {
    hide Tenants;
    assert ops[..|ops|] == ops && ops[..0] == [];
    assert tenant in Tenants(After(start, limits, ops, 0)) && tenant in Tenants(After(start, limits, ops, |ops|));
    if ops != [] {
      var shorter := ops[..|ops| - 1];
      forall k | 0 <= k <= |shorter|
        ensures tenant in Tenants(After(start, limits, shorter, k))
      {
        assert shorter[..k] == ops[..k];
        assert tenant in Tenants(After(start, limits, ops, k));
      }
    }
  }

  function ServedCost<T>(log: Log<T>, tenant: string): nat {
    Cost(ItemsOf(log.served, tenant))
  }

  lemma ServedCostGrows<T>(log: Log<T>, e: Option<Entry<T>>, tenant: string)
    ensures ServedCost(log.(served := log.served + OptionSeq(e)), tenant)
         == ServedCost(log, tenant) + Cost(ServedItem(e, tenant))
  {
    ItemsOfServed(log.served, e, tenant);
    var items := ItemsOf(log.served, tenant);
    if ServedTo(e, tenant) {
      assert (items + [e.value.item])[..|items|] == items && [e.value.item][..0] == [];
    } else {
      assert items + [] == items;
    }
  }

  /** Exact accounting: the difference in cost served is the change in balance. */
  lemma {:induction false} ServedCostsBalance<T>(start: Rotation<T>, limits: Limits, ops: seq<Op<T>>, a: string, b: string)
    requires RotationOk(start, limits) && limits.perTenant > 0 && a != b
    requires Backlogged(start, limits, ops, a) && Backlogged(start, limits, ops, b)
    ensures var log := Run(start, limits, ops);
      && a in Tenants(start) && b in Tenants(start) && a in Tenants(log.rotation) && b in Tenants(log.rotation)
      && ServedCost(log, a) - ServedCost(log, b) == Balance(log.rotation, a, b) - Balance(start, a, b)
  {
    BackloggedPrefix(start, limits, ops, a);
    BackloggedPrefix(start, limits, ops, b);
    if ops != [] {
      var before := Run(start, limits, ops[..|ops| - 1]);
      ServedCostsBalance(start, limits, ops[..|ops| - 1], a, b);
      RunKeepsOk(start, limits, ops[..|ops| - 1]);
      match ops[|ops| - 1] {
        case Push(name, cost, value) =>
          if PushOne(before.rotation, limits, name, cost, value).Ok? {
            PushKeepsBalance(before.rotation, limits, name, cost, value, a, b);
          }
        case Pop =>
          SweepBalances(before.rotation, limits, |before.rotation|, a, b);
          ServedCostGrows(before, PopOne(before.rotation).1, a);
          ServedCostGrows(before, PopOne(before.rotation).1, b);
      }
    }
  }

  /** While two tenants both stay backlogged, the costs served to them differ by less than 20,000. */
  lemma BackloggedTenantsShareFairly<T>(start: Rotation<T>, limits: Limits, ops: seq<Op<T>>, a: string, b: string)
    requires RotationOk(start, limits) && limits.perTenant > 0 && a != b
    requires Backlogged(start, limits, ops, a) && Backlogged(start, limits, ops, b)
    ensures var log := Run(start, limits, ops); -20_000 < ServedCost(log, a) - ServedCost(log, b) < 20_000
  {
    var log := Run(start, limits, ops);
    ServedCostsBalance(start, limits, ops, a, b);
    RunKeepsOk(start, limits, ops);
    forall r: Rotation<T>, t | r in {start, log.rotation} && t in {a, b}
      ensures Deficit(r, t) < MAX_COST
    {
      assert QueueOk(r[Position(r, t)], limits);
    }
  }
}
