/** One plan, its entries in two orders: which edges, read by refs, the two filings wire. */
module PlanOrder {
  import opened Text
  import opened Beads
  import opened Plans
  import opened Holders
  import opened Filing
  import opened FilingLaws
  import opened Reordering
  import opened Cycles
  import opened FilePlan
  import opened FilePlanLaws
  import Refiling

  /* ---- what is declared, read by refs ---- */

  /** The entry has a dependency of this name. */
  predicate DependsOn(e: Entry, name: string) {
    exists dep <- e.dependsOn :: Trim(dep) == name
  }

  /** The entry has a dependency on a bead of this id that is not a ref of the plan. */
  predicate NamesOutside(p: Plan, e: Entry, id: string) {
    id !in RawRefs(p) && DependsOn(e, id)
  }

  /** Every ref has a bead, no two the same one, and all have names. */
  ghost predicate OwnBeads(p: Plan, filed: map<string, string>, ids: seq<string>) {
    && |ids| == |p.entries| && Knows(filed, RawRefs(p), ids)
    && Distinct(ids) && Distinct(RawRefs(p)) && forall id <- ids :: !Blank(id)
  }

  /** A dependency's blocker is a ref's bead exactly when it is that ref, or else that bead's id. */
  lemma BlockerIff(p: Plan, filed: map<string, string>, ids: seq<string>, dep: string, j: nat)
    requires OwnBeads(p, filed, ids) && j < |ids|
    ensures Blocker(filed, dep) == ids[j] <==>
            Trim(dep) == p.entries[j].ref || (Trim(dep) !in RawRefs(p) && Trim(dep) == ids[j])
  {
    var names := RawRefs(p);
    assert names[..|ids|] == names;
    assert names[j] in Members(names);
    if Trim(dep) in filed {
      assert Trim(dep) in Members(names);
      var l :| 0 <= l < |names| && names[l] == Trim(dep);
      assert l == j <==> ids[l] == ids[j];
      assert l == j <==> names[l] == names[j];
    } else {
      assert Trim(dep) !in Members(names);
    }
  }

  lemma EdgeIff(p: Plan, filed: map<string, string>, ids: seq<string>, i: nat, dep: string, x: string)
    requires OwnBeads(p, filed, ids) && i < |ids|
    ensures (ids[i], x) in EdgeOf(filed, p.entries[i], dep) <==> Blocker(filed, dep) == x && !Blank(x) && x != ids[i]
    ensures forall edge <- EdgeOf(filed, p.entries[i], dep) :: edge.0 == ids[i]
  {
    assert RawRefs(p)[i] == p.entries[i].ref;
  }

  /** An edge from a ref's bead is declared exactly by a dependency of that ref. */
  lemma DeclaredIff(p: Plan, filed: map<string, string>, ids: seq<string>, i: nat, x: string)
    requires OwnBeads(p, filed, ids) && i < |ids|
    ensures (ids[i], x) in Declared(p, filed) <==>
            !Blank(x) && x != ids[i] && exists dep <- p.entries[i].dependsOn :: Blocker(filed, dep) == x
  {
    if (ids[i], x) in Declared(p, filed) {
      var a, b := DeclaredByDependency(p, filed, |p.entries|, 0, (ids[i], x));
      EdgeIff(p, filed, ids, a, p.entries[a].dependsOn[b], x);
      assert ids[a] == ids[i] && a == i;
      assert p.entries[i].dependsOn[b] in p.entries[i].dependsOn;
    }
    if !Blank(x) && x != ids[i] && exists dep <- p.entries[i].dependsOn :: Blocker(filed, dep) == x {
      var dep :| dep in p.entries[i].dependsOn && Blocker(filed, dep) == x;
      var b :| 0 <= b < |p.entries[i].dependsOn| && p.entries[i].dependsOn[b] == dep;
      EdgeIff(p, filed, ids, i, dep, x);
      DependencyDeclared(p, filed, i, b);
    }
  }

  /** Between two refs of the plan: one depends on the other by its ref, or by its bead's id. */
  lemma EdgeBetweenRefsIff(p: Plan, filed: map<string, string>, ids: seq<string>, i: nat, j: nat)
    requires OwnBeads(p, filed, ids) && i < |ids| && j < |ids|
    ensures (ids[i], ids[j]) in Declared(p, filed) <==>
            i != j && (DependsOn(p.entries[i], p.entries[j].ref) || NamesOutside(p, p.entries[i], ids[j]))
  {
    DeclaredIff(p, filed, ids, i, ids[j]);
    forall dep <- p.entries[i].dependsOn
      ensures Blocker(filed, dep) == ids[j] <==>
              Trim(dep) == p.entries[j].ref || (Trim(dep) !in RawRefs(p) && Trim(dep) == ids[j])
    {
      BlockerIff(p, filed, ids, dep, j);
    }
    assert i != j <==> ids[i] != ids[j];
  }

  /** To anything that is no bead of the plan: by its id, and in no other way. */
  lemma EdgeOutsideIff(p: Plan, filed: map<string, string>, ids: seq<string>, i: nat, x: string)
    requires OwnBeads(p, filed, ids) && i < |ids| && x !in ids
    ensures (ids[i], x) in Declared(p, filed) <==> !Blank(x) && NamesOutside(p, p.entries[i], x)
  {
    DeclaredIff(p, filed, ids, i, x);
    forall dep <- p.entries[i].dependsOn
      ensures Blocker(filed, dep) == x <==> Trim(dep) !in RawRefs(p) && Trim(dep) == x
    {
      BlockerOutside(p, filed, ids, dep, x);
    }
  }

  lemma BlockerOutside(p: Plan, filed: map<string, string>, ids: seq<string>, dep: string, x: string)
    requires OwnBeads(p, filed, ids) && x !in ids
    ensures Blocker(filed, dep) == x <==> Trim(dep) !in RawRefs(p) && Trim(dep) == x
  {
    var names := RawRefs(p);
    assert names[..|ids|] == names;
    assert Trim(dep) in filed <==> Trim(dep) in Members(names);
    if Trim(dep) in filed {
      var l :| 0 <= l < |names| && names[l] == Trim(dep);
      assert filed[names[l]] == ids[l] && ids[l] in ids;
    }
  }

  /* ---- which bead a ref gets ---- */

  /** How many of the first `n` entries find no bead. */
  function Creations(g: Graph, os: seq<Order>, n: nat): nat
    requires n <= |os|
  {
    if n == 0 then 0 else Creations(g, os, n - 1) + if HomeOf(g, os[n - 1]) < |g.beads| then 0 else 1
  }

  /** The id of entry `i`'s bead, told from the graph before the filing. */
  function PlannedId(g: Graph, os: seq<Order>, i: nat, tool: Tool): string
    requires i < |os|
  {
    var home := HomeOf(g, os[i]);
    if home < |g.beads| then g.beads[home].id else tool.mint(g.minted + Creations(g, os, i))
  }

  lemma {:induction false} MintedSoFar(gs: seq<Graph>, os: seq<Order>, n: nat, tool: Tool)
    requires Trail(gs, os, tool) && KeysDistinct(os) && Unentangled(gs[0], os) && n < |gs|
    ensures gs[n].minted == gs[0].minted + Creations(gs[0], os, n)
  {
    if n > 0 {
      MintedSoFar(gs, os, n - 1, tool);
      LandsAtHome(gs, os, n - 1, tool);
      assert Next(gs, os, n - 1, tool);
      StepKeepsIds(gs[n - 1], os[n - 1], tool);
    }
  }

  /** In a plan whose entries keep off each other's beads, each ref's id can be told beforehand. */
  lemma IdsAreAsPlanned(gs: seq<Graph>, os: seq<Order>, i: nat, tool: Tool)
    requires Trail(gs, os, tool) && KeysDistinct(os) && Unentangled(gs[0], os) && i < |gs| - 1
    ensures IdAt(gs, os, i) == PlannedId(gs[0], os, i, tool)
  {
    MintedSoFar(gs, os, i, tool);
    IdOfTheBead(gs, os, i, tool);
    EachEntryHasItsEffect(gs, os, i, tool);
  }

  lemma IdsDiffer(gs: seq<Graph>, os: seq<Order>, i: nat, j: nat, tool: Tool)
    requires Trail(gs, os, tool) && KeysDistinct(os) && Unentangled(gs[0], os) && Sound(Last(gs), tool) && i < j < |gs| - 1
    ensures IdAt(gs, os, i) != IdAt(gs, os, j)
  {
    TargetsDistinct(gs, os, i, j, tool);
    IdOfTheBead(gs, os, i, tool);
    IdOfTheBead(gs, os, j, tool);
  }

  /** Such a filing gives every ref a bead of its own. */
  lemma FilingGivesOwnBeads(p: Plan, one: Record, out: seq<Filed>, tool: Tool)
    requires Whole(one, p, out, tool) && Distinct(RawRefs(p))
    requires KeysDistinct(OrdersOf(p)) && Unentangled(one.gs[0], OrdersOf(p))
    ensures OwnBeads(p, one.filed, Ids(one.gs, OrdersOf(p)))
  {
    var os, ids := OrdersOf(p), Ids(one.gs, OrdersOf(p));
    forall i, j | 0 <= i < j < |ids|
      ensures ids[i] != ids[j]
    {
      IdsDiffer(one.gs, os, i, j, tool);
    }
    forall i | 0 <= i < |ids|
      ensures !Blank(ids[i])
    {
      IdOfTheBead(one.gs, os, i, tool);
    }
  }

  /* ---- another order ---- */

  /** Entry `j` of `q` is entry `f[j]` of `p`. */
  ghost predicate Permutes(p: Plan, q: Plan, f: seq<nat>) {
    && q.project == p.project && |f| == |q.entries| == |p.entries| && Injective(f)
    && forall j :: 0 <= j < |f| ==> f[j] < |f| && q.entries[j] == p.entries[f[j]]
  }

  ghost predicate Injective(f: seq<nat>) {
    forall i, j :: 0 <= i < j < |f| ==> f[i] != f[j]
  }

  function Values(f: seq<nat>): set<nat> {
    set n | n in f
  }

  lemma {:induction false} ValuesCount(f: seq<nat>)
    requires Injective(f)
    ensures |Values(f)| == |f|
  {
    if f != [] {
      var front, last := f[..|f| - 1], f[|f| - 1];
      ValuesCount(front);
      assert f == front + [last] && last !in front;
      assert Values(f) == Values(front) + {last};
    }
  }

  function Below(n: nat): set<nat> {
    if n == 0 then {} else Below(n - 1) + {n - 1}
  }

  lemma {:induction false} BelowIs(n: nat)
    ensures |Below(n)| == n && forall k: nat :: k in Below(n) <==> k < n
  {
    if n > 0 {
      BelowIs(n - 1);
    }
  }

  lemma {:induction false} SmallerSet(a: set<nat>, b: set<nat>)
    requires a <= b
    ensures |a| <= |b|
  {
    if a != {} {
      var x :| x in a;
      SmallerSet(a - {x}, b - {x});
    }
  }

  /** No entry is left out of another order. */
  lemma NoneLeftOut(f: seq<nat>, i: nat)
    requires Injective(f) && i < |f| && forall j :: 0 <= j < |f| ==> f[j] < |f|
    ensures i in f
  {
    ValuesCount(f);
    BelowIs(|f|);
    if i !in Values(f) {
      SmallerSet(Values(f), Below(|f|) - {i});
    }
  }

  lemma SameRefNames(p: Plan, q: Plan, f: seq<nat>, name: string)
    requires Permutes(p, q, f)
    ensures name in RawRefs(p) <==> name in RawRefs(q)
  {
    if name in RawRefs(p) {
      var i :| 0 <= i < |p.entries| && RawRefs(p)[i] == name;
      NoneLeftOut(f, i);
      var j :| 0 <= j < |f| && f[j] == i;
      assert RawRefs(q)[j] == name;
    }
    if name in RawRefs(q) {
      var j :| 0 <= j < |q.entries| && RawRefs(q)[j] == name;
      assert RawRefs(p)[f[j]] == name;
    }
  }

  lemma StillDistinct(p: Plan, q: Plan, f: seq<nat>)
    requires Permutes(p, q, f) && Distinct(RawRefs(p))
    ensures Distinct(RawRefs(q))
  {
    forall i, j | 0 <= i < j < |q.entries|
      ensures RawRefs(q)[i] != RawRefs(q)[j]
    {
      assert f[i] != f[j];
      assert RawRefs(q)[i] == RawRefs(p)[f[i]] && RawRefs(q)[j] == RawRefs(p)[f[j]];
    }
  }

  lemma OrdersReordered(p: Plan, q: Plan, f: seq<nat>)
    requires Permutes(p, q, f)
    ensures Reorders(OrdersOf(p), OrdersOf(q), f)
  {
  }

  lemma FileableRefsDistinct(p: Plan)
    requires Fileable(p)
    ensures Distinct(RawRefs(p))
  {
    forall i, j | 0 <= i < j < |p.entries|
      ensures RawRefs(p)[i] != RawRefs(p)[j]
    {
      FileableRefsDiffer(p, i, j);
    }
  }

  /** Two filings from one graph: of a plan whose entries keep off each other's beads, and of the same in another order. */
  ghost predicate BothOrders(p: Plan, q: Plan, f: seq<nat>, one: Record, out1: seq<Filed>, two: Record, out2: seq<Filed>, tool: Tool) {
    && Fileable(p) && Permutes(p, q, f) && Whole(one, p, out1, tool) && Whole(two, q, out2, tool)
    && one.gs[0] == two.gs[0] && Unentangled(one.gs[0], OrdersOf(p))
  }

  lemma BothGiveOwnBeads(p: Plan, q: Plan, f: seq<nat>, one: Record, out1: seq<Filed>, two: Record, out2: seq<Filed>, tool: Tool)
    requires BothOrders(p, q, f, one, out1, two, out2, tool)
    ensures OwnBeads(p, one.filed, Ids(one.gs, OrdersOf(p))) && OwnBeads(q, two.filed, Ids(two.gs, OrdersOf(q)))
    ensures KeysDistinct(OrdersOf(p)) && KeysDistinct(OrdersOf(q)) && Unentangled(two.gs[0], OrdersOf(q))
  {
    FileableKeysDistinct(p);
    FileableRefsDistinct(p);
    StillDistinct(p, q, f);
    OrdersReordered(p, q, f);
    ReorderedIsStillFine(one.gs[0], OrdersOf(p), OrdersOf(q), f);
    FilingGivesOwnBeads(p, one, out1, tool);
    FilingGivesOwnBeads(q, two, out2, tool);
  }

  /** The two filings agree on whether the ref of entry `j` of `q` waits for that of entry `l`. */
  ghost predicate Agree(p: Plan, q: Plan, f: seq<nat>, one: Record, two: Record, j: nat, l: nat)
    requires Permutes(p, q, f) && j < |f| && l < |f| && |one.gs| == |two.gs| == |p.entries| + 1
  {
    var ids, jds := Ids(one.gs, OrdersOf(p)), Ids(two.gs, OrdersOf(q));
    (ids[f[j]], ids[f[l]]) in Declared(p, one.filed) <==> (jds[j], jds[l]) in Declared(q, two.filed)
  }

  /** Entry `j` of `q` names the bead of entry `l` by the id it gets in one order and not by the one it gets in the other. */
  predicate NamesOnlyOne(p: Plan, q: Plan, f: seq<nat>, g: Graph, j: nat, l: nat, tool: Tool)
    requires |f| == |q.entries| == |p.entries| && j < |f| && l < |f| && f[l] < |f|
  {
    && j != l && !DependsOn(q.entries[j], q.entries[l].ref)
    && (NamesOutside(p, q.entries[j], PlannedId(g, OrdersOf(p), f[l], tool))
        <==> !NamesOutside(p, q.entries[j], PlannedId(g, OrdersOf(q), l, tool)))
  }

  /**
    The two orders wire the same edge between two refs exactly unless one names the other's bead, not by its ref, by an
    id that the bead gets in only one of them.
  */
  lemma AgreeIff(
    p: Plan, q: Plan, f: seq<nat>, one: Record, out1: seq<Filed>, two: Record, out2: seq<Filed>, j: nat, l: nat, tool: Tool)
    requires BothOrders(p, q, f, one, out1, two, out2, tool) && j < |f| && l < |f|
    ensures Agree(p, q, f, one, two, j, l) <==> !NamesOnlyOne(p, q, f, one.gs[0], j, l, tool)
  {
    BothGiveOwnBeads(p, q, f, one, out1, two, out2, tool);
    EdgeBetweenRefsIff(p, one.filed, Ids(one.gs, OrdersOf(p)), f[j], f[l]);
    EdgeBetweenRefsIff(q, two.filed, Ids(two.gs, OrdersOf(q)), j, l);
    IdsAreAsPlanned(one.gs, OrdersOf(p), f[l], tool);
    IdsAreAsPlanned(two.gs, OrdersOf(q), l, tool);
    SameRefNames(p, q, f, PlannedId(two.gs[0], OrdersOf(q), l, tool));
    assert j != l <==> f[j] != f[l];
  }

  /** So permuting a plan gives the same graph, read by refs, exactly when no dependency does that. */
  lemma SameEdgesIff(
    p: Plan, q: Plan, f: seq<nat>, one: Record, out1: seq<Filed>, two: Record, out2: seq<Filed>, tool: Tool)
    requires BothOrders(p, q, f, one, out1, two, out2, tool)
    ensures (forall j, l :: 0 <= j < |f| && 0 <= l < |f| ==> Agree(p, q, f, one, two, j, l)) <==>
            (forall j, l :: 0 <= j < |f| && 0 <= l < |f| ==> !NamesOnlyOne(p, q, f, one.gs[0], j, l, tool))
  {
    forall j, l | 0 <= j < |f| && 0 <= l < |f|
      ensures Agree(p, q, f, one, two, j, l) <==> !NamesOnlyOne(p, q, f, one.gs[0], j, l, tool)
    {
      AgreeIff(p, q, f, one, out1, two, out2, j, l, tool);
    }
  }

  /** No dependency that is not a ref names an id that the filing may mint. */
  ghost predicate NamesNothingMinted(p: Plan, g: Graph, tool: Tool) {
    forall n :: g.minted <= n < g.minted + |p.entries| ==> forall e <- p.entries :: !NamesOutside(p, e, tool.mint(n))
  }

  lemma {:induction false} FewCreations(g: Graph, os: seq<Order>, n: nat)
    requires n <= |os|
    ensures Creations(g, os, n) <= n
  {
    if n > 0 {
      FewCreations(g, os, n - 1);
    }
  }

  /** In particular it does when no dependency that is not a ref names an id yet to be minted. */
  lemma SameEdgesBetweenRefs(
    p: Plan, q: Plan, f: seq<nat>, one: Record, out1: seq<Filed>, two: Record, out2: seq<Filed>, j: nat, l: nat, tool: Tool)
    requires BothOrders(p, q, f, one, out1, two, out2, tool) && j < |f| && l < |f|
    requires NamesNothingMinted(p, one.gs[0], tool)
    ensures Agree(p, q, f, one, two, j, l)
  {
    AgreeIff(p, q, f, one, out1, two, out2, j, l, tool);
    NamedByBothOrNeither(p, q, f, one.gs[0], j, l, tool);
  }

  lemma NamedByBothOrNeither(p: Plan, q: Plan, f: seq<nat>, g: Graph, j: nat, l: nat, tool: Tool)
    requires Permutes(p, q, f) && NamesNothingMinted(p, g, tool) && j < |f| && l < |f|
    ensures !NamesOnlyOne(p, q, f, g, j, l, tool)
  {
    assert q.entries[j] in p.entries && OrdersOf(q)[l] == OrdersOf(p)[f[l]];
    if HomeOf(g, OrdersOf(q)[l]) >= |g.beads| {
      NotPlanned(p, q.entries[j], g, OrdersOf(p), f[l], tool);
      NotPlanned(p, q.entries[j], g, OrdersOf(q), l, tool);
    }
  }

  lemma NotPlanned(p: Plan, e: Entry, g: Graph, os: seq<Order>, i: nat, tool: Tool)
    requires NamesNothingMinted(p, g, tool) && e in p.entries
    requires i < |os| == |p.entries| && HomeOf(g, os[i]) >= |g.beads|
    ensures !NamesOutside(p, e, PlannedId(g, os, i, tool))
  {
    FewCreations(g, os, i);
  }

  /** Edges to beads the plan is not about, and to names of no bead, are the same in every order. */
  lemma SameEdgesOutside(
    p: Plan, q: Plan, f: seq<nat>, one: Record, out1: seq<Filed>, two: Record, out2: seq<Filed>, j: nat, x: string, tool: Tool)
    requires BothOrders(p, q, f, one, out1, two, out2, tool) && j < |f|
    requires x !in Ids(one.gs, OrdersOf(p)) && x !in Ids(two.gs, OrdersOf(q))
    ensures (Ids(one.gs, OrdersOf(p))[f[j]], x) in Declared(p, one.filed) <==>
            (Ids(two.gs, OrdersOf(q))[j], x) in Declared(q, two.filed)
  {
    BothGiveOwnBeads(p, q, f, one, out1, two, out2, tool);
    EdgeOutsideIff(p, one.filed, Ids(one.gs, OrdersOf(p)), f[j], x);
    EdgeOutsideIff(q, two.filed, Ids(two.gs, OrdersOf(q)), j, x);
    SameRefNames(p, q, f, x);
  }

  /* ---- an example ---- */

  function Small(ref: string, dependsOn: seq<string>): Entry {
    Entry(ref, "", "x", "", "", "", "", 0, [], dependsOn, "")
  }

  lemma SmallTrims()
    ensures Trim("a") == "a" && Trim("b") == "b" && Trim("c") == "c" && Trim("x") == "x" && Trim("p") == "p" && Trim("") == ""
  {
  }

  /** A filing into a graph that has every bead the plan names by id. */
  lemma CanBeFiled(p: Plan, g: Graph, tool: Tool) returns (one: Record, out: seq<Filed>)
    requires Fileable(p) && Sound(g, tool) && Unentangled(g, OrdersOf(p))
    ensures Whole(one, p, out, tool) && one.gs[0] == g
  {
    var gs, e := Refiling.CanBeFiledWhole(p, g, |p.entries|, tool);
    one, out := Record(gs, e.filed, []), e.out;
  }

  /**
    A plan that may be filed and names an id its first entry will get, and an order in which another entry gets it: filed
    into an empty graph, the two wire different edges between the last entry's ref and the first one's.
  */
  lemma OrderMayMatter(tool: Tool)
    returns (p: Plan, q: Plan, f: seq<nat>, one: Record, out1: seq<Filed>, two: Record, out2: seq<Filed>)
    requires Mints(tool) && LooksLikeBeadId(tool.mint(0))
    ensures BothOrders(p, q, f, one, out1, two, out2, tool) && Fileable(q) && one.gs[0] == Graph([], {}, 0)
    ensures |f| == 3 && !Agree(p, q, f, one, two, 2, 1)
  {
    var id, g := tool.mint(0), Graph([], {}, 0);
    var a, b, c := Small("a", []), Small("b", []), Small("c", [id]);
    p, q, f := Plan("p", [a, b, c]), Plan("p", [b, a, c]), [1, 0, 2];
    MayBeFiled(p, a, b, c, id, "a", "b");
    MayBeFiled(q, b, a, c, id, "b", "a");
    Swapped(p, q, f, a, b, c);
    NamesTheFirst(p, q, f, g, id, tool);
    one, out1 := CanBeFiled(p, g, tool);
    OrdersReordered(p, q, f);
    FileableKeysDistinct(p);
    ReorderedIsStillFine(g, OrdersOf(p), OrdersOf(q), f);
    two, out2 := CanBeFiled(q, g, tool);
    AgreeIff(p, q, f, one, out1, two, out2, 2, 1, tool);
  }

  lemma Swapped(p: Plan, q: Plan, f: seq<nat>, a: Entry, b: Entry, c: Entry)
    requires p.entries == [a, b, c] && q.entries == [b, a, c] && p.project == q.project && f == [1, 0, 2]
    ensures Permutes(p, q, f)
  {
  }

  /** Into an empty graph, entries get their ids in order. */
  lemma {:induction false} MintedInOrder(g: Graph, os: seq<Order>, i: nat, tool: Tool)
    requires g.beads == [] && i < |os| && forall o <- os :: !o.byId
    ensures Creations(g, os, i) == i && PlannedId(g, os, i, tool) == tool.mint(g.minted + i)
  {
    if i > 0 {
      MintedInOrder(g, os, i - 1, tool);
    }
  }

  lemma Untargeted(p: Plan)
    requires forall e <- p.entries :: e.id == ""
    ensures forall o <- OrdersOf(p) :: !o.byId
  {
    SmallTrims();
  }

  lemma NamesTheFirst(p: Plan, q: Plan, f: seq<nat>, g: Graph, id: string, tool: Tool)
    requires Mints(tool) && LooksLikeBeadId(id) && id == tool.mint(0) && g == Graph([], {}, 0) && f == [1, 0, 2]
    requires p == Plan("p", [Small("a", []), Small("b", []), Small("c", [id])])
    requires q == Plan("p", [Small("b", []), Small("a", []), Small("c", [id])])
    ensures Unentangled(g, OrdersOf(p)) && NamesOnlyOne(p, q, f, g, 2, 1, tool)
  {
    Untargeted(p);
    Untargeted(q);
    MintedInOrder(g, OrdersOf(p), 0, tool);
    MintedInOrder(g, OrdersOf(q), 1, tool);
    NamesJustThat(p, q.entries[2], id, tool.mint(1));
  }

  lemma NamesJustThat(p: Plan, c: Entry, id: string, other: string)
    requires p == Plan("p", [Small("a", []), Small("b", []), c]) && c == Small("c", [id])
    requires Trim(id) == id && LooksLikeBeadId(id) && other != id
    ensures NamesOutside(p, c, id) && !NamesOutside(p, c, other) && !DependsOn(c, "a")
  {
    assert RawRefs(p) == ["a", "b", "c"] && id !in ["a", "b", "c"];
    assert id in c.dependsOn;
  }

  lemma MayBeFiled(p: Plan, a: Entry, b: Entry, c: Entry, id: string, r: string, s: string)
    requires (r == "a" && s == "b") || (r == "b" && s == "a")
    requires a == Small(r, []) && b == Small(s, []) && c == Small("c", [id]) && p == Plan("p", [a, b, c])
    requires Trim(id) == id && LooksLikeBeadId(id)
    ensures Fileable(p)
  {
    SmallTrims();
    assert RefNames(p.entries) == [r, s, "c"];
    assert DependenciesOk(p, a, 0) && DependenciesOk(p, b, 0);
    assert DependencyOk(p, c, id);
    assert DependenciesOk(p, c, 0) && DependenciesOk(p, c, 1);
    assert OkUpTo(p, 0) && OkUpTo(p, 1) && OkUpTo(p, 2) && OkUpTo(p, 3);
  }
}
