/** Which plans let an entry that names a bead by id take it from the entry that found it by key. */
module Theft {
  import opened Text
  import opened Beads
  import opened Plans
  import opened Holders
  import opened Filing
  import opened FilingLaws
  import opened FilePlan

  /* ---- on the table of references ---- */

  /** A move by id, before move `i`, writes on bead `k`. */
  predicate TakenById(ms: seq<Move>, i: nat, k: nat)
    requires i <= |ms|
  {
    exists l :: 0 <= l < i && ms[l].byId && ms[l].target == k
  }

  /** Just before move `i`, an old bead holds its key exactly when it did at the start and no move by id has written on it. */
  lemma {:induction false} HolderIff(tables: seq<seq<string>>, ms: seq<Move>, i: nat, n: nat, k: nat)
    requires Trace(tables, ms) && n <= i < |ms| && k < |tables[0]|
    ensures k < |tables[n]|
    ensures tables[n][k] == ms[i].key <==> tables[0][k] == ms[i].key && !TakenById(ms, n, k)
    decreases n
  {
    if n > 0 {
      HolderIff(tables, ms, i, n - 1, k);
      assert Played(tables, ms, n - 1);
      assert ms[n - 1].key != ms[i].key;
    }
  }

  /* ---- on the plan and the graph before it is filed ---- */

  /** An entry before `i` names bead `k` by id. */
  predicate NamedBefore(g: Graph, os: seq<Order>, i: nat, k: nat)
    requires i <= |os|
  {
    exists l :: 0 <= l < i && os[l].byId && FindId(g.beads, os[l].id) == k
  }

  /** Bead `k` holds the key of entry `i`, and will still when its turn comes. */
  predicate Offers(g: Graph, os: seq<Order>, i: nat, k: nat)
    requires i < |os|
  {
    k < |g.beads| && g.beads[k].externalRef == os[i].issue.externalRef && !NamedBefore(g, os, i, k)
  }

  /** Entry `i` finds bead `k` by its key. */
  ghost predicate Finds(g: Graph, os: seq<Order>, i: nat, k: nat)
    requires i < |os|
  {
    Offers(g, os, i, k) && forall m :: 0 <= m < k ==> !Offers(g, os, i, m)
  }

  /** Every id names a bead that is there before the filing. */
  ghost predicate IdsKnown(g: Graph, os: seq<Order>) {
    forall j :: 0 <= j < |os| && os[j].byId ==> FindId(g.beads, os[j].id) < |g.beads|
  }

  lemma NamedBead(gs: seq<Graph>, os: seq<Order>, j: nat, tool: Tool)
    requires Trail(gs, os, tool) && IdsKnown(gs[0], os) && j < |gs| - 1 && os[j].byId
    ensures Moves(gs, os)[j].target == FindId(gs[0].beads, os[j].id)
  {
    IdsStay(gs, os, 0, j, tool);
    SameIdFound(gs[0].beads, gs[j].beads, os[j].id);
  }

  lemma NamedMeansTaken(gs: seq<Graph>, os: seq<Order>, i: nat, k: nat, tool: Tool)
    requires Trail(gs, os, tool) && IdsKnown(gs[0], os) && i < |gs|
    ensures NamedBefore(gs[0], os, i, k) <==> TakenById(Moves(gs, os), i, k)
  {
    forall l | 0 <= l < i && os[l].byId
      ensures Moves(gs, os)[l].target == FindId(gs[0].beads, os[l].id)
    {
      NamedBead(gs, os, l, tool);
    }
  }

  lemma OffersMeansHolds(gs: seq<Graph>, os: seq<Order>, i: nat, k: nat, tool: Tool)
    requires Trail(gs, os, tool) && KeysDistinct(os) && IdsKnown(gs[0], os) && i < |gs| - 1 && k < |gs[0].beads|
    ensures k < |gs[i].beads|
    ensures Offers(gs[0], os, i, k) <==> gs[i].beads[k].externalRef == os[i].issue.externalRef
  {
    TrailTraces(gs, os, tool);
    HolderIff(Tables(gs), Moves(gs, os), i, i, k);
    NamedMeansTaken(gs, os, i, k, tool);
  }

  /** What an entry finds can be told from the graph before the filing. */
  lemma FindsIff(gs: seq<Graph>, os: seq<Order>, i: nat, k: nat, tool: Tool)
    requires Trail(gs, os, tool) && KeysDistinct(os) && IdsKnown(gs[0], os)
    requires i < |gs| - 1 && !os[i].byId && k < |gs[0].beads|
    ensures Finds(gs[0], os, i, k) <==> Target(gs[i].beads, os[i]) == k
  {
    IdsStay(gs, os, 0, i, tool);
    forall m | 0 <= m < |gs[0].beads|
      ensures Offers(gs[0], os, i, m) <==> gs[i].beads[m].externalRef == os[i].issue.externalRef
    {
      OffersMeansHolds(gs, os, i, m, tool);
    }
  }

  /** Entry `j` names by id the bead that an earlier entry `i` finds by its key. */
  ghost predicate Steals(g: Graph, os: seq<Order>, i: nat, j: nat)
    requires i < j < |os|
  {
    !os[i].byId && os[j].byId && Finds(g, os, i, FindId(g.beads, os[j].id))
  }

  /** Whether a bead will be stolen can be told before anything is written. */
  lemma NoTheftIff(gs: seq<Graph>, os: seq<Order>, tool: Tool)
    requires Trail(gs, os, tool) && |gs| == |os| + 1 && KeysDistinct(os) && IdsKnown(gs[0], os)
    ensures NoTheft(Moves(gs, os)) <==> forall i, j :: 0 <= i < j < |os| ==> !Steals(gs[0], os, i, j)
  {
    forall i, j | 0 <= i < j < |os|
      ensures Steals(gs[0], os, i, j) <==> !os[i].byId && os[j].byId && Moves(gs, os)[i].target == Moves(gs, os)[j].target
    {
      if !os[i].byId && os[j].byId {
        NamedBead(gs, os, j, tool);
        FindsIff(gs, os, i, FindId(gs[0].beads, os[j].id), tool);
      }
    }
  }

  /** A plan files its beads as the same ones a second time exactly when it steals none of them. */
  lemma FiledAgainAsTheSameIff(gs: seq<Graph>, hs: seq<Graph>, os: seq<Order>, tool: Tool)
    requires Trail(gs, os, tool) && Trail(hs, os, tool) && hs[0] == Last(gs) && |hs| == |gs| == |os| + 1
    requires KeysDistinct(os) && IdsKnown(gs[0], os)
    ensures Moves(hs, os) == Moves(gs, os) <==> forall i, j :: 0 <= i < j < |os| ==> !Steals(gs[0], os, i, j)
  {
    SameBeadsIffNoTheft(gs, hs, os, tool);
    NoTheftIff(gs, os, tool);
  }

  /* ---- an example ---- */

  function Example(tool: Tool): Plan {
    Plan("p", [Entry("a", "", "x", "", "", "", "", 0, [], [], ""), Entry("b", tool.mint(0), "", "", "", "", "", 0, [], [], "")])
  }

  lemma ExampleMayBeFiled(tool: Tool)
    requires Mints(tool) && LooksLikeBeadId(tool.mint(0))
    ensures Fileable(Example(tool)) && OrdersOf(Example(tool)) == ExampleOrders(tool)
  {
    var p := Example(tool);
    assert Trim("a") == "a" && Trim("b") == "b" && Trim("x") == "x" && Trim("p") == "p" && Trim("") == "";
    assert RefNames(p.entries) == ["a", "b"];
    assert OkUpTo(p, 0) && OkUpTo(p, 1) && OkUpTo(p, 2);
    ExampleOrdersAre(tool);
  }

  lemma ExampleOrdersAre(tool: Tool)
    requires Mints(tool)
    ensures OrdersOf(Example(tool)) == ExampleOrders(tool)
  {
    var p, os := Example(tool), ExampleOrders(tool);
    assert Trim("x") == "x" && Trim("") == "";
    assert Key("p", "a") == "plan:p/a" && Key("p", "b") == "plan:p/b" && ProjectLabel("p") == "wg-project-p";
    assert [] + [ProjectLabel("p")] == ["wg-project-p"];
    assert OrderOf("p", p.entries[0]) == os[0];
    assert Trim(tool.mint(0)) == tool.mint(0);
    assert OrderOf("p", p.entries[1]) == os[1];
  }

  function ExampleOrders(tool: Tool): seq<Order> {
    [ Order(Issue("x", "", "", "", "", 0, "", ["wg-project-p"], "plan:p/a"), false, ""),
      Order(Issue("", "", "", "", "", 0, "", [], "plan:p/b"), true, tool.mint(0)) ]
  }

  /**
    A plan that may be filed, and the graph that its first entry alone, filed before, has left; its second entry names
    that bead by id: the first filing leaves the bead with the second key, and the next makes another bead for the first.
  */
  lemma StolenBeadIsFiledTwice(tool: Tool) returns (p: Plan, gs: seq<Graph>, hs: seq<Graph>)
    requires Mints(tool) && LooksLikeBeadId(tool.mint(0))
    ensures Fileable(p) && |p.entries| == 2 && |gs| == |hs| == 3
    ensures Step(Graph([], {}, 0), OrdersOf(p)[0], tool) == Some(gs[0]) && Sound(gs[0], tool)
    ensures Trail(gs, OrdersOf(p), tool) && Trail(hs, OrdersOf(p), tool) && hs[0] == Last(gs)
    ensures |gs[0].beads| == |Last(gs).beads| == 1 && |Last(hs).beads| == 2
  {
    p := Example(tool);
    ExampleMayBeFiled(tool);
    ExampleIsEntangled(tool);
    gs, hs := StolenOrders(OrdersOf(p), tool);
  }

  /** A titled order, and one that names the first one's bead by id and has another key. */
  predicate Entangled(os: seq<Order>, tool: Tool) {
    && |os| == 2 && !os[0].byId && !Blank(os[0].issue.title) && os[0].issue.externalRef != ""
    && os[1].byId && os[1].id == tool.mint(0) && os[1].issue.externalRef !in ["", os[0].issue.externalRef]
  }

  lemma ExampleIsEntangled(tool: Tool)
    ensures Entangled(ExampleOrders(tool), tool)
  {
    assert "plan:p/b"[7] != "plan:p/a"[7];
    assert !Blank("x");
  }

  lemma StolenOrders(os: seq<Order>, tool: Tool) returns (gs: seq<Graph>, hs: seq<Graph>)
    requires Mints(tool) && Entangled(os, tool)
    ensures Trail(gs, os, tool) && Trail(hs, os, tool) && |gs| == |hs| == 3 && hs[0] == Last(gs)
    ensures Step(Graph([], {}, 0), os[0], tool) == Some(gs[0]) && Sound(gs[0], tool)
    ensures |gs[0].beads| == |Last(gs).beads| == 1 && |Last(hs).beads| == 2
  {
    var g := Graph([Blueprint(tool.mint(0), os[0].issue)], {}, 1);
    FirstOfAll(os[0], g, tool);
    var g1, g2 := RevisedTwice(g, os, tool);
    var g3, g4 := FiledAnew(g2, os, tool);
    gs, hs := [g, g1, g2], [g2, g3, g4];
    TwoSteps(g, g1, g2, os, tool);
    TwoSteps(g2, g3, g4, os, tool);
  }

  lemma TwoSteps(g: Graph, g1: Graph, g2: Graph, os: seq<Order>, tool: Tool)
    requires |os| == 2 && Step(g, os[0], tool) == Some(g1) && Step(g1, os[1], tool) == Some(g2)
    ensures Trail([g, g1, g2], os, tool)
  {
    assert Next([g, g1, g2], os, 0, tool) && Next([g, g1, g2], os, 1, tool);
  }

  lemma RevisedTwice(g: Graph, os: seq<Order>, tool: Tool) returns (g1: Graph, g2: Graph)
    requires Entangled(os, tool) && |g.beads| == 1
    requires g.beads[0].id == tool.mint(0) && g.beads[0].externalRef == os[0].issue.externalRef
    ensures Step(g, os[0], tool) == Some(g1) && Step(g1, os[1], tool) == Some(g2)
    ensures |g2.beads| == 1 && g2.beads[0].id == tool.mint(0) && g2.beads[0].externalRef == os[1].issue.externalRef
  {
    g1 := g.(beads := g.beads[0 := Revise(g.beads[0], os[0].issue, tool)]);
    OneStep(g, os[0], g1, tool);
    g2 := g1.(beads := g1.beads[0 := Revise(g1.beads[0], os[1].issue, tool)]);
    OneStep(g1, os[1], g2, tool);
  }

  lemma FiledAnew(g: Graph, os: seq<Order>, tool: Tool) returns (g1: Graph, g2: Graph)
    requires Entangled(os, tool) && |g.beads| == 1
    requires g.beads[0].id == tool.mint(0) && g.beads[0].externalRef == os[1].issue.externalRef
    ensures Step(g, os[0], tool) == Some(g1) && Step(g1, os[1], tool) == Some(g2) && |g2.beads| == 2
  {
    g1 := Created(g, os[0].issue, tool).value;
    NewStep(g, os[0], g1, tool);
    g2 := g1.(beads := g1.beads[0 := Revise(g1.beads[0], os[1].issue, tool)]);
    OneStep(g1, os[1], g2, tool);
  }

  lemma FirstOfAll(o: Order, g: Graph, tool: Tool)
    requires Mints(tool) && !o.byId && !Blank(o.issue.title) && g == Graph([Blueprint(tool.mint(0), o.issue)], {}, 1)
    ensures Step(Graph([], {}, 0), o, tool) == Some(g) && Sound(g, tool)
  {
    assert [] + [Blueprint(tool.mint(0), o.issue)] == g.beads;
    SoundStays(Graph([], {}, 0), o, tool);
  }

  lemma NewStep(g: Graph, o: Order, h: Graph, tool: Tool)
    requires Target(g.beads, o) == |g.beads| && !o.byId && Created(g, o.issue, tool) == Some(h)
    ensures Step(g, o, tool) == Some(h)
  {
  }

  lemma OneStep(g: Graph, o: Order, h: Graph, tool: Tool)
    requires Target(g.beads, o) == 0 < |g.beads| && h == g.(beads := g.beads[0 := Revise(g.beads[0], o.issue, tool)])
    ensures Step(g, o, tool) == Some(h)
  {
  }
}
