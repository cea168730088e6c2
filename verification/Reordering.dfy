/** A plan files to the same graph, read by refs, whatever order its entries stand in. */
module Reordering {
  import opened Text
  import opened Beads
  import opened Holders
  import opened Filing
  import opened FilingLaws

  /** Where an entry would land if it were filed alone. */
  function HomeOf(g: Graph, o: Order): nat {
    Target(g.beads, o)
  }

  /** Ids name beads that exist, different ones, and none that another entry would find by its key. */
  ghost predicate Unentangled(g: Graph, os: seq<Order>) {
    && (forall j :: 0 <= j < |os| && os[j].byId ==> HomeOf(g, os[j]) < |g.beads|)
    && (forall i, j :: 0 <= i < |os| && 0 <= j < |os| && i != j && os[j].byId ==>
          HomeOf(g, os[i]) != HomeOf(g, os[j]))
  }

  lemma TargetedHome(gs: seq<Graph>, os: seq<Order>, i: nat, tool: Tool)
    requires Trail(gs, os, tool) && Unentangled(gs[0], os) && i < |gs| - 1 && os[i].byId
    ensures Moves(gs, os)[i].target == HomeOf(gs[0], os[i])
  {
    IdsStay(gs, os, 0, i, tool);
    SameIdFound(gs[0].beads, gs[i].beads, os[i].id);
  }

  lemma MovesIndependent(gs: seq<Graph>, os: seq<Order>, tool: Tool)
    requires Trail(gs, os, tool) && Unentangled(gs[0], os)
    ensures Independent(Table(gs[0].beads), Moves(gs, os))
    ensures forall i :: 0 <= i < |gs| - 1 ==>
              Home(Table(gs[0].beads), Moves(gs, os)[i]) == HomeOf(gs[0], os[i])
  {
    forall i | 0 <= i < |gs| - 1
      ensures Home(Table(gs[0].beads), Moves(gs, os)[i]) == HomeOf(gs[0], os[i])
    {
      if os[i].byId {
        TargetedHome(gs, os, i, tool);
      } else {
        FindRefReadsTheTable(gs[0].beads, Moves(gs, os)[i].key);
      }
    }
  }

  /** Every entry lands at home, or, having none, creates a bead. */
  lemma LandsAtHome(gs: seq<Graph>, os: seq<Order>, i: nat, tool: Tool)
    requires Trail(gs, os, tool) && KeysDistinct(os) && Unentangled(gs[0], os) && i < |gs| - 1
    ensures |gs[0].beads| <= |gs[i].beads|
    ensures var home := HomeOf(gs[0], os[i]);
            Moves(gs, os)[i].target == if home < |gs[0].beads| then home else |gs[i].beads|
  {
    TrailTraces(gs, os, tool);
    MovesIndependent(gs, os, tool);
    Undisturbed(Tables(gs), Moves(gs, os), i, i);
    if os[i].byId {
      TargetedHome(gs, os, i, tool);
    } else {
      FindRefReadsTheTable(gs[i].beads, Moves(gs, os)[i].key);
    }
  }

  lemma TargetsDistinct(gs: seq<Graph>, os: seq<Order>, i: nat, j: nat, tool: Tool)
    requires Trail(gs, os, tool) && KeysDistinct(os) && Unentangled(gs[0], os) && i < j < |gs| - 1
    ensures Moves(gs, os)[i].target != Moves(gs, os)[j].target
  {
    TrailTraces(gs, os, tool);
    if os[j].byId {
      LandsAtHome(gs, os, i, tool);
      TargetedHome(gs, os, j, tool);
    } else {
      HoldsAnother(Tables(gs), Moves(gs, os), i, j, j);
    }
  }

  lemma UnentangledMeansNoTheft(gs: seq<Graph>, os: seq<Order>, tool: Tool)
    requires Trail(gs, os, tool) && KeysDistinct(os) && Unentangled(gs[0], os)
    ensures NoTheft(Moves(gs, os))
  {
    var ms := Moves(gs, os);
    forall i, j | 0 <= i < j < |ms| && !ms[i].byId && ms[j].byId
      ensures ms[i].target != ms[j].target
    {
      TargetsDistinct(gs, os, i, j, tool);
    }
  }

  lemma {:induction false} AskedOnce(os: seq<Order>, ms: seq<Move>, i: nat, n: nat)
    requires i < n <= |ms| <= |os|
    requires forall j :: 0 <= j < n && j != i ==> ms[j].target != ms[i].target
    ensures Asked(os, ms, n, ms[i].target) == Some(os[i].issue)
    decreases n
  {
    if i < n - 1 {
      AskedOnce(os, ms, i, n - 1);
    } else {
      NotAsked(os, ms, i, ms[i].target);
    }
  }

  lemma AskedOnceEach(gs: seq<Graph>, os: seq<Order>, i: nat, tool: Tool)
    requires Trail(gs, os, tool) && KeysDistinct(os) && Unentangled(gs[0], os) && i < |gs| - 1
    ensures Asked(os, Moves(gs, os), |gs| - 1, Moves(gs, os)[i].target) == Some(os[i].issue)
  {
    var ms := Moves(gs, os);
    forall j | 0 <= j < |ms| && j != i
      ensures ms[j].target != ms[i].target
    {
      if i < j {
        TargetsDistinct(gs, os, i, j, tool);
      } else {
        TargetsDistinct(gs, os, j, i, tool);
      }
    }
    AskedOnce(os, ms, i, |ms|);
  }

  /** What an entry makes of its bead, whatever else is in the plan; a created bead's id is its own affair. */
  function Effect(g: Graph, o: Order, id: string, tool: Tool): Bead {
    var home := HomeOf(g, o);
    if home < |g.beads| then Revise(g.beads[home], o.issue, tool) else Blueprint(id, o.issue)
  }

  lemma FoundBeadRevised(gs: seq<Graph>, os: seq<Order>, i: nat, tool: Tool)
    requires Trail(gs, os, tool) && KeysDistinct(os) && Unentangled(gs[0], os) && i < |gs| - 1
    requires Moves(gs, os)[i].target < |gs[0].beads|
    ensures var k := Moves(gs, os)[i].target;
            && k < |Last(gs).beads|
            && Last(gs).beads[k] == Revise(gs[0].beads[k], os[i].issue, tool)
  {
    AskedOnceEach(gs, os, i, tool);
    OldBead(gs, os, |gs| - 1, Moves(gs, os)[i].target, tool);
  }

  lemma EachEntryHasItsEffect(gs: seq<Graph>, os: seq<Order>, i: nat, tool: Tool)
    requires Trail(gs, os, tool) && KeysDistinct(os) && Unentangled(gs[0], os) && i < |gs| - 1
    ensures Moves(gs, os)[i].target < |Last(gs).beads|
    ensures Last(gs).beads[Moves(gs, os)[i].target] == Effect(gs[0], os[i], tool.mint(gs[i].minted), tool)
  {
    LandsAtHome(gs, os, i, tool);
    if Moves(gs, os)[i].target < |gs[0].beads| {
      FoundBeadRevised(gs, os, i, tool);
    } else {
      UnentangledMeansNoTheft(gs, os, tool);
      NewBead(gs, os, i, |gs| - 1, tool);
    }
  }

  /** A bead of the start that is no entry's home is left as it was. */
  lemma OtherBeadsUntouched(gs: seq<Graph>, os: seq<Order>, k: nat, tool: Tool)
    requires Trail(gs, os, tool) && KeysDistinct(os) && Unentangled(gs[0], os) && k < |gs[0].beads|
    requires forall i :: 0 <= i < |gs| - 1 ==> HomeOf(gs[0], os[i]) != k
    ensures k < |Last(gs).beads| && Last(gs).beads[k] == gs[0].beads[k]
  {
    var ms, n := Moves(gs, os), |gs| - 1;
    forall i | 0 <= i < n
      ensures ms[i].target != k
    {
      LandsAtHome(gs, os, i, tool);
    }
    NotAsked(os, ms, n, k);
    OldBead(gs, os, n, k, tool);
  }

  /** `q` is `p` with its entries in another order: entry `j` of `q` is entry `f[j]` of `p`. */
  ghost predicate Reorders(os: seq<Order>, qs: seq<Order>, f: seq<nat>) {
    && |f| == |qs| == |os|
    && (forall j :: 0 <= j < |f| ==> f[j] < |os| && qs[j] == os[f[j]])
    && (forall i, j :: 0 <= i < j < |f| ==> f[i] != f[j])
  }

  lemma ReorderedIsStillFine(g: Graph, os: seq<Order>, qs: seq<Order>, f: seq<nat>)
    requires Reorders(os, qs, f) && KeysDistinct(os) && Unentangled(g, os)
    ensures KeysDistinct(qs) && Unentangled(g, qs)
  {
    forall i, j | 0 <= i < j < |qs|
      ensures qs[i].issue.externalRef != qs[j].issue.externalRef
    {
      assert f[i] != f[j];
    }
    forall i, j | 0 <= i < |qs| && 0 <= j < |qs| && i != j && qs[j].byId
      ensures HomeOf(g, qs[i]) != HomeOf(g, qs[j])
    {
      assert f[i] != f[j];
    }
  }

  /** The bead filed for a ref says the same in every order, and is the same bead when it was there before. */
  lemma OrderDoesNotMatter(gs: seq<Graph>, hs: seq<Graph>, os: seq<Order>, qs: seq<Order>, f: seq<nat>, j: nat, tool: Tool)
    requires Trail(gs, os, tool) && Trail(hs, qs, tool) && gs[0] == hs[0]
    requires |gs| == |os| + 1 && |hs| == |qs| + 1 && j < |qs|
    requires Reorders(os, qs, f) && KeysDistinct(os) && Unentangled(gs[0], os)
    ensures var a, b := Moves(gs, os)[f[j]].target, Moves(hs, qs)[j].target;
            && a < |Last(gs).beads| && b < |Last(hs).beads|
            && Last(hs).beads[b] == Last(gs).beads[a].(id := Last(hs).beads[b].id)
            && (a < |gs[0].beads| || b < |gs[0].beads| ==> a == b && Last(hs).beads[b] == Last(gs).beads[a])
  {
    ReorderedIsStillFine(gs[0], os, qs, f);
    EachEntryHasItsEffect(gs, os, f[j], tool);
    EachEntryHasItsEffect(hs, qs, j, tool);
    LandsAtHome(gs, os, f[j], tool);
    LandsAtHome(hs, qs, j, tool);
  }
}
