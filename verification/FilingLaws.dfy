/** Filing twice, filing after a crash, and filing in another order. */
module FilingLaws {
  import opened Text
  import opened Beads
  import opened Holders
  import opened Filing

  function Last(gs: seq<Graph>): Graph
    requires gs != []
  {
    gs[|gs| - 1]
  }

  /* ---- ids ---- */

  /** `bs` is still there in `cs`, bead by bead, whatever its beads say now. */
  predicate SameIds(bs: seq<Bead>, cs: seq<Bead>) {
    |bs| <= |cs| && forall k :: 0 <= k < |bs| ==> cs[k].id == bs[k].id
  }

  lemma StepKeepsIds(g: Graph, o: Order, tool: Tool)
    requires Step(g, o, tool).Some?
    ensures var h := Step(g, o, tool).value;
            SameIds(g.beads, h.beads) && h.minted == g.minted + (|h.beads| - |g.beads|)
  {
  }

  lemma {:induction false} IdsStay(gs: seq<Graph>, os: seq<Order>, i: nat, n: nat, tool: Tool)
    requires Trail(gs, os, tool) && i <= n < |gs|
    ensures SameIds(gs[i].beads, gs[n].beads)
    ensures gs[n].minted == gs[i].minted + (|gs[n].beads| - |gs[i].beads|)
    decreases n
  {
    if i < n {
      IdsStay(gs, os, i, n - 1, tool);
      assert Next(gs, os, n - 1, tool);
      StepKeepsIds(gs[n - 1], os[n - 1], tool);
    }
  }

  lemma SameIdFound(bs: seq<Bead>, cs: seq<Bead>, id: string)
    requires SameIds(bs, cs) && FindId(bs, id) < |bs|
    ensures FindId(cs, id) == FindId(bs, id)
  {
    var k, l := FindId(bs, id), FindId(cs, id);
    assert cs[k].id == id;
    assert l < |bs| ==> cs[l].id == bs[l].id;
  }

  /* ---- the second filing ---- */

  /** The next entry of a second filing lands where it landed in the first. */
  lemma SameMove(gs: seq<Graph>, os: seq<Order>, hs: seq<Graph>, tool: Tool)
    requires Trail(gs, os, tool) && KeysDistinct(os) && NoTheft(Moves(gs, os))
    requires Trail(hs, os, tool) && hs[0] == Last(gs) && |hs| < |gs| && Again(Moves(gs, os), Moves(hs, os))
    ensures Moves(hs, os) == Moves(gs, os)[..|hs| - 1] && |Last(hs).beads| == |hs[0].beads|
    ensures Target(Last(hs).beads, os[|hs| - 1]) == Moves(gs, os)[|hs| - 1].target < |hs[0].beads|
  {
    var ms, ns, i := Moves(gs, os), Moves(hs, os), |hs| - 1;
    TrailTraces(gs, os, tool);
    TrailTraces(hs, os, tool);
    SecondPassFindsTheSame(Tables(gs), ms, Tables(hs), ns, i);
    assert ns[..i] == ns;
    TablesGrow(Tables(gs), ms, i, |ms|);
    if os[i].byId {
      assert Next(gs, os, i, tool);
      IdsStay(gs, os, i, |gs| - 1, tool);
      IdsStay(hs, os, 0, i, tool);
      SameIdFound(gs[i].beads, Last(hs).beads, os[i].id);
    } else {
      FindRefReadsTheTable(Last(hs).beads, ms[i].key);
    }
  }

  lemma OneMoreEntry(gs: seq<Graph>, os: seq<Order>, h: Graph, tool: Tool)
    requires Trail(gs, os, tool) && |gs| <= |os|
    requires Step(Last(gs), os[|gs| - 1], tool) == Some(h)
    ensures Trail(gs + [h], os, tool)
    ensures Moves(gs + [h], os) == Moves(gs, os) + [MoveOf(Last(gs), os[|gs| - 1])]
  {
    var hs := gs + [h];
    forall i | 0 <= i < |hs| - 1
      ensures Next(hs, os, i, tool)
    {
      assert i < |gs| - 1 ==> Next(gs, os, i, tool);
    }
  }

  /** Filing a plan again, entry by entry: every entry finds its bead, and no bead is created. */
  lemma {:induction false} SecondFiling(gs: seq<Graph>, os: seq<Order>, n: nat, tool: Tool) returns (hs: seq<Graph>)
    requires Trail(gs, os, tool) && KeysDistinct(os) && NoTheft(Moves(gs, os)) && n < |gs|
    ensures Trail(hs, os, tool) && |hs| == n + 1 && hs[0] == Last(gs)
    ensures Moves(hs, os) == Moves(gs, os)[..n]
    ensures |Last(hs).beads| == |Last(gs).beads|
  {
    if n == 0 {
      return [Last(gs)];
    }
    var front := SecondFiling(gs, os, n - 1, tool);
    SameMove(gs, os, front, tool);
    var h := Step(Last(front), os[n - 1], tool).value;
    OneMoreEntry(front, os, h, tool);
    hs := front + [h];
    OneMoreMove(Moves(gs, os), n);
  }

  lemma OneMoreMove(ms: seq<Move>, n: nat)
    requires 0 < n <= |ms|
    ensures ms[..n] == ms[..n - 1] + [ms[n - 1]]
  {
  }

  /** Whatever the second filing turns out to be, it is that one. */
  lemma SecondFilingIsThatOne(gs: seq<Graph>, hs: seq<Graph>, os: seq<Order>, tool: Tool)
    requires Trail(gs, os, tool) && Trail(hs, os, tool) && hs[0] == Last(gs) && |hs| == |gs|
    requires KeysDistinct(os) && NoTheft(Moves(gs, os))
    ensures Moves(hs, os) == Moves(gs, os) && |Last(hs).beads| == |Last(gs).beads|
  {
    var ks := SecondFiling(gs, os, |gs| - 1, tool);
    forall n | 0 <= n < |hs|
      ensures hs[n] == ks[n]
    {
      TrailsAgree(hs, ks, os, n, tool);
    }
    assert hs == ks && Moves(gs, os)[..|gs| - 1] == Moves(gs, os);
  }

  lemma SameBeadsAreFiledAgain(gs: seq<Graph>, hs: seq<Graph>, os: seq<Order>, tool: Tool)
    requires Trail(gs, os, tool) && Trail(hs, os, tool) && hs[0] == Last(gs) && |hs| == |gs|
    requires Moves(hs, os) == Moves(gs, os) && KeysDistinct(os)
    ensures Again(Moves(gs, os), Moves(hs, os)) && NoTheft(Moves(gs, os))
  {
    var ms, ns := Moves(gs, os), Moves(hs, os);
    TrailTraces(gs, os, tool);
    TrailTraces(hs, os, tool);
    forall i, j | 0 <= i < j < |ms| && !ms[i].byId && ms[j].byId
      ensures ms[i].target != ms[j].target
    {
      if ms[i].target == ms[j].target {
        SecondPassMissesTheStolen(Tables(gs), ms, Tables(hs), ns, i, j);
      }
    }
  }

  /** A second filing finds every bead of the first exactly when nothing was stolen in the first. */
  lemma SameBeadsIffNoTheft(gs: seq<Graph>, hs: seq<Graph>, os: seq<Order>, tool: Tool)
    requires Trail(gs, os, tool) && Trail(hs, os, tool) && hs[0] == Last(gs) && |hs| == |gs|
    requires KeysDistinct(os)
    ensures Moves(hs, os) == Moves(gs, os) <==> NoTheft(Moves(gs, os))
  {
    if NoTheft(Moves(gs, os)) {
      SecondFilingIsThatOne(gs, hs, os, tool);
    } else if Moves(hs, os) == Moves(gs, os) {
      SameBeadsAreFiledAgain(gs, hs, os, tool);
    }
  }

  /* ---- what a second filing changes ---- */

  /**
    An entry that says nothing at creation which `bd create` does not carry through: no status, and no comma in a
    label, unless bd takes labels apart at commas whenever it is given them.
  */
  predicate Plain(o: Order, tool: Tool) {
    (o.issue.status == "" || o.issue.status == OPEN) && (tool.splits || forall l <- o.issue.labels :: ',' !in l)
  }

  /** The labels of a creation are all that its revision would add exactly when bd splits both, or there is nothing to split. */
  lemma LabelsFinalIff(labels: seq<string>, tool: Tool)
    requires labels != []
    ensures Added(labels, tool) <= Pieces(JoinCommas(labels)) <==> tool.splits || forall l <- labels :: ',' !in l
  {
    if tool.splits {
      PiecesOfJoined(labels);
    } else {
      LabelsSurviveJoiningIffCommaFree(labels);
    }
  }

  /** Revising a fresh bead by what it was created from leaves it alone exactly when that was plain. */
  lemma FreshIsFinalIff(id: string, i: Issue, tool: Tool)
    ensures Revise(Blueprint(id, i), i, tool) == Blueprint(id, i) <==>
            (i.status == "" || i.status == OPEN) && (tool.splits || forall l <- i.labels :: ',' !in l)
  {
    if i.labels != [] {
      LabelsFinalIff(i.labels, tool);
    }
    var b := Blueprint(id, i);
    assert b.labels + Added(i.labels, tool) == b.labels <==> Added(i.labels, tool) <= b.labels;
    assert Revise(b, i, tool) == b.(status := Or(i.status, OPEN), labels := b.labels + Added(i.labels, tool));
  }

  /** Every bead past the start was created by some entry. */
  lemma {:induction false} Creator(gs: seq<Graph>, os: seq<Order>, n: nat, k: nat, tool: Tool) returns (i: nat)
    requires Trail(gs, os, tool) && n < |gs| && |gs[0].beads| <= k < |gs[n].beads|
    ensures i < n && |gs[i].beads| == k == Moves(gs, os)[i].target && !os[i].byId
  {
    assert n > 0 && Next(gs, os, n - 1, tool);
    if k < |gs[n - 1].beads| {
      i := Creator(gs, os, n - 1, k, tool);
    } else {
      i := n - 1;
    }
  }

  /** The second filing applies to each bead, once more, all that was asked of it. */
  lemma SecondFilingRevises(gs: seq<Graph>, hs: seq<Graph>, os: seq<Order>, k: nat, tool: Tool)
    requires Trail(gs, os, tool) && Trail(hs, os, tool) && hs[0] == Last(gs) && |hs| == |gs|
    requires KeysDistinct(os) && NoTheft(Moves(gs, os)) && k < |Last(gs).beads|
    ensures |Last(hs).beads| == |Last(gs).beads|
    ensures Last(hs).beads[k] == ReviseBy(Last(gs).beads[k], Asked(os, Moves(gs, os), |gs| - 1, k), tool)
  {
    SecondFilingIsThatOne(gs, hs, os, tool);
    OldBead(hs, os, |hs| - 1, k, tool);
  }

  lemma OldBeadSettles(gs: seq<Graph>, hs: seq<Graph>, os: seq<Order>, k: nat, tool: Tool)
    requires Trail(gs, os, tool) && Trail(hs, os, tool) && hs[0] == Last(gs) && |hs| == |gs|
    requires KeysDistinct(os) && NoTheft(Moves(gs, os)) && k < |gs[0].beads|
    ensures k < |Last(gs).beads| == |Last(hs).beads| && Last(hs).beads[k] == Last(gs).beads[k]
  {
    var n := |gs| - 1;
    OldBead(gs, os, n, k, tool);
    SecondFilingRevises(gs, hs, os, k, tool);
    RevisingByAgain(gs[0].beads[k], Asked(os, Moves(gs, os), n, k), tool);
  }

  lemma RevisingByAgain(b: Bead, i: Option<Issue>, tool: Tool)
    ensures ReviseBy(ReviseBy(b, i, tool), i, tool) == ReviseBy(b, i, tool)
  {
    if i.Some? {
      RevisingAgain(b, i.value, tool);
    }
  }

  /** What a bead created by entry `i` says after one filing and after two. */
  lemma NewBeadSettlesIff(gs: seq<Graph>, hs: seq<Graph>, os: seq<Order>, i: nat, tool: Tool)
    requires Trail(gs, os, tool) && Trail(hs, os, tool) && hs[0] == Last(gs) && |hs| == |gs|
    requires KeysDistinct(os) && NoTheft(Moves(gs, os)) && i < |gs| - 1 && Creates(gs, os, i)
    ensures |gs[i].beads| < |Last(gs).beads| == |Last(hs).beads|
    ensures Last(hs).beads[|gs[i].beads|] == Last(gs).beads[|gs[i].beads|] <==> Plain(os[i], tool)
  {
    assert Next(gs, os, i, tool);
    NewBead(gs, os, i, |gs| - 1, tool);
    SecondFilingRevises(gs, hs, os, |gs[i].beads|, tool);
    FreshIsFinalIff(tool.mint(gs[i].minted), os[i].issue, tool);
  }

  lemma {:induction false} SizesAgree(gs: seq<Graph>, hs: seq<Graph>, os: seq<Order>, tool: Tool)
    requires Trail(gs, os, tool) && Trail(hs, os, tool) && hs[0] == Last(gs) && |hs| == |gs|
    requires KeysDistinct(os) && NoTheft(Moves(gs, os))
    ensures |Last(hs).beads| == |Last(gs).beads| && Last(hs).minted == Last(gs).minted && Last(hs).deps == Last(gs).deps
  {
    SecondFilingIsThatOne(gs, hs, os, tool);
    IdsStay(hs, os, 0, |hs| - 1, tool);
    DepsStay(hs, os, |hs| - 1, tool);
  }

  lemma {:induction false} DepsStay(gs: seq<Graph>, os: seq<Order>, n: nat, tool: Tool)
    requires Trail(gs, os, tool) && n < |gs|
    ensures gs[n].deps == gs[0].deps
  {
    if n > 0 {
      DepsStay(gs, os, n - 1, tool);
      assert Next(gs, os, n - 1, tool);
    }
  }

  /** The graph is final after one filing exactly when every entry that created a bead was plain. */
  lemma SettledAtOnceIff(gs: seq<Graph>, hs: seq<Graph>, os: seq<Order>, tool: Tool)
    requires Trail(gs, os, tool) && Trail(hs, os, tool) && hs[0] == Last(gs) && |hs| == |gs|
    requires KeysDistinct(os) && NoTheft(Moves(gs, os))
    ensures Last(hs) == Last(gs) <==>
            forall i :: 0 <= i < |gs| - 1 && Creates(gs, os, i) ==> Plain(os[i], tool)
  {
    SizesAgree(gs, hs, os, tool);
    if forall i :: 0 <= i < |gs| - 1 && Creates(gs, os, i) ==> Plain(os[i], tool) {
      forall k | 0 <= k < |Last(gs).beads|
        ensures Last(hs).beads[k] == Last(gs).beads[k]
      {
        if k < |gs[0].beads| {
          OldBeadSettles(gs, hs, os, k, tool);
        } else {
          var i := Creator(gs, os, |gs| - 1, k, tool);
          NewBeadSettlesIff(gs, hs, os, i, tool);
        }
      }
      assert Last(hs).beads == Last(gs).beads;
    } else {
      var i :| 0 <= i < |gs| - 1 && Creates(gs, os, i) && !Plain(os[i], tool);
      NewBeadSettlesIff(gs, hs, os, i, tool);
    }
  }

  /** Three filings leave what two left, statuses and all. */
  lemma SettledAfterTwo(gs: seq<Graph>, hs: seq<Graph>, ks: seq<Graph>, os: seq<Order>, tool: Tool)
    requires Trail(gs, os, tool) && Trail(hs, os, tool) && Trail(ks, os, tool)
    requires hs[0] == Last(gs) && ks[0] == Last(hs) && |gs| == |hs| == |ks|
    requires KeysDistinct(os) && NoTheft(Moves(gs, os))
    ensures Last(ks) == Last(hs) && Moves(ks, os) == Moves(hs, os) == Moves(gs, os)
  {
    SecondFilingIsThatOne(gs, hs, os, tool);
    SecondFilingIsThatOne(hs, ks, os, tool);
    SizesAgree(gs, hs, os, tool);
    SizesAgree(hs, ks, os, tool);
    forall k | 0 <= k < |Last(hs).beads|
      ensures Last(ks).beads[k] == Last(hs).beads[k]
    {
      SecondFilingRevises(gs, hs, os, k, tool);
      SecondFilingRevises(hs, ks, os, k, tool);
      RevisingByAgain(Last(gs).beads[k], Asked(os, Moves(gs, os), |gs| - 1, k), tool);
    }
    assert Last(ks).beads == Last(hs).beads;
  }
}
