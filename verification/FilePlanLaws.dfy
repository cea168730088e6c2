/** What filing a plan twice, or again after a crash, comes to: beads, ids, report and edges. */
module FilePlanLaws {
  import opened Beads
  import opened Plans
  import opened Holders
  import opened Filing
  import opened FilingLaws
  import opened Recovery
  import opened Cycles
  import opened FilePlan

  /* ---- pass one does not look at edges ---- */

  function WithDeps(gs: seq<Graph>, deps: set<Edge>): (hs: seq<Graph>)
    ensures |hs| == |gs| && forall i :: 0 <= i < |hs| ==> hs[i] == gs[i].(deps := deps)
  {
    seq(|gs|, i requires 0 <= i < |gs| => gs[i].(deps := deps))
  }

  lemma EdgesDoNotMatter(gs: seq<Graph>, os: seq<Order>, deps: set<Edge>, tool: Tool)
    requires Trail(gs, os, tool)
    ensures Trail(WithDeps(gs, deps), os, tool) && Moves(WithDeps(gs, deps), os) == Moves(gs, os)
  {
    var hs := WithDeps(gs, deps);
    forall i | 0 <= i < |hs| - 1
      ensures Next(hs, os, i, tool)
    {
      assert Next(gs, os, i, tool);
    }
  }

  lemma SameBeadsSameIds(gs: seq<Graph>, hs: seq<Graph>, os: seq<Order>, tool: Tool)
    requires Trail(gs, os, tool) && Trail(hs, os, tool) && |hs| == |gs|
    requires Moves(hs, os) == Moves(gs, os) && SameIds(Last(gs).beads, Last(hs).beads)
    ensures Ids(hs, os) == Ids(gs, os)
  {
    forall i | 0 <= i < |gs| - 1
      ensures Ids(hs, os)[i] == Ids(gs, os)[i]
    {
      SameBeadSameId(gs, hs, os, i, tool);
    }
  }

  lemma SameBeadSameId(gs: seq<Graph>, hs: seq<Graph>, os: seq<Order>, i: nat, tool: Tool)
    requires Trail(gs, os, tool) && Trail(hs, os, tool) && |hs| == |gs| && i < |gs| - 1
    requires Moves(hs, os) == Moves(gs, os) && SameIds(Last(gs).beads, Last(hs).beads)
    ensures IdAt(hs, os, i) == IdAt(gs, os, i)
  {
    IdOfTheBead(gs, os, i, tool);
    IdOfTheBead(hs, os, i, tool);
    assert Moves(hs, os)[i].target == Moves(gs, os)[i].target;
  }

  /** The id an entry is answered with is the one its bead still has at the end. */
  lemma IdOfTheBead(gs: seq<Graph>, os: seq<Order>, i: nat, tool: Tool)
    requires Trail(gs, os, tool) && i < |gs| - 1
    ensures var k := Moves(gs, os)[i].target; k < |Last(gs).beads| && IdAt(gs, os, i) == Last(gs).beads[k].id
  {
    assert Next(gs, os, i, tool);
    IdsStay(gs, os, i + 1, |gs| - 1, tool);
  }

  lemma OneMap(f: map<string, string>, h: map<string, string>, names: seq<string>, ids: seq<string>)
    requires Knows(f, names, ids) && Knows(h, names, ids) && |ids| == |names|
    ensures f == h
  {
    assert names[..|ids|] == names;
    assert f.Keys == h.Keys;
    forall n | n in f
      ensures f[n] == h[n]
    {
      var i :| 0 <= i < |names| && names[i] == n;
    }
  }

  /** A whole filing, in calm weather, that ended with every bead filed. */
  ghost predicate Completed(log: Record, p: Plan, out: seq<Filed>, g: Graph, h: Graph, tool: Tool) {
    && Trail(log.gs, OrdersOf(p), tool) && log.gs[0] == g && Whole(log, p, out, tool)
    && h.beads == Last(log.gs).beads && h.minted == Last(log.gs).minted
    && h.deps == g.deps + Declared(p, log.filed)
  }

  /** A calm filing that was answered, cleanly or with a cycle, was completed. */
  lemma AnsweredMeansCompleted(r: Answer, log: Record, p: Plan, g: Graph, h: Graph, tool: Tool)
    requires Answers(r, log, p, g, h, true, tool) && !r.Failed?
    ensures Completed(log, p, r.filed, g, h, tool)
  {
  }

  /** Filing a plan again creates no bead, answers with the same ids, and adds no edge. */
  lemma RefilingAPlan(
    p: Plan, one: Record, out1: seq<Filed>, two: Record, out2: seq<Filed>, g: Graph, h: Graph, k: Graph, tool: Tool)
    requires Fileable(p) && Completed(one, p, out1, g, h, tool) && Completed(two, p, out2, h, k, tool)
    requires NoTheft(Moves(one.gs, OrdersOf(p)))
    ensures |k.beads| == |h.beads| && k.minted == h.minted && k.deps == h.deps && two.filed == one.filed
    ensures Ids(two.gs, OrdersOf(p)) == Ids(one.gs, OrdersOf(p))
    ensures k == h <==> PlainBefore(one.gs, OrdersOf(p), |p.entries|, tool)
  {
    var os, gs := OrdersOf(p), WithDeps(one.gs, h.deps);
    FileableKeysDistinct(p);
    EdgesDoNotMatter(one.gs, os, h.deps, tool);
    assert Last(gs) == h;
    SecondFilingIsThatOne(gs, two.gs, os, tool);
    SizesAgree(gs, two.gs, os, tool);
    IdsStay(two.gs, os, 0, |two.gs| - 1, tool);
    assert SameIds(Last(one.gs).beads, Last(two.gs).beads);
    SameRefs(p, one, out1, two, out2, tool);
    SettledAtOnceIff(gs, two.gs, os, tool);
    PlainEitherWay(one.gs, os, h.deps, tool);
  }

  lemma PlainEitherWay(gs: seq<Graph>, os: seq<Order>, deps: set<Edge>, tool: Tool)
    requires Trail(gs, os, tool)
    ensures PlainBefore(gs, os, |gs| - 1, tool) <==>
            forall i :: 0 <= i < |gs| - 1 && Creates(WithDeps(gs, deps), os, i) ==> Plain(os[i], tool)
  {
    assert forall i :: 0 <= i < |gs| - 1 ==> (Creates(WithDeps(gs, deps), os, i) <==> Creates(gs, os, i));
  }

  /** Pass one alone, taken up again from a graph whose edges may be anything, gets through. */
  lemma TakenUpAgain(ws: seq<Graph>, cs: seq<Graph>, os: seq<Order>, n: nat, deps: set<Edge>, tool: Tool)
    requires Trail(ws, os, tool) && |ws| == |os| + 1 && n < |ws| && Farthest(cs, os, tool) && cs[0] == ws[n].(deps := deps)
    requires KeysDistinct(os) && NoTheft(Moves(ws, os))
    ensures |cs| == |ws| && Moves(cs, os) == Moves(ws, os) && SameIds(Last(ws).beads, Last(cs).beads)
    ensures Last(cs) == Last(ws).(deps := deps) <==> PlainBefore(ws, os, n, tool)
  {
    var gs := WithDeps(ws, deps);
    EdgesDoNotMatter(ws, os, deps, tool);
    RefilingRecoversIff(gs, cs, os, n, tool);
    PrefixOfNoTheft(Moves(gs, os), n);
    GetsThroughAfterACrash(gs, cs, os, n, tool);
    assert Last(gs) == Last(ws).(deps := deps);
    assert forall i :: 0 <= i < n ==> (Creates(gs, os, i) <==> Creates(ws, os, i));
  }

  lemma BeadsRecoverIff(
    ws: seq<Graph>, cs: seq<Graph>, os: seq<Order>, n: nat, h: Graph, c: Graph, k: Graph, tool: Tool)
    requires Trail(ws, os, tool) && |ws| == |os| + 1 && n < |ws| && Farthest(cs, os, tool) && cs[0] == c == ws[n].(deps := c.deps)
    requires KeysDistinct(os) && NoTheft(Moves(ws, os))
    requires h.beads == Last(ws).beads && h.minted == Last(ws).minted
    requires k.beads == Last(cs).beads && k.minted == Last(cs).minted
    ensures |cs| == |ws| && Moves(cs, os) == Moves(ws, os) && SameIds(Last(ws).beads, Last(cs).beads)
    ensures h.beads == k.beads && h.minted == k.minted <==> PlainBefore(ws, os, n, tool)
  {
    TakenUpAgain(ws, cs, os, n, c.deps, tool);
    DepsStay(cs, os, |cs| - 1, tool);
  }

  /** A filing that answered, whatever it answered, went as far as it could. */
  lemma AnsweredMeansFarthest(r: Answer, log: Record, p: Plan, g: Graph, h: Graph, tool: Tool)
    requires Answers(r, log, p, g, h, true, tool)
    ensures Farthest(log.gs, OrdersOf(p), tool) && log.gs[0] == g
    ensures h.beads == Last(log.gs).beads && h.minted == Last(log.gs).minted
    ensures r.Failed? ==> |log.gs| <= |p.entries|
  {
    DepsStay(log.gs, OrdersOf(p), |log.gs| - 1, tool);
    if r.Failed? {
      assert h == Last(log.gs);
    }
  }

  /** A filing stopped anywhere: its node dead between two commands of either pass, or an answer lost. */
  ghost predicate StoppedAt(c: Graph, whole: Record, p: Plan, g: Graph, n: nat) {
    && n < |whole.gs|
    && c.beads == whole.gs[n].beads && c.minted == whole.gs[n].minted && g.deps <= c.deps <= g.deps + Declared(p, whole.filed)
  }

  lemma BeadsAfterACrash(
    p: Plan, whole: Record, out: seq<Filed>, two: Answer, again: Record,
    g: Graph, h: Graph, c: Graph, k: Graph, n: nat, tool: Tool)
    requires Fileable(p) && Completed(whole, p, out, g, h, tool) && NoTheft(Moves(whole.gs, OrdersOf(p)))
    requires StoppedAt(c, whole, p, g, n) && Answers(two, again, p, c, k, true, tool)
    ensures |again.gs| == |whole.gs| == |p.entries| + 1 && Moves(again.gs, OrdersOf(p)) == Moves(whole.gs, OrdersOf(p))
    ensures SameIds(Last(whole.gs).beads, Last(again.gs).beads)
    ensures h.beads == k.beads && h.minted == k.minted <==> PlainBefore(whole.gs, OrdersOf(p), n, tool)
  {
    FileableKeysDistinct(p);
    AnsweredMeansFarthest(two, again, p, c, k, tool);
    assert c == whole.gs[n].(deps := c.deps);
    BeadsRecoverIff(whole.gs, again.gs, OrdersOf(p), n, h, c, k, tool);
  }

  lemma NotFailedMeansCompleted(two: Answer, again: Record, p: Plan, c: Graph, k: Graph, tool: Tool)
    requires Answers(two, again, p, c, k, true, tool) && |again.gs| == |p.entries| + 1
    ensures !two.Failed? && !two.Refused? && Completed(again, p, two.filed, c, k, tool)
  {
    AnsweredMeansFarthest(two, again, p, c, k, tool);
    AnsweredMeansCompleted(two, again, p, c, k, tool);
  }

  lemma SameFiledAfterACrash(
    p: Plan, whole: Record, out: seq<Filed>, two: Answer, again: Record,
    g: Graph, h: Graph, c: Graph, k: Graph, n: nat, tool: Tool)
    requires Fileable(p) && Completed(whole, p, out, g, h, tool) && NoTheft(Moves(whole.gs, OrdersOf(p)))
    requires StoppedAt(c, whole, p, g, n) && Answers(two, again, p, c, k, true, tool)
    ensures !two.Failed? && !two.Refused? && Completed(again, p, two.filed, c, k, tool)
    ensures again.filed == whole.filed && Ids(again.gs, OrdersOf(p)) == Ids(whole.gs, OrdersOf(p))
  {
    BeadsAfterACrash(p, whole, out, two, again, g, h, c, k, n, tool);
    NotFailedMeansCompleted(two, again, p, c, k, tool);
    SameRefs(p, whole, out, again, two.filed, tool);
  }

  lemma SameEdges(before: set<Edge>, between: set<Edge>, declared: set<Edge>)
    requires before <= between <= before + declared
    ensures between + declared == before + declared
  {
  }

  /**
    A filing that stopped anywhere is made whole by filing again: that gets through and names the beads of the filing
    that was never interrupted, with its edges, and ends in its graph exactly when every entry that had already created
    its bead was plain.
  */
  lemma RefilingAfterACrash(
    p: Plan, whole: Record, out: seq<Filed>, two: Answer, again: Record,
    g: Graph, h: Graph, c: Graph, k: Graph, n: nat, tool: Tool)
    requires Fileable(p) && Completed(whole, p, out, g, h, tool) && NoTheft(Moves(whole.gs, OrdersOf(p)))
    requires StoppedAt(c, whole, p, g, n) && Answers(two, again, p, c, k, true, tool)
    ensures !two.Failed? && !two.Refused? && Completed(again, p, two.filed, c, k, tool)
    ensures again.filed == whole.filed && Ids(again.gs, OrdersOf(p)) == Ids(whole.gs, OrdersOf(p)) && k.deps == h.deps
    ensures k == h <==> PlainBefore(whole.gs, OrdersOf(p), n, tool)
  {
    SameFiledAfterACrash(p, whole, out, two, again, g, h, c, k, n, tool);
    SameEdges(g.deps, c.deps, Declared(p, whole.filed));
    BeadsAfterACrash(p, whole, out, two, again, g, h, c, k, n, tool);
  }

  lemma SameRefs(p: Plan, one: Record, out1: seq<Filed>, two: Record, out2: seq<Filed>, tool: Tool)
    requires Fileable(p) && Whole(one, p, out1, tool) && Whole(two, p, out2, tool)
    requires Moves(two.gs, OrdersOf(p)) == Moves(one.gs, OrdersOf(p))
    requires SameIds(Last(one.gs).beads, Last(two.gs).beads)
    ensures two.filed == one.filed && Ids(two.gs, OrdersOf(p)) == Ids(one.gs, OrdersOf(p))
  {
    SameBeadsSameIds(one.gs, two.gs, OrdersOf(p), tool);
    OneMap(one.filed, two.filed, RawRefs(p), Ids(one.gs, OrdersOf(p)));
  }
}
