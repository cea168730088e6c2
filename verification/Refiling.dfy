/** `fileplan` called twice on one plan, when bd runs and answers every command. */
module Refiling {
  import opened Text
  import opened Beads
  import opened Plans
  import opened Holders
  import opened Filing
  import opened FilingLaws
  import opened Recovery
  import opened Theft
  import opened FilePlan
  import opened FilePlanLaws

  /** Every id of the plan is known, and none names a bead that an earlier entry finds by its key. */
  ghost predicate StealsNothing(g: Graph, os: seq<Order>) {
    IdsKnown(g, os) && forall i, j :: 0 <= i < j < |os| ==> !Steals(g, os, i, j)
  }

  /** An entry that was filed once is filed again. */
  lemma GetsThroughAgain(gs: seq<Graph>, hs: seq<Graph>, os: seq<Order>, tool: Tool)
    requires Trail(gs, os, tool) && |gs| == |os| + 1 && KeysDistinct(os) && NoTheft(Moves(gs, os))
    requires Trail(hs, os, tool) && hs[0] == Last(gs) && |hs| <= |os|
    ensures Step(Last(hs), os[|hs| - 1], tool).Some?
  {
    var ks := SecondFiling(gs, os, |hs|, tool);
    TrailsAgree(hs, ks, os, |hs| - 1, tool);
    assert Next(ks, os, |hs| - 1, tool);
  }

  /** An entry whose bead is known by its id, if it has one, can be filed. */
  lemma CanBeFiled(p: Plan, gs: seq<Graph>, h: Graph, n: nat, tool: Tool)
    requires Fileable(p) && Trail(gs, OrdersOf(p), tool) && IdsKnown(gs[0], OrdersOf(p))
    requires n == |gs| - 1 < |p.entries| && h.beads == Last(gs).beads
    ensures Step(h, OrdersOf(p)[n], tool).Some?
  {
    FileableWellFormed(p, n);
    if OrdersOf(p)[n].byId {
      IdsStay(gs, OrdersOf(p), 0, n, tool);
      SameIdFound(gs[0].beads, h.beads, OrdersOf(p)[n].id);
    }
  }

  /** A plan that may be filed, and names no unknown id, can be filed whole. */
  lemma {:induction false} CanBeFiledWhole(p: Plan, g: Graph, n: nat, tool: Tool) returns (gs: seq<Graph>, e: Entered)
    requires Fileable(p) && Sound(g, tool) && IdsKnown(g, OrdersOf(p)) && n <= |p.entries|
    ensures |gs| == n + 1 && gs[0] == g && Entering(gs, p, e, tool)
  {
    if n == 0 {
      gs, e := [g], Entered(map[], []);
      NothingEntered(g, p, tool);
    } else {
      gs, e := CanBeFiledWhole(p, g, n - 1, tool);
      CanBeFiled(p, gs, Last(gs), n - 1, tool);
      var o := OrdersOf(p)[n - 1];
      var h := Step(Last(gs), o, tool).value;
      var k := Target(Last(gs).beads, o);
      OneMoreEntered(gs, p, e, h, h.beads[k].id, tool);
      gs, e := gs + [h],
        Entered(e.filed[p.entries[n - 1].ref := h.beads[k].id],
                e.out + [Filed(p.entries[n - 1].ref, h.beads[k].id, k == |Last(gs).beads|)]);
    }
  }

  /** In calm weather a plan that may be filed, and names no unknown id, is answered. */
  lemma CalmMeansAnswered(p: Plan, r: Answer, log: Record, g: Graph, h: Graph, tool: Tool)
    requires Fileable(p) && IdsKnown(g, OrdersOf(p)) && Answers(r, log, p, g, h, true, tool)
    ensures !r.Failed?
  {
    if r.Failed? {
      CanBeFiled(p, log.gs, h, |log.gs| - 1, tool);
    }
  }

  /** A bead that a filing created has the id minted for it. */
  lemma {:induction false} MintedIds(gs: seq<Graph>, os: seq<Order>, n: nat, k: nat, tool: Tool)
    requires Trail(gs, os, tool) && n < |gs| && |gs[0].beads| <= k < |gs[n].beads|
    ensures gs[n].beads[k].id == tool.mint(gs[0].minted + k - |gs[0].beads|)
    ensures gs[0].minted + k - |gs[0].beads| < gs[n].minted
  {
    if n > 0 {
      assert Next(gs, os, n - 1, tool);
      StepKeepsIds(gs[n - 1], os[n - 1], tool);
      IdsStay(gs, os, 0, n - 1, tool);
      if k < |gs[n - 1].beads| {
        MintedIds(gs, os, n - 1, k, tool);
      }
    }
  }

  lemma StillKnown(p: Plan, log: Record, g: Graph, h: Graph, tool: Tool)
    requires Wrote(log, p, g, h, tool) && IdsKnown(g, OrdersOf(p))
    ensures IdsKnown(h, OrdersOf(p))
  {
    var os := OrdersOf(p);
    IdsStay(log.gs, os, 0, |log.gs| - 1, tool);
    forall j | 0 <= j < |os| && os[j].byId
      ensures FindId(h.beads, os[j].id) < |h.beads|
    {
      SameIdFound(g.beads, h.beads, os[j].id);
    }
  }

  lemma NothingStolen(p: Plan, one: Record, out: seq<Filed>, g: Graph, h: Graph, tool: Tool)
    requires Fileable(p) && Completed(one, p, out, g, h, tool) && StealsNothing(g, OrdersOf(p))
    ensures NoTheft(Moves(one.gs, OrdersOf(p)))
  {
    FileableKeysDistinct(p);
    NoTheftIff(one.gs, OrdersOf(p), tool);
  }

  lemma StillSound(p: Plan, one: Record, out: seq<Filed>, g: Graph, h: Graph, tool: Tool)
    requires Completed(one, p, out, g, h, tool)
    ensures Sound(h, tool)
  {
    assert Sound(Last(one.gs), tool);
  }

  /** Nothing was created, and every ref has the bead it had. */
  predicate SameReport(one: seq<Filed>, two: seq<Filed>) {
    |one| == |two| && forall i :: 0 <= i < |one| ==> two[i] == Filed(one[i].ref, one[i].bead, false)
  }

  /** Every entry the report calls created said nothing that `bd create` does not carry through. */
  predicate CreatedPlain(p: Plan, out: seq<Filed>, tool: Tool)
    requires |out| == |p.entries|
  {
    forall i :: 0 <= i < |out| && out[i].created ==> Plain(OrderOf(p.project, p.entries[i]), tool)
  }

  /** A filing that ends with as many beads as it began with has created none. */
  lemma NothingCreated(gs: seq<Graph>, os: seq<Order>, i: nat, tool: Tool)
    requires Trail(gs, os, tool) && i < |gs| - 1 && |Last(gs).beads| == |gs[0].beads|
    ensures !Creates(gs, os, i)
  {
    assert Next(gs, os, i, tool);
    IdsStay(gs, os, 0, i, tool);
    IdsStay(gs, os, i + 1, |gs| - 1, tool);
  }

  lemma SameLine(p: Plan, gs: seq<Graph>, hs: seq<Graph>, os: seq<Order>, i: nat)
    requires |gs| == |hs| == |os| + 1 && |os| == |p.entries| && i < |os|
    requires Ids(hs, os)[i] == Ids(gs, os)[i] && !Creates(hs, os, i)
    ensures var one := Report(p, gs, os)[i]; Report(p, hs, os)[i] == Filed(one.ref, one.bead, false)
  {
  }

  lemma ReportsAgree(p: Plan, gs: seq<Graph>, hs: seq<Graph>, os: seq<Order>, tool: Tool)
    requires |gs| == |hs| == |os| + 1 && |os| == |p.entries| && Trail(hs, os, tool)
    requires Ids(hs, os) == Ids(gs, os) && |Last(hs).beads| == |hs[0].beads|
    ensures SameReport(Report(p, gs, os), Report(p, hs, os))
  {
    forall i | 0 <= i < |os|
      ensures Report(p, hs, os)[i] == Filed(Report(p, gs, os)[i].ref, Report(p, gs, os)[i].bead, false)
    {
      NothingCreated(hs, os, i, tool);
      SameLine(p, gs, hs, os, i);
    }
  }

  lemma ReportTellsPlain(p: Plan, gs: seq<Graph>, tool: Tool)
    requires |gs| == |p.entries| + 1
    ensures PlainBefore(gs, OrdersOf(p), |p.entries|, tool) <==> CreatedPlain(p, Report(p, gs, OrdersOf(p)), tool)
  {
    var os, out := OrdersOf(p), Report(p, gs, OrdersOf(p));
    assert forall i :: 0 <= i < |out| ==> (out[i].created <==> Creates(gs, os, i));
    assert forall i :: 0 <= i < |out| ==> os[i] == OrderOf(p.project, p.entries[i]);
  }

  lemma AnsweredAgain(
    p: Plan, one: Record, out: seq<Filed>, g: Graph, h: Graph, two: Answer, again: Record, k: Graph, tool: Tool)
    requires Fileable(p) && Completed(one, p, out, g, h, tool) && StealsNothing(g, OrdersOf(p))
    requires Answers(two, again, p, h, k, true, tool)
    ensures !two.Failed? && !two.Refused? && |out| == |p.entries| && SameReport(out, two.filed)
    ensures |k.beads| == |h.beads| && k.deps == h.deps && (k == h <==> CreatedPlain(p, out, tool))
  {
    NothingStolen(p, one, out, g, h, tool);
    WholeIsAStop(p, one, out, g, h, tool);
    RefilingAfterACrash(p, one, out, two, again, g, h, h, k, |p.entries|, tool);
    TwiceTheSame(p, one, out, again, two.filed, g, h, k, tool);
  }

  lemma WholeIsAStop(p: Plan, one: Record, out: seq<Filed>, g: Graph, h: Graph, tool: Tool)
    requires Completed(one, p, out, g, h, tool)
    ensures StoppedAt(h, one, p, g, |p.entries|)
  {
  }

  lemma TwiceTheSame(
    p: Plan, one: Record, out: seq<Filed>, again: Record, filed: seq<Filed>, g: Graph, h: Graph, k: Graph, tool: Tool)
    requires Fileable(p) && Completed(one, p, out, g, h, tool) && Completed(again, p, filed, h, k, tool)
    requires NoTheft(Moves(one.gs, OrdersOf(p)))
    ensures |out| == |p.entries| && SameReport(out, filed) && |k.beads| == |h.beads| && k.deps == h.deps
    ensures k == h <==> CreatedPlain(p, out, tool)
  {
    RefilingAPlan(p, one, out, again, filed, g, h, k, tool);
    ReportsAgree(p, one.gs, again.gs, OrdersOf(p), tool);
    ReportTellsPlain(p, one.gs, tool);
  }

  /* ---- a first filing in any weather ---- */

  lemma {:induction false} SoundAlong(gs: seq<Graph>, os: seq<Order>, n: nat, tool: Tool)
    requires Trail(gs, os, tool) && n < |gs| && Sound(gs[0], tool)
    ensures Sound(gs[n], tool)
  {
    if n > 0 {
      SoundAlong(gs, os, n - 1, tool);
      assert Next(gs, os, n - 1, tool);
      SoundStays(gs[n - 1], os[n - 1], tool);
    }
  }

  /** What a filing wrote, whatever it answered. */
  ghost predicate Wrote(log: Record, p: Plan, g: Graph, c: Graph, tool: Tool) {
    && Trail(log.gs, OrdersOf(p), tool) && log.gs[0] == g
    && c.beads == Last(log.gs).beads && c.minted == Last(log.gs).minted
  }

  lemma AnsweredMeansWrote(r: Answer, log: Record, p: Plan, g: Graph, c: Graph, calm: bool, tool: Tool)
    requires Answers(r, log, p, g, c, calm, tool)
    ensures Wrote(log, p, g, c, tool)
    ensures r.Failed? ==> c.deps == g.deps
    ensures !r.Failed? ==> Whole(log, p, r.filed, tool) && Wired(g.deps, c.deps, Declared(p, log.filed), false)
  {
  }

  /** An id minted from the `lo`-th to before the `hi`-th. */
  ghost predicate MintedIn(id: string, lo: nat, hi: nat, tool: Tool) {
    exists m: nat :: lo <= m < hi && id == tool.mint(m)
  }

  lemma KnownOrMinted(gs: seq<Graph>, os: seq<Order>, j: nat, tool: Tool)
    requires Trail(gs, os, tool) && j < |gs| - 1 && os[j].byId
    ensures FindId(gs[0].beads, os[j].id) < |gs[0].beads| || MintedIn(os[j].id, gs[0].minted, Last(gs).minted, tool)
  {
    assert Next(gs, os, j, tool);
    var k := FindId(gs[j].beads, os[j].id);
    IdsStay(gs, os, 0, j, tool);
    IdsStay(gs, os, j, |gs| - 1, tool);
    if k < |gs[0].beads| {
      assert gs[0].beads[k].id == os[j].id;
    } else {
      MintedIds(gs, os, j, k, tool);
    }
  }

  /** And one that is answered names no id but of a bead that was there, or that it has minted itself. */
  lemma AnsweredMeansKnown(p: Plan, r: Answer, log: Record, g: Graph, h: Graph, calm: bool, j: nat, tool: Tool)
    requires Answers(r, log, p, g, h, calm, tool) && !r.Failed? && j < |p.entries| && OrdersOf(p)[j].byId
    ensures FindId(g.beads, OrdersOf(p)[j].id) < |g.beads| || MintedIn(OrdersOf(p)[j].id, g.minted, h.minted, tool)
  {
    WroteWhole(r, log, p, g, h, calm, tool);
    KnownOrMinted(log.gs, OrdersOf(p), j, tool);
  }

  lemma WroteWhole(r: Answer, log: Record, p: Plan, g: Graph, c: Graph, calm: bool, tool: Tool)
    requires Answers(r, log, p, g, c, calm, tool) && !r.Failed?
    ensures Trail(log.gs, OrdersOf(p), tool) && |log.gs| == |p.entries| + 1
    ensures log.gs[0] == g && c.minted == Last(log.gs).minted
  {
  }

  /** Whatever a filing answered, what it leaves can be filed into. */
  lemma SoundAfterwards(log: Record, p: Plan, g: Graph, c: Graph, tool: Tool)
    requires Wrote(log, p, g, c, tool) && Sound(g, tool)
    ensures Sound(c, tool)
  {
    SoundAlong(log.gs, OrdersOf(p), |log.gs| - 1, tool);
  }

  /**
    Filed twice, a plan that names no unknown id is answered twice; and if it takes no bead from an entry of its own, the
    second filing creates nothing, names the same beads and adds no edge, and does not touch the graph at all exactly
    when what the first one created was plain.
  */
  method FileTwice(bd: Client, p: Plan)
    returns (one: Answer, two: Answer, ghost log1: Record, ghost between: Graph, ghost log2: Record)
    requires Sound(bd.Snapshot(), bd.tool) && Fileable(p) && Calm(bd.weather)
    modifies bd`beads, bd`deps, bd`minted, bd`weather
    ensures Answers(one, log1, p, old(bd.Snapshot()), between, true, bd.tool)
    ensures Answers(two, log2, p, between, bd.Snapshot(), true, bd.tool)
    ensures IdsKnown(old(bd.Snapshot()), OrdersOf(p)) ==> !one.Failed? && !two.Failed?
    ensures StealsNothing(old(bd.Snapshot()), OrdersOf(p)) ==>
              && |one.filed| == |p.entries| && SameReport(one.filed, two.filed)
              && |bd.beads| == |between.beads| && bd.deps == between.deps
              && (bd.Snapshot() == between <==> CreatedPlain(p, one.filed, bd.tool))
  {
    ghost var g, tool := bd.Snapshot(), bd.tool;
    one, log1 := Fileplan(bd, p);
    between := bd.Snapshot();
    AnsweredMeansWrote(one, log1, p, g, between, true, tool);
    SoundAfterwards(log1, p, g, between, tool);
    two, log2 := Fileplan(bd, p);
    if IdsKnown(g, OrdersOf(p)) {
      CalmMeansAnswered(p, one, log1, g, between, tool);
      StillKnown(p, log1, g, between, tool);
      CalmMeansAnswered(p, two, log2, between, bd.Snapshot(), tool);
    }
    if StealsNothing(g, OrdersOf(p)) {
      AnsweredMeansCompleted(one, log1, p, g, between, tool);
      AnsweredAgain(p, log1, one.filed, g, between, two, log2, bd.Snapshot(), tool);
    }
  }

  lemma StormFollows(whole: Record, log: Record, os: seq<Order>, tool: Tool)
    requires Trail(whole.gs, os, tool) && Trail(log.gs, os, tool) && whole.gs[0] == log.gs[0] && |log.gs| <= |whole.gs|
    ensures log.gs == whole.gs[..|log.gs|]
  {
    forall i | 0 <= i < |log.gs|
      ensures log.gs[i] == whole.gs[i]
    {
      TrailsAgree(log.gs, whole.gs, os, i, tool);
    }
  }

  lemma SameMap(p: Plan, whole: Record, out: seq<Filed>, log: Record, filed: seq<Filed>, tool: Tool)
    requires Whole(whole, p, out, tool) && Whole(log, p, filed, tool) && log.gs == whole.gs
    ensures log.filed == whole.filed
  {
    OneMap(log.filed, whole.filed, RawRefs(p), Ids(whole.gs, OrdersOf(p)));
  }

  lemma FailedStops(p: Plan, whole: Record, out: seq<Filed>, g: Graph, h: Graph, log: Record, c: Graph, tool: Tool)
    requires Completed(whole, p, out, g, h, tool) && Wrote(log, p, g, c, tool) && c.deps == g.deps
    ensures StoppedAt(c, whole, p, g, |log.gs| - 1)
  {
    StormFollows(whole, log, OrdersOf(p), tool);
  }

  lemma WholeStops(
    p: Plan, whole: Record, out: seq<Filed>, g: Graph, h: Graph, log: Record, filed: seq<Filed>, c: Graph, tool: Tool)
    requires Completed(whole, p, out, g, h, tool) && Wrote(log, p, g, c, tool) && Whole(log, p, filed, tool)
    requires Wired(g.deps, c.deps, Declared(p, log.filed), false)
    ensures StoppedAt(c, whole, p, g, |log.gs| - 1)
  {
    StormFollows(whole, log, OrdersOf(p), tool);
    SameMap(p, whole, out, log, filed, tool);
  }

  /** A filing in any weather stops somewhere along the one in calm weather. */
  lemma StormStops(
    p: Plan, whole: Record, out: seq<Filed>, g: Graph, h: Graph, r: Answer, log: Record, c: Graph, calm: bool, tool: Tool)
    requires Completed(whole, p, out, g, h, tool) && Answers(r, log, p, g, c, calm, tool)
    ensures StoppedAt(c, whole, p, g, |log.gs| - 1)
  {
    AnsweredMeansWrote(r, log, p, g, c, calm, tool);
    if r.Failed? {
      FailedStops(p, whole, out, g, h, log, c, tool);
    } else {
      WholeStops(p, whole, out, g, h, log, r.filed, c, tool);
    }
  }

  /** The same refs with the same beads. */
  predicate SameBeads(one: seq<Filed>, two: seq<Filed>) {
    |one| == |two| && forall i :: 0 <= i < |one| ==> two[i].ref == one[i].ref && two[i].bead == one[i].bead
  }

  /** Of the first `n` entries, every one the report calls created was plain. */
  predicate PlainUpTo(p: Plan, out: seq<Filed>, n: nat, tool: Tool)
    requires |out| == |p.entries|
  {
    forall i :: 0 <= i < n && i < |out| && out[i].created ==> Plain(OrderOf(p.project, p.entries[i]), tool)
  }

  lemma ReportTellsPlainUpTo(p: Plan, gs: seq<Graph>, n: nat, tool: Tool)
    requires |gs| == |p.entries| + 1 && n <= |p.entries|
    ensures PlainBefore(gs, OrdersOf(p), n, tool) <==> PlainUpTo(p, Report(p, gs, OrdersOf(p)), n, tool)
  {
    var os, out := OrdersOf(p), Report(p, gs, OrdersOf(p));
    assert forall i :: 0 <= i < |out| ==> (out[i].created <==> Creates(gs, os, i));
    assert forall i :: 0 <= i < |out| ==> os[i] == OrderOf(p.project, p.entries[i]);
  }

  lemma SameBeadsReported(p: Plan, gs: seq<Graph>, hs: seq<Graph>)
    requires |gs| == |hs| == |p.entries| + 1 && Ids(hs, OrdersOf(p)) == Ids(gs, OrdersOf(p))
    ensures SameBeads(Report(p, gs, OrdersOf(p)), Report(p, hs, OrdersOf(p)))
  {
    assert forall i :: 0 <= i < |p.entries| ==> Ids(hs, OrdersOf(p))[i] == Ids(gs, OrdersOf(p))[i];
  }

  lemma RecoveredReport(
    p: Plan, whole: Record, out: seq<Filed>, two: Answer, again: Record,
    g: Graph, h: Graph, c: Graph, k: Graph, n: nat, tool: Tool)
    requires Fileable(p) && Completed(whole, p, out, g, h, tool) && StealsNothing(g, OrdersOf(p))
    requires StoppedAt(c, whole, p, g, n) && Answers(two, again, p, c, k, true, tool)
    ensures !two.Failed? && !two.Refused? && n <= |p.entries| == |out| && SameBeads(out, two.filed) && k.deps == h.deps
    ensures k == h <==> PlainUpTo(p, out, n, tool)
  {
    NothingStolen(p, whole, out, g, h, tool);
    RefilingAfterACrash(p, whole, out, two, again, g, h, c, k, n, tool);
    SameBeadsReported(p, whole.gs, again.gs);
    ReportTellsPlainUpTo(p, whole.gs, n, tool);
  }

  /** The undisturbed filing, the disturbed one and the one after that, together. */
  lemma MadeWhole(
    p: Plan, one: Answer, whole: Record, first: Answer, log: Record, two: Answer, again: Record,
    g: Graph, h: Graph, c: Graph, k: Graph, mild: bool, tool: Tool)
    requires Fileable(p) && !one.Failed? && StealsNothing(g, OrdersOf(p)) && Answers(one, whole, p, g, h, true, tool)
    requires Answers(first, log, p, g, c, mild, tool) && Answers(two, again, p, c, k, true, tool)
    ensures !one.Refused? && !two.Failed? && !two.Refused? && |log.gs| - 1 <= |p.entries| == |one.filed|
    ensures SameBeads(one.filed, two.filed) && k.deps == h.deps
    ensures k == h <==> PlainUpTo(p, one.filed, |log.gs| - 1, tool)
  {
    AnsweredMeansCompleted(one, whole, p, g, h, tool);
    StormStops(p, whole, one.filed, g, h, first, log, c, mild, tool);
    RecoveredReport(p, whole, one.filed, two, again, g, h, c, k, |log.gs| - 1, tool);
  }

  /** A first filing, in whatever weather; what it leaves can be filed into. */
  method FileInAnyWeather(bd: Client, p: Plan) returns (r: Answer, ghost log: Record)
    requires Sound(bd.Snapshot(), bd.tool) && Fileable(p)
    modifies bd`beads, bd`deps, bd`minted, bd`weather
    ensures Answers(r, log, p, old(bd.Snapshot()), bd.Snapshot(), Calm(old(bd.weather)), bd.tool)
    ensures log.gs != [] && Sound(bd.Snapshot(), bd.tool)
  {
    ghost var g, mild := bd.Snapshot(), Calm(bd.weather);
    r, log := Fileplan(bd, p);
    AnsweredMeansWrote(r, log, p, g, bd.Snapshot(), mild, bd.tool);
    SoundAfterwards(log, p, g, bd.Snapshot(), bd.tool);
  }

  /**
    One graph, twice: on one a plan is filed undisturbed, from `g` to `h`; on the other a first filing meets any weather,
    commands that are refused and answers that are lost, or the death of its node, after which every command is refused,
    and leaves `c`; and then the plan is filed again.  That call answers, names the beads and has the edges of the
    undisturbed one, and ends in its very graph exactly when what the first call had created, of the entries it got to,
    was plain.
  */
  method FileAfterACrash(calm: Client, crashed: Client, p: Plan)
    returns (one: Answer, first: Answer, two: Answer,
             ghost whole: Record, ghost log: Record, ghost again: Record, ghost c: Graph)
    requires calm != crashed && calm.Snapshot() == crashed.Snapshot() && calm.tool == crashed.tool
    requires Sound(calm.Snapshot(), calm.tool) && Fileable(p) && Calm(calm.weather)
    modifies calm`beads, calm`deps, calm`minted, calm`weather
    modifies crashed`beads, crashed`deps, crashed`minted, crashed`weather
    ensures Answers(one, whole, p, old(calm.Snapshot()), calm.Snapshot(), true, calm.tool)
    ensures Answers(first, log, p, old(crashed.Snapshot()), c, Calm(old(crashed.weather)), calm.tool)
    ensures Answers(two, again, p, c, crashed.Snapshot(), true, calm.tool)
    ensures IdsKnown(old(calm.Snapshot()), OrdersOf(p)) ==> !one.Failed? && !two.Failed?
    ensures StealsNothing(old(calm.Snapshot()), OrdersOf(p)) ==>
              && |log.gs| - 1 <= |p.entries| == |one.filed|
              && SameBeads(one.filed, two.filed) && crashed.deps == calm.deps
              && (crashed.Snapshot() == calm.Snapshot() <==> PlainUpTo(p, one.filed, |log.gs| - 1, calm.tool))
  {
    ghost var g, tool, mild := calm.Snapshot(), calm.tool, Calm(crashed.weather);
    one, whole := Fileplan(calm, p);
    first, log := FileInAnyWeather(crashed, p);
    c := crashed.Snapshot();
    crashed.weather := [];
    two, again := Fileplan(crashed, p);
    if IdsKnown(g, OrdersOf(p)) {
      CalmMeansAnswered(p, one, whole, g, calm.Snapshot(), tool);
      AnsweredMeansWrote(first, log, p, g, c, mild, tool);
      StillKnown(p, log, g, c, tool);
      CalmMeansAnswered(p, two, again, c, crashed.Snapshot(), tool);
    }
    if StealsNothing(g, OrdersOf(p)) {
      MadeWhole(p, one, whole, first, log, two, again, g, calm.Snapshot(), c, crashed.Snapshot(), mild, tool);
    }
  }
}
