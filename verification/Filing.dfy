/** Pass one of a filing as a function of the graph, and what it does to every bead (cmd/dispatcher/filing.go). */
module Filing {
  import opened Text
  import opened Beads
  import opened Holders

  /** What one entry of a plan comes to: an issue, and the bead it is for, by id or by the issue's own key. */
  datatype Order = Order(issue: Issue, byId: bool, id: string)

  /** The index of the bead an entry lands on; past the end when there is none yet. */
  function Target(bs: seq<Bead>, o: Order): (k: nat)
    ensures k <= |bs|
  {
    if o.byId then FindId(bs, o.id) else FindRef(bs, o.issue.externalRef)
  }

  /** One entry: revise the bead it lands on, or create one; a targeted bead must exist. */
  function Step(g: Graph, o: Order, tool: Tool): (r: Option<Graph>)
    ensures r.Some? ==> Target(g.beads, o) < |g.beads| || !o.byId
    ensures r.Some? ==> r.value.deps == g.deps
  {
    var k := Target(g.beads, o);
    if k < |g.beads| then Some(g.(beads := g.beads[k := Revise(g.beads[k], o.issue, tool)]))
    else if o.byId then None
    else Created(g, o.issue, tool)
  }

  /** A filing, whole or cut short: each graph is what one more entry makes of the one before. */
  predicate Trail(gs: seq<Graph>, os: seq<Order>, tool: Tool) {
    && 0 < |gs| <= |os| + 1
    && forall i :: 0 <= i < |gs| - 1 ==> Next(gs, os, i, tool)
  }

  predicate Next(gs: seq<Graph>, os: seq<Order>, i: nat, tool: Tool)
    requires i < |gs| - 1 <= |os|
  {
    Step(gs[i], os[i], tool) == Some(gs[i + 1])
  }

  lemma {:induction false} TrailsAgree(gs: seq<Graph>, hs: seq<Graph>, os: seq<Order>, n: nat, tool: Tool)
    requires Trail(gs, os, tool) && Trail(hs, os, tool) && gs[0] == hs[0] && n < |gs| && n < |hs|
    ensures gs[n] == hs[n]
  {
    if n > 0 {
      TrailsAgree(gs, hs, os, n - 1, tool);
      assert Next(gs, os, n - 1, tool);
      assert Next(hs, os, n - 1, tool);
    }
  }

  /** Every order carries a key, and no two the same one. */
  ghost predicate KeysDistinct(os: seq<Order>) {
    && (forall i :: 0 <= i < |os| ==> os[i].issue.externalRef != "")
    && (forall i, j :: 0 <= i < j < |os| ==> os[i].issue.externalRef != os[j].issue.externalRef)
  }

  /* ---- the table of external references behind a filing ---- */

  function Table(bs: seq<Bead>): seq<string> {
    seq(|bs|, k requires 0 <= k < |bs| => bs[k].externalRef)
  }

  function MoveOf(g: Graph, o: Order): Move {
    Move(o.issue.externalRef, Target(g.beads, o), o.byId)
  }

  function Moves(gs: seq<Graph>, os: seq<Order>): (ms: seq<Move>)
    requires 0 < |gs| <= |os| + 1
    ensures |ms| == |gs| - 1
    ensures forall i :: 0 <= i < |ms| ==> ms[i] == MoveOf(gs[i], os[i])
  {
    seq(|gs| - 1, i requires 0 <= i < |gs| - 1 => MoveOf(gs[i], os[i]))
  }

  function Tables(gs: seq<Graph>): seq<seq<string>> {
    seq(|gs|, i requires 0 <= i < |gs| => Table(gs[i].beads))
  }

  lemma FindRefReadsTheTable(bs: seq<Bead>, key: string)
    ensures FindRef(bs, key) == First(Table(bs), key)
  {
    var k, l := FindRef(bs, key), First(Table(bs), key);
    assert k < |bs| ==> Table(bs)[k] == key;
    assert l < |bs| ==> bs[l].externalRef == key;
  }

  lemma StepIsAMove(g: Graph, o: Order, tool: Tool)
    requires Step(g, o, tool).Some? && o.issue.externalRef != ""
    ensures var m := MoveOf(g, o);
            && Legal(Table(g.beads), m)
            && Table(Step(g, o, tool).value.beads) == Write(Table(g.beads), m.target, m.key)
  {
    FindRefReadsTheTable(g.beads, o.issue.externalRef);
    var k := Target(g.beads, o);
    var h := Step(g, o, tool).value;
    if k < |g.beads| {
      assert Table(h.beads) == Table(g.beads)[k := o.issue.externalRef];
    } else {
      assert Table(h.beads) == Table(g.beads) + [o.issue.externalRef];
    }
  }

  lemma TrailTraces(gs: seq<Graph>, os: seq<Order>, tool: Tool)
    requires Trail(gs, os, tool) && KeysDistinct(os)
    ensures Trace(Tables(gs), Moves(gs, os))
  {
    var ms := Moves(gs, os);
    forall i | 0 <= i < |ms|
      ensures Played(Tables(gs), ms, i)
    {
      assert Next(gs, os, i, tool);
      StepIsAMove(gs[i], os[i], tool);
    }
  }

  /* ---- what becomes of one bead ---- */

  /** Two revisions in a row as one. */
  function Compose(i: Issue, j: Issue): Issue {
    Issue(Or(j.title, i.title), Or(j.description, i.description), Or(j.acceptance, i.acceptance),
          Or(j.design, i.design), j.kind, if j.priority > 0 then j.priority else i.priority,
          Or(j.status, i.status), i.labels + j.labels, Or(j.externalRef, i.externalRef))
  }

  lemma RevisingTwice(b: Bead, i: Issue, j: Issue, tool: Tool)
    ensures Revise(Revise(b, i, tool), j, tool) == Revise(b, Compose(i, j), tool)
  {
    AddedJoin(i.labels, j.labels, tool);
  }

  lemma RevisingAgain(b: Bead, i: Issue, tool: Tool)
    ensures Revise(Revise(b, i, tool), i, tool) == Revise(b, i, tool)
  {
  }

  function ReviseBy(b: Bead, i: Option<Issue>, tool: Tool): Bead {
    if i.Some? then Revise(b, i.value, tool) else b
  }

  /** Everything the first `n` entries ask of bead `k`, as one revision. */
  function Asked(os: seq<Order>, ms: seq<Move>, n: nat, k: nat): Option<Issue>
    requires n <= |ms| <= |os|
  {
    if n == 0 then None
    else
      var before := Asked(os, ms, n - 1, k);
      if ms[n - 1].target != k then before else Some(More(before, os[n - 1].issue))
  }

  function More(before: Option<Issue>, i: Issue): Issue {
    if before.Some? then Compose(before.value, i) else i
  }

  lemma RevisingByMore(b: Bead, before: Option<Issue>, i: Issue, tool: Tool)
    ensures Revise(ReviseBy(b, before, tool), i, tool) == ReviseBy(b, Some(More(before, i)), tool)
  {
    if before.Some? {
      RevisingTwice(b, before.value, i, tool);
    }
  }

  lemma StepOnBead(g: Graph, o: Order, tool: Tool, k: nat)
    requires Step(g, o, tool).Some? && k < |g.beads|
    ensures k < |Step(g, o, tool).value.beads|
    ensures Step(g, o, tool).value.beads[k] ==
            if Target(g.beads, o) == k then Revise(g.beads[k], o.issue, tool) else g.beads[k]
  {
  }

  lemma {:induction false} NotAsked(os: seq<Order>, ms: seq<Move>, n: nat, k: nat)
    requires n <= |ms| <= |os|
    requires forall i :: 0 <= i < n ==> ms[i].target != k
    ensures Asked(os, ms, n, k) == None
  {
    if n > 0 {
      NotAsked(os, ms, n - 1, k);
    }
  }

  /** A filing revises the bead at `k` by what was asked of it, from wherever the bead first exists. */
  lemma {:induction false} OldBead(gs: seq<Graph>, os: seq<Order>, n: nat, k: nat, tool: Tool)
    requires Trail(gs, os, tool) && n < |gs| && k < |gs[0].beads|
    ensures k < |gs[n].beads|
    ensures gs[n].beads[k] == ReviseBy(gs[0].beads[k], Asked(os, Moves(gs, os), n, k), tool)
  {
    if n > 0 {
      OldBead(gs, os, n - 1, k, tool);
      assert Next(gs, os, n - 1, tool);
      StepOnBead(gs[n - 1], os[n - 1], tool, k);
      RevisingByMore(gs[0].beads[k], Asked(os, Moves(gs, os), n - 1, k), os[n - 1].issue, tool);
    }
  }

  predicate Creates(gs: seq<Graph>, os: seq<Order>, i: nat)
    requires i < |gs| && i < |os|
  {
    Target(gs[i].beads, os[i]) == |gs[i].beads|
  }

  lemma JustCreated(gs: seq<Graph>, os: seq<Order>, i: nat, tool: Tool)
    requires Trail(gs, os, tool) && KeysDistinct(os) && i + 1 < |gs| && Creates(gs, os, i)
    ensures |gs[i + 1].beads| == |gs[i].beads| + 1
    ensures gs[i + 1].beads[|gs[i].beads|] == Blueprint(tool.mint(gs[i].minted), os[i].issue)
    ensures Asked(os, Moves(gs, os), i + 1, |gs[i].beads|) == Some(os[i].issue)
  {
    var ms, k := Moves(gs, os), |gs[i].beads|;
    assert Next(gs, os, i, tool);
    TrailTraces(gs, os, tool);
    forall j | 0 <= j < i
      ensures ms[j].target != k
    {
      TablesGrow(Tables(gs), ms, j, i);
    }
    NotAsked(os, ms, i, k);
  }

  /** No entry after `i` and before `n` lands where entry `i` did. */
  ghost predicate NotRevisited(gs: seq<Graph>, os: seq<Order>, i: nat, n: nat)
    requires i < n <= |gs| && n <= |os| + 1
  {
    forall j :: i < j < n && j < |os| ==> Target(gs[j].beads, os[j]) != Target(gs[i].beads, os[i])
  }

  lemma {:induction false} LeftAlone(gs: seq<Graph>, os: seq<Order>, i: nat, n: nat, tool: Tool)
    requires Trail(gs, os, tool) && i < n < |gs| && Creates(gs, os, i) && NotRevisited(gs, os, i, n)
    ensures |gs[i].beads| < |gs[n].beads| && |gs[i].beads| < |gs[i + 1].beads|
    ensures gs[n].beads[|gs[i].beads|] == gs[i + 1].beads[|gs[i].beads|]
    ensures Asked(os, Moves(gs, os), n, |gs[i].beads|) == Asked(os, Moves(gs, os), i + 1, |gs[i].beads|)
    decreases n
  {
    assert Next(gs, os, i, tool);
    if i < n - 1 {
      LeftAlone(gs, os, i, n - 1, tool);
      assert Next(gs, os, n - 1, tool);
      StepOnBead(gs[n - 1], os[n - 1], tool, |gs[i].beads|);
    }
  }

  lemma NothingRevisited(gs: seq<Graph>, os: seq<Order>, i: nat, n: nat, tool: Tool)
    requires Trail(gs, os, tool) && KeysDistinct(os) && i < n < |gs| && NoTheft(Moves(gs, os)) && !os[i].byId
    ensures NotRevisited(gs, os, i, n)
  {
    forall j | i < j < n
      ensures Target(gs[j].beads, os[j]) != Target(gs[i].beads, os[i])
    {
      TakenByOne(gs, os, i, j, tool);
    }
  }

  /** The entry that creates a bead is the only one to touch it, unless a later one steals it. */
  lemma NewBead(gs: seq<Graph>, os: seq<Order>, i: nat, n: nat, tool: Tool)
    requires Trail(gs, os, tool) && KeysDistinct(os) && i < n < |gs| && NoTheft(Moves(gs, os)) && Creates(gs, os, i)
    ensures var k, issue := |gs[i].beads|, os[i].issue;
            && k < |gs[n].beads|
            && gs[n].beads[k] == Blueprint(tool.mint(gs[i].minted), issue)
            && Asked(os, Moves(gs, os), n, k) == Some(issue)
  {
    assert Next(gs, os, i, tool);
    NothingRevisited(gs, os, i, n, tool);
    LeftAlone(gs, os, i, n, tool);
    JustCreated(gs, os, i, tool);
  }

  /** No two entries land on one bead when the earlier of them was filed by key and nothing is stolen. */
  lemma TakenByOne(gs: seq<Graph>, os: seq<Order>, i: nat, j: nat, tool: Tool)
    requires Trail(gs, os, tool) && KeysDistinct(os) && i < j < |gs| - 1
    requires NoTheft(Moves(gs, os)) && !os[i].byId
    ensures Target(gs[i].beads, os[i]) != Target(gs[j].beads, os[j])
  {
    var ms := Moves(gs, os);
    TrailTraces(gs, os, tool);
    if !ms[j].byId {
      HoldsAnother(Tables(gs), ms, i, j, j);
    }
  }
}
