/** Filing a plan: every bead first, then the edges, then the question of cycles (cmd/dispatcher/filing.go). */
module FilePlan {
  import opened Text
  import opened Beads
  import opened Plans
  import opened Filing
  import opened FilingLaws
  import opened Cycles

  datatype Filed = Filed(ref: string, bead: string, created: bool)

  datatype Answer =
    | Refused(problems: seq<Problem>)
    | Failed
    | Cyclic(filed: seq<Filed>, cycle: seq<string>)
    | Done(filed: seq<Filed>, checked: bool)

  function ProjectLabel(project: string): string {
    "wg-project-" + project
  }

  /** What an entry asks of its bead.  Only an untargeted entry earns the project's label. */
  function IssueOf(project: string, e: Entry): Issue {
    Issue(Trim(e.title), e.description, e.acceptance, e.design, e.kind, e.priority, e.status,
          if Targeted(e) then e.labels else e.labels + [ProjectLabel(project)], Key(project, e.ref))
  }

  function OrderOf(project: string, e: Entry): Order {
    Order(IssueOf(project, e), Targeted(e), Trim(e.id))
  }

  function OrdersOf(p: Plan): (os: seq<Order>)
    ensures |os| == |p.entries| && forall i :: 0 <= i < |os| ==> os[i] == OrderOf(p.project, p.entries[i])
  {
    seq(|p.entries|, i requires 0 <= i < |p.entries| => OrderOf(p.project, p.entries[i]))
  }

  lemma FileableRefsDiffer(p: Plan, i: nat, j: nat)
    requires Fileable(p) && i < j < |p.entries|
    ensures p.entries[i].ref != p.entries[j].ref
  {
    assert RefNames(p.entries)[i] != RefNames(p.entries)[j];
  }

  /** A plan that may be filed asks for each of its keys once. */
  lemma FileableKeysDistinct(p: Plan)
    requires Fileable(p)
    ensures KeysDistinct(OrdersOf(p))
  {
    var os := OrdersOf(p);
    forall i | 0 <= i < |os|
      ensures os[i].issue.externalRef != ""
    {
      assert os[i].issue.externalRef == Key(p.project, p.entries[i].ref);
    }
    forall i, j | 0 <= i < j < |os|
      ensures os[i].issue.externalRef != os[j].issue.externalRef
    {
      FileableRefsDiffer(p, i, j);
      if os[i].issue.externalRef == os[j].issue.externalRef {
        KeyTellsRefsApart(p.project, p.entries[i].ref, p.entries[j].ref);
      }
    }
  }

  /* ---- one entry ---- */

  /** No two beads share an id, none is blank, and nothing yet to be minted is taken. */
  ghost predicate Sound(g: Graph, tool: Tool) {
    && Mints(tool)
    && (forall i, j :: 0 <= i < j < |g.beads| ==> g.beads[i].id != g.beads[j].id)
    && (forall i :: 0 <= i < |g.beads| ==> !Blank(g.beads[i].id))
    && (forall i, n :: 0 <= i < |g.beads| && g.minted <= n ==> g.beads[i].id != tool.mint(n))
  }

  lemma SoundStays(g: Graph, o: Order, tool: Tool)
    requires Sound(g, tool) && Step(g, o, tool).Some?
    ensures Sound(Step(g, o, tool).value, tool)
  {
    StepKeepsIds(g, o, tool);
    var h := Step(g, o, tool).value;
    forall i, j | 0 <= i < j < |h.beads|
      ensures h.beads[i].id != h.beads[j].id
    {
      if j < |g.beads| {
        assert g.beads[i].id != g.beads[j].id;
      }
    }
    forall i | 0 <= i < |h.beads|
      ensures !Blank(h.beads[i].id)
    {
      if i >= |g.beads| {
        assert Trim(tool.mint(g.minted)) == tool.mint(g.minted);
      }
    }
  }

  lemma OwnIdFinds(g: Graph, k: nat, tool: Tool)
    requires Sound(g, tool) && k < |g.beads|
    ensures FindId(g.beads, g.beads[k].id) == k && !Blank(g.beads[k].id)
  {
    var l := FindId(g.beads, g.beads[k].id);
    assert g.beads[l].id == g.beads[k].id;
  }

  /** An order as it comes from an entry: it has a key, and an id or a title. */
  predicate WellFormed(o: Order) {
    !Blank(o.issue.externalRef) && o.issue.externalRef != "" && if o.byId then !Blank(o.id) else !Blank(o.issue.title)
  }

  method FileEntry(bd: Client, o: Order) returns (r: Result<(string, bool)>)
    requires Sound(bd.Snapshot(), bd.tool) && WellFormed(o)
    modifies bd`beads, bd`minted, bd`weather
    ensures Calm(old(bd.weather)) ==>
              Calm(bd.weather) && (r.Ok? <==> Step(old(bd.Snapshot()), o, bd.tool).Some?)
    ensures r.Ok? ==>
              var g, k := old(bd.Snapshot()), Target(old(bd.beads), o);
              && Step(g, o, bd.tool) == Some(bd.Snapshot())
              && k < |bd.beads| && r.value == (bd.beads[k].id, k == |g.beads|)
    ensures r.Err? ==> bd.Snapshot() == old(bd.Snapshot()) || Step(old(bd.Snapshot()), o, bd.tool) == Some(bd.Snapshot())
  {
    ghost var g := bd.Snapshot();
    if o.byId {
      var u := bd.UpdateIn(o.id, o.issue);
      return if u.Ok? then Ok((o.id, false)) else Err;
    }
    var existing := bd.ByExternalRef(o.issue.externalRef);
    if existing.Err? {
      return Err;
    }
    match existing.value
    case Some(id) =>
      OwnIdFinds(g, FindRef(g.beads, o.issue.externalRef), bd.tool);
      var u := bd.UpdateIn(id, o.issue);
      return if u.Ok? then Ok((id, false)) else Err;
    case None =>
      var c := bd.Create(o.issue);
      return if c.Ok? then Ok((c.value, true)) else Err;
  }

  lemma FileableWellFormed(p: Plan, i: nat)
    requires Fileable(p) && i < |p.entries|
    ensures WellFormed(OrderOf(p.project, p.entries[i]))
  {
    var e, key := p.entries[i], Key(p.project, p.entries[i].ref);
    EveryEntryOk(p, |p.entries|, i);
    TrimmingAgain(e.id);
    TrimmingAgain(e.title);
    assert key[0] == 'p';
    BlankMeansAllSpace(key);
  }

  /* ---- pass one ---- */

  /** The bead every order of a filing landed on, in order. */
  function Ids(gs: seq<Graph>, os: seq<Order>): (ids: seq<string>)
    requires 0 < |gs| <= |os| + 1
    ensures |ids| == |gs| - 1
    ensures forall i :: 0 <= i < |ids| ==> ids[i] == IdAt(gs, os, i)
  {
    seq(|gs| - 1, i requires 0 <= i < |gs| - 1 => IdAt(gs, os, i))
  }

  function IdAt(gs: seq<Graph>, os: seq<Order>, i: nat): string
    requires i < |gs| - 1 <= |os|
  {
    var k := Target(gs[i].beads, os[i]);
    if k < |gs[i + 1].beads| then gs[i + 1].beads[k].id else ""
  }

  /** What a filing answers: each ref, the bead it became, and whether that bead is new. */
  function Report(p: Plan, gs: seq<Graph>, os: seq<Order>): seq<Filed>
    requires 0 < |gs| <= |os| + 1 && |os| == |p.entries|
  {
    seq(|gs| - 1, i requires 0 <= i < |gs| - 1 =>
      Filed(p.entries[i].ref, IdAt(gs, os, i), Creates(gs, os, i)))
  }

  function RawRefs(p: Plan): (names: seq<string>)
    ensures |names| == |p.entries| && forall i :: 0 <= i < |names| ==> names[i] == p.entries[i].ref
  {
    seq(|p.entries|, i requires 0 <= i < |p.entries| => p.entries[i].ref)
  }

  /** `filed` gives the first names their ids, and knows nothing else. */
  ghost predicate Knows(filed: map<string, string>, names: seq<string>, ids: seq<string>) {
    && |ids| <= |names| && filed.Keys == Members(names[..|ids|])
    && forall i :: 0 <= i < |ids| ==> names[i] in filed && filed[names[i]] == ids[i]
  }

  lemma KnowsOneMore(filed: map<string, string>, names: seq<string>, ids: seq<string>, id: string)
    requires Knows(filed, names, ids) && |ids| < |names| && names[|ids|] !in names[..|ids|]
    ensures Knows(filed[names[|ids|] := id], names, ids + [id])
  {
    var n := |ids|;
    assert names[..n + 1] == names[..n] + [names[n]];
    assert forall i :: 0 <= i < n ==> names[..n][i] == names[i];
  }

  lemma NewName(p: Plan, n: nat)
    requires Fileable(p) && n < |p.entries|
    ensures RawRefs(p)[n] !in RawRefs(p)[..n]
  {
    forall i | 0 <= i < n
      ensures RawRefs(p)[i] != RawRefs(p)[n]
    {
      FileableRefsDiffer(p, i, n);
    }
  }

  datatype Entered = Entered(filed: map<string, string>, out: seq<Filed>)

  /** A filing on its way: the graphs so far, and what has been noted of them. */
  ghost predicate Entering(gs: seq<Graph>, p: Plan, e: Entered, tool: Tool) {
    && Trail(gs, OrdersOf(p), tool) && Sound(Last(gs), tool)
    && Knows(e.filed, RawRefs(p), Ids(gs, OrdersOf(p))) && e.out == Report(p, gs, OrdersOf(p))
  }

  lemma OneMoreEntered(gs: seq<Graph>, p: Plan, e: Entered, h: Graph, id: string, tool: Tool)
    requires Fileable(p) && Entering(gs, p, e, tool) && |gs| <= |p.entries|
    requires var o, k := OrdersOf(p)[|gs| - 1], Target(Last(gs).beads, OrdersOf(p)[|gs| - 1]);
             Step(Last(gs), o, tool) == Some(h) && k < |h.beads| && id == h.beads[k].id
    ensures var i := |gs| - 1;
            var ref := p.entries[i].ref;
            Entering(gs + [h], p,
                     Entered(e.filed[ref := id],
                             e.out + [Filed(ref, id, Target(Last(gs).beads, OrdersOf(p)[i]) == |Last(gs).beads|)]), tool)
  {
    var os, i := OrdersOf(p), |gs| - 1;
    OneMoreEntry(gs, os, h, tool);
    SoundStays(Last(gs), os[i], tool);
    SameIdsSoFar(gs, os, h, tool);
    assert IdAt(gs + [h], os, i) == id;
    NewName(p, i);
    KnowsOneMore(e.filed, RawRefs(p), Ids(gs, os), id);
    ReportOneMore(gs, p, os, h, tool);
  }

  lemma ReportOneMore(gs: seq<Graph>, p: Plan, os: seq<Order>, h: Graph, tool: Tool)
    requires Trail(gs, os, tool) && |gs| <= |os| == |p.entries|
    ensures Report(p, gs + [h], os) ==
            Report(p, gs, os) + [Filed(p.entries[|gs| - 1].ref, IdAt(gs + [h], os, |gs| - 1),
                                       Target(Last(gs).beads, os[|gs| - 1]) == |Last(gs).beads|)]
  {
    var hs := gs + [h];
    forall i | 0 <= i < |gs| - 1
      ensures Report(p, hs, os)[i] == Report(p, gs, os)[i]
    {
      assert hs[i] == gs[i] && hs[i + 1] == gs[i + 1];
    }
    assert hs[|gs| - 1] == Last(gs);
  }

  lemma SameIdsSoFar(gs: seq<Graph>, os: seq<Order>, h: Graph, tool: Tool)
    requires Trail(gs, os, tool) && |gs| <= |os|
    ensures Ids(gs + [h], os) == Ids(gs, os) + [IdAt(gs + [h], os, |gs| - 1)]
  {
    var hs := gs + [h];
    assert forall i :: 0 <= i < |gs| - 1 ==> IdAt(hs, os, i) == IdAt(gs, os, i);
  }

  /** The entry after those filed cannot be. */
  predicate NextRefused(gs: seq<Graph>, p: Plan, tool: Tool)
    requires gs != []
  {
    |gs| <= |p.entries| && Step(Last(gs), OrdersOf(p)[|gs| - 1], tool) == None
  }

  /** One turn of pass one: the next entry is filed and noted, or the filing ends with or without it. */
  method EnterOne(bd: Client, p: Plan, e: Entered, ghost gs: seq<Graph>)
    returns (r: Result<Entered>, ghost hs: seq<Graph>)
    requires Fileable(p) && Entering(gs, p, e, bd.tool) && Last(gs) == bd.Snapshot()
    requires |gs| <= |p.entries| && |e.out| == |gs| - 1
    modifies bd`beads, bd`minted, bd`weather
    ensures Trail(hs, OrdersOf(p), bd.tool) && hs[0] == gs[0] && Last(hs) == bd.Snapshot()
    ensures r.Ok? ==> |hs| == |gs| + 1 && |r.value.out| == |e.out| + 1 && Entering(hs, p, r.value, bd.tool)
    ensures Calm(old(bd.weather)) ==> Calm(bd.weather)
    ensures Calm(old(bd.weather)) && r.Err? ==> hs == gs && NextRefused(hs, p, bd.tool)
  {
    var entry := p.entries[|e.out|];
    FileableWellFormed(p, |e.out|);
    var id := FileEntry(bd, OrderOf(p.project, entry));
    hs := gs;
    if id.Err? {
      if bd.Snapshot() != Last(gs) {
        OneMoreEntry(gs, OrdersOf(p), bd.Snapshot(), bd.tool);
        hs := gs + [bd.Snapshot()];
      }
      return Err, hs;
    }
    OneMoreEntered(gs, p, e, bd.Snapshot(), id.value.0, bd.tool);
    hs := gs + [bd.Snapshot()];
    return Ok(Entered(e.filed[entry.ref := id.value.0], e.out + [Filed(entry.ref, id.value.0, id.value.1)])), hs;
  }

  lemma NothingEntered(g: Graph, p: Plan, tool: Tool)
    requires Sound(g, tool)
    ensures Entering([g], p, Entered(map[], []), tool)
  {
    assert RawRefs(p)[..0] == [];
  }

  method Begin(bd: Client, p: Plan) returns (e: Entered, ghost gs: seq<Graph>)
    requires Sound(bd.Snapshot(), bd.tool)
    ensures |gs| == 1 && gs[0] == Last(gs) == bd.Snapshot() && e.out == [] && Entering(gs, p, e, bd.tool)
  {
    gs, e := [bd.Snapshot()], Entered(map[], []);
    NothingEntered(bd.Snapshot(), p, bd.tool);
  }

  method PassOne(bd: Client, p: Plan) returns (r: Result<Entered>, ghost gs: seq<Graph>)
    requires Fileable(p) && Sound(bd.Snapshot(), bd.tool)
    modifies bd`beads, bd`minted, bd`weather
    ensures Trail(gs, OrdersOf(p), bd.tool) && gs[0] == old(bd.Snapshot()) && Last(gs) == bd.Snapshot()
    ensures r.Ok? ==> |gs| == |p.entries| + 1 && Entering(gs, p, r.value, bd.tool)
    ensures Calm(old(bd.weather)) ==> Calm(bd.weather)
    ensures Calm(old(bd.weather)) && r.Err? ==> NextRefused(gs, p, bd.tool)
  {
    var e: Entered;
    e, gs := Begin(bd, p);
    r := Ok(e);
    for i := 0 to |p.entries|
      invariant r.Ok? && |gs| == i + 1 && |r.value.out| == i && Entering(gs, p, r.value, bd.tool)
      invariant gs[0] == old(bd.Snapshot()) && Last(gs) == bd.Snapshot()
      invariant Calm(old(bd.weather)) ==> Calm(bd.weather)
    {
      r, gs := EnterOne(bd, p, r.value, gs);
      if r.Err? {
        return;
      }
    }
  }

  /* ---- pass two ---- */

  /** What a dependency names: a ref of this plan, or else a bead's id. */
  function Blocker(filed: map<string, string>, dep: string): string {
    var name := Trim(dep);
    if name in filed then filed[name] else name
  }

  /** The edge a dependency stands for, blocked to blocker; none when DependOn would refuse it. */
  function EdgeOf(filed: map<string, string>, e: Entry, dep: string): set<Edge> {
    var blocked := if e.ref in filed then filed[e.ref] else "";
    if Sensible(blocked, Blocker(filed, dep)) then {(blocked, Blocker(filed, dep))} else {}
  }

  predicate Place(p: Plan, i: nat, k: nat) {
    i <= |p.entries| && k <= if i < |p.entries| then |p.entries[i].dependsOn| else 0
  }

  /** The edges declared before dependency `k` of entry `i`. */
  function DeclaredTo(p: Plan, filed: map<string, string>, i: nat, k: nat): set<Edge>
    requires Place(p, i, k)
    decreases i, k
  {
    if k > 0 then DeclaredTo(p, filed, i, k - 1) + EdgeOf(filed, p.entries[i], p.entries[i].dependsOn[k - 1])
    else if i > 0 then DeclaredTo(p, filed, i - 1, |p.entries[i - 1].dependsOn|)
    else {}
  }

  function Declared(p: Plan, filed: map<string, string>): set<Edge> {
    DeclaredTo(p, filed, |p.entries|, 0)
  }

  lemma {:induction false} DeclaredStays(p: Plan, filed: map<string, string>, a: nat, b: nat, i: nat, k: nat, edge: Edge)
    requires Place(p, a, b) && Place(p, i, k) && (a < i || (a == i && b <= k))
    requires edge in DeclaredTo(p, filed, a, b)
    ensures edge in DeclaredTo(p, filed, i, k)
    decreases i, k
  {
    if a < i || b < k {
      if k > 0 {
        DeclaredStays(p, filed, a, b, i, k - 1, edge);
      } else {
        DeclaredStays(p, filed, a, b, i - 1, |p.entries[i - 1].dependsOn|, edge);
      }
    }
  }

  /** Every dependency of the plan is declared. */
  lemma DependencyDeclared(p: Plan, filed: map<string, string>, a: nat, b: nat)
    requires a < |p.entries| && b < |p.entries[a].dependsOn|
    ensures EdgeOf(filed, p.entries[a], p.entries[a].dependsOn[b]) <= Declared(p, filed)
  {
    forall edge | edge in EdgeOf(filed, p.entries[a], p.entries[a].dependsOn[b])
      ensures edge in Declared(p, filed)
    {
      DeclaredStays(p, filed, a, b + 1, |p.entries|, 0, edge);
    }
  }

  /** Nothing but dependencies of the plan is declared. */
  lemma {:induction false} DeclaredByDependency(p: Plan, filed: map<string, string>, i: nat, k: nat, edge: Edge)
    returns (a: nat, b: nat)
    requires Place(p, i, k)
    requires edge in DeclaredTo(p, filed, i, k)
    ensures a < |p.entries| && b < |p.entries[a].dependsOn|
    ensures edge in EdgeOf(filed, p.entries[a], p.entries[a].dependsOn[b])
    decreases i, k
  {
    if k == 0 {
      a, b := DeclaredByDependency(p, filed, i - 1, |p.entries[i - 1].dependsOn|, edge);
    } else if edge in DeclaredTo(p, filed, i, k - 1) {
      a, b := DeclaredByDependency(p, filed, i, k - 1, edge);
    } else {
      a, b := i, k - 1;
    }
  }

  lemma DeclaredWithin(p: Plan, q: Plan, filed: map<string, string>)
    requires forall e <- p.entries :: e in q.entries
    ensures Declared(p, filed) <= Declared(q, filed)
  {
    forall edge | edge in Declared(p, filed)
      ensures edge in Declared(q, filed)
    {
      var a, b := DeclaredByDependency(p, filed, |p.entries|, 0, edge);
      assert p.entries[a] in p.entries;
      var c :| 0 <= c < |q.entries| && q.entries[c] == p.entries[a];
      DependencyDeclared(q, filed, c, b);
    }
  }

  /** Which edges a plan declares does not depend on the order of its entries. */
  lemma EdgesIgnoreOrder(p: Plan, q: Plan, filed: map<string, string>)
    requires multiset(p.entries) == multiset(q.entries)
    ensures Declared(p, filed) == Declared(q, filed)
  {
    assert forall e <- p.entries :: e in multiset(p.entries);
    assert forall e <- q.entries :: e in multiset(q.entries);
    DeclaredWithin(p, q, filed);
    DeclaredWithin(q, p, filed);
  }

  /** Wires every dependency; one that bd does not take is passed over. */
  method PassTwo(bd: Client, p: Plan, filed: map<string, string>)
    requires Members(RawRefs(p)) <= filed.Keys
    modifies bd`deps, bd`weather
    ensures old(bd.deps) <= bd.deps <= old(bd.deps) + Declared(p, filed)
    ensures Calm(old(bd.weather)) ==> Calm(bd.weather) && bd.deps == old(bd.deps) + Declared(p, filed)
  {
    for i := 0 to |p.entries|
      invariant old(bd.deps) <= bd.deps <= old(bd.deps) + DeclaredTo(p, filed, i, 0)
      invariant Calm(old(bd.weather)) ==> Calm(bd.weather) && bd.deps == old(bd.deps) + DeclaredTo(p, filed, i, 0)
    {
      assert RawRefs(p)[i] in Members(RawRefs(p));
      var blocked := filed[p.entries[i].ref];
      for k := 0 to |p.entries[i].dependsOn|
        invariant old(bd.deps) <= bd.deps <= old(bd.deps) + DeclaredTo(p, filed, i, k)
        invariant Calm(old(bd.weather)) ==> Calm(bd.weather) && bd.deps == old(bd.deps) + DeclaredTo(p, filed, i, k)
      {
        var warned := bd.DependOn(blocked, Blocker(filed, p.entries[i].dependsOn[k]));
      }
    }
  }

  /** Pass two, and then one look at the whole graph: it has an order of work, or a cycle to show for not having one. */
  method Wire(bd: Client, p: Plan, e: Entered) returns (r: Answer, ghost order: seq<string>)
    requires Members(RawRefs(p)) <= e.filed.Keys
    modifies bd`deps, bd`weather
    ensures old(bd.deps) <= bd.deps <= old(bd.deps) + Declared(p, e.filed)
    ensures Calm(old(bd.weather)) ==> Calm(bd.weather) && bd.deps == old(bd.deps) + Declared(p, e.filed)
    ensures match r
            case Done(out, checked) =>
              out == e.out && (checked ==> Schedules(order, bd.deps)) && (Calm(old(bd.weather)) ==> checked)
            case Cyclic(out, cycle) => out == e.out && IsCycle(cycle, bd.deps)
            case _ => false
  {
    order := [];
    PassTwo(bd, p, e.filed);
    var w := bd.Forecast();
    if w != Fine {
      return Done(e.out, false), order;
    }
    var cycle;
    cycle, order := FindCycle(bd.deps);
    r := if cycle == [] then Done(e.out, true) else Cyclic(e.out, cycle);
  }

  /* ---- the whole ---- */

  /** What became of the beads, what is known of the refs, and an order of work if one was found. */
  datatype Record = Record(gs: seq<Graph>, filed: map<string, string>, order: seq<string>)

  /** `g` and `h` are the graph before and after; in calm weather bd runs and answers every command. */
  ghost predicate Answers(r: Answer, log: Record, p: Plan, g: Graph, h: Graph, calm: bool, tool: Tool) {
    && Trail(log.gs, OrdersOf(p), tool) && log.gs[0] == g && h.beads == Last(log.gs).beads && h.minted == Last(log.gs).minted
    && match r
       case Refused(_) => false
       case Failed =>
         h.deps == g.deps && (calm ==> |log.gs| <= |p.entries| && Step(h, OrdersOf(p)[|log.gs| - 1], tool) == None)
       case Done(out, checked) =>
         && Whole(log, p, out, tool) && Wired(g.deps, h.deps, Declared(p, log.filed), calm)
         && (checked ==> Schedules(log.order, h.deps)) && (calm ==> checked)
       case Cyclic(out, cycle) =>
         && Whole(log, p, out, tool) && Wired(g.deps, h.deps, Declared(p, log.filed), calm)
         && IsCycle(cycle, h.deps)
  }

  ghost predicate Whole(log: Record, p: Plan, out: seq<Filed>, tool: Tool) {
    |log.gs| == |p.entries| + 1 && Entering(log.gs, p, Entered(log.filed, out), tool)
  }

  predicate Wired(before: set<Edge>, after: set<Edge>, declared: set<Edge>, calm: bool) {
    before <= after <= before + declared && (calm ==> after == before + declared)
  }

  lemma FilingFailed(p: Plan, gs: seq<Graph>, h: Graph, calm: bool, tool: Tool)
    requires Trail(gs, OrdersOf(p), tool) && Last(gs) == h
    requires calm ==> |gs| <= |p.entries| && Step(h, OrdersOf(p)[|gs| - 1], tool) == None
    ensures Answers(Failed, Record(gs, map[], []), p, gs[0], h, calm, tool)
  {
    DepsStay(gs, OrdersOf(p), |gs| - 1, tool);
  }

  lemma FilingWired(p: Plan, gs: seq<Graph>, e: Entered, r: Answer, order: seq<string>, h: Graph, calm: bool, tool: Tool)
    requires |gs| == |p.entries| + 1 && Entering(gs, p, e, tool)
    requires h.beads == Last(gs).beads && h.minted == Last(gs).minted && Wired(Last(gs).deps, h.deps, Declared(p, e.filed), calm)
    requires match r
             case Done(out, checked) => out == e.out && (checked ==> Schedules(order, h.deps)) && (calm ==> checked)
             case Cyclic(out, cycle) => out == e.out && IsCycle(cycle, h.deps)
             case _ => false
    ensures Answers(r, Record(gs, e.filed, order), p, gs[0], h, calm, tool)
  {
    DepsStay(gs, OrdersOf(p), |gs| - 1, tool);
  }

  lemma AllEntered(gs: seq<Graph>, p: Plan, e: Entered, tool: Tool)
    requires |gs| == |p.entries| + 1 && Entering(gs, p, e, tool)
    ensures Members(RawRefs(p)) <= e.filed.Keys
  {
    assert RawRefs(p)[..|p.entries|] == RawRefs(p);
  }

  method FileFileable(bd: Client, p: Plan) returns (r: Answer, ghost log: Record)
    requires Sound(bd.Snapshot(), bd.tool) && Fileable(p)
    modifies bd`beads, bd`deps, bd`minted, bd`weather
    ensures Answers(r, log, p, old(bd.Snapshot()), bd.Snapshot(), Calm(old(bd.weather)), bd.tool)
    ensures Calm(old(bd.weather)) ==> Calm(bd.weather)
  {
    ghost var gs, order;
    ghost var calm := Calm(bd.weather);
    var entered;
    entered, gs := PassOne(bd, p);
    if entered.Err? {
      FilingFailed(p, gs, bd.Snapshot(), calm, bd.tool);
      return Failed, Record(gs, map[], []);
    }
    AllEntered(gs, p, entered.value, bd.tool);
    r, order := Wire(bd, p, entered.value);
    FilingWired(p, gs, entered.value, r, order, bd.Snapshot(), calm, bd.tool);
    log := Record(gs, entered.value.filed, order);
  }

  /** Files a plan, or refuses it before anything is written. */
  method Fileplan(bd: Client, p: Plan) returns (r: Answer, ghost log: Record)
    requires Sound(bd.Snapshot(), bd.tool)
    modifies bd`beads, bd`deps, bd`minted, bd`weather
    ensures r.Refused? <==> !Fileable(p)
    ensures r.Refused? ==> bd.Snapshot() == old(bd.Snapshot()) && bd.weather == old(bd.weather)
    ensures !r.Refused? ==> Answers(r, log, p, old(bd.Snapshot()), bd.Snapshot(), Calm(old(bd.weather)), bd.tool)
    ensures Calm(old(bd.weather)) ==> Calm(bd.weather)
  {
    var problems := Validate(p);
    if problems != [] {
      return Answer.Refused(problems), Record([], map[], []);
    }
    r, log := FileFileable(bd, p);
  }

  /* ---- what a dependency is taken to mean ---- */

  /**
    Validate looks a dependency up among trimmed refs, and pass two among refs as they stand.  So a dependency
    reaches the bead of the entry it names exactly when that ref has no blanks around it, unless the bead's id
    happens to be the name itself.
  */
  lemma DependencyReachesItsBeadIff(p: Plan, filed: map<string, string>, ids: seq<string>, j: nat, dep: string)
    requires Fileable(p) && |ids| == |p.entries| && Knows(filed, RawRefs(p), ids) && j < |p.entries|
    requires Trim(dep) == Trim(p.entries[j].ref)
    ensures Blocker(filed, dep) == ids[j] <==> Trim(p.entries[j].ref) == p.entries[j].ref || ids[j] == Trim(dep)
  {
    var names := RawRefs(p);
    assert names[..|ids|] == names;
    if Trim(dep) in filed {
      assert Trim(dep) in Members(names);
      var i :| 0 <= i < |names| && names[i] == Trim(dep);
      TrimmingAgain(dep);
      assert RefNames(p.entries)[i] == RefNames(p.entries)[j];
      assert i == j;
    } else {
      assert names[j] in Members(names);
    }
  }
}
