/** What a filing leaves in every bead, told from the plan and the graph before it (cmd/dispatcher/filing.go). */
module Contents {
  import opened Text
  import opened Beads
  import opened Plans
  import opened Holders
  import opened Filing
  import opened FilingLaws
  import opened Reordering
  import opened FilePlan
  import opened FilePlanLaws

  /* ---- which bead an entry is for ---- */

  function KeyOf(p: Plan, e: Entry): string {
    "plan:" + p.project + "/" + e.ref
  }

  /** The bead that entry `i` names, or else the first with its key; past the end when there is none. */
  function HomeIn(p: Plan, g: Graph, i: nat): nat
    requires i < |p.entries|
  {
    var e := p.entries[i];
    if Trim(e.id) != "" then FindId(g.beads, Trim(e.id)) else FindRef(g.beads, KeyOf(p, e))
  }

  /** Every bead an entry names is there, and no other entry is for it. */
  ghost predicate KeepApart(p: Plan, g: Graph) {
    && (forall i :: 0 <= i < |p.entries| && Trim(p.entries[i].id) != "" ==> HomeIn(p, g, i) < |g.beads|)
    && (forall i, j :: 0 <= i < |p.entries| && 0 <= j < |p.entries| && i != j && Trim(p.entries[j].id) != "" ==>
          HomeIn(p, g, i) != HomeIn(p, g, j))
  }

  /** No entry is for bead `k`. */
  predicate NoHome(p: Plan, g: Graph, k: nat) {
    forall i :: 0 <= i < |p.entries| ==> HomeIn(p, g, i) != k
  }

  /* ---- what its bead says ---- */

  /** The project's label is for beads found or made by their key. */
  function LabelsOf(p: Plan, e: Entry): seq<string> {
    if Trim(e.id) != "" then e.labels else e.labels + ["wg-project-" + p.project]
  }

  /** A bead made for an entry: open, and what the entry says, with bd's kind and priority where it says none. */
  ghost predicate SaysNew(p: Plan, e: Entry, b: Bead) {
    && b.title == Trim(e.title) && b.description == e.description && b.acceptance == e.acceptance && b.design == e.design
    && b.kind == (if e.kind != "" then e.kind else "task") && b.priority == (if e.priority > 0 then e.priority else 2)
    && b.status == "open" && b.externalRef == KeyOf(p, e)
    && b.labels == AllPieces(e.labels + ["wg-project-" + p.project])
  }

  /** A bead revised for an entry: whatever the entry says, and where it says nothing what the bead said; its kind stays. */
  ghost predicate SaysRevised(p: Plan, e: Entry, was: Bead, b: Bead, tool: Tool) {
    && b.id == was.id && b.kind == was.kind && b.externalRef == KeyOf(p, e)
    && b.title == (if Trim(e.title) != "" then Trim(e.title) else was.title)
    && b.description == (if e.description != "" then e.description else was.description)
    && b.acceptance == (if e.acceptance != "" then e.acceptance else was.acceptance)
    && b.design == (if e.design != "" then e.design else was.design)
    && b.priority == (if e.priority > 0 then e.priority else was.priority)
    && b.status == (if e.status != "" then e.status else was.status)
    && b.labels == was.labels + if tool.splits then AllPieces(LabelsOf(p, e)) else Elements(LabelsOf(p, e))
  }

  /** What became of entry `i`: it is answered with its ref and its bead, and the bead says what it should. */
  ghost predicate FiledWell(p: Plan, g: Graph, h: Graph, out: seq<Filed>, i: nat, tool: Tool)
    requires i < |p.entries| == |out|
  {
    var e, home, k := p.entries[i], HomeIn(p, g, i), FindId(h.beads, out[i].bead);
    && k < |h.beads| && out[i].ref == e.ref && (out[i].created <==> home == |g.beads|)
    && if home < |g.beads| then k == home && SaysRevised(p, e, g.beads[k], h.beads[k], tool)
       else k >= |g.beads| && SaysNew(p, e, h.beads[k])
  }

  /** A bead made for an entry is on its project's page, if the project's name has no comma. */
  lemma OnItsProjectsPage(p: Plan, e: Entry, b: Bead)
    requires SaysNew(p, e, b) && ',' !in p.project
    ensures "wg-project-" + p.project in b.labels
  {
    var tag := "wg-project-" + p.project;
    assert CommaAt(tag) == |tag|;
    assert tag in Pieces(tag) && tag in e.labels + [tag];
  }

  /* ---- from orders back to entries ---- */

  lemma OrderSays(p: Plan, i: nat)
    requires i < |p.entries|
    ensures var e, o := p.entries[i], OrdersOf(p)[i];
            && o.byId == (Trim(e.id) != "") && o.id == Trim(e.id) && o.issue.externalRef == KeyOf(p, e)
            && o.issue.title == Trim(e.title) && o.issue.description == e.description
            && o.issue.acceptance == e.acceptance && o.issue.design == e.design && o.issue.kind == e.kind
            && o.issue.priority == e.priority && o.issue.status == e.status && o.issue.labels == LabelsOf(p, e)
  {
  }

  lemma HomeIsHome(p: Plan, g: Graph, i: nat)
    requires i < |p.entries|
    ensures HomeIn(p, g, i) == HomeOf(g, OrdersOf(p)[i]) <= |g.beads|
  {
    OrderSays(p, i);
  }

  lemma ApartIsUnentangled(p: Plan, g: Graph)
    requires KeepApart(p, g)
    ensures Unentangled(g, OrdersOf(p))
  {
    forall i | 0 <= i < |p.entries|
      ensures HomeIn(p, g, i) == HomeOf(g, OrdersOf(p)[i]) && (OrdersOf(p)[i].byId <==> Trim(p.entries[i].id) != "")
    {
      HomeIsHome(p, g, i);
      OrderSays(p, i);
    }
  }

  lemma BlueprintSays(p: Plan, i: nat, id: string)
    requires i < |p.entries| && Trim(p.entries[i].id) == ""
    ensures SaysNew(p, p.entries[i], Blueprint(id, OrdersOf(p)[i].issue))
  {
    OrderSays(p, i);
    PiecesOfJoined(LabelsOf(p, p.entries[i]));
  }

  lemma RevisionSays(p: Plan, i: nat, was: Bead, tool: Tool)
    requires i < |p.entries|
    ensures SaysRevised(p, p.entries[i], was, Revise(was, OrdersOf(p)[i].issue, tool), tool)
  {
    OrderSays(p, i);
    assert KeyOf(p, p.entries[i])[0] == 'p';
  }

  lemma EffectSays(p: Plan, g: Graph, i: nat, id: string, tool: Tool)
    requires i < |p.entries| && KeepApart(p, g)
    ensures var e, home, b := p.entries[i], HomeIn(p, g, i), Effect(g, OrdersOf(p)[i], id, tool);
            if home < |g.beads| then SaysRevised(p, e, g.beads[home], b, tool) else SaysNew(p, e, b)
  {
    HomeIsHome(p, g, i);
    if HomeIn(p, g, i) < |g.beads| {
      RevisionSays(p, i, g.beads[HomeIn(p, g, i)], tool);
    } else {
      BlueprintSays(p, i, id);
    }
  }

  /* ---- the filing ---- */

  /** The bead an entry is answered with is the one it landed on, which no other bead shares its id with. */
  lemma AnswersItsBead(p: Plan, log: Record, out: seq<Filed>, i: nat, tool: Tool)
    requires Whole(log, p, out, tool) && i < |p.entries|
    ensures |out| == |p.entries|
    ensures var k := Moves(log.gs, OrdersOf(p))[i].target;
            k < |Last(log.gs).beads| && FindId(Last(log.gs).beads, out[i].bead) == k
  {
    IdOfTheBead(log.gs, OrdersOf(p), i, tool);
    OwnIdFinds(Last(log.gs), Moves(log.gs, OrdersOf(p))[i].target, tool);
  }

  lemma LandsWhereItShould(p: Plan, gs: seq<Graph>, i: nat, tool: Tool)
    requires Fileable(p) && Trail(gs, OrdersOf(p), tool) && i < |gs| - 1 && |p.entries| >= |gs| - 1 && KeepApart(p, gs[0])
    ensures var home, k := HomeIn(p, gs[0], i), Moves(gs, OrdersOf(p))[i].target;
            if home < |gs[0].beads| then k == home else k >= |gs[0].beads|
    ensures Creates(gs, OrdersOf(p), i) <==> HomeIn(p, gs[0], i) == |gs[0].beads|
  {
    FileableKeysDistinct(p);
    ApartIsUnentangled(p, gs[0]);
    LandsAtHome(gs, OrdersOf(p), i, tool);
    HomeIsHome(p, gs[0], i);
  }

  lemma EndsAsItShould(p: Plan, gs: seq<Graph>, i: nat, tool: Tool)
    requires Fileable(p) && Trail(gs, OrdersOf(p), tool) && i < |gs| - 1 && |p.entries| >= |gs| - 1 && KeepApart(p, gs[0])
    ensures var e, home, k := p.entries[i], HomeIn(p, gs[0], i), Moves(gs, OrdersOf(p))[i].target;
            && k < |Last(gs).beads|
            && if home < |gs[0].beads| then SaysRevised(p, e, gs[0].beads[home], Last(gs).beads[k], tool)
               else SaysNew(p, e, Last(gs).beads[k])
  {
    FileableKeysDistinct(p);
    ApartIsUnentangled(p, gs[0]);
    EachEntryHasItsEffect(gs, OrdersOf(p), i, tool);
    EffectSays(p, gs[0], i, tool.mint(gs[i].minted), tool);
  }

  /** Each entry of a filing that was answered has its bead, which says what the entry does. */
  lemma EveryEntryIsFiledWell(
    p: Plan, r: Answer, log: Record, g: Graph, h: Graph, calm: bool, i: nat, tool: Tool)
    requires Fileable(p) && KeepApart(p, g) && Answers(r, log, p, g, h, calm, tool) && !r.Failed? && i < |p.entries|
    ensures |r.filed| == |p.entries| && FiledWell(p, g, h, r.filed, i, tool)
  {
    AnswersItsBead(p, log, r.filed, i, tool);
    LandsWhereItShould(p, log.gs, i, tool);
    EndsAsItShould(p, log.gs, i, tool);
  }

  /** And the beads that were there and are no entry's are left as they were. */
  lemma EveryOtherBeadStays(p: Plan, r: Answer, log: Record, g: Graph, h: Graph, calm: bool, k: nat, tool: Tool)
    requires Fileable(p) && KeepApart(p, g) && Answers(r, log, p, g, h, calm, tool)
    requires k < |g.beads| && NoHome(p, g, k)
    ensures k < |h.beads| && h.beads[k] == g.beads[k]
  {
    FileableKeysDistinct(p);
    ApartIsUnentangled(p, g);
    forall i | 0 <= i < |log.gs| - 1
      ensures HomeOf(g, OrdersOf(p)[i]) != k
    {
      HomeIsHome(p, g, i);
    }
    OtherBeadsUntouched(log.gs, OrdersOf(p), k, tool);
  }

  /** Every entry is filed well, and every bead that is no entry's stays. */
  ghost predicate AllFiledWell(p: Plan, g: Graph, h: Graph, out: seq<Filed>, tool: Tool) {
    |out| == |p.entries| && forall i :: 0 <= i < |p.entries| ==> FiledWell(p, g, h, out, i, tool)
  }

  ghost predicate OthersStay(p: Plan, g: Graph, h: Graph) {
    forall k :: 0 <= k < |g.beads| && NoHome(p, g, k) ==> k < |h.beads| && h.beads[k] == g.beads[k]
  }

  lemma EachFiledWell(p: Plan, r: Answer, log: Record, g: Graph, h: Graph, calm: bool, tool: Tool)
    requires Fileable(p) && KeepApart(p, g) && Answers(r, log, p, g, h, calm, tool) && !r.Failed?
    ensures AllFiledWell(p, g, h, r.filed, tool)
  {
    EveryEntryIsFiledWell(p, r, log, g, h, calm, 0, tool);
    forall i | 0 <= i < |p.entries|
      ensures FiledWell(p, g, h, r.filed, i, tool)
    {
      EveryEntryIsFiledWell(p, r, log, g, h, calm, i, tool);
    }
  }

  lemma EachOtherStays(p: Plan, r: Answer, log: Record, g: Graph, h: Graph, calm: bool, tool: Tool)
    requires Fileable(p) && KeepApart(p, g) && Answers(r, log, p, g, h, calm, tool)
    ensures OthersStay(p, g, h)
  {
    forall k | 0 <= k < |g.beads| && NoHome(p, g, k)
      ensures k < |h.beads| && h.beads[k] == g.beads[k]
    {
      EveryOtherBeadStays(p, r, log, g, h, calm, k, tool);
    }
  }

  /** `fileplan`, and what is in every bead afterwards. */
  method FileAndTell(bd: Client, p: Plan) returns (r: Answer)
    requires Sound(bd.Snapshot(), bd.tool) && Fileable(p) && KeepApart(p, bd.Snapshot())
    modifies bd`beads, bd`deps, bd`minted, bd`weather
    ensures !r.Refused?
    ensures !r.Failed? ==> AllFiledWell(p, old(bd.Snapshot()), bd.Snapshot(), r.filed, bd.tool)
    ensures OthersStay(p, old(bd.Snapshot()), bd.Snapshot())
  {
    ghost var g, calm := bd.Snapshot(), Calm(bd.weather);
    ghost var log;
    r, log := Fileplan(bd, p);
    EachOtherStays(p, r, log, g, bd.Snapshot(), calm, bd.tool);
    if !r.Failed? {
      EachFiledWell(p, r, log, g, bd.Snapshot(), calm, bd.tool);
    }
  }
}
