/** The bead graph behind the `bd` binary, and the adapter that drives it (internal/beads/beads.go). */
module Beads {
  import opened Text

  // What a caller asks for.  An empty string, a priority of 0 and an empty label list all mean "leave alone".
  datatype Issue = Issue(
    title: string, description: string, acceptance: string, design: string, kind: string,
    priority: int, status: string, labels: seq<string>, externalRef: string)

  // What the graph holds.
  datatype Bead = Bead(
    id: string, title: string, description: string, acceptance: string, design: string, kind: string,
    priority: int, status: string, labels: set<string>, externalRef: string)

  // `beads` is in the order `bd list --all` prints; `deps` holds (blocked, blocker) pairs.
  datatype Graph = Graph(beads: seq<Bead>, deps: set<(string, string)>, minted: nat)

  // What bd gives a bead that was created without saying; the values are bd's own.
  const DEFAULT_KIND := "task"
  const DEFAULT_PRIORITY := 2
  const OPEN := "open"

  // One flag of a `bd create` or `bd update` command line.
  datatype Flag =
    | SetStatus(status: string) | SetTitle(title: string) | SetKind(kind: string)
    | SetDescription(description: string) | SetPriority(priority: int) | SetAcceptance(acceptance: string)
    | SetDesign(design: string) | SetExternalRef(externalRef: string)
    | AddLabel(tag: string) | SetLabels(joined: string)

  // How one bd command ends: run and answered, not run at all, or run with its answer lost.
  datatype Weather = Fine | Refused | Lost

  datatype Result<+T> = Ok(value: T) | Err

  // What this repository does not show of bd: the ids it mints, and whether it takes the argument of --add-label apart
  // at commas, as it does that of --labels.
  datatype Tool = Tool(mint: nat -> string, splits: bool)

  /* ---- what the commands do to a bead ---- */

  /** The labels that one --add-label for each of `labels` adds. */
  function Added(labels: seq<string>, tool: Tool): set<string> {
    if tool.splits then AllPieces(labels) else Elements(labels)
  }

  function Or(new_: string, old_: string): string {
    if new_ != "" then new_ else old_
  }

  /** The bead after `bd update` has been given every field of `i` that is set. */
  function Revise(b: Bead, i: Issue, tool: Tool): Bead {
    Bead(b.id, Or(i.title, b.title), Or(i.description, b.description), Or(i.acceptance, b.acceptance),
         Or(i.design, b.design), b.kind, if i.priority > 0 then i.priority else b.priority,
         Or(i.status, b.status), b.labels + Added(i.labels, tool), Or(i.externalRef, b.externalRef))
  }

  /** A bead straight out of `bd create`.  Create passes no status, and its labels travel comma-joined. */
  function Blueprint(id: string, i: Issue): Bead {
    Bead(id, i.title, i.description, i.acceptance, i.design, Or(i.kind, DEFAULT_KIND),
         if i.priority > 0 then i.priority else DEFAULT_PRIORITY, OPEN,
         if i.labels == [] then {} else Pieces(JoinCommas(i.labels)), i.externalRef)
  }

  /** A bead as bd makes it before any flag is read. */
  function Bare(id: string, title: string): Bead {
    Bead(id, title, "", "", "", DEFAULT_KIND, DEFAULT_PRIORITY, OPEN, {}, "")
  }

  predicate ChangesNothing(i: Issue) {
    && i.status == "" && i.title == "" && i.description == "" && i.priority <= 0 && i.acceptance == ""
    && i.design == "" && i.externalRef == "" && i.labels == []
  }

  /** The first bead holding `key` as its external reference, or the length of the list. */
  function FindRef(bs: seq<Bead>, key: string): (k: nat)
    ensures k <= |bs|
    ensures k < |bs| ==> bs[k].externalRef == key
    ensures forall j :: 0 <= j < k ==> bs[j].externalRef != key
  {
    RefFrom(bs, key, 0)
  }

  function RefFrom(bs: seq<Bead>, key: string, i: nat): (k: nat)
    requires i <= |bs|
    ensures i <= k <= |bs|
    ensures k < |bs| ==> bs[k].externalRef == key
    ensures forall j :: i <= j < k ==> bs[j].externalRef != key
    decreases |bs| - i
  {
    if i == |bs| || bs[i].externalRef == key then i else RefFrom(bs, key, i + 1)
  }

  function FindId(bs: seq<Bead>, id: string): (k: nat)
    ensures k <= |bs|
    ensures k < |bs| ==> bs[k].id == id
    ensures forall j :: 0 <= j < k ==> bs[j].id != id
  {
    IdFrom(bs, id, 0)
  }

  function IdFrom(bs: seq<Bead>, id: string, i: nat): (k: nat)
    requires i <= |bs|
    ensures i <= k <= |bs|
    ensures k < |bs| ==> bs[k].id == id
    ensures forall j :: i <= j < k ==> bs[j].id != id
    decreases |bs| - i
  {
    if i == |bs| || bs[i].id == id then i else IdFrom(bs, id, i + 1)
  }

  function Updated(bs: seq<Bead>, id: string, i: Issue, tool: Tool): Option<seq<Bead>> {
    var k := FindId(bs, id);
    if Blank(id) || ChangesNothing(i) || k == |bs| then None else Some(bs[k := Revise(bs[k], i, tool)])
  }

  function Created(g: Graph, i: Issue, tool: Tool): Option<Graph> {
    if Blank(i.title) then None
    else Some(g.(beads := g.beads + [Blueprint(tool.mint(g.minted), i)], minted := g.minted + 1))
  }

  /* ---- what a command line means ---- */

  function Obey(b: Bead, f: Flag, tool: Tool): Bead {
    match f
    case SetStatus(v) => b.(status := v)
    case SetTitle(v) => b.(title := v)
    case SetKind(v) => b.(kind := v)
    case SetDescription(v) => b.(description := v)
    case SetPriority(v) => b.(priority := v)
    case SetAcceptance(v) => b.(acceptance := v)
    case SetDesign(v) => b.(design := v)
    case SetExternalRef(v) => b.(externalRef := v)
    case AddLabel(v) => b.(labels := b.labels + Added([v], tool))
    case SetLabels(v) => b.(labels := Pieces(v))
  }

  function ObeyAll(b: Bead, args: seq<Flag>, tool: Tool): Bead {
    if args == [] then b else Obey(ObeyAll(b, args[..|args| - 1], tool), args[|args| - 1], tool)
  }

  lemma ObeyOneMore(b: Bead, args: seq<Flag>, f: Flag, tool: Tool)
    ensures ObeyAll(b, args + [f], tool) == Obey(ObeyAll(b, args, tool), f, tool)
  {
    assert (args + [f])[..|args|] == args;
  }

  /** Grows a command line by one flag when it is given. */
  method Pass(args: seq<Flag>, given: bool, f: Flag, ghost b: Bead, ghost tool: Tool) returns (more: seq<Flag>)
    ensures |more| == if given then |args| + 1 else |args|
    ensures ObeyAll(b, more, tool) == if given then Obey(ObeyAll(b, args, tool), f, tool) else ObeyAll(b, args, tool)
  {
    if given {
      ObeyOneMore(b, args, f, tool);
      return args + [f];
    }
    return args;
  }

  /** The fields both commands pass, in the order both pass them. */
  method ContentFlags(args: seq<Flag>, issue: Issue, ghost b: Bead, ghost tool: Tool) returns (more: seq<Flag>)
    ensures |args| <= |more|
    ensures |more| == |args| <==>
            issue.description == "" && issue.priority <= 0 && issue.acceptance == "" && issue.design == ""
    ensures var c := ObeyAll(b, args, tool);
            ObeyAll(b, more, tool) == c.(description := Or(issue.description, c.description),
                                   priority := if issue.priority > 0 then issue.priority else c.priority,
                                   acceptance := Or(issue.acceptance, c.acceptance),
                                   design := Or(issue.design, c.design))
  {
    more := Pass(args, issue.description != "", SetDescription(issue.description), b, tool);
    more := Pass(more, issue.priority > 0, SetPriority(issue.priority), b, tool);
    more := Pass(more, issue.acceptance != "", SetAcceptance(issue.acceptance), b, tool);
    more := Pass(more, issue.design != "", SetDesign(issue.design), b, tool);
  }

  method CreateFlags(issue: Issue, ghost id: string, ghost tool: Tool) returns (args: seq<Flag>)
    ensures ObeyAll(Bare(id, issue.title), args, tool) == Blueprint(id, issue)
  {
    ghost var b := Bare(id, issue.title);
    args := Pass([], issue.kind != "", SetKind(issue.kind), b, tool);
    args := ContentFlags(args, issue, b, tool);
    args := Pass(args, issue.labels != [], SetLabels(JoinCommas(issue.labels)), b, tool);
    args := Pass(args, issue.externalRef != "", SetExternalRef(issue.externalRef), b, tool);
  }

  method UpdateFlags(issue: Issue, ghost b: Bead, ghost tool: Tool) returns (args: seq<Flag>)
    ensures ObeyAll(b, args, tool) == Revise(b, issue, tool)
    ensures args == [] <==> ChangesNothing(issue)
  {
    args := Pass([], issue.status != "", SetStatus(issue.status), b, tool);
    args := Pass(args, issue.title != "", SetTitle(issue.title), b, tool);
    args := ContentFlags(args, issue, b, tool);
    args := Pass(args, issue.externalRef != "", SetExternalRef(issue.externalRef), b, tool);
    args := AddLabels(args, issue.labels, b, tool);
  }

  /** One --add-label a label: bd has no set operation. */
  method AddLabels(args: seq<Flag>, labels: seq<string>, ghost b: Bead, ghost tool: Tool) returns (more: seq<Flag>)
    ensures |more| == |args| + |labels|
    ensures var c := ObeyAll(b, args, tool); ObeyAll(b, more, tool) == c.(labels := c.labels + Added(labels, tool))
  {
    ghost var c := ObeyAll(b, args, tool);
    more := args;
    for i := 0 to |labels|
      invariant |more| == |args| + i
      invariant ObeyAll(b, more, tool) == c.(labels := c.labels + Added(labels[..i], tool))
    {
      ObeyOneMore(b, more, AddLabel(labels[i]), tool);
      assert labels[..i + 1] == labels[..i] + [labels[i]];
      AddedJoin(labels[..i], [labels[i]], tool);
      more := more + [AddLabel(labels[i])];
    }
    assert labels[..|labels|] == labels;
  }

  lemma AddedJoin(a: seq<string>, b: seq<string>, tool: Tool)
    ensures Added(a + b, tool) == Added(a, tool) + Added(b, tool)
  {
  }

  /** Ids are minted once, are not blank, and survive trimming. */
  ghost predicate Mints(tool: Tool) {
    && (forall n :: Trim(tool.mint(n)) == tool.mint(n) && tool.mint(n) != "")
    && (forall m, n :: tool.mint(m) == tool.mint(n) ==> m == n)
  }

  predicate Calm(weather: seq<Weather>) {
    forall i :: 0 <= i < |weather| ==> weather[i] == Fine
  }

  class Client {
    var beads: seq<Bead>
    var deps: set<(string, string)>
    var minted: nat
    var weather: seq<Weather>
    const tool: Tool

    constructor (g: Graph, tool: Tool, weather: seq<Weather>)
      ensures Snapshot() == g && this.tool == tool && this.weather == weather
    {
      beads, deps, minted := g.beads, g.deps, g.minted;
      this.tool, this.weather := tool, weather;
    }

    function Snapshot(): Graph
      reads this
    {
      Graph(beads, deps, minted)
    }

    /** The fate of the next command. */
    method Forecast() returns (w: Weather)
      modifies this`weather
      ensures w == if old(weather) == [] then Fine else old(weather)[0]
      ensures weather == if old(weather) == [] then [] else old(weather)[1..]
      ensures Calm(old(weather)) ==> w == Fine && Calm(weather)
    {
      w := Fine;
      if weather != [] {
        w := weather[0];
        weather := weather[1..];
      }
    }

    /** Searches `bd list --all`, client-side, for the bead a previous filing left under `key`. */
    method ByExternalRef(key: string) returns (r: Result<Option<string>>)
      modifies this`weather
      ensures Calm(old(weather)) ==> Calm(weather) && (r.Ok? <==> !Blank(key))
      ensures r.Ok? ==> var k := FindRef(beads, key);
                        r.value == if k < |beads| then Some(beads[k].id) else None
    {
      if Blank(key) {
        return Err;
      }
      var w := Forecast();
      if w != Fine {
        return Err;
      }
      for i := 0 to |beads|
        invariant forall j :: 0 <= j < i ==> beads[j].externalRef != key
      {
        if beads[i].externalRef == key {
          return Ok(Some(beads[i].id));
        }
      }
      return Ok(None);
    }

    /** `bd create`; the id comes back on its own line. */
    method Create(issue: Issue) returns (r: Result<string>)
      modifies this`beads, this`minted, this`weather
      ensures Calm(old(weather)) ==> Calm(weather) && (r.Ok? <==> !Blank(issue.title) && !Blank(tool.mint(old(minted))))
      ensures r.Ok? ==> Created(old(Snapshot()), issue, tool) == Some(Snapshot()) && r.value == Trim(tool.mint(old(minted)))
      ensures r.Err? ==> Snapshot() == old(Snapshot()) || Created(old(Snapshot()), issue, tool) == Some(Snapshot())
      ensures Trim(issue.title) == "" ==> r.Err? && Snapshot() == old(Snapshot())
    {
      if Blank(issue.title) {
        return Err;
      }
      var args := CreateFlags(issue, tool.mint(minted), tool);
      var printed := RunCreate(issue.title, args);
      if printed.Err? || Blank(printed.value) {
        return Err;
      }
      return Ok(Trim(printed.value));
    }

    /** bd's own side of `create`: a bare bead, then every flag in turn. */
    method RunCreate(title: string, args: seq<Flag>) returns (r: Result<string>)
      modifies this`beads, this`minted, this`weather
      ensures Calm(old(weather)) ==> r.Ok? && Calm(weather)
      ensures var b := ObeyAll(Bare(tool.mint(old(minted)), title), args, tool);
              || (beads == old(beads) + [b] && minted == old(minted) + 1)
              || (r.Err? && beads == old(beads) && minted == old(minted))
      ensures r.Ok? ==> r.value == tool.mint(old(minted))
    {
      var w := Forecast();
      if w == Refused {
        return Err;
      }
      var b := Bare(tool.mint(minted), title);
      for i := 0 to |args|
        invariant b == ObeyAll(Bare(tool.mint(minted), title), args[..i], tool)
      {
        assert args[..i + 1][..i] == args[..i];
        b := Obey(b, args[i], tool);
      }
      assert args[..|args|] == args;
      r := if w == Lost then Err else Ok(tool.mint(minted));
      beads, minted := beads + [b], minted + 1;
    }

    /** `bd update`: only what is set is passed, and labels are added, never replaced. */
    method UpdateIn(id: string, issue: Issue) returns (r: Result<()>)
      modifies this`beads, this`weather
      ensures Calm(old(weather)) ==> Calm(weather) && (r.Ok? <==> Updated(old(beads), id, issue, tool).Some?)
      ensures Calm(old(weather)) ==> (r.Ok? <==> Trim(id) != "" && !ChangesNothing(issue) && exists b <- old(beads) :: b.id == id)
      ensures Trim(id) == "" || ChangesNothing(issue) || (forall b <- old(beads) :: b.id != id) ==> r.Err? && beads == old(beads)
      ensures r.Ok? ==> Updated(old(beads), id, issue, tool) == Some(beads)
      ensures r.Err? ==> beads == old(beads) || Updated(old(beads), id, issue, tool) == Some(beads)
    {
      if Blank(id) {
        return Err;
      }
      ghost var k := FindId(beads, id);
      var args := UpdateFlags(issue, if k < |beads| then beads[k] else Bare(id, ""), tool);
      if |args| == 0 {
        return Err;
      }
      r := RunUpdate(id, args);
    }

    /** bd's own side of `update`: an id it does not hold is an error. */
    method RunUpdate(id: string, args: seq<Flag>) returns (r: Result<()>)
      modifies this`beads, this`weather
      ensures Calm(old(weather)) ==> Calm(weather) && (r.Ok? <==> FindId(old(beads), id) < |old(beads)|)
      ensures var k := FindId(old(beads), id);
              || (k < |old(beads)| && beads == old(beads)[k := ObeyAll(old(beads)[k], args, tool)])
              || (r.Err? && beads == old(beads))
    {
      var w := Forecast();
      var k := FindId(beads, id);
      if w == Refused || k == |beads| {
        return Err;
      }
      var b := beads[k];
      for i := 0 to |args|
        invariant b == ObeyAll(beads[k], args[..i], tool)
      {
        assert args[..i + 1][..i] == args[..i];
        b := Obey(b, args[i], tool);
      }
      assert args[..|args|] == args;
      beads := beads[k := b];
      r := if w == Lost then Err else Ok(());
    }

    /** `bd dep add <blocked> <blocker> --no-cycle-check`.  Reversed, readiness inverts silently. */
    method DependOn(blocked: string, blocker: string) returns (r: Result<()>)
      modifies this`deps, this`weather
      ensures Calm(old(weather)) ==> Calm(weather) && (r.Ok? <==> Sensible(blocked, blocker))
      ensures r.Ok? ==> Sensible(blocked, blocker) && deps == old(deps) + {(blocked, blocker)}
      ensures r.Err? ==> deps == old(deps) || (Sensible(blocked, blocker) && deps == old(deps) + {(blocked, blocker)})
      ensures Trim(blocked) == "" || Trim(blocker) == "" || blocked == blocker ==> r.Err? && deps == old(deps)
    {
      if !Sensible(blocked, blocker) {
        return Err;
      }
      var w := Forecast();
      if w == Refused {
        return Err;
      }
      deps := deps + {(blocked, blocker)};
      r := if w == Lost then Err else Ok(());
    }
  }

  /** The edges DependOn passes on to bd: both ends named, and not the same. */
  predicate Sensible(blocked: string, blocker: string) {
    !Blank(blocked) && !Blank(blocker) && blocked != blocker
  }
}
