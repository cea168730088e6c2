/** A plan on its way to the graph, and when it may be filed at all (internal/work/filing.go). */
module Plans {
  import opened Text

  datatype Entry = Entry(
    ref: string, id: string, title: string, description: string, acceptance: string, design: string,
    kind: string, priority: int, labels: seq<string>, dependsOn: seq<string>, status: string)

  datatype Plan = Plan(project: string, entries: seq<Entry>)

  datatype Problem =
    | NoProject | NoBeads | NoRef(n: nat) | RepeatedRef(ref: string) | NoTitle(ref: string) | BadId(ref: string)
    | BadPriority(ref: string) | EmptyDependency(ref: string) | SelfDependency(ref: string)
    | UnknownDependency(ref: string, dep: string)

  /** The external reference under which a filed bead is found again. */
  function Key(project: string, ref: string): string {
    "plan:" + project + "/" + ref
  }

  lemma KeyTellsRefsApart(project: string, r: string, s: string)
    requires Key(project, r) == Key(project, s)
    ensures r == s
  {
    var n := |"plan:" + project + "/"|;
    assert r == Key(project, r)[n..] && s == Key(project, s)[n..];
  }

  lemma EndsInX(front: string)
    ensures !Blank(front + "x")
  {
    BlankMeansAllSpace(front + "x");
    assert (front + "x")[|front|] == 'x';
  }

  /** A project and another whose name goes on from it, after a slash. */
  lemma NestedShare(p: string, q: string) returns (r: string, s: string)
    requires p == q || p + "/" <= q
    ensures !Blank(r) && !Blank(s) && Key(p, r) == Key(q, s)
  {
    EndsInX("");
    s := "" + "x";
    r := s;
    if p != q {
      var rest := q[|p| + 1..];
      EndsInX(rest + "/");
      r := rest + "/" + "x";
      assert q == p + "/" + rest;
    }
  }

  lemma SharedMeansNested(p: string, r: string, q: string, s: string)
    requires Key(p, r) == Key(q, s)
    ensures p == q || p + "/" <= q || q + "/" <= p
  {
    assert p + "/" + r == Key(p, r)[5..] == Key(q, s)[5..] == q + "/" + s;
    PrefixesOfOneString(p + "/", r, q + "/", s);
    if p + "/" <= q + "/" {
      assert |p| < |q| ==> p + "/" == (q + "/")[..|p| + 1] == q[..|p| + 1];
      assert |p| == |q| ==> p == (p + "/")[..|p|] == (q + "/")[..|p|] == q;
    } else {
      assert |q| < |p| ==> q + "/" == (p + "/")[..|q| + 1] == p[..|q| + 1];
    }
  }

  /** Two projects can claim one bead, by refs that may be filed, exactly when one's name is the other's plus a slash and more. */
  lemma ProjectsShareKeysIff(p: string, q: string)
    ensures (exists r, s :: !Blank(r) && !Blank(s) && Key(p, r) == Key(q, s)) <==> p == q || p + "/" <= q || q + "/" <= p
  {
    if p == q || p + "/" <= q {
      var r, s := NestedShare(p, q);
    } else if q + "/" <= p {
      var s, r := NestedShare(q, p);
    }
    if r, s :| !Blank(r) && !Blank(s) && Key(p, r) == Key(q, s) {
      SharedMeansNested(p, r, q, s);
    }
  }

  lemma PrefixesOfOneString(a: string, b: string, c: string, d: string)
    requires a + b == c + d
    ensures a <= c || c <= a
  {
    if |a| <= |c| {
      assert a == (a + b)[..|a|] == (c + d)[..|a|] == c[..|a|];
    } else {
      assert c == (c + d)[..|c|] == (a + b)[..|c|] == a[..|c|];
    }
  }

  function DashFrom(s: string, i: nat): (k: nat)
    requires i <= |s|
    ensures i <= k <= |s|
    decreases |s| - i
  {
    if i == |s| || s[i] == '-' then i else DashFrom(s, i + 1)
  }

  /** bd's shape for an id: something, the first dash, and something without blanks. */
  predicate LooksLikeBeadId(s: string) {
    var k := DashFrom(s, 0);
    0 < k < |s| - 1 && ' ' !in s[k + 1..]
  }

  predicate Targeted(e: Entry) {
    !Blank(e.id)
  }

  /** The refs of the entries, trimmed. */
  function RefNames(entries: seq<Entry>): (names: seq<string>)
    ensures |names| == |entries| && forall i :: 0 <= i < |names| ==> names[i] == Trim(entries[i].ref)
  {
    seq(|entries|, i requires 0 <= i < |entries| => Trim(entries[i].ref))
  }

  ghost predicate DependencyOk(p: Plan, e: Entry, dep: string) {
    !Blank(dep) && Trim(dep) != Trim(e.ref) && (Trim(dep) in RefNames(p.entries) || LooksLikeBeadId(Trim(dep)))
  }

  /** The first `n` dependencies of the entry are all right. */
  ghost predicate DependenciesOk(p: Plan, e: Entry, n: nat)
    requires n <= |e.dependsOn|
  {
    n == 0 || (DependenciesOk(p, e, n - 1) && DependencyOk(p, e, e.dependsOn[n - 1]))
  }

  ghost predicate EntryOk(p: Plan, e: Entry) {
    && !Blank(e.ref)
    && (if Targeted(e) then LooksLikeBeadId(Trim(e.id)) else !Blank(e.title))
    && 0 <= e.priority <= 4
    && DependenciesOk(p, e, |e.dependsOn|)
  }

  ghost predicate Distinct(names: seq<string>) {
    forall i, j :: 0 <= i < j < |names| ==> names[i] != names[j]
  }

  ghost predicate Fileable(p: Plan) {
    && !Blank(p.project) && p.entries != []
    && Distinct(RefNames(p.entries)) && OkUpTo(p, |p.entries|)
  }

  /** The first `n` entries may be filed. */
  ghost predicate OkUpTo(p: Plan, n: nat)
    requires n <= |p.entries|
  {
    n == 0 || (OkUpTo(p, n - 1) && EntryOk(p, p.entries[n - 1]))
  }

  lemma {:induction false} EveryEntryOk(p: Plan, n: nat, i: nat)
    requires i < n <= |p.entries| && OkUpTo(p, n)
    ensures EntryOk(p, p.entries[i])
  {
    if i < n - 1 {
      EveryEntryOk(p, n - 1, i);
    }
  }

  /** The first `n` entries may be filed, and repeat no ref. */
  ghost predicate GoodUpTo(p: Plan, n: nat)
    requires n <= |p.entries|
  {
    Distinct(RefNames(p.entries)[..n]) && OkUpTo(p, n)
  }

  lemma OneMoreGood(p: Plan, i: nat)
    requires i < |p.entries|
    ensures var names := RefNames(p.entries);
            && Members(names[..i + 1]) == Members(names[..i]) + {names[i]}
            && (GoodUpTo(p, i + 1) <==> GoodUpTo(p, i) && names[i] !in Members(names[..i]) && EntryOk(p, p.entries[i]))
  {
    OneMoreName(RefNames(p.entries), i);
  }

  lemma AllGood(p: Plan)
    requires !Blank(p.project) && p.entries != []
    ensures GoodUpTo(p, 0) && (GoodUpTo(p, |p.entries|) <==> Fileable(p))
  {
    assert RefNames(p.entries)[..|p.entries|] == RefNames(p.entries);
  }

  /** Every problem of the plan, before anything is written. */
  method Validate(p: Plan) returns (problems: seq<Problem>)
    ensures problems == [] <==> Fileable(p)
    ensures Blank(p.project) ==> problems == [NoProject]
    ensures !Blank(p.project) && p.entries == [] ==> problems == [NoBeads]
  {
    if Blank(p.project) {
      return [NoProject];
    }
    if p.entries == [] {
      return [NoBeads];
    }
    var refs := CollectRefs(p.entries);
    var seen: set<string> := {};
    problems := [];
    AllGood(p);
    for i := 0 to |p.entries|
      invariant seen == Members(RefNames(p.entries)[..i])
      invariant problems == [] <==> GoodUpTo(p, i)
    {
      seen, problems := CheckNext(p, i, seen, refs, problems);
    }
  }

  /** The next entry: whether its ref has been seen, and what else is wrong with it. */
  method CheckNext(p: Plan, i: nat, seen: set<string>, refs: set<string>, before: seq<Problem>)
    returns (more: set<string>, problems: seq<Problem>)
    requires i < |p.entries| && refs == Members(RefNames(p.entries)) && seen == Members(RefNames(p.entries)[..i])
    requires before == [] <==> GoodUpTo(p, i)
    ensures more == Members(RefNames(p.entries)[..i + 1])
    ensures problems == [] <==> GoodUpTo(p, i + 1)
  {
    OneMoreGood(p, i);
    var ref := Trim(p.entries[i].ref);
    var repeated := if ref != "" && ref in seen then [RepeatedRef(ref)] else [];
    var found := Check(p, p.entries[i], i, refs);
    more, problems := seen + {ref}, before + repeated + found;
  }

  function Members(names: seq<string>): set<string> {
    set n | n in names
  }

  lemma OneMoreName(names: seq<string>, i: nat)
    requires i < |names|
    ensures Distinct(names[..i + 1]) <==> Distinct(names[..i]) && names[i] !in Members(names[..i])
    ensures Members(names[..i + 1]) == Members(names[..i]) + {names[i]}
  {
    assert names[..i + 1] == names[..i] + [names[i]];
    var more := names[..i + 1];
    assert forall k :: 0 <= k < i ==> more[k] == names[..i][k];
    if Distinct(more) {
      assert forall k :: 0 <= k < i ==> more[k] != more[i];
    }
  }

  method CollectRefs(entries: seq<Entry>) returns (refs: set<string>)
    ensures refs == Members(RefNames(entries))
  {
    refs := {};
    ghost var names := RefNames(entries);
    for i := 0 to |entries|
      invariant refs == Members(names[..i])
    {
      OneMoreName(names, i);
      refs := refs + {Trim(entries[i].ref)};
    }
    assert names[..|names|] == names;
  }

  method Check(p: Plan, e: Entry, i: nat, refs: set<string>) returns (problems: seq<Problem>)
    requires refs == Members(RefNames(p.entries))
    ensures problems == [] <==> EntryOk(p, e)
    ensures NoRef(i) in problems <==> Trim(e.ref) == ""
    ensures NoTitle(Trim(e.ref)) in problems <==> Trim(e.id) == "" && Trim(e.title) == ""
    ensures BadId(Trim(e.ref)) in problems <==> Trim(e.id) != "" && !LooksLikeBeadId(Trim(e.id))
    ensures BadPriority(Trim(e.ref)) in problems <==> e.priority < 0 || e.priority > 4
    ensures forall q :: OfADependency(q) ==> (q in problems <==> exists dep <- e.dependsOn :: IsProblem(e, dep, refs, q))
  {
    var own := CheckItself(e, i);
    var wrong := CheckDependencies(p, e, refs);
    problems := own + wrong;
  }

  /** What is wrong with an entry, its dependencies apart. */
  method CheckItself(e: Entry, i: nat) returns (problems: seq<Problem>)
    ensures problems == [] <==>
            !Blank(e.ref) && (if Targeted(e) then LooksLikeBeadId(Trim(e.id)) else !Blank(e.title)) && 0 <= e.priority <= 4
    ensures forall q <- problems :: !OfADependency(q)
    ensures NoRef(i) in problems <==> Trim(e.ref) == ""
    ensures NoTitle(Trim(e.ref)) in problems <==> Trim(e.id) == "" && Trim(e.title) == ""
    ensures BadId(Trim(e.ref)) in problems <==> Trim(e.id) != "" && !LooksLikeBeadId(Trim(e.id))
    ensures BadPriority(Trim(e.ref)) in problems <==> e.priority < 0 || e.priority > 4
  {
    problems := [];
    var ref, id := Trim(e.ref), Trim(e.id);
    if ref == "" {
      problems := problems + [NoRef(i)];
    }
    if id == "" && Blank(e.title) {
      problems := problems + [NoTitle(ref)];
    }
    if id != "" && !LooksLikeBeadId(id) {
      problems := problems + [BadId(ref)];
    }
    if e.priority < 0 || e.priority > 4 {
      problems := problems + [BadPriority(ref)];
    }
  }

  predicate OfADependency(q: Problem) {
    q.EmptyDependency? || q.SelfDependency? || q.UnknownDependency?
  }

  method CheckDependencies(p: Plan, e: Entry, refs: set<string>) returns (problems: seq<Problem>)
    requires refs == Members(RefNames(p.entries))
    ensures problems == [] <==> DependenciesOk(p, e, |e.dependsOn|)
    ensures forall q <- problems :: OfADependency(q)
    ensures DependencyProblems(e, e.dependsOn, refs, problems)
  {
    problems := [];
    for k := 0 to |e.dependsOn|
      invariant problems == [] <==> DependenciesOk(p, e, k)
      invariant DependencyProblems(e, e.dependsOn[..k], refs, problems)
    {
      var found := CheckDependency(p, e, e.dependsOn[k], refs);
      OneMoreDependency(e, k, refs, problems, found);
      problems := problems + found;
    }
    assert e.dependsOn[..|e.dependsOn|] == e.dependsOn;
  }

  /** Of these dependencies, every problem there is and no other. */
  ghost predicate DependencyProblems(e: Entry, deps: seq<string>, refs: set<string>, problems: seq<Problem>) {
    forall q :: q in problems <==> exists dep <- deps :: IsProblem(e, dep, refs, q)
  }

  /** Empty, the entry itself, or neither a ref of the plan nor an id. */
  predicate IsProblem(e: Entry, dependency: string, refs: set<string>, q: Problem) {
    var ref, dep := Trim(e.ref), Trim(dependency);
    || (q == EmptyDependency(ref) && dep == "")
    || (q == SelfDependency(ref) && dep != "" && dep == ref)
    || (q == UnknownDependency(ref, dep) && dep != "" && dep !in refs && !LooksLikeBeadId(dep))
  }

  lemma OneMoreDependency(e: Entry, k: nat, refs: set<string>, problems: seq<Problem>, found: seq<Problem>)
    requires k < |e.dependsOn| && DependencyProblems(e, e.dependsOn[..k], refs, problems)
    requires forall q :: q in found <==> IsProblem(e, e.dependsOn[k], refs, q)
    ensures DependencyProblems(e, e.dependsOn[..k + 1], refs, problems + found)
  {
    assert e.dependsOn[..k + 1] == e.dependsOn[..k] + [e.dependsOn[k]];
  }

  method CheckDependency(p: Plan, e: Entry, dependency: string, refs: set<string>) returns (problems: seq<Problem>)
    requires refs == Members(RefNames(p.entries))
    ensures problems == [] <==> DependencyOk(p, e, dependency)
    ensures forall q <- problems :: OfADependency(q)
    ensures forall q :: q in problems <==> IsProblem(e, dependency, refs, q)
  {
    problems := [];
    var ref, dep := Trim(e.ref), Trim(dependency);
    if dep == "" {
      problems := problems + [EmptyDependency(ref)];
    } else {
      if dep == ref {
        problems := problems + [SelfDependency(ref)];
      }
      if dep !in refs && !LooksLikeBeadId(dep) {
        problems := problems + [UnknownDependency(ref, dep)];
      }
    }
  }

  /* ---- when a plan may be filed, in full ---- */

  lemma {:induction false} DependenciesOkIff(p: Plan, e: Entry, n: nat)
    requires n <= |e.dependsOn|
    ensures DependenciesOk(p, e, n) <==> forall k :: 0 <= k < n ==> DependencyOk(p, e, e.dependsOn[k])
  {
    if n > 0 {
      DependenciesOkIff(p, e, n - 1);
    }
  }

  lemma {:induction false} AllOkUpTo(p: Plan, n: nat)
    requires n <= |p.entries| && AllOk(p)
    ensures OkUpTo(p, n)
  {
    if n > 0 {
      AllOkUpTo(p, n - 1);
      OneMoreOk(p, n);
    }
  }

  lemma OneMoreOk(p: Plan, n: nat)
    requires 0 < n <= |p.entries| && OkUpTo(p, n - 1) && AllOk(p)
    ensures OkUpTo(p, n)
  {
    OneOk(p, n - 1);
  }

  ghost predicate AllOk(p: Plan) {
    forall e <- p.entries :: EntryOk(p, e)
  }

  lemma OneOk(p: Plan, i: nat)
    requires i < |p.entries| && AllOk(p)
    ensures EntryOk(p, p.entries[i])
  {
    assert p.entries[i] in p.entries;
  }

  lemma OkUpToMeansAll(p: Plan)
    requires OkUpTo(p, |p.entries|)
    ensures AllOk(p)
  {
    forall e | e in p.entries
      ensures EntryOk(p, e)
    {
      var i :| 0 <= i < |p.entries| && p.entries[i] == e;
      EveryEntryOk(p, |p.entries|, i);
    }
  }

  lemma EntryOkIff(p: Plan, e: Entry)
    ensures EntryOk(p, e) <==>
              && Trim(e.ref) != "" && (if Trim(e.id) != "" then LooksLikeBeadId(Trim(e.id)) else Trim(e.title) != "")
              && 0 <= e.priority <= 4
              && forall dep <- e.dependsOn ::
                   && Trim(dep) != "" && Trim(dep) != Trim(e.ref)
                   && ((exists f <- p.entries :: Trim(f.ref) == Trim(dep)) || LooksLikeBeadId(Trim(dep)))
  {
    DependenciesOkIff(p, e, |e.dependsOn|);
    forall dep
      ensures DependencyOk(p, e, dep) <==>
              && Trim(dep) != "" && Trim(dep) != Trim(e.ref)
              && ((exists f <- p.entries :: Trim(f.ref) == Trim(dep)) || LooksLikeBeadId(Trim(dep)))
    {
      NamesARefIff(p, Trim(dep));
    }
  }

  lemma NamesARefIff(p: Plan, name: string)
    ensures name in RefNames(p.entries) <==> exists f <- p.entries :: Trim(f.ref) == name
  {
    if name in RefNames(p.entries) {
      var i :| 0 <= i < |p.entries| && RefNames(p.entries)[i] == name;
      assert p.entries[i] in p.entries;
    }
    if f :| f in p.entries && Trim(f.ref) == name {
      var i :| 0 <= i < |p.entries| && p.entries[i] == f;
      assert RefNames(p.entries)[i] == name;
    }
  }

  /** A plan may be filed exactly when it names a project and has entries, no two of one ref, and each is in order. */
  lemma FileableIff(p: Plan)
    ensures Fileable(p) <==>
              && Trim(p.project) != "" && p.entries != []
              && (forall i, j :: 0 <= i < j < |p.entries| ==> Trim(p.entries[i].ref) != Trim(p.entries[j].ref))
              && forall e <- p.entries :: EntryOk(p, e)
  {
    if OkUpTo(p, |p.entries|) {
      OkUpToMeansAll(p);
    }
    if AllOk(p) {
      AllOkUpTo(p, |p.entries|);
    }
    var names := RefNames(p.entries);
    assert Distinct(names) <==> forall i, j :: 0 <= i < j < |p.entries| ==> Trim(p.entries[i].ref) != Trim(p.entries[j].ref) by {
      assert forall i :: 0 <= i < |names| ==> names[i] == Trim(p.entries[i].ref);
    }
  }

  lemma {:induction false} DashIsFirst(s: string, i: nat)
    requires i <= |s|
    ensures var k := DashFrom(s, i); (k < |s| ==> s[k] == '-') && forall j :: i <= j < k ==> s[j] != '-'
    decreases |s| - i
  {
    if i < |s| && s[i] != '-' {
      DashIsFirst(s, i + 1);
    }
  }

  /** An id of bd's: something without a dash, a dash, and something without blanks. */
  lemma LooksLikeBeadIdIff(s: string)
    ensures LooksLikeBeadId(s) <==>
            exists k :: 0 < k < |s| - 1 && s[k] == '-' && '-' !in s[..k] && ' ' !in s[k + 1..]
  {
    DashIsFirst(s, 0);
    var k := DashFrom(s, 0);
    assert forall j :: 0 <= j < k ==> s[..k][j] != '-';
    if l :| 0 < l < |s| - 1 && s[l] == '-' && '-' !in s[..l] && ' ' !in s[l + 1..] {
      assert forall j :: 0 <= j < l ==> s[..l][j] == s[j];
      assert l == k;
    }
  }
}
