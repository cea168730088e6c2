/** Printing a list as a text[] literal (cmd/control-api/projects.go, cmd/work/main.go), and reading it back. */
module TextArray {

  import opened Text

  /* ---- printing ---- */

  /** strings.NewReplacer for a backslash and a double quote, each of which a backslash goes before. */
  function Escaped(v: string): string {
    if v == "" then ""
    else (if v[0] == '\\' || v[0] == '"' then ['\\', v[0]] else [v[0]]) + Escaped(v[1..])
  }

  function Quoted(v: string): string {
    "\"" + Escaped(v) + "\""
  }

  function Joined(vs: seq<string>): string {
    if vs == [] then ""
    else if |vs| == 1 then Quoted(vs[0])
    else Joined(vs[..|vs| - 1]) + "," + Quoted(vs[|vs| - 1])
  }

  /** NULL for no list at all. */
  function Literal(vs: seq<string>): Option<string> {
    if vs == [] then None else Some("{" + Joined(vs) + "}")
  }

  /** The control API's copy. */
  method BeadLabels(vs: seq<string>) returns (r: Option<string>)
    ensures r == Literal(vs)
    ensures r.Some? <==> vs != []
    ensures r.Some? ==> Read(r.value) == Some(Present(vs))
  {
    if |vs| == 0 {
      return None;
    }
    var b := "{";
    for i := 0 to |vs|
      invariant b == "{" + Joined(vs[..i])
    {
      b := AppendElement(b, vs, i);
    }
    assert vs[..|vs|] == vs;
    ReadUndoesLiteral(vs);
    return Some(b + "}");
  }

  /** The work command's copy. */
  method WorkTextArray(vs: seq<string>) returns (r: Option<string>)
    ensures r == Literal(vs)
    ensures r.Some? <==> vs != []
    ensures r.Some? ==> Read(r.value) == Some(Present(vs))
  {
    if |vs| == 0 {
      return None;
    }
    var b := "{";
    for i := 0 to |vs|
      invariant b == "{" + Joined(vs[..i])
    {
      b := AppendElement(b, vs, i);
    }
    assert vs[..|vs|] == vs;
    ReadUndoesLiteral(vs);
    return Some(b + "}");
  }

  /** The loop's body, the same in both. */
  method AppendElement(start: string, vs: seq<string>, i: nat) returns (b: string)
    requires i < |vs| && start == "{" + Joined(vs[..i])
    ensures b == "{" + Joined(vs[..i + 1])
  {
    assert vs[..i + 1][..i] == vs[..i];
    b := start;
    if i > 0 {
      b := b + ",";
    }
    b := b + "\"";
    b := b + Escaped(vs[i]);
    b := b + "\"";
  }

  /* ---- reading, by section 8.15.6 of the PostgreSQL documentation ---- */

  predicate Space(c: char) {
    c == ' ' || '\t' <= c <= '\r'
  }

  function SkipSpace(s: string): (r: string)
    ensures |r| <= |s|
  {
    if s != "" && Space(s[0]) then SkipSpace(s[1..]) else s
  }

  /** After an opening quote: the element up to the closing one, and what follows. */
  function ReadQuoted(s: string): (r: Option<(string, string)>)
    ensures r.Some? ==> |r.value.1| < |s|
  {
    if s == "" then None
    else if s[0] == '"' then Some(("", s[1..]))
    else if s[0] == '\\' then
      if |s| == 1 then None
      else
        var rest := ReadQuoted(s[2..]);
        if rest.None? then None else Some(([s[1]] + rest.value.0, rest.value.1))
    else
      var rest := ReadQuoted(s[1..]);
      if rest.None? then None else Some(([s[0]] + rest.value.0, rest.value.1))
  }

  /** An element without quotes, up to a comma or a closing brace; trailing space is not part of it. */
  function ReadBare(s: string): (r: Option<(string, string)>)
    ensures r.Some? ==> |r.value.1| <= |s| && (s != "" && s[0] != ',' && s[0] != '}' ==> |r.value.1| < |s|)
  {
    if s == "" || s[0] == '"' || s[0] == '{' then None
    else if s[0] == ',' || s[0] == '}' then Some(("", s))
    else if Space(s[0]) && (SkipSpace(s) == "" || SkipSpace(s)[0] in ",}") then Some(("", SkipSpace(s)))
    else if s[0] == '\\' then
      if |s| == 1 then None
      else
        var rest := ReadBare(s[2..]);
        if rest.None? then None else Some(([s[1]] + rest.value.0, rest.value.1))
    else
      var rest := ReadBare(s[1..]);
      if rest.None? then None else Some(([s[0]] + rest.value.0, rest.value.1))
  }

  predicate IsNull(raw: string) {
    |raw| == 4 && raw[0] in "nN" && raw[1] in "uU" && raw[2] in "lL" && raw[3] in "lL"
  }

  /** One element, None for a NULL, and what follows it. */
  function ReadElement(s: string): (r: Option<(Option<string>, string)>)
    ensures r.Some? ==> |r.value.1| < |s|
  {
    if s == "" then None
    else if s[0] == '"' then
      var q := ReadQuoted(s[1..]);
      if q.None? then None else Some((Some(q.value.0), q.value.1))
    else
      var b := ReadBare(s);
      if b.None? || b.value.0 == "" || |b.value.1| >= |s| then None
      else Some((if IsNull(s[..|s| - |b.value.1|]) then None else Some(b.value.0), b.value.1))
  }

  /** Elements up to the closing brace, and what follows it. */
  function ReadElements(s: string): Option<(seq<Option<string>>, string)>
    decreases |s|
  {
    var e := ReadElement(SkipSpace(s));
    if e.None? then None
    else
      var rest := SkipSpace(e.value.1);
      if rest == "" then None
      else if rest[0] == '}' then Some(([e.value.0], rest[1..]))
      else if rest[0] != ',' then None
      else
        var more := ReadElements(rest[1..]);
        if more.None? then None else Some(([e.value.0] + more.value.0, more.value.1))
  }

  /** A one-dimensional array's literal. */
  function Read(s: string): Option<seq<Option<string>>> {
    var t := SkipSpace(s);
    if t == "" || t[0] != '{' then None
    else
      var u := SkipSpace(t[1..]);
      if u != "" && u[0] == '}' then if SkipSpace(u[1..]) == "" then Some([]) else None
      else
        var es := ReadElements(t[1..]);
        if es.None? || SkipSpace(es.value.1) != "" then None else Some(es.value.0)
  }

  /* ---- one undoes the other ---- */

  function Present(vs: seq<string>): seq<Option<string>> {
    if vs == [] then [] else [Some(vs[0])] + Present(vs[1..])
  }

  lemma {:induction false} ReadQuotedUndoesEscaped(v: string, rest: string)
    ensures ReadQuoted(Escaped(v) + "\"" + rest) == Some((v, rest))
  {
    var s := Escaped(v) + "\"" + rest;
    if v == "" {
      assert s == "\"" + rest;
      assert s[1..] == rest;
    } else {
      ReadQuotedUndoesEscaped(v[1..], rest);
      var t := Escaped(v[1..]) + "\"" + rest;
      if v[0] == '\\' || v[0] == '"' {
        assert s == ['\\', v[0]] + t;
        assert s[2..] == t;
      } else {
        assert s == [v[0]] + t;
        assert s[1..] == t;
      }
      assert v == [v[0]] + v[1..];
    }
  }

  lemma ReadElementUndoesQuoted(v: string, rest: string)
    ensures SkipSpace(Quoted(v) + rest) == Quoted(v) + rest
    ensures ReadElement(Quoted(v) + rest) == Some((Some(v), rest))
  {
    var s := Quoted(v) + rest;
    assert s[1..] == Escaped(v) + "\"" + rest;
    ReadQuotedUndoesEscaped(v, rest);
  }

  lemma {:induction false} JoinedFromTheFront(vs: seq<string>)
    requires |vs| > 1
    ensures Joined(vs) == Quoted(vs[0]) + "," + Joined(vs[1..])
  {
    var front, last := vs[..|vs| - 1], Quoted(vs[|vs| - 1]);
    if |vs| == 2 {
      assert front == [vs[0]] && vs[1..] == [vs[1]];
    } else {
      JoinedFromTheFront(front);
      assert front[1..] == vs[1..][..|vs| - 2];
      assert Joined(vs[1..]) == Joined(front[1..]) + "," + last;
    }
  }

  lemma LastElement(v: string)
    ensures ReadElements(Quoted(v) + "}") == Some(([Some(v)], ""))
  {
    ReadElementUndoesQuoted(v, "}");
    var rest: string := "}";
    assert rest[1..] == "" && SkipSpace(rest) == rest;
  }

  lemma ElementAndMore(v: string, more: string)
    requires ReadElements(more).Some?
    ensures ReadElements(Quoted(v) + ("," + more)) == Some(([Some(v)] + ReadElements(more).value.0, ReadElements(more).value.1))
  {
    ReadElementUndoesQuoted(v, "," + more);
    assert ("," + more)[1..] == more;
  }

  lemma {:induction false} ReadElementsUndoesJoined(vs: seq<string>)
    requires vs != []
    ensures ReadElements(Joined(vs) + "}") == Some((Present(vs), ""))
  {
    if |vs| == 1 {
      LastElement(vs[0]);
      assert Present(vs) == [Some(vs[0])];
    } else {
      JoinedFromTheFront(vs);
      assert Joined(vs) + "}" == Quoted(vs[0]) + ("," + (Joined(vs[1..]) + "}"));
      ReadElementsUndoesJoined(vs[1..]);
      ElementAndMore(vs[0], Joined(vs[1..]) + "}");
    }
  }

  lemma JoinedBegins(vs: seq<string>)
    requires vs != []
    ensures Joined(vs) != "" && Joined(vs)[0] == '"'
  {
    if |vs| > 1 {
      JoinedFromTheFront(vs);
    }
  }

  /** Whatever the strings hold, PostgreSQL reads back exactly them. */
  lemma ReadUndoesLiteral(vs: seq<string>)
    requires vs != []
    ensures Read(Literal(vs).value) == Some(Present(vs))
  {
    var s := Literal(vs).value;
    JoinedBegins(vs);
    assert s[1..] == Joined(vs) + "}";
    ReadElementsUndoesJoined(vs);
  }

  /** Two lists have the same literal only if they are the same. */
  lemma LiteralIsInjective(vs: seq<string>, ws: seq<string>)
    ensures Literal(vs) == Literal(ws) <==> vs == ws
  {
    if vs != [] && ws != [] && Literal(vs) == Literal(ws) {
      ReadUndoesLiteral(vs);
      ReadUndoesLiteral(ws);
      PresentIsInjective(vs, ws);
    }
  }

  lemma {:induction false} PresentIsInjective(vs: seq<string>, ws: seq<string>)
    requires Present(vs) == Present(ws)
    ensures vs == ws
  {
    if vs != [] && ws != [] {
      assert Present(vs)[0] == Present(ws)[0];
      assert Present(vs)[1..] == Present(ws)[1..];
      PresentIsInjective(vs[1..], ws[1..]);
      assert vs == [vs[0]] + vs[1..] && ws == [ws[0]] + ws[1..];
    }
  }
}
