/** The string operations the Go sources borrow from the standard library. */
module Text {

  datatype Option<+T> = None | Some(value: T)

  /** unicode.IsSpace. */
  predicate IsSpace(c: char) {
    || c == ' ' || '\t' <= c <= '\r' || c == '\U{85}' || c == '\U{a0}' || c == '\U{1680}'
    || '\U{2000}' <= c <= '\U{200a}' || c == '\U{2028}' || c == '\U{2029}' || c == '\U{202f}'
    || c == '\U{205f}' || c == '\U{3000}'
  }

  /** strings.TrimSpace. */
  function Trim(s: string): string {
    var i := Start(s, 0);
    s[i..Stop(s, i, |s|)]
  }

  /** The first non-space at or after `i`. */
  function Start(s: string, i: nat): (k: nat)
    requires i <= |s|
    ensures i <= k <= |s|
    decreases |s| - i
  {
    if i < |s| && IsSpace(s[i]) then Start(s, i + 1) else i
  }

  /** Past the last non-space before `j`, or `i` when all is space from there. */
  function Stop(s: string, i: nat, j: nat): (k: nat)
    requires i <= j <= |s|
    ensures i <= k <= j
  {
    if i < j && IsSpace(s[j - 1]) then Stop(s, i, j - 1) else j
  }

  predicate Blank(s: string) {
    Trim(s) == ""
  }

  lemma {:induction false} StartIsFirst(s: string, i: nat)
    requires i <= |s|
    ensures var k := Start(s, i); (forall m :: i <= m < k ==> IsSpace(s[m])) && (k < |s| ==> !IsSpace(s[k]))
    decreases |s| - i
  {
    if i < |s| && IsSpace(s[i]) {
      StartIsFirst(s, i + 1);
    }
  }

  lemma {:induction false} StopIsLast(s: string, i: nat, j: nat)
    requires i <= j <= |s|
    ensures var k := Stop(s, i, j); (forall m :: k <= m < j ==> IsSpace(s[m])) && (i < k ==> !IsSpace(s[k - 1]))
  {
    if i < j && IsSpace(s[j - 1]) {
      StopIsLast(s, i, j - 1);
    }
  }

  lemma BlankMeansAllSpace(s: string)
    ensures Blank(s) <==> forall k :: 0 <= k < |s| ==> IsSpace(s[k])
  {
    StartIsFirst(s, 0);
    StopIsLast(s, Start(s, 0), |s|);
  }

  /** Trimming takes space off both ends, and all of it. */
  lemma TrimTakesSpaceOff(s: string) returns (before: string, after: string)
    ensures s == before + Trim(s) + after
    ensures (forall c <- before :: IsSpace(c)) && forall c <- after :: IsSpace(c)
    ensures Trim(s) != "" ==> !IsSpace(Trim(s)[0]) && !IsSpace(Trim(s)[|Trim(s)| - 1])
  {
    StartIsFirst(s, 0);
    StopIsLast(s, Start(s, 0), |s|);
    before, after := s[..Start(s, 0)], s[Stop(s, Start(s, 0), |s|)..];
  }

  lemma TrimmingAgain(s: string)
    ensures Trim(Trim(s)) == Trim(s)
  {
    var t, i := Trim(s), Start(s, 0);
    StartIsFirst(s, 0);
    StopIsLast(s, i, |s|);
    if t != "" {
      assert t[0] == s[i] && t[|t| - 1] == s[i + |t| - 1];
      assert Start(t, 0) == 0 && Stop(t, 0, |t|) == |t|;
    }
  }

  /** strings.Join(ls, ","). */
  function JoinCommas(ls: seq<string>): string {
    if ls == [] then "" else if |ls| == 1 then ls[0] else ls[0] + "," + JoinCommas(ls[1..])
  }

  /** The index of the first comma, or the length of `s` when it has none. */
  function CommaAt(s: string): (k: nat)
    ensures k <= |s| && ',' !in s[..k]
    ensures k < |s| ==> s[k] == ','
    ensures k == |s| <==> ',' !in s
  {
    if s == "" || s[0] == ',' then 0
    else
      assert forall k :: 0 <= k < |s| - 1 ==> s[1..][..k] == s[1..k + 1];
      1 + CommaAt(s[1..])
  }

  /** The pieces of a comma-separated list, as a set. */
  function Pieces(s: string): set<string>
    decreases |s|
  {
    var k := CommaAt(s);
    if k == |s| then {s} else {s[..k]} + Pieces(s[k + 1..])
  }

  function Elements(ls: seq<string>): set<string> {
    set l | l in ls
  }

  /** The pieces of every one of them. */
  function AllPieces(ls: seq<string>): set<string> {
    set l, p | l in ls && p in Pieces(l) :: p
  }

  lemma {:induction false} PiecesHoldNoComma(s: string)
    ensures forall l <- Pieces(s) :: ',' !in l
    decreases |s|
  {
    var k := CommaAt(s);
    if k < |s| {
      PiecesHoldNoComma(s[k + 1..]);
    }
  }

  lemma FirstPiece(l: string, t: string)
    requires ',' !in l
    ensures CommaAt(l + "," + t) == |l|
    ensures Pieces(l + "," + t) == {l} + Pieces(t)
  {
    var s := l + "," + t;
    assert forall i :: 0 <= i < |l| ==> s[i] == l[i];
    assert s[|l|] == ',';
    var k := CommaAt(s);
    assert forall i :: 0 <= i < k ==> s[..k][i] == s[i];
    assert s[..|l|] == l && s[|l| + 1..] == t;
  }

  lemma {:induction false} SplittingUndoesJoining(ls: seq<string>)
    requires ls != []
    requires forall l <- ls :: ',' !in l
    ensures Pieces(JoinCommas(ls)) == Elements(ls)
  {
    assert ls == [ls[0]] + ls[1..];
    if |ls| == 1 {
      assert CommaAt(ls[0]) == |ls[0]|;
    } else {
      FirstPiece(ls[0], JoinCommas(ls[1..]));
      SplittingUndoesJoining(ls[1..]);
      assert Elements(ls) == {ls[0]} + Elements(ls[1..]);
    }
  }

  /** A label list survives `--labels a,b,...` exactly when no label has a comma of its own. */
  lemma LabelsSurviveJoiningIffCommaFree(ls: seq<string>)
    requires ls != []
    ensures Elements(ls) <= Pieces(JoinCommas(ls)) <==> forall l <- ls :: ',' !in l
  {
    if forall l <- ls :: ',' !in l {
      SplittingUndoesJoining(ls);
    } else {
      var l :| l in ls && ',' in l;
      PiecesHoldNoComma(JoinCommas(ls));
      assert l in Elements(ls);
    }
  }

  lemma {:induction false} PiecesOfBoth(l: string, t: string)
    ensures Pieces(l + "," + t) == Pieces(l) + Pieces(t)
    decreases |l|
  {
    var k := CommaAt(l);
    if k == |l| {
      FirstPiece(l, t);
    } else {
      var rest := l[k + 1..] + "," + t;
      assert l + "," + t == l[..k] + "," + rest;
      FirstPiece(l[..k], rest);
      PiecesOfBoth(l[k + 1..], t);
    }
  }

  /** Joined and split, or each split by itself: the pieces are the same. */
  lemma {:induction false} PiecesOfJoined(ls: seq<string>)
    requires ls != []
    ensures Pieces(JoinCommas(ls)) == AllPieces(ls)
  {
    if |ls| == 1 {
      assert ls == [ls[0]];
    } else {
      PiecesOfBoth(ls[0], JoinCommas(ls[1..]));
      PiecesOfJoined(ls[1..]);
      PiecesOfTheFirst(ls[0], ls[1..]);
      assert ls == [ls[0]] + ls[1..];
    }
  }

  lemma PiecesOfTheFirst(l: string, ls: seq<string>)
    ensures AllPieces([l] + ls) == Pieces(l) + AllPieces(ls)
  {
  }
}
