/** Fitting a run's output and the tail of its log into what a job row keeps (cmd/dispatcher/transcript.go). */
module Transcript {

  // Go strings are bytes: every char here is one.
  const BUDGET := 3900
  const HEADER := "\n\n--- agent transcript (tail) ---\n"
  const OMITTED := " earlier characters omitted]\n"
  const COLUMN := 4000  // system_finish_work keeps left(result, 4000)

  function Digit(d: nat): char
    requires d < 10
  {
    '0' + d as char
  }

  /** %d. */
  function Decimal(n: nat): string {
    if n < 10 then [Digit(n)] else Decimal(n / 10) + [Digit(n % 10)]
  }

  /** strings.IndexByte for a newline; the length when there is none. */
  function Newline(s: string, i: nat): (k: nat)
    requires i <= |s|
    ensures i <= k <= |s| && (k < |s| ==> s[k] == '\n')
    decreases |s| - i
  {
    if i == |s| || s[i] == '\n' then i else Newline(s, i + 1)
  }

  /** Where clipping to the last `n` bytes begins: after the first newline among them that something follows. */
  function Cut(s: string, n: nat): (k: nat)
    requires n < |s|
    ensures |s| - n <= k <= |s| && (n > 0 ==> k < |s|)
  {
    var i := Newline(s, |s| - n);
    if i < |s| - 1 then i + 1 else |s| - n
  }

  function ClipTail(s: string, n: int): string {
    if n <= 0 then ""
    else if |s| <= n then s
    else "[" + Decimal(Cut(s, n)) + OMITTED + s[Cut(s, n)..]
  }

  function Share(): nat {
    (BUDGET - |HEADER|) / 2
  }

  /** What the transcript may take once the output has had its half. */
  function Room(out: string): int {
    var spare := BUDGET - |HEADER| - |out|;
    if spare > Share() then spare else Share()
  }

  /** `trim` is strings.TrimSpace. */
  function WithTranscript(trim: string -> string, output: string, tail: string): string {
    if trim(tail) == "" then ClipTail(trim(output), BUDGET)
    else
      var out := ClipTail(trim(output), Share());
      out + HEADER + ClipTail(trim(tail), Room(out))
  }

  /* ---- numbers ---- */

  function Pow10(k: nat): nat {
    if k == 0 then 1 else 10 * Pow10(k - 1)
  }

  /** A number has k + 1 digits exactly when it lies between these powers of ten. */
  lemma {:induction false} DigitsIff(n: nat, k: nat)
    requires n > 0
    ensures |Decimal(n)| == k + 1 <==> Pow10(k) <= n < Pow10(k + 1)
  {
    if n >= 10 {
      if k == 0 {
      } else {
        DigitsIff(n / 10, k - 1);
      }
    } else if k > 0 {
      PowAtLeastTen(k);
    }
  }

  lemma {:induction false} PowAtLeastTen(k: nat)
    requires k > 0
    ensures Pow10(k) >= 10
  {
    if k > 1 {
      PowAtLeastTen(k - 1);
    }
  }

  lemma {:induction false} DigitsAtMost(n: nat, k: nat)
    requires k > 0 && n < Pow10(k)
    ensures 0 < |Decimal(n)| <= k
  {
    if n >= 10 {
      assert Pow10(1) == 10 * Pow10(0) == 10;
      DigitsAtMost(n / 10, k - 1);
    }
  }

  lemma Below64Bits()
    ensures 0x8000_0000_0000_0000 < Pow10(19) && Pow10(18) == 1_000_000_000_000_000_000
  {
    assert Pow10(6) == 1000 * Pow10(3) && Pow10(9) == 1000 * Pow10(6) && Pow10(12) == 1000 * Pow10(9);
    assert Pow10(15) == 1000 * Pow10(12) && Pow10(18) == 1000 * Pow10(15);
  }

  /** The number at the front of a text, and what follows its digits. */
  function ReadNumber(s: string, i: nat, n: nat): (int, nat)
    requires i <= |s|
    decreases |s| - i
  {
    if i < |s| && '0' <= s[i] <= '9' then ReadNumber(s, i + 1, 10 * n + (s[i] - '0') as nat) else (n, i)
  }

  lemma {:induction false} NumberReadsBack(n: nat, before: string, rest: string)
    requires rest != "" && !('0' <= rest[0] <= '9')
    ensures ReadNumber(before + Decimal(n) + rest, |before|, 0) == (n as int, |before| + |Decimal(n)|)
  {
    DigitsRead(n, before, rest);
    var s := before + Decimal(n) + rest;
    assert s[|before| + |Decimal(n)|] == rest[0];
  }

  /** Reading the digits of a number leaves exactly that number read, whatever follows. */
  lemma {:induction false} DigitsRead(n: nat, before: string, rest: string)
    ensures var s := before + Decimal(n) + rest;
            ReadNumber(s, |before|, 0) == ReadNumber(s, |before| + |Decimal(n)|, n)
  {
    var s := before + Decimal(n) + rest;
    if n < 10 {
      assert s[|before|] == Digit(n);
    } else {
      var last := [Digit(n % 10)];
      DigitsRead(n / 10, before, last + rest);
      assert before + Decimal(n / 10) + (last + rest) == s;
      assert s[|before| + |Decimal(n / 10)|] == Digit(n % 10);
      assert 10 * (n / 10) + n % 10 == n;
    }
  }

  /* ---- clipping ---- */

  lemma {:induction false} NewlineIsFirst(s: string, i: nat)
    requires i <= |s|
    ensures forall k :: i <= k < Newline(s, i) ==> s[k] != '\n'
    decreases |s| - i
  {
    if i < |s| && s[i] != '\n' {
      NewlineIsFirst(s, i + 1);
    }
  }

  /** How many bytes a clipped text says were dropped. */
  function SaysDropped(clipped: string): int
    requires clipped != ""
  {
    ReadNumber(clipped, 1, 0).0
  }

  /** A clipped text says exactly how much was dropped, and the rest of it is exactly the rest of the text. */
  lemma ClippedSaysWhatIsGone(s: string, n: int)
    requires 0 < n < |s|
    ensures var c := ClipTail(s, n);
            && SaysDropped(c) == Cut(s, n) && |s| - n <= SaysDropped(c) < |s|
            && c[|c| - (|s| - SaysDropped(c))..] == s[SaysDropped(c)..]
            && c == "[" + Decimal(SaysDropped(c)) + " earlier characters omitted]\n" + s[SaysDropped(c)..]
  {
    var k := Cut(s, n);
    var c := ClipTail(s, n);
    NumberReadsBack(k, "[", OMITTED + s[k..]);
    assert c == "[" + Decimal(k) + (OMITTED + s[k..]);
    assert c[|c| - (|s| - k)..] == s[k..];
  }

  /** The rest begins on a line, at the first line of the last n bytes, unless no line begins among them. */
  lemma CutIsOnALineIff(s: string, n: nat)
    requires 0 < n < |s|
    ensures (exists k :: |s| - n <= k < |s| - 1 && s[k] == '\n') <==> Cut(s, n) > |s| - n
    ensures Cut(s, n) > |s| - n ==> s[Cut(s, n) - 1] == '\n' && forall k :: |s| - n <= k < Cut(s, n) - 1 ==> s[k] != '\n'
  {
    NewlineIsFirst(s, |s| - n);
  }

  predicate Continues(c: char) {
    '\U{80}' <= c <= '\U{bf}'
  }

  /** In UTF-8 a continuation byte never follows an ASCII byte. */
  ghost predicate WellJoined(s: string) {
    forall i {:trigger s[i]} :: 0 < i < |s| && Continues(s[i]) ==> s[i - 1] >= '\U{80}'
  }

  /** The rest begins inside a character exactly when no line begins in the last n bytes and byte |s| - n goes on with one. */
  lemma CutSplitsACharacterIff(s: string, n: nat)
    requires 0 < n < |s| && WellJoined(s)
    ensures Continues(s[Cut(s, n)])
            <==> Continues(s[|s| - n]) && forall k :: |s| - n <= k < |s| - 1 ==> s[k] != '\n'
  {
    CutIsOnALineIff(s, n);
    if Cut(s, n) > |s| - n {
      assert s[Cut(s, n) - 1] == '\n';
    }
  }

  lemma ClipLength(s: string, n: nat)
    requires |s| < 0x8000_0000_0000_0000
    ensures |ClipTail(s, n)| <= if |s| <= n then |s| else n + 49
  {
    if n > 0 && |s| > n {
      Below64Bits();
      DigitsAtMost(Cut(s, n), 19);
    }
  }

  /* ---- the result ---- */

  lemma Lengths()
    ensures |HEADER| == 34 && |OMITTED| == 29 && Share() == 1933
  {
  }

  /** The column cuts nothing off: what is stored is the whole result, at most 3998 bytes. */
  lemma ResultIsNeverCut(trim: string -> string, output: string, tail: string)
    requires |trim(output)| < 0x8000_0000_0000_0000 && |trim(tail)| < 0x8000_0000_0000_0000
    ensures |WithTranscript(trim, output, tail)| <= 3998 < COLUMN
  {
    Lengths();
    ClipLength(trim(output), BUDGET);
    var out := ClipTail(trim(output), Share());
    ClipLength(trim(output), Share());
    ClipLength(trim(tail), Room(out));
  }

  /** Output and log are both there whole when the output fits its half and the log the room that is left. */
  lemma BothWhole(trim: string -> string, output: string, tail: string)
    requires trim(tail) != ""
    requires |trim(output)| <= Share() && |trim(tail)| <= BUDGET - |HEADER| - |trim(output)|
    ensures WithTranscript(trim, output, tail) == trim(output) + HEADER + trim(tail)
  {
    Lengths();
  }

  /** Without a log there is only the output: whole if it fits, otherwise as much of its end as fits. */
  lemma OutputAlone(trim: string -> string, output: string, tail: string)
    requires trim(tail) == ""
    ensures WithTranscript(trim, output, tail) == if |trim(output)| <= 3900 then trim(output) else ClipTail(trim(output), 3900)
  {
  }

  lemma HeaderReads()
    ensures HEADER == "\n\n--- agent transcript (tail) ---\n"
  {
  }

  function RoomBeside(n: int): int {
    if 3866 - n > 1933 then 3866 - n else 1933
  }

  lemma RoomIs(out: string)
    ensures Share() == 1933 && Room(out) == RoomBeside(|out|)
  {
    Lengths();
  }

  lemma LeftOver(n: int)
    requires n <= 1933
    ensures RoomBeside(n) == 3866 - n
  {
  }

  lemma ClipsNothing(s: string, n: nat)
    requires 0 < n && |s| <= n
    ensures ClipTail(s, n) == s
  {
  }

  /** The output, clipped to its half, and as much of the end of the log as that leaves room for. */
  lemma InTwoParts(trim: string -> string, output: string, tail: string)
    requires trim(tail) != ""
    ensures var out := ClipTail(trim(output), 1933);
            WithTranscript(trim, output, tail)
            == out + HEADER + ClipTail(trim(tail), RoomBeside(|out|))
  {
    RoomIs(ClipTail(trim(output), 1933));
  }

  /** Output that fits its half stands whole before as much of the end of the log as is left room for. */
  lemma LogTakesWhatIsLeft(trim: string -> string, output: string, tail: string)
    requires trim(tail) != "" && |trim(output)| <= 1933
    ensures WithTranscript(trim, output, tail) == trim(output) + HEADER + ClipTail(trim(tail), 3866 - |trim(output)|)
  {
    InTwoParts(trim, output, tail);
    ClipsNothing(trim(output), 1933);
    LeftOver(|trim(output)|);
  }

  lemma SaysSoWhateverFollows(s: string, n: nat, more: string)
    requires 0 < n < |s|
    ensures SaysDropped(ClipTail(s, n) + more) == Cut(s, n)
  {
    var k := Cut(s, n);
    NumberReadsBack(k, "[", OMITTED + s[k..] + more);
    Rebracket("[", Decimal(k), OMITTED, s[k..], more);
  }

  lemma Rebracket(a: string, b: string, c: string, d: string, e: string)
    ensures a + b + c + d + e == a + b + (c + d + e)
  {
  }

  /** Output beyond its half is dropped, and said to be, even where a short log leaves room for it. */
  lemma OutputBeyondItsHalfIsDropped(trim: string -> string, output: string, tail: string)
    requires trim(tail) != "" && |trim(output)| > Share()
    ensures SaysDropped(WithTranscript(trim, output, tail)) >= |trim(output)| - Share() > 0
  {
    Lengths();
    var out := ClipTail(trim(output), Share());
    var more := HEADER + ClipTail(trim(tail), Room(out));
    SaysSoWhateverFollows(trim(output), Share(), more);
    assert out + HEADER + ClipTail(trim(tail), Room(out)) == out + more;
  }

  /** 3998 bytes are reached: two texts without a line break, each longer than a million million million bytes. */
  lemma WorstCase(trim: string -> string, output: string, tail: string)
    requires NoNewline(trim(output)) && NoNewline(trim(tail))
    requires 1_000_000_000_000_001_933 <= |trim(output)| < 0x8000_0000_0000_0000
    requires 1_000_000_000_000_001_933 <= |trim(tail)| < 0x8000_0000_0000_0000
    ensures |WithTranscript(trim, output, tail)| == 3998
  {
    Lengths();
    LongestClip(trim(output), Share());
    LongestClip(trim(tail), Share());
  }

  ghost predicate NoNewline(s: string) {
    forall k :: 0 <= k < |s| ==> s[k] != '\n'
  }

  lemma LongestClip(s: string, n: nat)
    requires NoNewline(s) && 0 < n && 1_000_000_000_000_000_000 + n <= |s| < 0x8000_0000_0000_0000
    ensures |ClipTail(s, n)| == n + 49
  {
    assert Newline(s, |s| - n) == |s|;
    Below64Bits();
    DigitsIff(|s| - n, 18);
  }
}
