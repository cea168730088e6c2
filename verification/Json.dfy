/** JSON as Go's encoder prints it and as a jsonb column gives it back. */
module Json {

  datatype Value = Null | Bool(b: bool) | Int(n: int) | Str(text: string) | Array(items: Items) | Object(members: Members)
  datatype Items = NoItems | Item(value: Value, rest: Items)
  datatype Members = NoMembers | Member(key: string, value: Value, rest: Members)

  // What stands between items or members, and between a key and its value.
  datatype Style = Style(comma: string, colon: string)

  const COMPACT := Style(",", ":")   // encoding/json
  const SPACED := Style(", ", ": ")  // jsonb

  function Digits(n: nat): string {
    if n < 10 then ['0' + n as char] else Digits(n / 10) + ['0' + (n % 10) as char]
  }

  function Quote(text: string): string {
    "\"" + text + "\""
  }

  function Print(v: Value, s: Style): string {
    match v
    case Null => "null"
    case Bool(b) => if b then "true" else "false"
    case Int(n) => if n < 0 then "-" + Digits(-n) else Digits(n)
    case Str(text) => Quote(text)
    case Array(items) => "[" + PrintItems(items, s) + "]"
    case Object(members) => "{" + PrintMembers(members, s) + "}"
  }

  function PrintItems(items: Items, s: Style): string {
    match items
    case NoItems => ""
    case Item(v, rest) => Print(v, s) + if rest == NoItems then "" else s.comma + PrintItems(rest, s)
  }

  function PrintMembers(members: Members, s: Style): string {
    match members
    case NoMembers => ""
    case Member(key, v, rest) =>
      Quote(key) + s.colon + Print(v, s) + if rest == NoMembers then "" else s.comma + PrintMembers(rest, s)
  }

  /** A text that neither printer has to escape. */
  predicate Unescaped(text: string) {
    forall i :: 0 <= i < |text| ==> Ordinary(text[i])
  }

  predicate Ordinary(c: char) {
    ' ' <= c <= '~' && c != '"' && c != '\\' && c != '<' && c != '>' && c != '&'
  }

  /** jsonb keeps the members of an object by the length of their keys, and those of one length by their bytes. */
  predicate Precedes(a: string, b: string) {
    |a| < |b| || (|a| == |b| && Smaller(a, b))
  }

  predicate Smaller(a: string, b: string)
    requires |a| == |b|
  {
    a != "" && (a[0] < b[0] || (a[0] == b[0] && Smaller(a[1..], b[1..])))
  }

  /** A value that both print member by member and character by character alike, separators apart. */
  predicate Tidy(v: Value) {
    match v
    case Str(text) => Unescaped(text)
    case Array(items) => TidyItems(items)
    case Object(members) => TidyMembers(members)
    case _ => true
  }

  predicate TidyItems(items: Items) {
    items == NoItems || (Tidy(items.value) && TidyItems(items.rest))
  }

  predicate TidyMembers(members: Members) {
    members == NoMembers
    || (Unescaped(members.key) && Tidy(members.value) && TidyMembers(members.rest)
        && (members.rest != NoMembers ==> Precedes(members.key, members.rest.key)))
  }

  /** How many commas and colons a value is printed with. */
  function Separators(v: Value): nat {
    match v
    case Array(items) => ItemSeparators(items)
    case Object(members) => MemberSeparators(members)
    case _ => 0
  }

  function ItemSeparators(items: Items): nat {
    match items
    case NoItems => 0
    case Item(v, rest) => Separators(v) + if rest == NoItems then 0 else 1 + ItemSeparators(rest)
  }

  function MemberSeparators(members: Members): nat {
    match members
    case NoMembers => 0
    case Member(_, v, rest) => 1 + Separators(v) + if rest == NoMembers then 0 else 1 + MemberSeparators(rest)
  }

  /** Each separator is one character longer in a column. */
  lemma {:induction false} SpacedIsLonger(v: Value)
    ensures |Print(v, SPACED)| == |Print(v, COMPACT)| + Separators(v)
    ensures Separators(v) == 0 ==> Print(v, SPACED) == Print(v, COMPACT)
  {
    match v
    case Array(items) => SpacedItemsAreLonger(items);
    case Object(members) => SpacedMembersAreLonger(members);
    case _ =>
  }

  lemma {:induction false} SpacedItemsAreLonger(items: Items)
    ensures |PrintItems(items, SPACED)| == |PrintItems(items, COMPACT)| + ItemSeparators(items)
    ensures ItemSeparators(items) == 0 ==> PrintItems(items, SPACED) == PrintItems(items, COMPACT)
  {
    if items.Item? {
      SpacedIsLonger(items.value);
      SpacedItemsAreLonger(items.rest);
    }
  }

  lemma {:induction false} SpacedMembersAreLonger(members: Members)
    ensures |PrintMembers(members, SPACED)| == |PrintMembers(members, COMPACT)| + MemberSeparators(members)
    ensures MemberSeparators(members) == 0 ==> members == NoMembers
  {
    if members.Member? {
      SpacedIsLonger(members.value);
      SpacedMembersAreLonger(members.rest);
    }
  }

  /** A value is printed alike in both styles exactly when it has nothing to separate. */
  lemma PrintedAlikeIff(v: Value)
    ensures Print(v, SPACED) == Print(v, COMPACT) <==> Separators(v) == 0
  {
    SpacedIsLonger(v);
  }

  lemma {:induction false} DigitsEnd(n: nat)
    ensures Digits(n) != "" && '0' <= Digits(n)[|Digits(n)| - 1] <= '9'
  {
  }

  /** No value ends in a line break. */
  lemma EndsInNoNewline(v: Value, s: Style)
    ensures Print(v, s) != "" && Print(v, s)[|Print(v, s)| - 1] != '\n'
  {
    match v
    case Int(n) => DigitsEnd(if n < 0 then -n else n);
    case _ =>
  }

  lemma OneMember(key: string, text: string, s: Style)
    ensures Print(Object(Member(key, Str(text), NoMembers)), s) == "{" + (Quote(key) + s.colon + Quote(text)) + "}"
  {
    assert PrintMembers(Member(key, Str(text), NoMembers), s) == Quote(key) + s.colon + Quote(text) + "";
  }
}
