/**
  Who holds which external reference while a plan is filed.

  A table is the list of external references of the beads, in list order.  An entry of the plan writes
  its key on one bead: the one a search for the key finds, a new one at the end, or one named by id.
*/
module Holders {

  function First(table: seq<string>, key: string): (k: nat)
    ensures k <= |table|
    ensures k < |table| ==> table[k] == key
    ensures forall j :: 0 <= j < k ==> table[j] != key
  {
    FirstFrom(table, key, 0)
  }

  function FirstFrom(table: seq<string>, key: string, i: nat): (k: nat)
    requires i <= |table|
    ensures i <= k <= |table|
    ensures k < |table| ==> table[k] == key
    ensures forall j :: i <= j < k ==> table[j] != key
    decreases |table| - i
  {
    if i == |table| || table[i] == key then i else FirstFrom(table, key, i + 1)
  }

  lemma FirstIs(table: seq<string>, key: string, k: nat)
    requires k < |table| && table[k] == key && forall j :: 0 <= j < k ==> table[j] != key
    ensures First(table, key) == k
  {
  }

  function Write(table: seq<string>, k: nat, key: string): seq<string>
    requires k <= |table|
  {
    if k < |table| then table[k := key] else table + [key]
  }

  datatype Move = Move(key: string, target: nat, byId: bool)

  ghost predicate Legal(table: seq<string>, m: Move) {
    m.target <= |table| && if m.byId then m.target < |table| else m.target == First(table, m.key)
  }

  ghost predicate Trace(tables: seq<seq<string>>, ms: seq<Move>) {
    && |tables| == |ms| + 1
    && (forall i, j :: 0 <= i < j < |ms| ==> ms[i].key != ms[j].key)
    && (forall i :: 0 <= i < |ms| ==> Played(tables, ms, i))
  }

  /** Move `i` was legal on the table before it, and made the table after it. */
  ghost predicate Played(tables: seq<seq<string>>, ms: seq<Move>, i: nat)
    requires i < |ms| && |tables| == |ms| + 1
  {
    Legal(tables[i], ms[i]) && tables[i + 1] == Write(tables[i], ms[i].target, ms[i].key)
  }

  /** No move by id lands on a bead that an earlier move filed under its own key. */
  ghost predicate NoTheft(ms: seq<Move>) {
    forall i, j :: 0 <= i < j < |ms| && !ms[i].byId && ms[j].byId ==> ms[i].target != ms[j].target
  }

  lemma {:induction false} TablesGrow(tables: seq<seq<string>>, ms: seq<Move>, i: nat, n: nat)
    requires Trace(tables, ms) && i <= n <= |ms|
    ensures |tables[i]| <= |tables[n]|
    ensures i < n ==> ms[i].target < |tables[n]|
    decreases n
  {
    if i < n {
      TablesGrow(tables, ms, i, n - 1);
      assert Played(tables, ms, n - 1);
    }
  }

  lemma {:induction false} KeepsItsKey(tables: seq<seq<string>>, ms: seq<Move>, i: nat, n: nat)
    requires Trace(tables, ms) && i < n <= |ms| && !ms[i].byId && NoTheft(ms[..n])
    ensures First(tables[n], ms[i].key) == ms[i].target
    decreases n
  {
    assert Played(tables, ms, n - 1);
    if i < n - 1 {
      assert forall j :: 0 <= j < n - 1 ==> ms[..n - 1][j] == ms[..n][j];
      KeepsItsKey(tables, ms, i, n - 1);
      TablesGrow(tables, ms, i, n - 1);
      var m := ms[n - 1];
      assert ms[..n][n - 1] == m && ms[..n][i] == ms[i];
      assert m.key != ms[i].key && m.target != ms[i].target;
    }
    FirstIs(tables[n], ms[i].key, ms[i].target);
  }

  /** What move `j` wrote on its bead is not the key of any other move, and stays so until that move comes. */
  lemma {:induction false} HoldsAnother(tables: seq<seq<string>>, ms: seq<Move>, j: nat, i: nat, n: nat)
    requires Trace(tables, ms) && j < n <= |ms| && i < |ms| && (n <= i || i < j)
    ensures ms[j].target < |tables[n]| && tables[n][ms[j].target] != ms[i].key
    decreases n
  {
    assert Played(tables, ms, n - 1);
    if j < n - 1 {
      HoldsAnother(tables, ms, j, i, n - 1);
    }
  }

  /** Without theft, a move by id and a move by key never share a bead. */
  lemma Apart(tables: seq<seq<string>>, ms: seq<Move>, i: nat, j: nat)
    requires Trace(tables, ms) && NoTheft(ms) && i < |ms| && j < |ms| && !ms[i].byId && ms[j].byId
    ensures ms[i].target != ms[j].target
  {
    assert Played(tables, ms, i) && Played(tables, ms, j);
    if j < i {
      HoldsAnother(tables, ms, j, i, i);
    }
  }

  /** A second pass, so far: the same keys, by the same routes, ids naming the same beads. */
  ghost predicate Again(ms: seq<Move>, ns: seq<Move>) {
    |ns| <= |ms| && forall i :: 0 <= i < |ns| ==>
      ns[i].key == ms[i].key && ns[i].byId == ms[i].byId && (ms[i].byId ==> ns[i].target == ms[i].target)
  }

  /** Every key of the plan leads to the bead it was filed as. */
  ghost predicate AllFound(table: seq<string>, ms: seq<Move>) {
    forall j :: 0 <= j < |ms| && !ms[j].byId ==> First(table, ms[j].key) == ms[j].target < |table|
  }

  lemma FirstPassEndsAllFound(tables: seq<seq<string>>, ms: seq<Move>)
    requires Trace(tables, ms) && NoTheft(ms)
    ensures AllFound(tables[|ms|], ms)
  {
    assert ms[..|ms|] == ms;
    forall j | 0 <= j < |ms| && !ms[j].byId
      ensures First(tables[|ms|], ms[j].key) == ms[j].target < |tables[|ms|]|
    {
      KeepsItsKey(tables, ms, j, |ms|);
      TablesGrow(tables, ms, j, |ms|);
    }
  }

  lemma RewritingKeepsAllFound(tables: seq<seq<string>>, ms: seq<Move>, table: seq<string>, i: nat)
    requires Trace(tables, ms) && NoTheft(ms) && i < |ms| && ms[i].target < |table|
    requires AllFound(table, ms)
    ensures AllFound(Write(table, ms[i].target, ms[i].key), ms)
  {
    var after := Write(table, ms[i].target, ms[i].key);
    forall j | 0 <= j < |ms| && !ms[j].byId
      ensures First(after, ms[j].key) == ms[j].target < |after|
    {
      if ms[i].byId {
        Apart(tables, ms, j, i);
        assert ms[j].key != ms[i].key;
        FirstIs(after, ms[j].key, ms[j].target);
      } else {
        assert after == table;
      }
    }
  }

  lemma {:induction false} SecondPassFindsTheSame(
    tables: seq<seq<string>>, ms: seq<Move>, again: seq<seq<string>>, ns: seq<Move>, i: nat)
    requires Trace(tables, ms) && NoTheft(ms) && Trace(again, ns) && again[0] == tables[|ms|]
    requires Again(ms, ns) && i <= |ns|
    ensures ns[..i] == ms[..i]
    ensures |again[i]| == |tables[|ms|]|
    ensures AllFound(again[i], ms)
    decreases i
  {
    if i == 0 {
      FirstPassEndsAllFound(tables, ms);
    } else {
      SecondPassFindsTheSame(tables, ms, again, ns, i - 1);
      TablesGrow(tables, ms, i - 1, |ms|);
      assert Played(again, ns, i - 1) && ns[i - 1] == ms[i - 1];
      RewritingKeepsAllFound(tables, ms, again[i - 1], i - 1);
      assert ns[..i] == ns[..i - 1] + [ns[i - 1]] && ms[..i] == ms[..i - 1] + [ms[i - 1]];
    }
  }

  /** A stolen bead is not found by the second pass. */
  lemma SecondPassMissesTheStolen(
    tables: seq<seq<string>>, ms: seq<Move>, again: seq<seq<string>>, ns: seq<Move>, i: nat, j: nat)
    requires Trace(tables, ms) && Trace(again, ns) && again[0] == tables[|ms|] && Again(ms, ns)
    requires i < j < |ms| && i < |ns| && !ms[i].byId && ms[j].byId && ms[i].target == ms[j].target
    ensures ns[i].target != ms[i].target
  {
    HoldsAnother(tables, ms, j, i, |ms|);
    StaysLost(again, ns, ms[i].target, i, i);
    assert Played(again, ns, i);
  }

  lemma {:induction false} StaysLost(tables: seq<seq<string>>, ms: seq<Move>, k: nat, i: nat, n: nat)
    requires Trace(tables, ms) && n <= i < |ms| && k < |tables[0]| && tables[0][k] != ms[i].key
    ensures k < |tables[n]| && tables[n][k] != ms[i].key
    decreases n
  {
    if n > 0 {
      StaysLost(tables, ms, k, i, n - 1);
      assert Played(tables, ms, n - 1);
      assert ms[n - 1].key != ms[i].key;
    }
  }

  /** Where a move would land on a table nobody has written on; past the end when nothing holds its key. */
  function Home(table: seq<string>, m: Move): nat {
    if m.byId then m.target else First(table, m.key)
  }

  /** Moves by id start on beads of the table, on different ones, and on none that a move by key would find. */
  ghost predicate Independent(table: seq<string>, ms: seq<Move>) {
    && (forall j :: 0 <= j < |ms| && ms[j].byId ==> ms[j].target < |table|)
    && (forall i, j :: 0 <= i < |ms| && 0 <= j < |ms| && i != j && ms[j].byId ==> Home(table, ms[i]) != ms[j].target)
  }

  /** Independent moves land at home whatever came before them, and each keyless one on a bead of its own. */
  lemma {:induction false} Undisturbed(tables: seq<seq<string>>, ms: seq<Move>, i: nat, n: nat)
    requires Trace(tables, ms) && Independent(tables[0], ms) && n <= i < |ms|
    ensures |tables[0]| <= |tables[n]|
    ensures var home := Home(tables[0], ms[i]);
            if home < |tables[0]| then ms[i].byId || First(tables[n], ms[i].key) == home
            else First(tables[n], ms[i].key) == |tables[n]|
    decreases n
  {
    if n > 0 {
      Undisturbed(tables, ms, i, n - 1);
      assert Played(tables, ms, n - 1);
      Undisturbed(tables, ms, n - 1, n - 1);
      var home, m := Home(tables[0], ms[i]), ms[n - 1];
      assert m.key != ms[i].key;
      if home < |tables[0]| && !ms[i].byId {
        assert m.byId ==> Home(tables[0], ms[i]) != m.target;
        assert tables[n - 1][home] == ms[i].key;
        FirstIs(tables[n], ms[i].key, home);
      }
    }
  }

  /** How many beads hold a key. */
  function Count(table: seq<string>, key: string): nat {
    if table == [] then 0 else (if table[0] == key then 1 else 0) + Count(table[1..], key)
  }

  lemma {:induction false} CountAfterWrite(table: seq<string>, k: nat, v: string, key: string)
    requires k <= |table|
    ensures Count(Write(table, k, v), key) ==
            Count(table, key) - (if k < |table| && table[k] == key then 1 else 0) + (if v == key then 1 else 0)
  {
    if table != [] {
      if k == 0 {
        assert Write(table, k, v)[1..] == table[1..];
      } else {
        CountAfterWrite(table[1..], k - 1, v, key);
        assert Write(table, k, v)[1..] == Write(table[1..], k - 1, v);
      }
    }
  }

  lemma {:induction false} NoHolderMeansNotFound(table: seq<string>, key: string)
    ensures Count(table, key) == 0 <==> First(table, key) == |table|
  {
    if table != [] {
      NoHolderMeansNotFound(table[1..], key);
      var k, l := First(table, key), First(table[1..], key);
      assert forall j :: 0 < j < |table| ==> table[j] == table[1..][j - 1];
    }
  }

  /** Filing by key gives a key its first holder, and never a second one. */
  lemma {:induction false} FilingByKeyAddsNoDuplicate(tables: seq<seq<string>>, ms: seq<Move>, i: nat, n: nat)
    requires Trace(tables, ms) && i < |ms| && n <= |ms| && !ms[i].byId
    ensures Count(tables[n], ms[i].key) <= if Count(tables[0], ms[i].key) == 0 then 1 else Count(tables[0], ms[i].key)
    decreases n
  {
    if n > 0 {
      FilingByKeyAddsNoDuplicate(tables, ms, i, n - 1);
      assert Played(tables, ms, n - 1);
      var m := ms[n - 1];
      CountAfterWrite(tables[n - 1], m.target, m.key, ms[i].key);
      NoHolderMeansNotFound(tables[n - 1], m.key);
      assert i != n - 1 ==> ms[i].key != m.key;
    }
  }
}
