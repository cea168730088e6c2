/** Filing again after a crash, and filing the same entries in another order. */
module Recovery {
  import opened Text
  import opened Beads
  import opened Holders
  import opened Filing
  import opened FilingLaws

  /* ---- a filing cut short ---- */

  /** The first entries of a filing are a filing of their own. */
  lemma Cut(gs: seq<Graph>, os: seq<Order>, k: nat, tool: Tool)
    requires Trail(gs, os, tool) && k < |gs|
    ensures Trail(gs[..k + 1], os, tool) && Moves(gs[..k + 1], os) == Moves(gs, os)[..k]
  {
    var cut := gs[..k + 1];
    forall i | 0 <= i < k
      ensures Next(cut, os, i, tool)
    {
      assert Next(gs, os, i, tool);
    }
  }

  /** Where two filings of one plan meet, they stay together. */
  lemma {:induction false} StayTogether(gs: seq<Graph>, cs: seq<Graph>, os: seq<Order>, k: nat, n: nat, tool: Tool)
    requires Trail(gs, os, tool) && Trail(cs, os, tool) && k <= n < |gs| && n < |cs| && gs[k] == cs[k]
    ensures gs[n] == cs[n]
    decreases n
  {
    if k < n {
      StayTogether(gs, cs, os, k, n - 1, tool);
      assert Next(gs, os, n - 1, tool);
      assert Next(cs, os, n - 1, tool);
    }
  }

  ghost predicate PlainBefore(gs: seq<Graph>, os: seq<Order>, k: nat, tool: Tool)
    requires k < |gs| <= |os| + 1
  {
    forall i :: 0 <= i < k && Creates(gs, os, i) ==> Plain(os[i], tool)
  }

  lemma PrefixOfNoTheft(ms: seq<Move>, k: nat)
    requires NoTheft(ms) && k <= |ms|
    ensures NoTheft(ms[..k])
  {
  }

  /** What filing again leaves after the entries that had already landed. */
  lemma CaughtUpIff(gs: seq<Graph>, cs: seq<Graph>, os: seq<Order>, k: nat, tool: Tool)
    requires Trail(gs, os, tool) && Trail(cs, os, tool) && k < |gs| && k < |cs| && cs[0] == gs[k]
    requires KeysDistinct(os) && NoTheft(Moves(gs, os)[..k])
    ensures cs[k] == gs[k] <==> PlainBefore(gs, os, k, tool)
  {
    Cut(gs, os, k, tool);
    Cut(cs, os, k, tool);
    var ps, qs := gs[..k + 1], cs[..k + 1];
    SettledAtOnceIff(ps, qs, os, tool);
    assert forall i :: 0 <= i < k ==> (Creates(ps, os, i) <==> Creates(gs, os, i));
  }

  /** Two filings that meet after `k` entries end alike. */
  lemma RecoveredIfPlain(gs: seq<Graph>, cs: seq<Graph>, os: seq<Order>, k: nat, tool: Tool)
    requires Trail(gs, os, tool) && Trail(cs, os, tool) && k < |gs| == |cs| && cs[0] == gs[k]
    requires KeysDistinct(os) && NoTheft(Moves(gs, os)[..k]) && PlainBefore(gs, os, k, tool)
    ensures Last(cs) == Last(gs) && Moves(cs, os) == Moves(gs, os)
  {
    CaughtUpIff(gs, cs, os, k, tool);
    forall n | k <= n < |gs|
      ensures gs[n] == cs[n]
    {
      StayTogether(gs, cs, os, k, n, tool);
    }
    Cut(gs, os, k, tool);
    Cut(cs, os, k, tool);
    SecondFilingIsThatOne(gs[..k + 1], cs[..k + 1], os, tool);
    forall i | 0 <= i < |gs| - 1
      ensures Moves(cs, os)[i] == Moves(gs, os)[i]
    {
      if i < k {
        assert Moves(cs, os)[..k][i] == Moves(gs, os)[..k][i];
      }
    }
  }

  /** Two graphs that differ at most in what their beads say. */
  ghost predicate Alike(a: Graph, b: Graph) {
    && |a.beads| == |b.beads| && a.minted == b.minted
    && forall k :: 0 <= k < |a.beads| ==> a.beads[k].id == b.beads[k].id && a.beads[k].externalRef == b.beads[k].externalRef
  }

  lemma AlikeTargets(a: Graph, b: Graph, o: Order)
    requires Alike(a, b)
    ensures Target(a.beads, o) == Target(b.beads, o)
  {
    FindRefReadsTheTable(a.beads, o.issue.externalRef);
    FindRefReadsTheTable(b.beads, o.issue.externalRef);
    assert Table(a.beads) == Table(b.beads);
    var id := o.id;
    var k, l := FindId(a.beads, id), FindId(b.beads, id);
    assert k < |a.beads| ==> b.beads[k].id == id;
    assert l < |b.beads| ==> a.beads[l].id == id;
  }

  lemma AlikeSteps(a: Graph, b: Graph, o: Order, tool: Tool)
    requires Alike(a, b) && Step(a, o, tool).Some? && Step(b, o, tool).Some?
    ensures Alike(Step(a, o, tool).value, Step(b, o, tool).value)
  {
    AlikeTargets(a, b, o);
  }

  /** A difference in a bead that no later entry touches stays to the end. */
  lemma {:induction false} DifferenceStays(gs: seq<Graph>, cs: seq<Graph>, os: seq<Order>, i: nat, k: nat, n: nat, tool: Tool)
    requires Trail(gs, os, tool) && Trail(cs, os, tool) && i < k <= n < |gs| && n < |cs|
    requires Creates(gs, os, i) && NotRevisited(gs, os, i, n)
    requires Alike(gs[k], cs[k]) && |gs[i].beads| < |gs[k].beads|
    requires gs[k].beads[|gs[i].beads|] != cs[k].beads[|gs[i].beads|]
    ensures Alike(gs[n], cs[n]) && |gs[i].beads| < |gs[n].beads|
    ensures gs[n].beads[|gs[i].beads|] != cs[n].beads[|gs[i].beads|]
    decreases n
  {
    if k < n {
      DifferenceStays(gs, cs, os, i, k, n - 1, tool);
      assert Next(gs, os, n - 1, tool) && Next(cs, os, n - 1, tool);
      DifferenceStep(gs[n - 1], cs[n - 1], os[n - 1], |gs[i].beads|, tool);
    }
  }

  lemma DifferenceStep(a: Graph, b: Graph, o: Order, k: nat, tool: Tool)
    requires Alike(a, b) && Step(a, o, tool).Some? && Step(b, o, tool).Some?
    requires k < |a.beads| && a.beads[k] != b.beads[k] && Target(a.beads, o) != k
    ensures var c, d := Step(a, o, tool).value, Step(b, o, tool).value;
            Alike(c, d) && k < |c.beads| && c.beads[k] != d.beads[k]
  {
    AlikeTargets(a, b, o);
    AlikeSteps(a, b, o, tool);
    StepOnBead(a, o, tool, k);
    StepOnBead(b, o, tool, k);
  }

  lemma RecoveredIff(gs: seq<Graph>, cs: seq<Graph>, os: seq<Order>, k: nat, tool: Tool)
    requires Trail(gs, os, tool) && Trail(cs, os, tool) && k < |gs| == |cs| && cs[0] == gs[k]
    requires KeysDistinct(os) && NoTheft(Moves(gs, os))
    ensures Last(cs) == Last(gs) <==> PlainBefore(gs, os, k, tool)
  {
    PrefixOfNoTheft(Moves(gs, os), k);
    if PlainBefore(gs, os, k, tool) {
      RecoveredIfPlain(gs, cs, os, k, tool);
    } else {
      var i :| 0 <= i < k && Creates(gs, os, i) && !Plain(os[i], tool);
      DiffersWhenCaughtUp(gs, cs, os, i, k, tool);
      assert Next(gs, os, i, tool);
      NothingRevisited(gs, os, i, |gs| - 1, tool);
      DifferenceStays(gs, cs, os, i, k, |gs| - 1, tool);
    }
  }

  lemma DiffersWhenCaughtUp(gs: seq<Graph>, cs: seq<Graph>, os: seq<Order>, i: nat, k: nat, tool: Tool)
    requires Trail(gs, os, tool) && Trail(cs, os, tool) && i < k < |gs| && k < |cs| && cs[0] == gs[k]
    requires KeysDistinct(os) && NoTheft(Moves(gs, os)[..k]) && Creates(gs, os, i) && !Plain(os[i], tool)
    ensures Alike(gs[k], cs[k]) && |gs[i].beads| < |gs[k].beads|
    ensures gs[k].beads[|gs[i].beads|] != cs[k].beads[|gs[i].beads|]
  {
    Cut(gs, os, k, tool);
    Cut(cs, os, k, tool);
    var ps, qs := gs[..k + 1], cs[..k + 1];
    assert Creates(ps, os, i) && ps[i] == gs[i];
    NewBeadSettlesIff(ps, qs, os, i, tool);
    SizesAgree(ps, qs, os, tool);
    forall x | 0 <= x < |gs[k].beads|
      ensures gs[k].beads[x].id == cs[k].beads[x].id && gs[k].beads[x].externalRef == cs[k].beads[x].externalRef
    {
      SameFace(ps, qs, os, x, tool);
    }
  }

  /** A second filing never changes which bead is whose. */
  lemma SameFace(gs: seq<Graph>, hs: seq<Graph>, os: seq<Order>, k: nat, tool: Tool)
    requires Trail(gs, os, tool) && Trail(hs, os, tool) && hs[0] == Last(gs) && |hs| == |gs|
    requires KeysDistinct(os) && NoTheft(Moves(gs, os)) && k < |Last(gs).beads|
    ensures |Last(hs).beads| == |Last(gs).beads|
    ensures Last(hs).beads[k].id == Last(gs).beads[k].id
    ensures Last(hs).beads[k].externalRef == Last(gs).beads[k].externalRef
  {
    var n := |gs| - 1;
    IdsStay(hs, os, 0, n, tool);
    SecondFilingRevises(gs, hs, os, k, tool);
    if k < |gs[0].beads| {
      OldBeadSettles(gs, hs, os, k, tool);
    } else {
      var i := Creator(gs, os, n, k, tool);
      NewBead(gs, os, i, n, tool);
      FreshFace(tool.mint(gs[i].minted), os[i].issue, tool);
    }
  }

  lemma FreshFace(id: string, i: Issue, tool: Tool)
    ensures Revise(Blueprint(id, i), i, tool).externalRef == Blueprint(id, i).externalRef
  {
  }

  /* ---- the filing after the crash ---- */

  /** A filing taken as far as it goes: to its end, or to an entry that is refused. */
  ghost predicate Farthest(cs: seq<Graph>, os: seq<Order>, tool: Tool) {
    Trail(cs, os, tool) && (|cs| == |os| + 1 || Step(Last(cs), os[|cs| - 1], tool) == None)
  }

  /** From entry `k` on, the two differ at most in what their beads say. */
  lemma {:induction false} AlikeFromThere(gs: seq<Graph>, cs: seq<Graph>, os: seq<Order>, k: nat, n: nat, tool: Tool)
    requires Trail(gs, os, tool) && Trail(cs, os, tool) && k <= n < |gs| && n < |cs| && cs[0] == gs[k]
    requires KeysDistinct(os) && NoTheft(Moves(gs, os)[..k])
    ensures Alike(gs[n], cs[n])
    decreases n
  {
    if n == k {
      AlikeThere(gs, cs, os, k, tool);
    } else {
      AlikeFromThere(gs, cs, os, k, n - 1, tool);
      assert Next(gs, os, n - 1, tool) && Next(cs, os, n - 1, tool);
      AlikeSteps(gs[n - 1], cs[n - 1], os[n - 1], tool);
    }
  }

  lemma AlikeThere(gs: seq<Graph>, cs: seq<Graph>, os: seq<Order>, k: nat, tool: Tool)
    requires Trail(gs, os, tool) && Trail(cs, os, tool) && k < |gs| && k < |cs| && cs[0] == gs[k]
    requires KeysDistinct(os) && NoTheft(Moves(gs, os)[..k])
    ensures Alike(gs[k], cs[k])
  {
    Cut(gs, os, k, tool);
    Cut(cs, os, k, tool);
    var ps, qs := gs[..k + 1], cs[..k + 1];
    SizesAgree(ps, qs, os, tool);
    forall x | 0 <= x < |gs[k].beads|
      ensures gs[k].beads[x].id == cs[k].beads[x].id && gs[k].beads[x].externalRef == cs[k].beads[x].externalRef
    {
      SameFace(ps, qs, os, x, tool);
    }
  }

  /** An entry that was filed is filed again, and lands where it did. */
  lemma FiledAgain(gs: seq<Graph>, cs: seq<Graph>, os: seq<Order>, k: nat, i: nat, tool: Tool)
    requires Trail(gs, os, tool) && Trail(cs, os, tool) && k < |gs| && cs[0] == gs[k]
    requires KeysDistinct(os) && NoTheft(Moves(gs, os)[..k]) && i < |gs| - 1 && i < |cs|
    ensures Step(cs[i], os[i], tool).Some? && Target(cs[i].beads, os[i]) == Moves(gs, os)[i].target
  {
    if i < k {
      FiledAgainEarly(gs, cs, os, k, i, tool);
    } else {
      AlikeFromThere(gs, cs, os, k, i, tool);
      AlikeTargets(gs[i], cs[i], os[i]);
      assert Next(gs, os, i, tool);
    }
  }

  lemma FiledAgainEarly(gs: seq<Graph>, cs: seq<Graph>, os: seq<Order>, k: nat, i: nat, tool: Tool)
    requires Trail(gs, os, tool) && Trail(cs, os, tool) && k < |gs| && cs[0] == gs[k]
    requires KeysDistinct(os) && NoTheft(Moves(gs, os)[..k]) && i < k && i < |cs|
    ensures Step(cs[i], os[i], tool).Some? && Target(cs[i].beads, os[i]) == Moves(gs, os)[i].target
  {
    Cut(gs, os, k, tool);
    var hs := SecondFiling(gs[..k + 1], os, i + 1, tool);
    TrailsAgree(cs, hs, os, i, tool);
    assert Next(hs, os, i, tool);
    assert Moves(hs, os)[i] == Moves(gs, os)[..k][..i + 1][i];
  }

  /** Filed again, a plan gets through wherever its first filing died, and lands every entry where that would have. */
  lemma GetsThroughAfterACrash(gs: seq<Graph>, cs: seq<Graph>, os: seq<Order>, k: nat, tool: Tool)
    requires Trail(gs, os, tool) && |gs| == |os| + 1 && Farthest(cs, os, tool) && k < |gs| && cs[0] == gs[k]
    requires KeysDistinct(os) && NoTheft(Moves(gs, os)[..k])
    ensures |cs| == |gs| && Moves(cs, os) == Moves(gs, os) && SameIds(Last(gs).beads, Last(cs).beads)
  {
    if |cs| < |gs| {
      FiledAgain(gs, cs, os, k, |cs| - 1, tool);
    }
    forall i | 0 <= i < |gs| - 1
      ensures Moves(cs, os)[i] == Moves(gs, os)[i]
    {
      FiledAgain(gs, cs, os, k, i, tool);
    }
    AlikeFromThere(gs, cs, os, k, |gs| - 1, tool);
  }

  /**
    A filing that died after `k` entries, an answered or an unanswered create among them, is made whole by
    filing the whole plan again, if what it had created was plain.
  */
  lemma RefilingRecovers(gs: seq<Graph>, cs: seq<Graph>, os: seq<Order>, k: nat, tool: Tool)
    requires Trail(gs, os, tool) && |gs| == |os| + 1 && Farthest(cs, os, tool) && k < |gs| && cs[0] == gs[k]
    requires KeysDistinct(os) && NoTheft(Moves(gs, os)[..k]) && PlainBefore(gs, os, k, tool)
    ensures |cs| == |gs| && Last(cs) == Last(gs) && Moves(cs, os) == Moves(gs, os)
  {
    GetsThroughAfterACrash(gs, cs, os, k, tool);
    RecoveredIfPlain(gs, cs, os, k, tool);
  }

  /** Filing again from where a filing died gets through, and gives the uninterrupted graph exactly when what was created was plain. */
  lemma RefilingRecoversIff(gs: seq<Graph>, cs: seq<Graph>, os: seq<Order>, k: nat, tool: Tool)
    requires Trail(gs, os, tool) && |gs| == |os| + 1 && Farthest(cs, os, tool) && k < |gs| && cs[0] == gs[k]
    requires KeysDistinct(os) && NoTheft(Moves(gs, os))
    ensures |cs| == |gs| && Moves(cs, os) == Moves(gs, os)
    ensures Last(cs) == Last(gs) <==> PlainBefore(gs, os, k, tool)
  {
    PrefixOfNoTheft(Moves(gs, os), k);
    GetsThroughAfterACrash(gs, cs, os, k, tool);
    RecoveredIff(gs, cs, os, k, tool);
  }
}
