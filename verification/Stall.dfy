/** The watcher that stops a run which has stopped producing (the loop of run in cmd/dispatcher/main.go). */
module Stall {

  // What progress() returns: the newest file, file count and agent log of the checkout, and the bytes of output.
  datatype Mark = Mark(files: string, bytes: nat)

  // One turn of the ticker: when progress was sampled, what it was, and the two later readings of the clock.
  datatype Tick = Tick(at: int, mark: Mark, moved: int, now: int)

  datatype Verdict = Ended | Stalled(k: nat)

  /** The mark kept after `k` ticks; `start` is the sample taken before the first. */
  function LastMark(start: Tick, ticks: seq<Tick>, k: nat): Mark
    requires k <= |ticks|
  {
    if k == 0 then start.mark else ticks[k - 1].mark
  }

  /** The time kept as that of the last movement, after `k` ticks. */
  function LastMoved(start: Tick, ticks: seq<Tick>, k: nat): int
    requires k <= |ticks|
  {
    if k == 0 then start.moved
    else if ticks[k - 1].mark != LastMark(start, ticks, k - 1) then ticks[k - 1].moved
    else LastMoved(start, ticks, k - 1)
  }

  predicate StallsAt(start: Tick, ticks: seq<Tick>, stall: int, k: nat)
    requires k < |ticks|
  {
    stall > 0 && ticks[k].now - LastMoved(start, ticks, k + 1) >= stall
  }

  /** Watches a run whose ticks, up to its own end, are `ticks`: it is stopped at the first that finds it stalled. */
  method Watch(start: Tick, ticks: seq<Tick>, stall: int) returns (v: Verdict)
    ensures v.Ended? <==> forall k :: 0 <= k < |ticks| ==> !StallsAt(start, ticks, stall, k)
    ensures v.Stalled? ==> v.k < |ticks| && StallsAt(start, ticks, stall, v.k)
    ensures v.Stalled? ==> forall k :: 0 <= k < v.k ==> !StallsAt(start, ticks, stall, k)
  {
    var lastFiles, lastBytes, lastMoved := start.mark.files, start.mark.bytes, start.moved;
    for k := 0 to |ticks|
      invariant Mark(lastFiles, lastBytes) == LastMark(start, ticks, k)
      invariant lastMoved == LastMoved(start, ticks, k)
      invariant forall j :: 0 <= j < k ==> !StallsAt(start, ticks, stall, j)
    {
      var tick := ticks[k];
      if tick.mark.files != lastFiles || tick.mark.bytes != lastBytes {
        lastFiles, lastBytes, lastMoved := tick.mark.files, tick.mark.bytes, tick.moved;
      }
      if stall > 0 && tick.now - lastMoved >= stall {
        assert StallsAt(start, ticks, stall, k);
        return Stalled(k);
      }
    }
    return Ended;
  }

  /* ---- soundness ---- */

  /** Sample `i`: the one before the first tick, or that of tick `i - 1`. */
  function Sample(start: Tick, ticks: seq<Tick>, i: nat): Tick
    requires i <= |ticks|
  {
    if i == 0 then start else ticks[i - 1]
  }

  /** The last movement was at some sample, and no sample since has differed from it. */
  lemma {:induction false} UnmovedSince(start: Tick, ticks: seq<Tick>, k: nat) returns (i: nat)
    requires k <= |ticks|
    ensures i <= k && LastMoved(start, ticks, k) == Sample(start, ticks, i).moved
    ensures forall j :: i <= j <= k ==> Sample(start, ticks, j).mark == LastMark(start, ticks, k)
    ensures i > 0 ==> Sample(start, ticks, i - 1).mark != Sample(start, ticks, i).mark
  {
    if k == 0 || ticks[k - 1].mark != LastMark(start, ticks, k - 1) {
      i := k;
    } else {
      i := UnmovedSince(start, ticks, k - 1);
    }
  }

  /** A run is stopped only after every sample over a span of at least `stall` has found the same mark. */
  lemma StoppedOnlyWhenStill(start: Tick, ticks: seq<Tick>, stall: int, k: nat) returns (i: nat)
    requires k < |ticks| && StallsAt(start, ticks, stall, k)
    ensures i <= k + 1 && ticks[k].now - Sample(start, ticks, i).moved >= stall > 0
    ensures forall j :: i <= j <= k + 1 ==> Sample(start, ticks, j).mark == ticks[k].mark
  {
    i := UnmovedSince(start, ticks, k + 1);
  }

  /* ---- bounded liveness ---- */

  /** Clock readings in order, and each tick done within `gap` of the sampling of the one before. */
  ghost predicate Paced(start: Tick, ticks: seq<Tick>, gap: int) {
    && start.at <= start.moved <= start.now
    && forall k :: 0 <= k < |ticks| ==> PacedAt(start, ticks, gap, k)
  }

  ghost predicate PacedAt(start: Tick, ticks: seq<Tick>, gap: int, k: nat)
    requires k < |ticks|
  {
    Sample(start, ticks, k).now <= ticks[k].at <= ticks[k].moved <= ticks[k].now <= Sample(start, ticks, k).at + gap
  }

  /** From `freeze` on, progress never changes again. */
  ghost predicate FrozenFrom(start: Tick, ticks: seq<Tick>, freeze: int, mark: Mark) {
    forall i :: 0 <= i <= |ticks| && Sample(start, ticks, i).at >= freeze ==> Sample(start, ticks, i).mark == mark
  }

  /** Once frozen, the time of the last movement stays within one gap of the freeze. */
  lemma {:induction false} MovedBy(start: Tick, ticks: seq<Tick>, gap: int, freeze: int, mark: Mark, k: nat)
    requires Paced(start, ticks, gap) && FrozenFrom(start, ticks, freeze, mark) && k <= |ticks|
    requires start.at < freeze && gap >= 0 && start.now <= start.at + gap
    ensures LastMoved(start, ticks, k) <= freeze + gap
    ensures LastMoved(start, ticks, k) <= Sample(start, ticks, k).now
  {
    if k > 0 {
      MovedBy(start, ticks, gap, freeze, mark, k - 1);
      assert PacedAt(start, ticks, gap, k - 1);
      assert k > 1 ==> PacedAt(start, ticks, gap, k - 2);
      assert Sample(start, ticks, k - 1).at >= freeze ==> Sample(start, ticks, k - 1).mark == mark;
      assert ticks[k - 1].at >= freeze ==> ticks[k - 1].mark == mark by {
        assert Sample(start, ticks, k) == ticks[k - 1];
      }
    }
  }

  /**
    A run that freezes is stopped by `stall` and two gaps later, unless it ends first: if some tick comes
    later than that, an earlier one has already stopped the run in time.
  */
  lemma {:induction false} FrozenIsStopped(
    start: Tick, ticks: seq<Tick>, gap: int, freeze: int, mark: Mark, stall: int, n: nat) returns (k: nat)
    requires Paced(start, ticks, gap) && FrozenFrom(start, ticks, freeze, mark)
    requires start.at < freeze && gap >= 0 && stall > 0 && start.now <= start.at + gap
    requires n < |ticks| && ticks[n].now >= freeze + gap + stall
    ensures k <= n && StallsAt(start, ticks, stall, k) && ticks[k].now <= freeze + stall + 2 * gap
  {
    MovedBy(start, ticks, gap, freeze, mark, n + 1);
    assert PacedAt(start, ticks, gap, n);
    if ticks[n].now <= freeze + stall + 2 * gap {
      k := n;
    } else {
      assert n > 0 ==> PacedAt(start, ticks, gap, n - 1);
      k := FrozenIsStopped(start, ticks, gap, freeze, mark, stall, n - 1);
    }
  }
}
