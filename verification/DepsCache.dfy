/** The rig's cached dependency tree and the swap that refreshes it (cmd/dispatcher/deps.go). */
module DepsCache {

  // What a path holds: nothing, exactly the tree some worktree held, or anything else: part of a tree, or two
  // trees in one.
  datatype Dir<T> = Absent | Tree(tree: T) | Mixed

  // How a call to the file system ends.  What a call that fails, or dies with its process, leaves behind is
  // its own affair; only a rename is all or nothing.
  datatype Fate<T> = Works | Fails(left: Dir<T>) | Dies(left: Dir<T>)

  // <dst>, <dst>.incoming and <dst>.old.
  datatype Disk<T> = Disk(cache: Dir<T>, incoming: Dir<T>, rotated: Dir<T>)

  // The fates of the calls of one save, in the order they are made; `drop` is the clean-up after a failure.
  datatype Luck<T> = Luck(sweep: Fate<T>, mkdir: Fate<T>, copy: Fate<T>, sweepRotated: Fate<T>, blind: bool,
                          rotate: Fate<T>, install: Fate<T>, tidy: Fate<T>, drop: Fate<T>)

  predicate AllWorks<T>(l: Luck<T>) {
    l.sweep.Works? && l.mkdir.Works? && l.copy.Works? && l.sweepRotated.Works? && !l.blind
    && l.rotate.Works? && l.install.Works? && l.tidy.Works?
  }

  /** os.RemoveAll: it may stop part of the way, and never makes anything new. */
  function Removed<T(==)>(d: Dir<T>, f: Fate<T>): Dir<T> {
    if d.Absent? || f.Works? || f.left.Absent? then Absent else if f.left == d then d else Mixed
  }

  /** cp -al: onto an existing directory it copies into it instead. */
  function Copied<T(==)>(d: Dir<T>, src: Dir<T>, f: Fate<T>): Dir<T> {
    if f.Works? then if d.Absent? then src else Mixed
    else if f.left == d || (d.Absent? && f.left == src) then f.left
    else Mixed
  }

  /** os.Rename: it refuses a target that exists. */
  predicate Moves<T>(from: Dir<T>, to: Dir<T>, f: Fate<T>) {
    !from.Absent? && to.Absent? && (f.Works? || (f.Dies? && f.left.Absent?))
  }

  /** The copy does not meet remains of an earlier one, or does not claim to have worked. */
  predicate Swept<T(==)>(d: Disk<T>, l: Luck<T>) {
    Removed(d.incoming, l.sweep).Absent? || !l.copy.Works?
  }

  /** At all these moments the cache is one of these. */
  ghost predicate CacheStaysIn<T>(seen: seq<Disk<T>>, caches: set<Dir<T>>) {
    forall d <- seen :: d.cache in caches
  }

  /** At all these moments this tree is in the cache or set aside, or a new one has taken its place. */
  ghost predicate KeptUntilReplaced<T>(seen: seq<Disk<T>>, tree: Dir<T>, new_: set<Dir<T>>) {
    forall d <- seen :: d.cache == tree || d.rotated == tree || d.cache in new_
  }

  /* ---- what a save does to the disk, step by step ---- */

  function Dropped<T(==)>(d: Disk<T>, l: Luck<T>): Disk<T> {
    d.(incoming := Removed(d.incoming, l.drop))
  }

  /** From a cache that is out of the way to an installed one. */
  function Installing<T(==)>(d: Disk<T>, l: Luck<T>): seq<Disk<T>> {
    if Moves(d.incoming, d.cache, l.install) then
      var installed := Disk(d.incoming, Absent, d.rotated);
      if l.install.Dies? then [installed] else [installed, installed.(rotated := Removed(d.rotated, l.tidy))]
    else if l.install.Dies? then [] else [Dropped(d, l)]
  }

  function Swapping<T(==)>(d: Disk<T>, l: Luck<T>): seq<Disk<T>> {
    var swept := d.(rotated := Removed(d.rotated, l.sweepRotated));
    [swept] +
    if l.sweepRotated.Dies? then []
    else if d.cache.Absent? || l.blind then Installing(swept, l)
    else if Moves(d.cache, swept.rotated, l.rotate) then
      var rotated := Disk(Absent, d.incoming, d.cache);
      [rotated] + if l.rotate.Dies? then [] else Installing(rotated, l)
    else if l.rotate.Dies? then [] else [Dropped(swept, l)]
  }

  /** What the disk is, one state after another, from the first call of a save to where it ends or dies. */
  function Saving<T(==)>(d: Disk<T>, src: Dir<T>, l: Luck<T>): seq<Disk<T>> {
    if src.Absent? then []
    else
      var swept := d.(incoming := Removed(d.incoming, l.sweep));
      var staged := swept.(incoming := Copied(swept.incoming, src, l.copy));
      [swept] +
      if l.sweep.Dies? || !l.mkdir.Works? then []
      else [staged] + if l.copy.Works? then Swapping(staged, l) else if l.copy.Fails? then [Dropped(staged, l)] else []
  }

  function End<T>(d: Disk<T>, states: seq<Disk<T>>): Disk<T> {
    if states == [] then d else states[|states| - 1]
  }

  // What one save makes the disk go through.
  type Saver<!T> = (Disk<T>, Dir<T>, Luck<T>) -> seq<Disk<T>>

  /** What the disk is when save `n` of many begins, and what it has been before. */
  function DiskAt<T>(save: Saver<T>, d: Disk<T>, srcs: seq<Dir<T>>, lucks: seq<Luck<T>>, n: nat): Disk<T>
    requires n <= |srcs| == |lucks|
  {
    if n == 0 then d
    else var before := DiskAt(save, d, srcs, lucks, n - 1); End(before, save(before, srcs[n - 1], lucks[n - 1]))
  }

  function SeenIn<T>(save: Saver<T>, d: Disk<T>, srcs: seq<Dir<T>>, lucks: seq<Luck<T>>, n: nat): seq<Disk<T>>
    requires n <= |srcs| == |lucks|
  {
    if n == 0 then []
    else SeenIn(save, d, srcs, lucks, n - 1) + save(DiskAt(save, d, srcs, lucks, n - 1), srcs[n - 1], lucks[n - 1])
  }

  /** None of the first `n` copies onto what an earlier one left. */
  predicate AllSwept<T(==)>(save: Saver<T>, d: Disk<T>, srcs: seq<Dir<T>>, lucks: seq<Luck<T>>, n: nat)
    requires n <= |srcs| == |lucks|
  {
    n == 0 || (AllSwept(save, d, srcs, lucks, n - 1) && Swept(DiskAt(save, d, srcs, lucks, n - 1), lucks[n - 1]))
  }

  lemma InstallingKeeps<T>(d: Disk<T>, l: Luck<T>, tree: Dir<T>)
    requires d.cache == tree || (d.cache.Absent? && d.rotated == tree)
    ensures CacheStaysIn(Installing(d, l), {d.cache, d.incoming}) && KeptUntilReplaced(Installing(d, l), tree, {d.incoming})
  {
  }

  /**
    The two renames show the cache as it was, not at all, or as it was staged; and keep the old one until the new one is
    in place.
  */
  lemma SwappingKeeps<T>(d: Disk<T>, l: Luck<T>)
    ensures CacheStaysIn(Swapping(d, l), {Absent, d.cache, d.incoming})
    ensures KeptUntilReplaced(Swapping(d, l), d.cache, {d.incoming})
  {
    var swept := d.(rotated := Removed(d.rotated, l.sweepRotated));
    InstallingKeeps(swept, l, d.cache);
    InstallingKeeps(Disk(Absent, d.incoming, d.cache), l, d.cache);
  }

  /** What a look at the disk finds while a save is on its way. */
  lemma SavingKeeps<T>(d: Disk<T>, src: Dir<T>, l: Luck<T>)
    ensures Swept(d, l) ==> CacheStaysIn(Saving(d, src, l), {Absent, d.cache, src})
    ensures KeptUntilReplaced(Saving(d, src, l), d.cache, {src, Mixed})
  {
    if !src.Absent? {
      SwappingKeeps(Disk(d.cache, Copied(Removed(d.incoming, l.sweep), src, l.copy), d.rotated), l);
    }
  }

  /** What a swap comes to, where nothing fails. */
  lemma SwapsWhole<T>(d: Disk<T>, l: Luck<T>)
    requires !d.incoming.Absent?
    requires l.sweepRotated.Works? && !l.blind && l.rotate.Works? && l.install.Works? && l.tidy.Works?
    ensures End(d, Swapping(d, l)) == Disk(d.incoming, Absent, Absent)
  {
  }

  /** A save that works leaves its own tree and nothing else, whatever it met. */
  lemma SavesWhole<T>(d: Disk<T>, src: Dir<T>, l: Luck<T>)
    requires AllWorks(l) && !src.Absent?
    ensures End(d, Saving(d, src, l)) == Disk(src, Absent, Absent)
  {
    SwapsWhole(Disk(d.cache, src, d.rotated), l);
  }

  /** A save that fails, and does not die, with a clean-up that works, leaves nothing staged. */
  lemma FailedSaveCleansUp<T>(d: Disk<T>, src: Dir<T>, l: Luck<T>)
    requires !src.Absent? && !l.sweep.Dies? && l.mkdir.Works? && l.drop.Works?
    requires l.copy.Fails? || (l.copy.Works? && !l.sweepRotated.Dies? && !l.rotate.Dies? && !l.install.Dies?)
    ensures End(d, Saving(d, src, l)).incoming.Absent?
  {
  }

  /** A save that cannot see the cache does not put it aside, and so cannot take its place. */
  lemma UnseenCacheStays<T>(d: Disk<T>, src: Dir<T>, l: Luck<T>)
    requires l.blind && !d.cache.Absent?
    ensures End(d, Saving(d, src, l)).cache == d.cache
    ensures forall x <- Saving(d, src, l) :: x.cache == d.cache
  {
  }

  lemma StaysAtTheEnd<T>(d: Disk<T>, states: seq<Disk<T>>, caches: set<Dir<T>>)
    requires CacheStaysIn(states, caches) && d.cache in caches
    ensures End(d, states).cache in caches
  {
  }

  lemma BothStayIn<T>(seen: seq<Disk<T>>, more: seq<Disk<T>>, caches: set<Dir<T>>)
    requires CacheStaysIn(seen, caches) && CacheStaysIn(more, caches)
    ensures CacheStaysIn(seen + more, caches)
  {
  }

  lemma OneSaveKeeps<T>(d: Disk<T>, src: Dir<T>, l: Luck<T>, caches: set<Dir<T>>)
    requires Swept(d, l) && {Absent, d.cache, src} <= caches
    ensures CacheStaysIn(Saving(d, src, l), caches) && End(d, Saving(d, src, l)).cache in caches
  {
    SavingKeeps(d, src, l);
    StaysAtTheEnd(d, Saving(d, src, l), caches);
  }

  /** Unless it copies onto what another left, `save` shows no cache but these, and leaves none. */
  ghost predicate KeepsTo<T(!new)>(save: Saver<T>, caches: set<Dir<T>>) {
    forall d, src, l :: Swept(d, l) && {Absent, d.cache, src} <= caches ==>
      CacheStaysIn(save(d, src, l), caches) && End(d, save(d, src, l)).cache in caches
  }

  /** Then so do any number of them. */
  lemma {:induction false} SavesKeep<T(!new)>(
    save: Saver<T>, d: Disk<T>, srcs: seq<Dir<T>>, lucks: seq<Luck<T>>, n: nat, caches: set<Dir<T>>)
    requires KeepsTo(save, caches) && n <= |srcs| == |lucks| && AllSwept(save, d, srcs, lucks, n)
    requires {Absent, d.cache} <= caches && forall i :: 0 <= i < |srcs| ==> srcs[i] in caches
    ensures CacheStaysIn(SeenIn(save, d, srcs, lucks, n), caches) && DiskAt(save, d, srcs, lucks, n).cache in caches
  {
    if n > 0 {
      SavesKeep(save, d, srcs, lucks, n - 1, caches);
      var before := DiskAt(save, d, srcs, lucks, n - 1);
      BothStayIn(SeenIn(save, d, srcs, lucks, n - 1), save(before, srcs[n - 1], lucks[n - 1]), caches);
    }
  }

  /** Any number of saves show no cache, the first one, or exactly one worktree's tree. */
  lemma ManySaves<T(!new)>(d: Disk<T>, srcs: seq<Dir<T>>, lucks: seq<Luck<T>>)
    requires |srcs| == |lucks| && AllSwept(Saving, d, srcs, lucks, |srcs|)
    ensures CacheStaysIn(SeenIn(Saving, d, srcs, lucks, |srcs|), {Absent, d.cache} + set src | src in srcs)
  {
    var caches := {Absent, d.cache} + set src | src in srcs;
    forall x, src, l | Swept(x, l) && {Absent, x.cache, src} <= caches
      ensures CacheStaysIn(Saving(x, src, l), caches) && End(x, Saving(x, src, l)).cache in caches
    {
      OneSaveKeeps(x, src, l, caches);
    }
    SavesKeep(Saving, d, srcs, lucks, |srcs|, caches);
  }

  lemma LastSave<T>(d: Disk<T>, srcs: seq<Dir<T>>, lucks: seq<Luck<T>>)
    requires 0 < |srcs| == |lucks| && AllWorks(lucks[|srcs| - 1]) && !srcs[|srcs| - 1].Absent?
    ensures DiskAt(Saving, d, srcs, lucks, |srcs|) == Disk(srcs[|srcs| - 1], Absent, Absent)
  {
    SavesWhole(DiskAt(Saving, d, srcs, lucks, |srcs| - 1), srcs[|srcs| - 1], lucks[|srcs| - 1]);
  }

  lemma Joined<X>(a: seq<X>, b: seq<X>, c: seq<X>)
    ensures (a + b) + c == a + (b + c)
  {
  }

  /** A save taken apart: its first two states, and the swap. */
  lemma SavingInParts<T>(seen: seq<Disk<T>>, d: Disk<T>, src: Dir<T>, l: Luck<T>)
    requires !src.Absent? && !l.sweep.Dies? && l.mkdir.Works? && l.copy.Works?
    ensures var swept := d.(incoming := Removed(d.incoming, l.sweep));
            var staged := swept.(incoming := Copied(swept.incoming, src, l.copy));
            && seen + Saving(d, src, l) == seen + [swept] + [staged] + Swapping(staged, l)
            && End(d, Saving(d, src, l)) == End(staged, Swapping(staged, l))
  {
  }

  class Rig<T(==,!new)> {
    var disk: Disk<T>
    ghost var seen: seq<Disk<T>>  // what anyone looking at the disk could have found, so far

    constructor (disk: Disk<T>)
      ensures this.disk == disk && seen == [disk]
    {
      this.disk, seen := disk, [disk];
    }

    method Put(d: Disk<T>)
      modifies this
      ensures disk == d && seen == old(seen) + [d]
    {
      disk, seen := d, seen + [d];
    }

    /** saveDependencies, for one directory of the worktree. */
    method Save(src: Dir<T>, l: Luck<T>) returns (died: bool, installed: bool)
      modifies this
      ensures seen == old(seen) + Saving(old(disk), src, l) && disk == End(old(disk), Saving(old(disk), src, l))
      ensures Swept(old(disk), l) ==> CacheStaysIn(Saving(old(disk), src, l), {Absent, old(disk).cache, src})
      ensures KeptUntilReplaced(Saving(old(disk), src, l), old(disk).cache, {src, Mixed})
      ensures !installed && !died ==>
                disk.cache == old(disk).cache || (disk.cache.Absent? && disk.rotated == old(disk).cache)
      ensures installed ==> !died && disk.cache == if Swept(old(disk), l) then src else Mixed
      ensures AllWorks(l) && !src.Absent? ==> installed && disk == Disk(src, Absent, Absent)
      ensures AllWorks(l.(sweep := Works)) && !l.sweep.Dies? && !src.Absent? ==>
                installed && (disk.cache == Mixed <==> src == Mixed || !Swept(old(disk), l))
      ensures src.Absent? ==> disk == old(disk)
    {
      SavingKeeps(disk, src, l);
      died, installed := false, false;
      if src.Absent? {
        return;
      }
      Put(disk.(incoming := Removed(disk.incoming, l.sweep)));
      if l.sweep.Dies? || l.mkdir.Dies? {
        return true, false;
      }
      if l.mkdir.Fails? {
        return;
      }
      died := Stage(src, l);
      if died || l.copy.Fails? {
        return;
      }
      SavingInParts(old(seen), old(disk), src, l);
      died, installed := Swap(l);
    }

    method Stage(src: Dir<T>, l: Luck<T>) returns (died: bool)
      modifies this
      ensures var staged := old(disk).(incoming := Copied(old(disk).incoming, src, l.copy));
              var after := if l.copy.Fails? then Dropped(staged, l) else staged;
              seen == old(seen) + (if l.copy.Fails? then [staged, after] else [staged]) && disk == after
      ensures if l.copy.Works? then !died else l.copy.Dies? ==> died
    {
      Put(disk.(incoming := Copied(disk.incoming, src, l.copy)));
      if l.copy.Fails? {
        died := Drop(l);
      } else {
        died := l.copy.Dies?;
      }
    }

    method Drop(l: Luck<T>) returns (died: bool)
      modifies this
      ensures disk == Dropped(old(disk), l) && seen == old(seen) + [disk]
    {
      Put(disk.(incoming := Removed(disk.incoming, l.drop)));
      died := l.drop.Dies?;
    }

    /** From a staged copy to an installed one, by two renames. */
    method Swap(l: Luck<T>) returns (died: bool, installed: bool)
      requires !disk.incoming.Absent?
      modifies this
      ensures seen == old(seen) + Swapping(old(disk), l) && disk == End(old(disk), Swapping(old(disk), l))
      ensures CacheStaysIn(Swapping(old(disk), l), {Absent, old(disk).cache, old(disk).incoming})
      ensures KeptUntilReplaced(Swapping(old(disk), l), old(disk).cache, {old(disk).incoming})
      ensures installed ==> !died && disk.cache == old(disk).incoming
      ensures !installed && !died ==>
                disk.cache == old(disk).cache || (disk.cache.Absent? && disk.rotated == old(disk).cache)
      ensures l.sweepRotated.Works? && !l.blind && l.rotate.Works? && l.install.Works? && l.tidy.Works? ==>
                installed && disk == Disk(old(disk).incoming, Absent, Absent)
    {
      SwappingKeeps(disk, l);
      died, installed := false, false;
      Put(disk.(rotated := Removed(disk.rotated, l.sweepRotated)));
      if l.sweepRotated.Dies? {
        return true, false;
      }
      if !disk.cache.Absent? && !l.blind {
        var moved := Moves(disk.cache, disk.rotated, l.rotate);
        if moved {
          Put(Disk(Absent, disk.incoming, disk.cache));
        }
        if l.rotate.Dies? {
          return true, false;
        }
        if !moved {
          died := Drop(l);
          return;
        }
      }
      died, installed := Install(l);
    }

    method Install(l: Luck<T>) returns (died: bool, installed: bool)
      requires !disk.incoming.Absent?
      modifies this
      ensures seen == old(seen) + Installing(old(disk), l) && disk == End(old(disk), Installing(old(disk), l))
      ensures installed ==> !died && disk.cache == old(disk).incoming
      ensures !installed && !died ==> disk.cache == old(disk).cache && disk.rotated == old(disk).rotated
      ensures old(disk).cache.Absent? && l.install.Works? && l.tidy.Works? ==> installed
    {
      died, installed := false, false;
      var moved := Moves(disk.incoming, disk.cache, l.install);
      if moved {
        Put(Disk(disk.incoming, Absent, disk.rotated));
      }
      if l.install.Dies? {
        return true, false;
      }
      if !moved {
        died := Drop(l);
        return;
      }
      Put(disk.(rotated := Removed(disk.rotated, l.tidy)));
      return l.tidy.Dies?, !l.tidy.Dies?;
    }

    /** warmDependencies, for one directory: a copy that fails is left where it stopped. */
    method Warm(worktree: Dir<T>, f: Fate<T>) returns (w: Dir<T>)
      ensures w == if disk.cache.Absent? || !worktree.Absent? then worktree else Copied(Absent, disk.cache, f)
    {
      w := worktree;
      if !disk.cache.Absent? && worktree.Absent? {
        w := Copied(worktree, disk.cache, f);
      }
    }

    /**
      One run: its fresh worktree is warmed, the agent may leave a tree of its own there, and the worktree's tree
      is saved, whether or not the run succeeded.
    */
    method OneRun(warm: Fate<T>, own: Dir<T>, l: Luck<T>) returns (ghost src: Dir<T>)
      modifies this
      ensures src == if !own.Absent? then own else if old(disk).cache.Absent? then Absent else Copied(Absent, old(disk).cache, warm)
      ensures seen == old(seen) + Saving(old(disk), src, l)
      ensures Swept(old(disk), l) ==> CacheStaysIn(Saving(old(disk), src, l), {Absent, old(disk).cache, src})
      ensures AllWorks(l) && !src.Absent? ==> disk == Disk(src, Absent, Absent)
      ensures AllWorks(l) && own.Absent? && !old(disk).cache.Absent? && old(disk).cache != Mixed && !src.Absent? ==>
                (disk.cache == Mixed <==> Copied(Absent, old(disk).cache, warm) == Mixed)
    {
      var w := Warm(Absent, warm);
      if !own.Absent? {
        w := own;
      }
      src := w;
      var died, installed := Save(w, l);
    }

    /**
      Any number of saves, one after another, each dying or failing anywhere: as long as none copies onto what an
      earlier one left, whoever looks, and whenever, finds no cache, the first one, or exactly one worktree's tree; and a
      save that works leaves its own tree and nothing else, whatever it met.
    */
    method Lifetime(srcs: seq<Dir<T>>, lucks: seq<Luck<T>>)
      requires |srcs| == |lucks|
      modifies this
      ensures seen == old(seen) + SeenIn(Saving, old(disk), srcs, lucks, |srcs|)
      ensures disk == DiskAt(Saving, old(disk), srcs, lucks, |srcs|)
      ensures AllSwept(Saving, old(disk), srcs, lucks, |srcs|) ==>
                CacheStaysIn(SeenIn(Saving, old(disk), srcs, lucks, |srcs|), {Absent, old(disk).cache} + set d | d in srcs)
      ensures srcs != [] && AllWorks(lucks[|srcs| - 1]) && !srcs[|srcs| - 1].Absent? ==>
                disk == Disk(srcs[|srcs| - 1], Absent, Absent)
    {
      if AllSwept(Saving, disk, srcs, lucks, |srcs|) {
        ManySaves(disk, srcs, lucks);
      }
      if srcs != [] && AllWorks(lucks[|srcs| - 1]) && !srcs[|srcs| - 1].Absent? {
        LastSave(disk, srcs, lucks);
      }
      SaveEach(srcs, lucks);
    }

    method SaveEach(srcs: seq<Dir<T>>, lucks: seq<Luck<T>>)
      requires |srcs| == |lucks|
      modifies this
      ensures seen == old(seen) + SeenIn(Saving, old(disk), srcs, lucks, |srcs|)
      ensures disk == DiskAt(Saving, old(disk), srcs, lucks, |srcs|)
    {
      for i := 0 to |srcs|
        invariant seen == old(seen) + SeenIn(Saving, old(disk), srcs, lucks, i)
        invariant disk == DiskAt(Saving, old(disk), srcs, lucks, i)
      {
        Joined(old(seen), SeenIn(Saving, old(disk), srcs, lucks, i), Saving(disk, srcs[i], lucks[i]));
        var died, installed := Save(srcs[i], lucks[i]);
      }
    }
  }
}
