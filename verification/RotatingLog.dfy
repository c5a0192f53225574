/** Log rotation: rotatingFile (apps/gateway/internal/observability/logger.go). Slot 0 is the live file, slot i the
    backup with suffix ".i"; a file is the list of the writes it holds. */
module RotatingLog {
  import opened Wrappers

  type Chunk = seq<bv8>
  type File = seq<Chunk>
  type Directory = map<nat, File>

  function Size(file: File): nat {
    if file == [] then 0 else Size(file[..|file| - 1]) + |file[|file| - 1]|
  }

  function Slot(d: Directory, k: nat): Option<File> {
    if k in d then Some(d[k]) else None
  }

  /** O_CREATE|O_APPEND: the live file is created empty unless it is there. */
  function Opened(d: Directory): Directory {
    if 0 in d then d else d[0 := []]
  }

  /** os.Rename, ignoring a missing source. */
  function Renamed(d: Directory, from: nat, to: nat): Directory {
    if from in d then d[to := d[from]] - {from} else d
  }

  /** The renames of rotate(), from slot `i` down to the live file. */
  function RenameDown(d: Directory, i: int): Directory
    requires i >= -1
    decreases i + 1
  {
    if i < 0 then d else RenameDown(Renamed(d, i, i + 1), i - 1)
  }

  function Rotated(d: Directory, maxBackups: int): Directory {
    Opened(RenameDown(d, if maxBackups <= 0 then -1 else maxBackups - 1))
  }

  predicate MustRotate(d: Directory, p: Chunk, maxSize: int)
    requires 0 in d
  {
    Size(d[0]) + |p| > maxSize
  }

  /** The directory in which `p` is appended to the live file. */
  function Ready(d: Directory, p: Chunk, maxSize: int, maxBackups: int): (r: Directory)
    requires 0 in d
    ensures 0 in r
  {
    if MustRotate(d, p, maxSize) then Rotated(d, maxBackups) else d
  }

  function Wrote(d: Directory, p: Chunk, maxSize: int, maxBackups: int): (r: Directory)
    requires 0 in d
    ensures 0 in r
  {
    var ready := Ready(d, p, maxSize, maxBackups);
    ready[0 := ready[0] + [p]]
  }

  class RotatingFile {
    var files: Directory
    var currentSize: nat
    const maxSize: int
    const maxBackups: int

    ghost predicate Valid()
      reads this
    {
      0 in files && currentSize == Size(files[0])
    }

    constructor (files: Directory, maxSize: int, maxBackups: int)
      ensures Valid() && this.files == Opened(files) && this.maxSize == maxSize && this.maxBackups == maxBackups
    {
      this.files := Opened(files);
      this.currentSize := Size(Opened(files)[0]);
      this.maxSize := maxSize;
      this.maxBackups := maxBackups;
    }

    method Reopen()
      modifies this
      ensures Valid() && files == Opened(old(files))
    {
      files := Opened(files);
      currentSize := Size(files[0]);
    }

    method Rename(from: nat, to: nat)
      modifies this`files
      ensures files == Renamed(old(files), from, to)
    {
      if from in files {
        files := files[to := files[from]] - {from};
      }
    }

    method Rotate()
      requires Valid()
      modifies this
      ensures Valid() && files == Rotated(old(files), maxBackups)
    {
      var i := if maxBackups <= 0 then -1 else maxBackups - 1;
      while i >= 0
        invariant i >= -1
        invariant RenameDown(files, i) == RenameDown(old(files), if maxBackups <= 0 then -1 else maxBackups - 1)
      {
        Rename(i, i + 1);
        i := i - 1;
      }
      Reopen();
    }

    method Write(p: Chunk)
      requires Valid()
      modifies this
      ensures Valid() && files == Wrote(old(files), p, maxSize, maxBackups)
    {
      if currentSize + |p| > maxSize {
        Rotate();
      }
      AppendedSize(files[0], p);
      files := files[0 := files[0] + [p]];
      currentSize := currentSize + |p|;
    }
  }

  lemma AppendedSize(file: File, p: Chunk)
    ensures Size(file + [p]) == Size(file) + |p|
  {
    assert (file + [p])[..|file + [p]| - 1] == file;
  }

  // ----- one rotation

  /** Renaming from slot `i` down moves every file up by one; the file above stays only where none moves onto it. */
  lemma {:induction false} RenameDownIs(d: Directory, i: int, k: nat)
    requires i >= -1
    ensures Slot(RenameDown(d, i), k)
            == if k > i + 1 || (k == i + 1 && (k == 0 || i !in d)) then Slot(d, k)
               else if k == 0 then None
               else Slot(d, k - 1)
    decreases i + 1
  {
    if i >= 0 {
      RenameDownIs(Renamed(d, i, i + 1), i - 1, k);
    }
  }

  /** Every slot after a rotation with at least one backup. */
  lemma RotatedIs(d: Directory, maxBackups: nat, k: nat)
    requires maxBackups > 0
    ensures Slot(Rotated(d, maxBackups), k)
            == if k == 0 then Some([])
               else if k > maxBackups || (k == maxBackups && k - 1 !in d) then Slot(d, k)
               else Slot(d, k - 1)
  {
    RenameDownIs(d, maxBackups - 1, k);
    RenameDownIs(d, maxBackups - 1, 0);
  }

  function Kept(d: Directory, k: nat): File {
    if k in d then d[k] else []
  }

  /** What the slots up to `k` hold, from the oldest backup to the live file. */
  function History(d: Directory, k: nat): File {
    if k == 0 then Kept(d, 0) else Kept(d, k) + History(d, k - 1)
  }

  /** Rotation overwrites the oldest backup exactly when both top slots are taken. */
  predicate Evicts(d: Directory, maxBackups: nat) {
    maxBackups > 0 && maxBackups in d && maxBackups - 1 in d
  }

  lemma {:induction false} LowerHistory(d: Directory, maxBackups: nat, k: nat)
    requires 0 < k < maxBackups
    ensures History(Rotated(d, maxBackups), k) == History(d, k - 1)
  {
    hide Rotated;
    RotatedIs(d, maxBackups, k);
    RotatedIs(d, maxBackups, k - 1);
    if k > 1 {
      LowerHistory(d, maxBackups, k - 1);
    } else {
      assert History(Rotated(d, maxBackups), 0) == [];
      assert Kept(d, 0) + [] == Kept(d, 0);
    }
  }

  /** The file a rotation overwrites. */
  function Lost(d: Directory, maxBackups: nat): File {
    if Evicts(d, maxBackups) then d[maxBackups] else []
  }

  /** A rotation drops at most the oldest file, whole, and keeps the rest in order. */
  lemma RotationKeepsOrder(d: Directory, maxBackups: nat)
    requires 0 in d
    ensures Lost(d, maxBackups) + History(Rotated(d, maxBackups), maxBackups) == History(d, maxBackups)
  {
    if maxBackups > 0 {
      BelowTheTop(d, maxBackups);
      RotatedIs(d, maxBackups, maxBackups);
      hide Rotated;
      var r := Rotated(d, maxBackups);
      assert Lost(d, maxBackups) + Kept(r, maxBackups) == Kept(d, maxBackups) + Kept(d, maxBackups - 1);
      TopOf(d, maxBackups);
      TopOf(r, maxBackups);
      Reassociate(Lost(d, maxBackups), Kept(r, maxBackups), History(r, maxBackups - 1), Kept(d, maxBackups),
                  Kept(d, maxBackups - 1), History(d, maxBackups - 1));
    }
  }

  lemma TopOf(d: Directory, k: nat)
    requires k > 0
    ensures History(d, k) == Kept(d, k) + History(d, k - 1)
  {
  }

  /** Below the top slot a rotation only moves files up. */
  lemma BelowTheTop(d: Directory, maxBackups: nat)
    requires maxBackups > 0
    ensures Kept(d, maxBackups - 1) + History(Rotated(d, maxBackups), maxBackups - 1) == History(d, maxBackups - 1)
  {
    if maxBackups > 1 {
      LowerHistory(d, maxBackups, maxBackups - 1);
    } else {
      RotatedIs(d, maxBackups, 0);
    }
  }

  lemma Reassociate(lost: File, top: File, low: File, oldTop: File, next: File, oldLow: File)
    requires lost + top == oldTop + next && next + low == oldLow
    ensures lost + (top + low) == oldTop + oldLow
  {
    assert lost + (top + low) == (lost + top) + low;
    assert oldTop + (next + low) == (oldTop + next) + low;
  }

  lemma {:induction false} HistoryAppend(d: Directory, p: Chunk, k: nat)
    requires 0 in d
    ensures History(d[0 := d[0] + [p]], k) == History(d, k) + [p]
  {
    if k > 0 {
      HistoryAppend(d, p, k - 1);
      assert Kept(d, k) + (History(d, k - 1) + [p]) == Kept(d, k) + History(d, k - 1) + [p];
    }
  }

  // ----- any sequence of writes

  function Run(d: Directory, ps: seq<Chunk>, maxSize: int, maxBackups: nat): (r: Directory)
    requires 0 in d
    ensures 0 in r
  {
    if ps == [] then d
    else Wrote(Run(d, ps[..|ps| - 1], maxSize, maxBackups), ps[|ps| - 1], maxSize, maxBackups)
  }

  predicate RotatesLast(d: Directory, ps: seq<Chunk>, maxSize: int, maxBackups: nat)
    requires 0 in d && ps != []
  {
    MustRotate(Run(d, ps[..|ps| - 1], maxSize, maxBackups), ps[|ps| - 1], maxSize)
  }

  /** The files dropped on the way, oldest first. */
  function Dropped(d: Directory, ps: seq<Chunk>, maxSize: int, maxBackups: nat): seq<File>
    requires 0 in d
  {
    if ps == [] then []
    else
      var before := Run(d, ps[..|ps| - 1], maxSize, maxBackups);
      Dropped(d, ps[..|ps| - 1], maxSize, maxBackups)
      + if RotatesLast(d, ps, maxSize, maxBackups) && Evicts(before, maxBackups) then [before[maxBackups]] else []
  }

  function Joined(files: seq<File>): File {
    if files == [] then [] else Joined(files[..|files| - 1]) + files[|files| - 1]
  }

  lemma JoinedSnoc(files: seq<File>, last: File)
    ensures Joined(files + [last]) == Joined(files) + last
  {
    assert (files + [last])[..|files + [last]| - 1] == files;
  }

  /** What the last write of `ps` drops. */
  function LostLast(d: Directory, ps: seq<Chunk>, maxSize: int, maxBackups: nat): File
    requires 0 in d && ps != []
  {
    if RotatesLast(d, ps, maxSize, maxBackups) then Lost(Run(d, ps[..|ps| - 1], maxSize, maxBackups), maxBackups) else []
  }

  lemma DroppedStep(d: Directory, ps: seq<Chunk>, maxSize: int, maxBackups: nat)
    requires 0 in d && ps != []
    ensures Joined(Dropped(d, ps, maxSize, maxBackups))
            == Joined(Dropped(d, ps[..|ps| - 1], maxSize, maxBackups)) + LostLast(d, ps, maxSize, maxBackups)
  {
    hide Run, Joined, RotatesLast;
    var dropped := Dropped(d, ps[..|ps| - 1], maxSize, maxBackups);
    JoinedSnoc(dropped, LostLast(d, ps, maxSize, maxBackups));
    assert dropped + [] == dropped && Joined(dropped) + [] == Joined(dropped);
  }

  lemma HistoryStep(d: Directory, ps: seq<Chunk>, maxSize: int, maxBackups: nat)
    requires 0 in d && ps != []
    ensures var before := Run(d, ps[..|ps| - 1], maxSize, maxBackups);
      LostLast(d, ps, maxSize, maxBackups) + History(Run(d, ps, maxSize, maxBackups), maxBackups)
      == History(before, maxBackups) + [ps[|ps| - 1]]
  {
    hide Rotated, History, Size;
    var before, p := Run(d, ps[..|ps| - 1], maxSize, maxBackups), ps[|ps| - 1];
    var ready := Ready(before, p, maxSize, maxBackups);
    RotationKeepsOrder(before, maxBackups);
    HistoryAppend(ready, p, maxBackups);
    var lost := LostLast(d, ps, maxSize, maxBackups);
    assert lost + History(ready, maxBackups) == History(before, maxBackups);
    assert lost + (History(ready, maxBackups) + [p]) == (lost + History(ready, maxBackups)) + [p];
  }

  /** After any writes the log is a suffix of everything written: the dropped files, each whole, followed by what is
      kept, are what was there plus every write in order. */
  lemma {:induction false} LogIsASuffix(d: Directory, ps: seq<Chunk>, maxSize: int, maxBackups: nat)
    requires 0 in d
    ensures Joined(Dropped(d, ps, maxSize, maxBackups)) + History(Run(d, ps, maxSize, maxBackups), maxBackups)
            == History(d, maxBackups) + ps
  {
    hide History, LostLast, Wrote, Evicts, RotatesLast;
    if ps == [] {
      assert Joined([]) + History(d, maxBackups) == History(d, maxBackups) == History(d, maxBackups) + [];
    } else {
      var init := ps[..|ps| - 1];
      LogIsASuffix(d, init, maxSize, maxBackups);
      DroppedStep(d, ps, maxSize, maxBackups);
      HistoryStep(d, ps, maxSize, maxBackups);
      hide *;
      Chain(Joined(Dropped(d, init, maxSize, maxBackups)), LostLast(d, ps, maxSize, maxBackups),
            History(Run(d, ps, maxSize, maxBackups), maxBackups), History(Run(d, init, maxSize, maxBackups), maxBackups),
            History(d, maxBackups), ps);
    }
  }

  lemma Chain(dropped: File, lost: File, now: File, before: File, start: File, ps: seq<Chunk>)
    requires ps != [] && dropped + before == start + ps[..|ps| - 1] && lost + now == before + [ps[|ps| - 1]]
    ensures (dropped + lost) + now == start + ps
  {
    assert (dropped + lost) + now == dropped + (lost + now);
    assert dropped + (before + [ps[|ps| - 1]]) == (dropped + before) + [ps[|ps| - 1]];
    assert start + ps[..|ps| - 1] + [ps[|ps| - 1]] == start + (ps[..|ps| - 1] + [ps[|ps| - 1]]);
    assert ps[..|ps| - 1] + [ps[|ps| - 1]] == ps;
  }

  // ----- how much is dropped

  /** Slots 0 to `c` hold files and the ones above, up to the last backup, are free. */
  predicate Filled(d: Directory, maxBackups: nat, c: nat) {
    c <= maxBackups && forall k: nat :: k <= maxBackups ==> (k in d <==> k <= c)
  }

  function Rotations(d: Directory, ps: seq<Chunk>, maxSize: int, maxBackups: nat): nat
    requires 0 in d
  {
    if ps == [] then 0
    else
      Rotations(d, ps[..|ps| - 1], maxSize, maxBackups) + if RotatesLast(d, ps, maxSize, maxBackups) then 1 else 0
  }

  function Min(a: nat, b: nat): nat {
    if a < b then a else b
  }

  lemma RotationFills(d: Directory, maxBackups: nat, c: nat)
    requires maxBackups > 0 && Filled(d, maxBackups, c)
    ensures Filled(Rotated(d, maxBackups), maxBackups, Min(c + 1, maxBackups))
    ensures Evicts(d, maxBackups) <==> c == maxBackups
  {
    forall k: nat | k <= maxBackups
      ensures k in Rotated(d, maxBackups) <==> k <= Min(c + 1, maxBackups)
    {
      RotatedIs(d, maxBackups, k);
    }
  }

  /** Nothing is lost before the backups are full: from `c` backups, the first maxBackups - c rotations drop nothing,
      and each later one drops one file. */
  lemma {:induction false} DropsOnlyWhenFull(d: Directory, ps: seq<Chunk>, maxSize: int, maxBackups: nat, c: nat)
    requires 0 in d && maxBackups > 0 && Filled(d, maxBackups, c)
    ensures var n := Rotations(d, ps, maxSize, maxBackups);
      && Filled(Run(d, ps, maxSize, maxBackups), maxBackups, Min(c + n, maxBackups))
      && |Dropped(d, ps, maxSize, maxBackups)| == if c + n <= maxBackups then 0 else c + n - maxBackups
  {
    hide Rotated, Size, Evicts;
    if ps != [] {
      var init := ps[..|ps| - 1];
      var before, n := Run(d, init, maxSize, maxBackups), Rotations(d, init, maxSize, maxBackups);
      DropsOnlyWhenFull(d, init, maxSize, maxBackups, c);
      RotationFills(before, maxBackups, Min(c + n, maxBackups));
    }
  }

  // ----- how large a file gets

  /** Within the limit, or a single write. */
  predicate Fits(file: File, maxSize: int) {
    Size(file) <= maxSize || |file| <= 1
  }

  predicate AllFit(d: Directory, maxSize: int) {
    forall k: nat :: k in d ==> Fits(d[k], maxSize)
  }

  lemma RotationFits(d: Directory, maxSize: int, maxBackups: nat)
    requires maxBackups > 0 && AllFit(d, maxSize)
    ensures AllFit(Rotated(d, maxBackups), maxSize)
  {
    var r := Rotated(d, maxBackups);
    forall k: nat | k in r ensures Fits(r[k], maxSize) {
      RotatedIs(d, maxBackups, k);
      assert Slot(r, k) == Some(r[k]);
    }
  }

  /** With at least one backup a file exceeds the limit only by holding one oversized write. */
  lemma {:induction false} OnlyOversizedWritesExceed(d: Directory, ps: seq<Chunk>, maxSize: int, maxBackups: nat)
    requires 0 in d && maxBackups > 0 && AllFit(d, maxSize)
    ensures AllFit(Run(d, ps, maxSize, maxBackups), maxSize)
  {
    hide Rotated, Size;
    if ps != [] {
      var before, p := Run(d, ps[..|ps| - 1], maxSize, maxBackups), ps[|ps| - 1];
      OnlyOversizedWritesExceed(d, ps[..|ps| - 1], maxSize, maxBackups);
      RotationFits(before, maxSize, maxBackups);
      AppendedSize(before[0], p);
      RotatedIs(before, maxBackups, 0);
    }
  }

  /** Without backups rotation keeps the live file, which then grows without bound: nothing is dropped and no limit
      holds. */
  lemma {:induction false} NoBackupsNoLimit(d: Directory, ps: seq<Chunk>, maxSize: int)
    requires 0 in d
    ensures Run(d, ps, maxSize, 0) == d[0 := d[0] + ps]
  {
    hide Size;
    if ps == [] {
      assert d[0] + [] == d[0];
    } else {
      NoBackupsNoLimit(d, ps[..|ps| - 1], maxSize);
      assert d[0] + ps[..|ps| - 1] + [ps[|ps| - 1]] == d[0] + ps;
    }
  }

  // ----- where a write lands

  /** A write that fits is appended to the live file and nothing else changes; so is every write without backups. One
      that does not fit starts a new live file, behind which the old one is the first backup. */
  lemma WriteLands(d: Directory, p: Chunk, maxSize: int, maxBackups: int)
    requires 0 in d
    ensures Size(d[0]) + |p| <= maxSize || maxBackups <= 0 ==>
      Wrote(d, p, maxSize, maxBackups) == d[0 := d[0] + [p]]
    ensures Size(d[0]) + |p| > maxSize && maxBackups > 0 ==>
      Slot(Wrote(d, p, maxSize, maxBackups), 0) == Some([p]) && Slot(Wrote(d, p, maxSize, maxBackups), 1) == Some(d[0])
  {
    if Size(d[0]) + |p| > maxSize && maxBackups > 0 {
      RotatedIs(d, maxBackups, 0);
      RotatedIs(d, maxBackups, 1);
      var rotated := Rotated(d, maxBackups);
      assert 0 in rotated && rotated[0] == [] && Slot(rotated, 1) == Some(d[0]);
      assert [] + [p] == [p];
      hide Rotated;
    }
  }

  /** The live file grows by a write if and only if the write fits, or there are no backups, or the file was empty. */
  lemma LiveFileGrowsExactlyWhen(d: Directory, p: Chunk, maxSize: int, maxBackups: int)
    requires 0 in d
    ensures Wrote(d, p, maxSize, maxBackups)[0] == d[0] + [p]
            <==> Size(d[0]) + |p| <= maxSize || maxBackups <= 0 || d[0] == []
  {
    WriteLands(d, p, maxSize, maxBackups);
    if d[0] != [] {
      assert |d[0] + [p]| > 1;
    }
  }

  /** Writes that fit together never rotate: they are all in the live file, in order. */
  lemma {:induction false} FittingWritesStay(d: Directory, ps: seq<Chunk>, maxSize: int, maxBackups: nat)
    requires 0 in d && Size(d[0]) + Size(ps) <= maxSize
    ensures Run(d, ps, maxSize, maxBackups) == d[0 := d[0] + ps]
  {
    hide Wrote;
    if ps == [] {
      assert d[0] + ps == d[0];
    } else {
      var front, p := ps[..|ps| - 1], ps[|ps| - 1];
      FittingWritesStay(d, front, maxSize, maxBackups);
      SizeAdds(d[0], front);
      OneMoreFits(d, d[0] + front, p, maxSize, maxBackups);
      assert d[0] + front + [p] == d[0] + ps;
    }
  }

  lemma OneMoreFits(d: Directory, live: File, p: Chunk, maxSize: int, maxBackups: int)
    requires Size(live) + |p| <= maxSize
    ensures Wrote(d[0 := live], p, maxSize, maxBackups) == d[0 := live + [p]]
  {
    WriteLands(d[0 := live], p, maxSize, maxBackups);
    hide Wrote, Size;
  }

  /** The size of a file is the number of its bytes: nothing for the empty file, a write's length for that write alone,
      and the sum for two files in a row. */
  lemma {:induction false} SizeAdds(a: File, b: File)
    ensures Size(a + b) == Size(a) + Size(b) && Size([]) == 0 && forall p: Chunk :: Size([p]) == |p|
  {
    forall p: Chunk ensures Size([p]) == |p| {
      assert [p][..0] == [];
    }
    if b == [] {
      assert a + b == a;
    } else {
      assert (a + b)[..|a + b| - 1] == a + b[..|b| - 1];
      SizeAdds(a, b[..|b| - 1]);
    }
  }
}
