/**
 The rotating log of agent/runtime_support.cpp over a disk on which any delete,
 move, open or write may fail. File 0 is the current one, file k its k-th backup.
 */
module LogRotation {
  import opened Words

  type Bytes = seq<uint8>
  type Disk = map<nat, Bytes>

  const LARGEST_WRITE: nat := 0xFFFF_FFFF

  datatype OpenFault = Opens | CannotCreate | CannotMeasure

  /**
   What goes wrong during one call: the directory, the delete, moves by their source,
   opening, and how many bytes each write takes (none is a failure; the last entries
   missing, the rest is written).
   */
  datatype Faults = Faults(
    directory: bool, delete: bool, moves: set<nat>, opening: OpenFault, writes: seq<nat>)

  const NO_FAULTS := Faults(false, false, {}, Opens, [])

  datatype Log = Log(disk: Disk, handleOpen: bool, currentSize: nat, maxBytes: nat, backupCount: nat)
  {
    ghost predicate Valid() {
      handleOpen ==> 0 in disk && currentSize <= |disk[0]|
    }

    /** Bytes of failed writes that the size kept in memory does not know of. */
    ghost function Stale(): nat
      requires Valid() && handleOpen
    {
      |disk[0]| - currentSize
    }
  }

  // ----------------------------------------------------------- the disk

  function Content(disk: Disk, file: nat): Bytes {
    if file in disk then disk[file] else []
  }

  /** Backups from the oldest to the newest, then the current file. */
  function Chain(disk: Disk, count: nat): Bytes {
    if count == 0 then Content(disk, 0) else Content(disk, count) + Chain(disk, count - 1)
  }

  ghost predicate EndsWith(whole: Bytes, tail: Bytes) {
    |tail| <= |whole| && whole[|whole| - |tail|..] == tail
  }

  /** A missing source is no failure. */
  function Moved(disk: Disk, from: nat, to: nat, f: Faults): (Disk, bool) {
    if from in f.moves then (disk, false)
    else if from !in disk then (disk, true)
    else (disk[to := disk[from]] - {from}, true)
  }

  function Deleted(disk: Disk, file: nat, f: Faults): (Disk, bool) {
    if f.delete then (disk, false) else (disk - {file}, true)
  }

  function Shifted(disk: Disk, index: nat, f: Faults): (Disk, bool)
    decreases index
  {
    if index <= 1 then (disk, true)
    else
      var (moved, ok) := Moved(disk, index - 1, index, f);
      if ok then Shifted(moved, index - 1, f) else (moved, false)
  }

  // ------------------------------------------------------ the log, as functions

  function Closed(s: Log): Log {
    s.(handleOpen := false, currentSize := 0)
  }

  function OpenedCurrent(s: Log, f: Faults): (Log, bool) {
    if f.opening == CannotCreate then (s, false)
    else
      var disk := s.disk[0 := Content(s.disk, 0)];
      if f.opening == CannotMeasure then (s.(disk := disk), false)
      else (s.(disk := disk, handleOpen := true, currentSize := |disk[0]|), true)
  }

  /** Everything of a rotation but the opening of the new current file. */
  function MadeRoom(disk: Disk, count: nat, f: Faults): (Disk, bool) {
    if count == 0 then Deleted(disk, 0, f)
    else
      var (deleted, gone) := Deleted(disk, count, f);
      if !gone then (deleted, false)
      else
        var (shifted, ok) := Shifted(deleted, count, f);
        if ok then Moved(shifted, 0, 1, f) else (shifted, false)
  }

  function Rotated(s: Log, f: Faults): (Log, bool) {
    var (disk, ok) := MadeRoom(s.disk, s.backupCount, f);
    var closed := Closed(s).(disk := disk);
    if ok then OpenedCurrent(closed, f) else (closed, false)
  }

  function Opened(s: Log, maxBytes: nat, count: nat, f: Faults): (Log, bool) {
    if f.directory then (Closed(s), false)
    else
      var (current, ok) := OpenedCurrent(Closed(s).(maxBytes := maxBytes, backupCount := count), f);
      if !ok then (current, false)
      else if maxBytes != 0 && current.currentSize >= maxBytes then Rotated(current, f)
      else (current, true)
  }

  /** How many of `size` bytes reach the file. */
  function Landing(size: nat, writes: seq<nat>): (landed: nat)
    ensures landed <= size
    decreases writes
  {
    if size == 0 || writes == [] then size
    else if writes[0] == 0 then 0
    else
      var step := Min(writes[0], Min(size, LARGEST_WRITE));
      step + Landing(size - step, writes[1..])
  }

  predicate NeedsRotation(s: Log, size: nat) {
    s.maxBytes != 0 && s.currentSize != 0 && size > s.maxBytes - Min(s.currentSize, s.maxBytes)
  }

  /** The log a write goes to, if it gets that far. */
  function Ready(s: Log, size: nat, f: Faults): (Log, bool) {
    if NeedsRotation(s, size) then Rotated(s, f) else (s, true)
  }

  /** The bytes of a write that reach the disk, whether or not it succeeds. */
  function Landed(s: Log, data: Bytes, f: Faults): Bytes {
    if !s.handleOpen || data == [] || !Ready(s, |data|, f).1 then [] else data[..Landing(|data|, f.writes)]
  }

  function Written(s: Log, data: Bytes, f: Faults): (Log, bool) {
    if !s.handleOpen then (s, false)
    else if data == [] then (s, true)
    else
      var (ready, ok) := Ready(s, |data|, f);
      if !ok then (ready, false)
      else
        var landed := data[..Landing(|data|, f.writes)];
        var appended := ready.(disk := ready.disk[0 := Content(ready.disk, 0) + landed]);
        if landed == data then (appended.(currentSize := ready.currentSize + |data|), true) else (appended, false)
  }

  datatype Op = Write(data: Bytes, faults: Faults) | Close | Reopen(maxBytes: nat, during: Faults)

  function Next(s: Log, op: Op): Log {
    match op
    case Write(data, f) => Written(s, data, f).0
    case Close => Closed(s)
    case Reopen(maxBytes, f) => Opened(s, maxBytes, s.backupCount, f).0
  }

  function Run(s: Log, ops: seq<Op>): Log {
    if ops == [] then s else Next(Run(s, ops[..|ops| - 1]), ops[|ops| - 1])
  }

  function LandedBy(s: Log, op: Op): Bytes {
    if op.Write? then Landed(s, op.data, op.faults) else []
  }

  /** Every byte that reached the disk, in order. */
  function Appended(s: Log, ops: seq<Op>): Bytes {
    if ops == [] then []
    else
      Appended(s, ops[..|ops| - 1]) + LandedBy(Run(s, ops[..|ops| - 1]), ops[|ops| - 1])
  }

  // --------------------------------------------------- rotation keeps order

  lemma EmptyEnds(bytes: Bytes)
    ensures [] + bytes == bytes && bytes + [] == bytes
  {
  }

  lemma {:induction false} ChainsAgree(a: Disk, b: Disk, count: nat)
    requires forall k :: 0 <= k <= count ==> Content(a, k) == Content(b, k)
    ensures Chain(a, count) == Chain(b, count)
  {
    if count > 0 {
      ChainsAgree(a, b, count - 1);
    }
  }

  /** Moving a file one place up to a free name changes nothing in the order of bytes. */
  lemma {:induction false} MoveKeepsChain(disk: Disk, from: nat, count: nat, f: Faults)
    requires from < count && from + 1 !in disk
    ensures Chain(Moved(disk, from, from + 1, f).0, count) == Chain(disk, count)
  {
    var moved := Moved(disk, from, from + 1, f).0;
    if count > from + 1 {
      assert Content(moved, count) == Content(disk, count);
      MoveKeepsChain(disk, from, count - 1, f);
    } else if from in disk && moved != disk {
      assert Content(moved, count) == Content(disk, from) && Content(moved, from) == [];
      if from > 0 {
        ChainsAgree(moved, disk, from - 1);
        assert Chain(moved, from) == [] + Chain(moved, from - 1);
        assert Chain(disk, count) == [] + (Content(disk, from) + Chain(disk, from - 1));
      } else {
        assert Chain(disk, count) == [] + Content(disk, from);
      }
    }
  }

  /** Shifting moves every backup one up below the free place it started from; a failure midway loses nothing. */
  lemma {:induction false} ShiftKeepsChain(disk: Disk, index: nat, count: nat, f: Faults)
    requires 1 <= index <= count && index !in disk
    ensures var (shifted, ok) := Shifted(disk, index, f);
            Chain(shifted, count) == Chain(disk, count) && (ok ==> 1 !in shifted && (0 in shifted <==> 0 in disk))
    decreases index
  {
    if index > 1 {
      MoveKeepsChain(disk, index - 1, count, f);
      var (moved, ok) := Moved(disk, index - 1, index, f);
      if ok {
        ShiftKeepsChain(moved, index - 1, count, f);
      }
    }
  }

  lemma DeleteDropsTheOldest(disk: Disk, count: nat)
    ensures Content(disk, count) + Chain(disk - {count}, count) == Chain(disk, count)
  {
    hide Chain;
    var rest := disk - {count};
    assert Content(rest, count) == [];
    ChainUnfolds(disk, count);
    ChainUnfolds(rest, count);
    EmptyEnds(Content(disk, count));
    if count > 0 {
      ChainsAgree(disk, rest, count - 1);
      EmptyEnds(Chain(rest, count - 1));
    }
  }

  lemma ChainUnfolds(disk: Disk, count: nat)
    ensures Chain(disk, count) ==
            if count == 0 then Content(disk, 0) else Content(disk, count) + Chain(disk, count - 1)
  {
  }

  /** Making room loses the oldest file at most, and all of it or nothing, wherever it fails. */
  lemma MakingRoomDropsTheOldest(disk: Disk, count: nat, f: Faults)
    ensures var (room, ok) := MadeRoom(disk, count, f);
            && LosesAtMost(Chain(disk, count), Content(disk, count), Chain(room, count))
            && (ok ==> 0 !in room && Chain(disk, count) == Content(disk, count) + Chain(room, count))
  {
    DeleteDropsTheOldest(disk, count);
    if count > 0 && !f.delete {
      var deleted := disk - {count};
      ShiftKeepsChain(deleted, count, count, f);
      var (shifted, ok) := Shifted(deleted, count, f);
      if ok {
        MoveKeepsChain(shifted, 0, count, f);
      }
    }
  }

  // ------------------------------------------------------- every run is a suffix

  lemma OpeningKeepsChain(s: Log, f: Faults)
    requires !s.handleOpen
    ensures var (next, ok) := OpenedCurrent(s, f);
            && Chain(next.disk, s.backupCount) == Chain(s.disk, s.backupCount)
            && next.backupCount == s.backupCount && next.maxBytes == s.maxBytes
            && next.Valid() && next.handleOpen == ok
            && (ok ==> next.Stale() == 0 && next.currentSize == |Content(s.disk, 0)|)
            && (!ok ==> next.currentSize == s.currentSize)
  {
    ChainsAgree(s.disk, s.disk[0 := Content(s.disk, 0)], s.backupCount);
  }

  /** A rotation, failed or not, loses the oldest file at most; a successful one leaves the current file empty. */
  lemma RotationDropsTheOldest(s: Log, f: Faults)
    ensures var (next, ok) := Rotated(s, f); var count := s.backupCount;
            && LosesAtMost(Chain(s.disk, count), Content(s.disk, count), Chain(next.disk, count))
            && next.backupCount == count && next.maxBytes == s.maxBytes
            && next.Valid() && next.handleOpen == ok
            && next.currentSize == 0 && (ok ==> next.Stale() == 0)
  {
    hide Chain, MadeRoom;
    MakingRoomDropsTheOldest(s.disk, s.backupCount, f);
    var (disk, ok) := MadeRoom(s.disk, s.backupCount, f);
    if ok {
      OpeningKeepsChain(Closed(s).(disk := disk), f);
    }
  }

  lemma RotationIsASuffix(s: Log, f: Faults)
    ensures EndsWith(Chain(s.disk, s.backupCount), Chain(Rotated(s, f).0.disk, s.backupCount))
  {
    hide Chain, Rotated;
    RotationDropsTheOldest(s, f);
    LosingIsASuffix(Chain(s.disk, s.backupCount), Content(s.disk, s.backupCount),
                    Chain(Rotated(s, f).0.disk, s.backupCount));
  }

  lemma {:induction false} AppendExtendsChain(disk: Disk, count: nat, added: Bytes)
    ensures Chain(disk[0 := Content(disk, 0) + added], count) == Chain(disk, count) + added
  {
    if count > 0 {
      AppendExtendsChain(disk, count - 1, added);
      var grown := disk[0 := Content(disk, 0) + added];
      assert Content(grown, count) == Content(disk, count);
      assert Content(disk, count) + (Chain(disk, count - 1) + added) == Chain(disk, count) + added;
    }
  }

  lemma SuffixGrows(whole: Bytes, tail: Bytes, added: Bytes)
    requires EndsWith(whole, tail)
    ensures EndsWith(whole + added, tail + added)
  {
    assert (whole + added)[|whole + added| - |tail + added|..] == whole[|whole| - |tail|..] + added;
  }

  lemma SuffixChains(whole: Bytes, middle: Bytes, tail: Bytes)
    requires EndsWith(whole, middle) && EndsWith(middle, tail)
    ensures EndsWith(whole, tail)
  {
    assert whole[|whole| - |tail|..] == middle[|middle| - |tail|..];
  }

  lemma ReadyKeeps(s: Log, size: nat, f: Faults)
    requires s.Valid()
    ensures var (ready, ok) := Ready(s, size, f);
            && ready.Valid() && ready.backupCount == s.backupCount && ready.maxBytes == s.maxBytes
            && (ok && s.handleOpen ==> ready.handleOpen)
            && (ready == s ||
                LosesAtMost(Chain(s.disk, s.backupCount), Content(s.disk, s.backupCount),
                            Chain(ready.disk, s.backupCount)))
  {
    hide Chain, Rotated;
    RotationDropsTheOldest(s, f);
  }

  /**
   A write leaves everything that was there, followed by the bytes it got to the disk,
   less the oldest file at most and only if it had to rotate.
   */
  lemma WriteLosesAtMostTheOldest(s: Log, data: Bytes, f: Faults)
    requires s.Valid()
    ensures var next := Written(s, data, f).0;
            var whole := Chain(s.disk, s.backupCount) + Landed(s, data, f);
            && next.Valid() && next.backupCount == s.backupCount
            && LosesAtMost(whole, Content(s.disk, s.backupCount), Chain(next.disk, s.backupCount))
            && (!NeedsRotation(s, |data|) ==> Chain(next.disk, s.backupCount) == whole)
  {
    hide Chain, Ready, Landing;
    ReadyKeeps(s, |data|, f);
    NoRotationNeeded(s, |data|, f);
    var ready := Ready(s, |data|, f).0;
    var before, after, landed := Chain(s.disk, s.backupCount), Chain(ready.disk, s.backupCount), Landed(s, data, f);
    hide Content;
    AppendExtendsChain(ready.disk, s.backupCount, landed);
    EmptyEnds(before);
    EmptyEnds(after);
    Regroup(Content(s.disk, s.backupCount), after, landed);
  }

  ghost predicate LosesAtMost(before: Bytes, oldest: Bytes, after: Bytes) {
    after == before || before == oldest + after
  }

  lemma NoRotationNeeded(s: Log, size: nat, f: Faults)
    ensures !NeedsRotation(s, size) ==> Ready(s, size, f) == (s, true)
  {
  }

  lemma LosingIsASuffix(before: Bytes, oldest: Bytes, after: Bytes)
    requires LosesAtMost(before, oldest, after)
    ensures EndsWith(before, after)
  {
  }

  lemma EndsWithItself(bytes: Bytes)
    ensures EndsWith(bytes, bytes)
  {
  }

  lemma ReopenIsASuffix(s: Log, maxBytes: nat, f: Faults)
    ensures var next := Opened(s, maxBytes, s.backupCount, f).0;
            && next.Valid() && next.backupCount == s.backupCount
            && EndsWith(Chain(s.disk, s.backupCount), Chain(next.disk, s.backupCount))
  {
    hide Chain, OpenedCurrent, Rotated, EndsWith;
    var closed := Closed(s).(maxBytes := maxBytes);
    OpeningKeepsChain(closed, f);
    var current := OpenedCurrent(closed, f).0;
    RotationDropsTheOldest(current, f);
    RotationIsASuffix(current, f);
    EndsWithItself(Chain(s.disk, s.backupCount));
  }

  /** One call leaves a suffix of what was there followed by the bytes it got to the disk. */
  lemma StepIsASuffix(s: Log, op: Op)
    requires s.Valid()
    ensures var next := Next(s, op);
            && next.Valid() && next.backupCount == s.backupCount
            && EndsWith(Chain(s.disk, s.backupCount) + LandedBy(s, op), Chain(next.disk, s.backupCount))
  {
    hide Chain, Written, Landed, Opened, EndsWith;
    var before := Chain(s.disk, s.backupCount);
    EmptyEnds(before);
    EndsWithItself(before);
    match op
    case Write(data, f) =>
      WriteLosesAtMostTheOldest(s, data, f);
      LosingIsASuffix(before + Landed(s, data, f), Content(s.disk, s.backupCount),
                      Chain(Written(s, data, f).0.disk, s.backupCount));
    case Close =>
    case Reopen(maxBytes, f) => ReopenIsASuffix(s, maxBytes, f);
  }

  /**
   After any run of writes, closes and reopens, with any failures, the backups from
   oldest to newest and the current file hold a suffix of the initial contents
   followed by every byte that reached the disk.
   */
  lemma {:induction false} EveryRunIsASuffix(s: Log, ops: seq<Op>)
    requires s.Valid()
    ensures var end := Run(s, ops);
            && end.Valid() && end.backupCount == s.backupCount
            && EndsWith(Chain(s.disk, s.backupCount) + Appended(s, ops), Chain(end.disk, s.backupCount))
  {
    hide Next, Chain, EndsWith, LandedBy;
    var whole := Chain(s.disk, s.backupCount);
    if ops == [] {
      EmptyEnds(whole);
      EndsWithItself(whole);
    } else {
      var last := |ops| - 1;
      var before, op := ops[..last], ops[last];
      var middle, earlier := Run(s, before), Appended(s, before);
      EveryRunIsASuffix(s, before);
      StepIsASuffix(middle, op);
      SuffixGrows(whole + earlier, Chain(middle.disk, s.backupCount), LandedBy(middle, op));
      SuffixChains(whole + earlier + LandedBy(middle, op), Chain(middle.disk, s.backupCount) + LandedBy(middle, op),
                   Chain(Next(middle, op).disk, s.backupCount));
      Regroup(whole, earlier, LandedBy(middle, op));
    }
  }

  lemma Regroup(a: Bytes, b: Bytes, c: Bytes)
    ensures a + b + c == a + (b + c)
  {
  }

  // --------------------------------------------------------------- size

  function Larger(a: nat, b: nat): nat {
    if a < b then b else a
  }

  /**
   After a successful write the size kept in memory is within the limit or that
   write, and the file exceeds it exactly by what earlier failed writes left behind.
   */
  lemma SizeAfterWrite(s: Log, data: Bytes, f: Faults)
    requires s.Valid() && s.handleOpen && data != [] && Written(s, data, f).1
    ensures var next := Written(s, data, f).0;
            && next.Valid() && next.handleOpen
            && (s.maxBytes != 0 ==> next.currentSize <= Larger(s.maxBytes, |data|))
            && next.Stale() == (if NeedsRotation(s, |data|) then 0 else s.Stale())
            && |Content(next.disk, 0)| == next.currentSize + next.Stale()
  {
    hide Chain, Rotated;
    RotationDropsTheOldest(s, f);
    assert data[..|data|] == data;
  }

  /** A write that fails on the way to the disk leaves exactly the bytes that landed beyond the size in memory. */
  lemma FailedWriteGoesStale(s: Log, data: Bytes, f: Faults)
    requires s.Valid() && s.handleOpen && Ready(s, |data|, f).1 && !Written(s, data, f).1
    ensures var next := Written(s, data, f).0;
            && next.Valid() && next.handleOpen
            && next.Stale() == (if NeedsRotation(s, |data|) then 0 else s.Stale()) + |Landed(s, data, f)|
  {
    hide Chain, Rotated;
    RotationDropsTheOldest(s, f);
  }

  ghost predicate KeepsTheBound(s: Log, data: Bytes) {
    |Content(Written(s, data, NO_FAULTS).0.disk, 0)| <= Larger(s.maxBytes, |data|)
  }

  lemma NoFaultsSucceed(s: Log, data: Bytes)
    requires s.Valid() && s.handleOpen
    ensures Written(s, data, NO_FAULTS).1
  {
    NoFaultsRotate(s);
    hide Rotated;
    assert data[..|data|] == data;
  }

  lemma NoFaultsRotate(s: Log)
    ensures Rotated(s, NO_FAULTS).1
  {
    NoFaultsShift(s.disk - {s.backupCount}, s.backupCount);
  }

  lemma {:induction false} NoFaultsShift(disk: Disk, index: nat)
    ensures Shifted(disk, index, NO_FAULTS).1
    decreases index
  {
    if index > 1 {
      NoFaultsShift(Moved(disk, index - 1, index, NO_FAULTS).0, index - 1);
    }
  }

  /**
   The promised bound on the current file, the larger of the limit and the write, holds
   for every next write exactly if no failed write left bytes behind since the file was
   opened, or the size in memory has reached the limit so that the next write rotates.
   */
  lemma BoundHoldsExactly(s: Log)
    requires s.Valid() && s.handleOpen && s.maxBytes != 0
    ensures (forall data: Bytes :: data != [] ==> KeepsTheBound(s, data)) <==>
            (s.Stale() == 0 || s.currentSize >= s.maxBytes)
  {
    hide Written;
    forall data: Bytes | data != []
      ensures var next := Written(s, data, NO_FAULTS).0;
              next.Valid() && next.handleOpen &&
              (s.Stale() == 0 || s.currentSize >= s.maxBytes ==> KeepsTheBound(s, data))
    {
      NoFaultsSucceed(s, data);
      SizeAfterWrite(s, data, NO_FAULTS);
    }
    if s.Stale() != 0 && s.currentSize < s.maxBytes {
      var data: Bytes := seq(s.maxBytes - s.currentSize, _ => 0);
      NoFaultsSucceed(s, data);
      SizeAfterWrite(s, data, NO_FAULTS);
      UnrotatedSize(s, data);
      assert !KeepsTheBound(s, data);
    }
  }

  /** A new log gets there by one write that fails after its first byte: stale bytes below the limit. */
  lemma StaleIsReachable()
    ensures var empty := Log(map[], false, 0, 0, 3);
            var ready := Next(empty, Reopen(10, NO_FAULTS));
            var stale := Next(ready, Write([1, 2], NO_FAULTS.(writes := [1, 0])));
            && stale.Valid() && stale.handleOpen && stale.maxBytes == 10
            && stale.Stale() == 1 && stale.currentSize < stale.maxBytes
  {
    var ready := Next(Log(map[], false, 0, 0, 3), Reopen(10, NO_FAULTS));
    assert ready == Log(map[0 := []], true, 0, 10, 3);
    assert [1, 0][1..] == [0];
    assert Landing(2, [1, 0]) == 1 + Landing(1, [0]) == 1;
    FailedWriteGoesStale(ready, [1, 2], NO_FAULTS.(writes := [1, 0]));
  }

  lemma UnrotatedSize(s: Log, data: Bytes)
    requires s.Valid() && s.handleOpen && data != [] && !NeedsRotation(s, |data|)
    ensures Written(s, data, NO_FAULTS).0.currentSize == s.currentSize + |data|
  {
    assert data[..|data|] == data;
  }

  /** Whether a write stays with the current file: no limit, nothing in it, or room left by the remembered size. */
  predicate IsRoomy(s: Log, size: nat) {
    s.maxBytes == 0 || s.currentSize == 0 || s.currentSize + size <= s.maxBytes
  }

  /** A write with room only adds to the current file, whatever fails. */
  lemma RoomyWritesStay(s: Log, data: Bytes, f: Faults)
    requires s.Valid() && s.handleOpen && data != [] && IsRoomy(s, |data|)
    ensures Written(s, data, f).0.disk == s.disk[0 := s.disk[0] + Landed(s, data, f)]
  {
  }

  lemma MovedContents(disk: Disk, from: nat, file: nat)
    requires from + 1 !in disk
    ensures var (moved, ok) := Moved(disk, from, from + 1, NO_FAULTS);
            && ok && from !in moved
            && Content(moved, file) == if file == from + 1 then Content(disk, from)
                                       else if file == from then [] else Content(disk, file)
  {
  }

  /** After the shift each backup above the first is what was one place below it. */
  lemma {:induction false} ShiftMovesEach(disk: Disk, index: nat, file: nat)
    requires 1 <= index && index !in disk
    ensures var (shifted, ok) := Shifted(disk, index, NO_FAULTS);
            && ok && 1 !in shifted
            && Content(shifted, file) == if 2 <= file <= index then Content(disk, file - 1)
                                         else if file == 1 then [] else Content(disk, file)
    decreases index
  {
    if index > 1 {
      MovedContents(disk, index - 1, file);
      MovedContents(disk, index - 1, if file > 0 then file - 1 else 0);
      var moved := Moved(disk, index - 1, index, NO_FAULTS).0;
      hide Moved;
      ShiftMovesEach(moved, index - 1, file);
    }
  }

  /** A rotation without failures moves every file one place up, loses the oldest, and starts anew. */
  lemma RotationMovesEach(s: Log, file: nat)
    ensures Content(Rotated(s, NO_FAULTS).0.disk, file) ==
            if file == 0 then [] else if file <= s.backupCount then Content(s.disk, file - 1) else Content(s.disk, file)
  {
    if s.backupCount > 0 {
      var deleted := s.disk - {s.backupCount};
      ShiftMovesEach(deleted, s.backupCount, file);
      ShiftMovesEach(deleted, s.backupCount, 0);
      var shifted := Shifted(deleted, s.backupCount, NO_FAULTS).0;
      hide Shifted;
      MovedContents(shifted, 0, file);
    }
  }

  /** A write without room, and without failures, starts a new file with its data after such a rotation. */
  lemma CrowdedWritesRotate(s: Log, data: Bytes)
    requires s.Valid() && s.handleOpen && data != [] && !IsRoomy(s, |data|)
    ensures var next := Written(s, data, NO_FAULTS).0;
            && Content(next.disk, 0) == data && next.currentSize == |data|
            && (forall k :: 1 <= k <= s.backupCount ==> Content(next.disk, k) == Content(s.disk, k - 1))
  {
    NoFaultsRotate(s);
    RotationDropsTheOldest(s, NO_FAULTS);
    RotationMovesEach(s, 0);
    hide Rotated, Chain;
    assert data[..|data|] == data;
    var next := Written(s, data, NO_FAULTS).0;
    forall k | 1 <= k <= s.backupCount
      ensures Content(next.disk, k) == Content(s.disk, k - 1)
    {
      RotationMovesEach(s, k);
    }
  }

  /**
   An opened log knows its size, and has room below its limit; one that did not open
   forgets its size, and without its directory touches nothing.
   */
  lemma OpenedHasRoom(s: Log, maxBytes: nat, count: nat, f: Faults)
    ensures var (next, ok) := Opened(s, maxBytes, count, f);
            next.Valid() && (ok <==> next.handleOpen) &&
            (ok ==> next.Stale() == 0 && next.maxBytes == maxBytes && next.backupCount == count &&
                    (maxBytes != 0 ==> next.currentSize < maxBytes)) &&
            (!ok ==> next.currentSize == 0) && (f.directory ==> !ok && next.disk == s.disk)
  {
    hide Chain, Rotated;
    var start := Closed(s).(maxBytes := maxBytes, backupCount := count);
    OpeningKeepsChain(start, f);
    RotationDropsTheOldest(OpenedCurrent(start, f).0, f);
  }

  // --------------------------------------------------------------- in place

  lemma NextPiece(base: Bytes, data: Bytes, offset: nat, size: nat)
    requires offset + size <= |data|
    ensures base + data[..offset] + data[offset..offset + size] == base + data[..offset + size]
  {
    assert data[..offset] + data[offset..offset + size] == data[..offset + size];
  }

  class RotatingLog {
    var disk: Disk
    var handleOpen: bool
    var currentSize: nat
    var maxBytes: nat
    var backupCount: nat

    function View(): Log
      reads this
    {
      Log(disk, handleOpen, currentSize, maxBytes, backupCount)
    }

    constructor (disk: Disk)
      ensures View() == Log(disk, false, 0, 0, 0)
    {
      this.disk, handleOpen, currentSize, maxBytes, backupCount := disk, false, 0, 0, 0;
    }

    method Close()
      modifies this
      ensures View() == Closed(old(View()))
    {
      handleOpen := false;
      currentSize := 0;
    }

    method OpenCurrent(f: Faults) returns (ok: bool)
      modifies this
      ensures View() == OpenedCurrent(old(View()), f).0 && ok == OpenedCurrent(old(View()), f).1
    {
      if f.opening == CannotCreate {
        return false;
      }
      disk := disk[0 := Content(disk, 0)];
      if f.opening == CannotMeasure {
        return false;
      }
      handleOpen := true;
      currentSize := |disk[0]|;
      return true;
    }

    method MoveFile(from: nat, to: nat, f: Faults) returns (ok: bool)
      modifies this`disk
      ensures disk == Moved(old(disk), from, to, f).0 && ok == Moved(old(disk), from, to, f).1
    {
      if from in f.moves {
        return false;
      }
      if from in disk {
        disk := disk[to := disk[from]] - {from};
      }
      return true;
    }

    method DeleteFile(file: nat, f: Faults) returns (ok: bool)
      modifies this`disk
      ensures disk == Deleted(old(disk), file, f).0 && ok == Deleted(old(disk), file, f).1
    {
      if f.delete {
        return false;
      }
      disk := disk - {file};
      return true;
    }

    method Rotate(f: Faults) returns (ok: bool)
      modifies this
      ensures View() == Rotated(old(View()), f).0 && ok == Rotated(old(View()), f).1
    {
      hide Moved, Deleted, OpenedCurrent;
      Close();
      if backupCount == 0 {
        ok := DeleteFile(0, f);
        if !ok {
          return;
        }
      } else {
        ok := DeleteFile(backupCount, f);
        if !ok {
          return;
        }
        ghost var start := disk;
        var index := backupCount;
        while index > 1
          invariant 1 <= index <= backupCount
          invariant Shifted(start, backupCount, f) == Shifted(disk, index, f)
          invariant View() == Closed(old(View())).(disk := disk)
        {
          var moved := MoveFile(index - 1, index, f);
          if !moved {
            return false;
          }
          index := index - 1;
        }
        ok := MoveFile(0, 1, f);
        if !ok {
          return;
        }
      }
      ok := OpenCurrent(f);
    }

    method Open(maximum: nat, backups: nat, f: Faults) returns (ok: bool)
      modifies this
      ensures View() == Opened(old(View()), maximum, backups, f).0 && ok == Opened(old(View()), maximum, backups, f).1
    {
      hide Rotated;
      Close();
      if f.directory {
        return false;
      }
      maxBytes := maximum;
      backupCount := backups;
      ok := OpenCurrent(f);
      if !ok {
        return;
      }
      if maxBytes != 0 && currentSize >= maxBytes {
        ok := Rotate(f);
      }
    }

    method WriteAll(data: Bytes, writes: seq<nat>) returns (ok: bool)
      requires 0 in disk
      modifies this`disk
      ensures disk == old(disk)[0 := old(disk)[0] + data[..Landing(|data|, writes)]]
      ensures ok <==> Landing(|data|, writes) == |data|
    {
      var offset, call := 0, 0;
      EmptyEnds(disk[0]);
      while offset < |data|
        invariant 0 <= offset <= |data| && 0 <= call <= |writes|
        invariant disk == old(disk)[0 := old(disk)[0] + data[..offset]]
        invariant offset + Landing(|data| - offset, writes[call..]) == Landing(|data|, writes)
        decreases |data| - offset
      {
        var chunk := Min(|data| - offset, LARGEST_WRITE);
        var written := if call < |writes| then Min(writes[call], chunk) else chunk;
        if written == 0 {
          return false;
        }
        disk := disk[0 := disk[0] + data[offset..offset + written]];
        NextPiece(old(disk)[0], data, offset, written);
        assert call < |writes| ==> writes[call..][1..] == writes[call + 1..];
        offset := offset + written;
        call := if call < |writes| then call + 1 else call;
      }
      return true;
    }

    method Write(data: Bytes, f: Faults) returns (ok: bool)
      requires View().Valid()
      modifies this
      ensures View() == Written(old(View()), data, f).0 && ok == Written(old(View()), data, f).1
    {
      hide Rotated, Landing;
      if !handleOpen {
        return false;
      }
      if data == [] {
        return true;
      }
      if maxBytes != 0 && currentSize != 0 && |data| > maxBytes - Min(currentSize, maxBytes) {
        RotationDropsTheOldest(View(), f);
        ok := Rotate(f);
        if !ok {
          return;
        }
      }
      ok := WriteAll(data, f.writes);
      if ok {
        currentSize := currentSize + |data|;
      }
    }
  }
}
