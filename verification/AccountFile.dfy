/** The account file of secadvisor/pkg/account_file.go as a machine of disk steps that may be
    cut off between any two of them, and in the middle of a write. A proper prefix of a JSON
    record does not parse, so that a cut write leaves a file without a record. */
module AccountFile {
  import opened Wrappers

  const VERSION := "1.1.0"

  datatype Record = Record(version: string, accumulateStart: int, accumulateEnd: int, accumulateBytes: int,
                           currentStart: int, currentEnd: int, currentBytes: int)

  datatype Content = Json(record: Record) | Torn

  datatype Disk = Disk(main: Option<Content>, bak: Option<Content>)

  /** How writing the backup ends: an error is only logged, and Add goes on. */
  datatype Write = Full | Partial | NotOpened

  function NewRecord(now: int): Record {
    Record(VERSION, now, now, 0, now, now, 0)
  }

  predicate Verified(r: Record) {
    && r.version == VERSION
    && r.accumulateStart != 0 && r.accumulateStart <= r.accumulateEnd
    && r.currentStart != 0 && r.currentStart <= r.currentEnd
  }

  predicate Readable(c: Option<Content>) {
    c.Some? && c.value.Json? && Verified(c.value.record)
  }

  /** The record of a file, or a new one with the clock that the read takes itself. */
  function ReadRecord(c: Option<Content>, clock: int): Record {
    if Readable(c) then c.value.record else NewRecord(clock)
  }

  /** One Add: its bytes, its clock reading, and the later one of the read of the backup. */
  datatype Add = Add(bytes: int, now: int, readClock: int)

  function BaseRecord(d: Disk, readClock: int): Record {
    if Readable(d.main) then d.main.value.record else ReadRecord(d.bak, readClock)
  }

  function NextRecord(d: Disk, a: Add): Record {
    var base := BaseRecord(d, a.readClock);
    base.(currentStart := a.now, currentEnd := a.now, currentBytes := a.bytes,
          accumulateEnd := a.now, accumulateBytes := base.accumulateBytes + a.bytes)
  }

  // ----- the steps of an Add

  const DONE := 4

  function CutOff(d: Disk, w: Write): Disk {
    if w.NotOpened? then d else d.(bak := Some(Torn))
  }

  function Backed(d: Disk, a: Add, w: Write): Disk {
    if w.Full? then d.(bak := Some(Json(NextRecord(d, a)))) else CutOff(d, w)
  }

  function Renamed(d: Disk): Disk {
    if d.bak.Some? then Disk(d.bak, None) else d
  }

  /** The disk after the first `k` steps: opened and cut off, written, main removed, renamed. */
  function After(d: Disk, a: Add, w: Write, k: nat): Disk {
    if k == 0 then d
    else if k == 1 then CutOff(d, w)
    else if k == 2 then Backed(d, a, w)
    else if k == 3 then Backed(d, a, w).(main := None)
    else Renamed(Backed(d, a, w).(main := None))
  }

  /** Missing, cut off, of another version, or with a time range that is missing or backward. */
  predicate IsBad(c: Option<Content>) {
    || c.None? || c.value.Torn? || c.value.record.version != "1.1.0"
    || c.value.record.accumulateStart == 0 || c.value.record.accumulateStart > c.value.record.accumulateEnd
    || c.value.record.currentStart == 0 || c.value.record.currentStart > c.value.record.currentEnd
  }

  class AccountStore {
    var main: Option<Content>
    var bak: Option<Content>

    constructor (d: Disk)
      ensures View() == d
    {
      main, bak := d.main, d.bak;
    }

    ghost function View(): Disk
      reads this
    {
      Disk(main, bak)
    }

    method Read(c: Option<Content>, clock: int) returns (r: Record, ok: bool)
      ensures r == ReadRecord(c, clock) && (ok <==> Readable(c))
      ensures ok ==> c == Some(Json(r)) && !IsBad(c)
      ensures !ok ==> r == Record("1.1.0", clock, clock, 0, clock, clock, 0) && IsBad(c)
    {
      if c.None? || c.value.Torn? {
        return NewRecord(clock), false;
      }
      var record := c.value.record;
      if record.version != VERSION {
        return NewRecord(clock), false;
      }
      if record.accumulateStart == 0 || record.accumulateStart > record.accumulateEnd {
        return NewRecord(clock), false;
      }
      if record.currentStart == 0 || record.currentStart > record.currentEnd {
        return NewRecord(clock), false;
      }
      return record, true;
    }

    /** Add, cut off after `steps` disk steps; a complete one makes all of them. */
    method AddBytes(a: Add, w: Write, steps: nat)
      modifies this
      ensures View() == After(old(View()), a, w, steps)
    {
      var record, ok := Read(main, a.now);
      if !ok {
        record, ok := Read(bak, a.readClock);
      }
      record := record.(currentStart := a.now, currentEnd := a.now, currentBytes := a.bytes);
      record := record.(accumulateEnd := a.now, accumulateBytes := record.accumulateBytes + a.bytes);
      if steps == 0 { return; }
      if !w.NotOpened? { bak := Some(Torn); }
      if steps == 1 { return; }
      if w.Full? { bak := Some(Json(record)); }
      if steps == 2 { return; }
      main := None;
      if steps == 3 { return; }
      if bak.Some? {
        main := bak;
        bak := None;
      }
    }

    method Reset()
      modifies this
      ensures View() == Disk(None, None)
    {
      main := None;
      bak := None;
    }
  }

  // ----- what can be recovered

  /** The total from which the next Add goes on. */
  function Total(d: Disk): int {
    if Readable(d.main) then d.main.value.record.accumulateBytes
    else if Readable(d.bak) then d.bak.value.record.accumulateBytes
    else 0
  }

  predicate StartsBefore(c: Option<Content>, now: int) {
    Readable(c) ==> c.value.record.accumulateStart <= now
  }

  /** The clock has moved on since the records of the disk were begun. */
  predicate Forward(d: Disk, a: Add) {
    a.now > 0 && StartsBefore(d.main, a.now) && StartsBefore(d.bak, a.now)
  }

  /** The record of an Add can be read back if and only if the clock is not behind the record
      it continues; a new record takes the later clock of the read, and must not be ahead. */
  lemma NextVerifiedIff(d: Disk, a: Add)
    ensures Verified(NextRecord(d, a)) <==>
      a.now != 0 && BaseRecord(d, a.readClock).accumulateStart <= a.now
        && (Readable(d.main) || Readable(d.bak) || a.readClock != 0)
  {
  }

  predicate Missing(d: Disk) { !Readable(d.main) }

  /** One clock reading per Add, or a record on disk to continue. */
  predicate OneClock(d: Disk, a: Add) {
    Readable(d.main) || Readable(d.bak) || a.readClock == a.now
  }

  /** An Add with a full write, cut off anywhere, leaves the total before or after it, if and
      only if it is not cut off in the write while the backup is all there is. */
  lemma CrashKeepsTotalIff(d: Disk, a: Add, k: nat)
    requires Forward(d, a) && OneClock(d, a) && k <= DONE
    ensures
      var total := Total(After(d, a, Full, k));
      total == Total(d) + (if k >= 3 || (Missing(d) && k == 2) then a.bytes else 0)
      <==> !(Missing(d) && k == 1 && Total(d) != 0)
    ensures k == DONE ==> Readable(After(d, a, Full, k).main)
    ensures Missing(After(d, a, Full, k)) <==> k == 3 || (Missing(d) && k < DONE)
  {
    NextVerifiedIff(d, a);
  }

  /** A complete Add with a full write leaves one file: the update as the current one, and the
      total with it, counted since the record that it continues was begun. */
  lemma CompleteAddWrites(d: Disk, a: Add)
    requires Forward(d, a) && OneClock(d, a)
    ensures
      var d' := After(d, a, Full, DONE);
      && d'.bak == None && d'.main.Some? && d'.main.value.Json?
      && var r := d'.main.value.record;
         && r.currentStart == r.currentEnd == r.accumulateEnd == a.now && r.currentBytes == a.bytes
         && r.accumulateBytes == Total(d) + a.bytes
         && r.accumulateStart ==
            (if !IsBad(d.main) then d.main.value.record.accumulateStart
             else if !IsBad(d.bak) then d.bak.value.record.accumulateStart else a.now)
         && !IsBad(d'.main)
  {
    NextVerifiedIff(d, a);
  }

  // ----- runs of Adds

  datatype Step = Step(add: Add, steps: nat)

  function Run(d: Disk, steps: seq<Step>): Disk {
    if steps == [] then d
    else After(Run(d, Front(steps)), Last(steps).add, Full, Last(steps).steps)
  }

  predicate Complete(s: Step) { s.steps == DONE }

  /** A forward, positive clock, read once per Add. */
  predicate Proper(steps: seq<Step>) {
    && (forall s | s in steps :: s.steps <= DONE && s.add.now > 0 && s.add.readClock == s.add.now)
    && forall i, j | 0 <= i < j < |steps| :: steps[i].add.now <= steps[j].add.now
  }

  predicate NeverTwiceCut(steps: seq<Step>) {
    forall i | 0 <= i < |steps| - 1 :: Complete(steps[i]) || Complete(steps[i + 1])
  }

  /** The Adds that count: the complete ones, and those cut off after the main file was
      removed, or after the write when no main file was there. */
  function Counted(d: Disk, steps: seq<Step>): int {
    if steps == [] then 0
    else
      var s := Last(steps);
      Counted(d, Front(steps)) +
      if s.steps >= 3 || (Missing(Run(d, Front(steps))) && s.steps == 2) then s.add.bytes else 0
  }

  /** No write is cut off while the backup is all there is. */
  predicate NeverCutBare(d: Disk, steps: seq<Step>) {
    steps == [] || (NeverCutBare(d, Front(steps)) &&
                    !(Missing(Run(d, Front(steps))) && Last(steps).steps == 1 && Total(Run(d, Front(steps))) != 0))
  }

  lemma {:induction false} RunStartsBefore(d: Disk, steps: seq<Step>, now: int)
    requires Proper(steps) && StartsBefore(d.main, now) && StartsBefore(d.bak, now)
    requires forall s | s in steps :: s.add.now <= now
    ensures StartsBefore(Run(d, steps).main, now) && StartsBefore(Run(d, steps).bak, now)
  {
    if steps != [] {
      assert forall s | s in Front(steps) :: s in steps;
      assert Last(steps) in steps;
      RunStartsBefore(d, Front(steps), now);
    }
  }

  /** In every run, the total is the initial one plus the Adds that count, as long as no write
      was cut off while the backup was all there was. */
  lemma {:induction false} RunTotal(d: Disk, steps: seq<Step>)
    requires Proper(steps) && NeverCutBare(d, steps)
    requires forall s | s in steps :: StartsBefore(d.main, s.add.now) && StartsBefore(d.bak, s.add.now)
    ensures Total(Run(d, steps)) == Total(d) + Counted(d, steps)
  {
    if steps != [] {
      var front, s := Front(steps), Last(steps);
      assert s in steps && forall x | x in front :: x in steps && x.add.now <= s.add.now;
      RunTotal(d, front);
      RunStartsBefore(d, front, s.add.now);
      CrashKeepsTotalIff(Run(d, front), s.add, s.steps);
    }
  }

  /** And only then: with bytes and an initial total that are not negative, a run in which a write
      is cut off while the backup is all there is ends below that sum. */
  lemma {:induction false} RunTotalIff(d: Disk, steps: seq<Step>)
    requires Proper(steps) && Total(d) >= 0 && forall s | s in steps :: s.add.bytes >= 0
    requires forall s | s in steps :: StartsBefore(d.main, s.add.now) && StartsBefore(d.bak, s.add.now)
    ensures 0 <= Total(Run(d, steps)) <= Total(d) + Counted(d, steps)
    ensures Total(Run(d, steps)) == Total(d) + Counted(d, steps) <==> NeverCutBare(d, steps)
  {
    if steps != [] {
      var front, s := Front(steps), Last(steps);
      assert s in steps && forall x | x in front :: x in steps && x.add.now <= s.add.now;
      RunTotalIff(d, front);
      RunStartsBefore(d, front, s.add.now);
      CrashKeepsTotalIff(Run(d, front), s.add, s.steps);
    }
  }

  /** Two cut Adds in a row are needed for that: from a disk with a main file, a run in which
      none follow each other never loses anything that counts. */
  lemma {:induction false} NotTwiceCutIsSafe(d: Disk, steps: seq<Step>)
    requires Proper(steps) && NeverTwiceCut(steps) && Readable(d.main)
    requires forall s | s in steps :: StartsBefore(d.main, s.add.now) && StartsBefore(d.bak, s.add.now)
    ensures NeverCutBare(d, steps)
    ensures steps == [] || Complete(Last(steps)) ==> Readable(Run(d, steps).main)
  {
    if steps != [] {
      var front, s := Front(steps), Last(steps);
      assert s in steps && forall x | x in front :: x in steps && x.add.now <= s.add.now;
      NotTwiceCutIsSafe(d, front);
      if front != [] { assert Complete(steps[|steps| - 2]) || Complete(steps[|steps| - 1]); }
      RunStartsBefore(d, front, s.add.now);
      CrashKeepsTotalIff(Run(d, front), s.add, s.steps);
    }
  }

  /** A second cut can lose the whole total: after one between removal and renaming, one in
      the write of the next Add leaves no record at all. */
  lemma TwiceCutLosesAll(d: Disk, a: Add, b: Add)
    requires Forward(d, a) && Readable(d.main)
    ensures Total(Run(d, [Step(a, 3), Step(b, 1)])) == 0
    ensures Total(Run(d, [Step(a, 3)])) == Total(d) + a.bytes
  {
    assert Front([Step(a, 3), Step(b, 1)]) == [Step(a, 3)] && Front([Step(a, 3)]) == [];
    CrashKeepsTotalIff(d, a, 3);
  }

  // ----- failed writes and ticking clocks

  /** After a complete Add with a failed write nothing is added, and the total is that of the
      backup there was, if the write did not even start, and otherwise lost. */
  lemma FailedWriteLosesTotal(d: Disk, a: Add, w: Write)
    requires !w.Full?
    ensures
      var total, kept := Total(After(d, a, w, DONE)), w.NotOpened? && Readable(d.bak);
      && total == (if kept then d.bak.value.record.accumulateBytes else 0)
      && (total == Total(d) <==>
            if kept then Missing(d) || d.main.value.record.accumulateBytes == d.bak.value.record.accumulateBytes
            else Total(d) == 0)
  {
  }

  /** On a disk without a readable file, an Add of some bytes is recorded if and only if the clock
      has not moved between its own reading and that of the read: otherwise the new record begins
      after it ends and does not verify. */
  lemma FirstAddRecordedIff(d: Disk, a: Add)
    requires !Readable(d.main) && !Readable(d.bak) && 0 < a.now <= a.readClock && a.bytes != 0
    ensures Total(After(d, a, Full, DONE)) == a.bytes <==> a.readClock == a.now
  {
    NextVerifiedIff(d, a);
  }
}
