/**
 The rolling log file of log_server/log_file.cpp.  A file is named by its date and its
 sequence number; dates are day numbers and come from outside, as do the answers of fopen
 (success or not) and fwrite (how many bytes).  `Disk` is what the directory holds.
 */
module LogFile {
  import opened Bytes

  type Date = nat

  datatype Name = Name(date: Date, number: nat)

  type Disk = map<Name, bytes>

  /** Larger sequence numbers are ignored by the scan. */
  const SCAN_LIMIT := 1_000_000

  /** The state of one LogFile object; `date` is None before its first roll. */
  datatype Writer = Writer(isOpen: bool, date: Option<Date>, number: nat, written: nat)

  const FRESH := Writer(false, None, 0, 0)

  /** What the scan finds: the largest usable sequence number of the day, 0 if none. */
  ghost predicate IsScanResult(disk: Disk, date: Date, max: nat) {
    && max <= SCAN_LIMIT
    && (max > 0 ==> Name(date, max) in disk)
    && (forall n: nat :: 1 <= n <= SCAN_LIMIT && Name(date, n) in disk ==> n <= max)
  }

  datatype Result = Result(w: Writer, disk: Disk)

  /** open_file: append mode creates a missing file and keeps an existing one. */
  function OpenFile(w: Writer, disk: Disk, date: Date, number: nat, ok: bool): Result {
    var name := Name(date, number);
    if !ok then
      Result(Writer(false, Some(date), number, 0), disk)
    else
      var after := if name in disk then disk else disk[name := []];
      Result(Writer(true, Some(date), number, |after[name]|), after)
  }

  /** The number the first roll of an object chooses for today. */
  function FirstNumber(disk: Disk, today: Date, rollSize: nat, max: nat): nat {
    if max == 0 then 1
    else if Name(today, max) in disk && |disk[Name(today, max)]| < rollSize then max
    else max + 1
  }

  /** roll_if_needed. */
  function Rolled(w: Writer, disk: Disk, today: Date, rollSize: nat, max: nat, ok: bool): Result {
    if w.date.Some? && w.date.value != today then OpenFile(w, disk, today, 1, ok)
    else if w.isOpen && w.date.Some? && w.written >= rollSize then OpenFile(w, disk, w.date.value, w.number + 1, ok)
    else if !w.isOpen then OpenFile(w, disk, today, FirstNumber(disk, today, rollSize, max), ok)
    else Result(w, disk)
  }

  function Current(w: Writer): Name
    requires w.date.Some?
  {
    Name(w.date.value, w.number)
  }

  /** The write of append, of which the library takes n bytes. */
  function Wrote(r: Result, data: bytes): Result {
    if !r.w.isOpen || r.w.date.None? || Current(r.w) !in r.disk then r
    else Result(r.w.(written := r.w.written + |data|), r.disk[Current(r.w) := r.disk[Current(r.w)] + data])
  }

  class FileSystem {
    var files: Disk
    constructor (disk: Disk)
      ensures files == disk
    {
      files := disk;
    }
  }

  class LogFile {
    const fs: FileSystem
    const rollSize: nat
    var isOpen: bool
    var currentDate: Option<Date>
    var currentSeq: nat
    var writtenBytes: nat

    ghost function View(): Writer
      reads this
    {
      Writer(isOpen, currentDate, currentSeq, writtenBytes)
    }

    /** The open file exists. */
    ghost predicate Valid()
      reads this, fs
    {
      isOpen ==> currentDate.Some? && Name(currentDate.value, currentSeq) in fs.files
    }

    constructor (fs: FileSystem, rollSize: nat, today: Date, listing: seq<Name>, ok: bool)
      requires forall n :: n in listing <==> n in fs.files
      modifies fs
      ensures this.fs == fs && this.rollSize == rollSize && Valid()
      ensures forall max :: IsScanResult(old(fs.files), today, max) ==>
                Result(View(), fs.files) == Rolled(FRESH, old(fs.files), today, rollSize, max, ok)
    {
      this.fs := fs;
      this.rollSize := rollSize;
      isOpen, currentDate, currentSeq, writtenBytes := false, None, 0, 0;
      new;
      RollIfNeeded(today, listing, ok);
    }

    /** One pass over the directory for the largest number of the day within the limit. */
    method ScanTodayMaxSeq(listing: seq<Name>, date: Date) returns (max: nat)
      requires forall n :: n in listing <==> n in fs.files
      ensures IsScanResult(fs.files, date, max)
    {
      max := 0;
      for i := 0 to |listing|
        invariant max <= SCAN_LIMIT && (max > 0 ==> Name(date, max) in fs.files)
        invariant forall n: nat :: 1 <= n <= SCAN_LIMIT && Name(date, n) in listing[..i] ==> n <= max
      {
        var entry := listing[i];
        assert entry in fs.files;
        assert forall n :: n in listing[..i + 1] <==> n in listing[..i] || n == entry;
        if entry.date == date && 0 < entry.number <= SCAN_LIMIT && entry.number > max {
          max := entry.number;
        }
      }
      assert listing[..|listing|] == listing;
    }

    method OpenCurrent(date: Date, number: nat, ok: bool)
      modifies this, fs
      ensures Valid() && Result(View(), fs.files) == OpenFile(old(View()), old(fs.files), date, number, ok)
    {
      isOpen := false;
      currentDate := Some(date);
      currentSeq := number;
      if !ok {
        writtenBytes := 0;
        return;
      }
      var name := Name(date, number);
      if name !in fs.files {
        fs.files := fs.files[name := []];
      }
      isOpen := true;
      writtenBytes := |fs.files[name]|;
    }

    method RollIfNeeded(today: Date, listing: seq<Name>, ok: bool)
      requires Valid()
      requires forall n :: n in listing <==> n in fs.files
      modifies this, fs
      ensures Valid()
      ensures forall max :: IsScanResult(old(fs.files), today, max) ==>
                Result(View(), fs.files) == Rolled(old(View()), old(fs.files), today, rollSize, max, ok)
    {
      if currentDate.Some? && today != currentDate.value {
        OpenCurrent(today, 1, ok);
        return;
      }
      if isOpen && writtenBytes >= rollSize {
        OpenCurrent(currentDate.value, currentSeq + 1, ok);
        return;
      }
      if !isOpen {
        var max := ScanTodayMaxSeq(listing, today);
        var number := 1;
        if max != 0 {
          if |fs.files[Name(today, max)]| < rollSize {
            number := max;
          } else {
            number := max + 1;
          }
        }
        OpenCurrent(today, number, ok);
      }
    }

    /** append: rolls first, then writes; n is what fwrite reports. */
    method Append(data: bytes, today: Date, listing: seq<Name>, ok: bool, n: nat)
      requires Valid() && n <= |data|
      requires forall name :: name in listing <==> name in fs.files
      modifies this, fs
      ensures Valid()
      ensures forall max :: IsScanResult(old(fs.files), today, max) ==>
                Result(View(), fs.files) ==
                Wrote(Rolled(old(View()), old(fs.files), today, rollSize, max, ok), data[..n])
    {
      RollIfNeeded(today, listing, ok);
      if !isOpen {
        return;
      }
      var name := Name(currentDate.value, currentSeq);
      fs.files := fs.files[name := fs.files[name] + data[..n]];
      writtenBytes := writtenBytes + n;
    }
  }

  // ----- whole runs, with restarts -----

  datatype State = State(
    running: bool,                  // is there a LogFile object?
    w: Writer,
    disk: Disk,
    rollSize: nat,
    day: Date,                      // the latest date seen
    text: bytes,                    // history: everything written, in order
    count: map<Date, nat>,          // history: how many files each day has
    last: map<Name, nat>)           // history: size of the last write to each file

  datatype Event =
    | Start(today: Date, max: nat, ok: bool)
    | Append(data: bytes, today: Date, max: nat, ok: bool, n: nat)
    | Stop

  function Init(rollSize: nat): State {
    State(false, FRESH, map[], rollSize, 0, [], map[], map[])
  }

  function RolledBy(s: State, today: Date, max: nat, ok: bool): Result {
    Rolled(s.w, s.disk, today, s.rollSize, max, ok)
  }

  /** Dates do not go back, the scan result is right, and numbers stay within the limit. */
  ghost predicate Enabled(s: State, e: Event) {
    match e
    case Start(today, max, ok) =>
      && !s.running && s.day <= today && IsScanResult(s.disk, today, max)
      && RolledBy(s.(w := FRESH), today, max, ok).w.number <= SCAN_LIMIT
    case Append(data, today, max, ok, n) =>
      && s.running && s.day <= today && IsScanResult(s.disk, today, max) && n <= |data|
      && RolledBy(s, today, max, ok).w.number <= SCAN_LIMIT
    case Stop => s.running
  }

  /** Rolling, with the histories: a new file is one more of its day. */
  function RollState(s: State, today: Date, max: nat, ok: bool): State {
    var r := RolledBy(s, today, max, ok);
    s.(w := r.w, disk := r.disk, day := today,
       count := if r.disk == s.disk || r.w.date.None? then s.count else s.count[r.w.date.value := r.w.number])
  }

  function WriteState(s: State, data: bytes): State {
    if !s.w.isOpen || s.w.date.None? || Current(s.w) !in s.disk then s
    else
      var r := Wrote(Result(s.w, s.disk), data);
      s.(w := r.w, disk := r.disk, text := s.text + data, last := s.last[Current(s.w) := |data|])
  }

  ghost function Next(s: State, e: Event): State
    requires Enabled(s, e)
  {
    match e
    case Start(today, max, ok) => RollState(s.(w := FRESH), today, max, ok).(running := true)
    case Append(data, today, max, ok, n) => WriteState(RollState(s, today, max, ok), data[..n])
    case Stop => s.(running := false, w := FRESH)
  }

  ghost predicate CanRun(s: State, es: seq<Event>)
    decreases |es|
  {
    es == [] || (Enabled(s, es[0]) && CanRun(Next(s, es[0]), es[1..]))
  }

  ghost function Exec(s: State, es: seq<Event>): State
    requires CanRun(s, es)
    decreases |es|
  {
    if es == [] then s else Exec(Next(s, es[0]), es[1..])
  }

  // ----- what the directory looks like -----

  function Content(disk: Disk, name: Name): bytes {
    if name in disk then disk[name] else []
  }

  /** The files 1..n of one day, one after the other. */
  function DayText(disk: Disk, date: Date, n: nat): bytes {
    if n == 0 then [] else DayText(disk, date, n - 1) + Content(disk, Name(date, n))
  }

  /** All files of the days before `end`, in (date, number) order. */
  function DiskText(disk: Disk, end: Date): bytes {
    if end == 0 then [] else DiskText(disk, end - 1) + DayText(disk, end - 1, SCAN_LIMIT)
  }

  function Count(count: map<Date, nat>, date: Date): nat {
    if date in count then count[date] else 0
  }

  /** Each day's files are numbered exactly 1..k. */
  ghost predicate Numbered(s: State) {
    && (forall name :: name in s.disk <==> 1 <= name.number <= Count(s.count, name.date))
    && (forall d: Date :: Count(s.count, d) <= SCAN_LIMIT && (Count(s.count, d) > 0 ==> d <= s.day))
  }

  /** All files of a day but its last have reached the roll size. */
  ghost predicate Filled(s: State) {
    forall name :: name in s.disk && name.number < Count(s.count, name.date) ==> |s.disk[name]| >= s.rollSize
  }

  /** A file was below the roll size, or empty, before the last write to it. */
  ghost predicate Bounded(s: State) {
    && s.last.Keys <= s.disk.Keys
    && (forall name :: name in s.disk && name !in s.last ==> s.disk[name] == [])
    && (forall name :: name in s.last ==>
          && s.last[name] <= |s.disk[name]|
          && (|s.disk[name]| == s.last[name] || |s.disk[name]| - s.last[name] < s.rollSize))
  }

  /** The writer stands at the last file of the last day that has files. */
  ghost predicate AtTheEnd(s: State) {
    && (s.w.date.Some? ==> s.w.date.value <= s.day && forall d: Date :: Count(s.count, d) > 0 ==> d <= s.w.date.value)
    && (s.w.isOpen ==> s.w.date.Some? && s.w.number >= 1 && s.w.number == Count(s.count, s.w.date.value) &&
                       Current(s.w) in s.disk && s.w.written == |s.disk[Current(s.w)]|)
  }

  ghost predicate Complete(s: State) {
    DiskText(s.disk, s.day + 1) == s.text
  }

  ghost predicate Tidy(s: State) {
    Numbered(s) && Filled(s) && Bounded(s) && AtTheEnd(s) && Complete(s)
  }

  ghost predicate Inv(s: State) {
    Tidy(s) && (!s.running ==> s.w == FRESH)
  }

  // ----- the text of the directory -----

  lemma {:induction false} DayTextSame(a: Disk, b: Disk, date: Date, n: nat)
    requires forall name :: Content(a, name) == Content(b, name)
    ensures DayText(a, date, n) == DayText(b, date, n)
  {
    if n == 0 {
    } else {
      DayTextSame(a, b, date, n - 1);
    }
  }

  lemma {:induction false} DiskTextSame(a: Disk, b: Disk, end: Date)
    requires forall name :: Content(a, name) == Content(b, name)
    ensures DiskText(a, end) == DiskText(b, end)
  {
    if end == 0 {
    } else {
      DiskTextSame(a, b, end - 1);
      DayTextSame(a, b, end - 1, SCAN_LIMIT);
    }
  }

  lemma {:induction false} EmptyDay(disk: Disk, date: Date, n: nat)
    requires forall name :: name in disk ==> name.date != date
    ensures DayText(disk, date, n) == []
  {
    if n == 0 {
    } else {
      EmptyDay(disk, date, n - 1);
    }
  }

  lemma {:induction false} LaterDays(disk: Disk, from: Date, to: Date)
    requires from <= to && forall name :: name in disk ==> name.date < from
    ensures DiskText(disk, to) == DiskText(disk, from)
  {
    if from == to {
    } else {
      LaterDays(disk, from, to - 1);
      EmptyDay(disk, to - 1, SCAN_LIMIT);
    }
  }

  lemma {:induction false} DayTextGrows(disk: Disk, name: Name, data: bytes, n: nat)
    requires name in disk && name.number >= 1 && forall x :: x in disk && x.date == name.date ==> x.number <= name.number
    ensures DayText(disk[name := disk[name] + data], name.date, n) ==
            DayText(disk, name.date, n) + if n >= name.number then data else []
  {
    var grown := disk[name := disk[name] + data];
    if n == 0 {
    } else {
      DayTextGrows(disk, name, data, n - 1);
      if n == name.number {
        assert DayText(disk, name.date, n - 1) + (disk[name] + data) == DayText(disk, name.date, n) + data;
      } else if n > name.number {
        assert Content(disk, Name(name.date, n)) == [] == Content(grown, Name(name.date, n));
      }
    }
  }

  lemma {:induction false} OtherDay(disk: Disk, name: Name, data: bytes, date: Date, n: nat)
    requires name in disk && name.date != date
    ensures DayText(disk[name := disk[name] + data], date, n) == DayText(disk, date, n)
  {
    if n == 0 {
    } else {
      OtherDay(disk, name, data, date, n - 1);
    }
  }

  /** Writing to the last file of the last day appends to the text of the directory. */
  lemma {:induction false} TextGrows(disk: Disk, name: Name, data: bytes, end: Date)
    requires name in disk && 1 <= name.number <= SCAN_LIMIT
    requires forall x :: x in disk ==> x.date <= name.date && (x.date == name.date ==> x.number <= name.number)
    ensures DiskText(disk[name := disk[name] + data], end) ==
            DiskText(disk, end) + if end > name.date then data else []
  {
    hide DayText;
    if end == 0 {
    } else {
      TextGrows(disk, name, data, end - 1);
      if end - 1 == name.date {
        DayTextGrows(disk, name, data, SCAN_LIMIT);
        assert DiskText(disk, end - 1) + (DayText(disk, end - 1, SCAN_LIMIT) + data) == DiskText(disk, end) + data;
      } else {
        OtherDay(disk, name, data, end - 1, SCAN_LIMIT);
        if end - 1 > name.date {
          EmptyDay(disk, end - 1, SCAN_LIMIT);
        }
      }
    }
  }

  // ----- every step -----

  lemma ScanFindsTheLast(s: State, today: Date, max: nat)
    requires Numbered(s) && IsScanResult(s.disk, today, max)
    ensures max == Count(s.count, today)
  {
    var k := Count(s.count, today);
    assert k > 0 ==> Name(today, k) in s.disk;
    assert max > 0 ==> Name(today, max) in s.disk;
  }

  /** Standing still, or going back to an existing last file. */
  lemma Reopen(s: State, t: State)
    requires Tidy(s) && s.day <= t.day
    requires t == s.(w := t.w, day := t.day, running := t.running)
    requires AtTheEnd(t)
    ensures Tidy(t)
  {
    hide DiskText;
    assert forall name :: name in s.disk ==> name.date < s.day + 1;
    LaterDays(s.disk, s.day + 1, t.day + 1);
  }

  /** A new last file: the next number of its day, after the last has been filled. */
  lemma NewFile(s: State, t: State, date: Date, number: nat)
    requires Tidy(s) && s.day <= t.day && date <= t.day
    requires forall d: Date :: Count(s.count, d) > 0 ==> d <= date
    requires number == Count(s.count, date) + 1 <= SCAN_LIMIT
    requires number > 1 ==> |Content(s.disk, Name(date, number - 1))| >= s.rollSize
    requires t == s.(w := Writer(true, Some(date), number, 0), disk := s.disk[Name(date, number) := []],
                     day := t.day, count := s.count[date := number])
    ensures Tidy(t)
  {
    assert forall d: Date :: Count(t.count, d) == if d == date then number else Count(s.count, d);
    NewFileNumbers(s, t, date, number);
    NewFileText(s, t, date, number);
    hide Numbered, Filled, Bounded, Complete;
  }

  lemma NewFileNumbers(s: State, t: State, date: Date, number: nat)
    requires Numbered(s) && Filled(s) && Bounded(s) && s.day <= t.day && date <= t.day
    requires number == Count(s.count, date) + 1 <= SCAN_LIMIT
    requires number > 1 ==> |Content(s.disk, Name(date, number - 1))| >= s.rollSize
    requires forall d: Date :: Count(t.count, d) == if d == date then number else Count(s.count, d)
    requires t.disk == s.disk[Name(date, number) := []] && t.last == s.last && t.rollSize == s.rollSize
    ensures Numbered(t) && Filled(t) && Bounded(t)
  {
    hide Count;
    assert Name(date, number) !in s.disk;
    assert Name(date, number) !in s.last;
  }

  lemma NewFileText(s: State, t: State, date: Date, number: nat)
    requires Numbered(s) && Complete(s) && s.day <= t.day && number == Count(s.count, date) + 1
    requires t.disk == s.disk[Name(date, number) := []] && t.text == s.text
    ensures Complete(t)
  {
    assert Name(date, number) !in s.disk;
    assert forall x :: Content(s.disk, x) == Content(t.disk, x);
    assert forall x :: x in s.disk ==> x.date < s.day + 1;
    hide DiskText, Numbered, Count, Content;
    DiskTextSame(s.disk, t.disk, t.day + 1);
    LaterDays(s.disk, s.day + 1, t.day + 1);
  }

  /** There is room: the open file is below the roll size, or still empty. */
  ghost predicate Room(s: State) {
    s.w.isOpen && s.w.date.Some? ==> s.w.written < s.rollSize || Content(s.disk, Current(s.w)) == []
  }

  /** A roll either creates the next file or leaves the directory alone. */
  lemma RollChooses(s: State, today: Date, max: nat, ok: bool)
    requires Numbered(s) && AtTheEnd(s) && s.day <= today && max == Count(s.count, today)
    ensures var t := RollState(s, today, max, ok);
            var created := t.w.isOpen && t.w.date.Some? && Current(t.w) !in s.disk;
            && (created ==>
                  && t.w.date.value == today
                  && t.w.number == Count(s.count, today) + 1
                  && (t.w.number > 1 ==> |Content(s.disk, Name(today, t.w.number - 1))| >= s.rollSize)
                  && t == s.(w := Writer(true, Some(today), t.w.number, 0), disk := s.disk[Current(t.w) := []],
                             day := today, count := s.count[today := t.w.number]))
            && (!created ==> t == s.(w := t.w, day := today) && AtTheEnd(t))
            && Room(t)
  {
    assert forall d: Date :: Count(s.count, d) > 0 ==> d <= today;
    var t := RollState(s, today, max, ok);
    if t.w.isOpen && Current(t.w) !in s.disk {
      assert t.disk[Current(t.w)] == [] && t.disk != s.disk;
    }
  }

  lemma RollKeeps(s: State, today: Date, max: nat, ok: bool)
    requires Tidy(s) && s.day <= today && IsScanResult(s.disk, today, max)
    requires RolledBy(s, today, max, ok).w.number <= SCAN_LIMIT
    ensures Tidy(RollState(s, today, max, ok)) && Room(RollState(s, today, max, ok))
  {
    ScanFindsTheLast(s, today, max);
    RollChooses(s, today, max, ok);
    assert forall d: Date :: Count(s.count, d) > 0 ==> d <= today;
    var t := RollState(s, today, max, ok);
    hide Numbered, Filled, Bounded, Complete, AtTheEnd, Room, Rolled;
    if t.w.isOpen && t.w.date.Some? && Current(t.w) !in s.disk {
      NewFile(s, t, today, t.w.number);
    } else {
      Reopen(s, t);
    }
  }

  lemma WriteKeeps(s: State, data: bytes)
    requires Tidy(s) && Room(s)
    ensures Tidy(WriteState(s, data))
  {
    if s.w.isOpen {
      WriteText(s, data);
      hide Complete, Count;
    }
  }

  lemma WriteText(s: State, data: bytes)
    requires Tidy(s) && s.w.isOpen
    ensures Complete(WriteState(s, data))
  {
    hide DiskText, Filled, Bounded;
    assert forall x :: x in s.disk ==> x.date <= s.w.date.value;
    TextGrows(s.disk, Current(s.w), data, s.day + 1);
  }

  lemma Preserved(s: State, e: Event)
    requires Inv(s) && Enabled(s, e)
    ensures Inv(Next(s, e))
  {
    hide Filled, Bounded, Complete, Rolled, Wrote;
    match e
    case Start(today, max, ok) =>
      RollKeeps(s, today, max, ok);
      var t := RollState(s, today, max, ok);
      Reopen(t, t.(running := true));
    case Append(data, today, max, ok, n) =>
      RollKeeps(s, today, max, ok);
      WriteKeeps(RollState(s, today, max, ok), data[..n]);
    case Stop =>
      Reopen(s, s.(running := false, w := FRESH));
  }

  lemma {:induction false} RunFrom(s: State, es: seq<Event>)
    requires Inv(s) && CanRun(s, es)
    ensures Inv(Exec(s, es))
    decreases |es|
  {
    if es == [] {
    } else {
      hide Inv, Next, Enabled;
      Preserved(s, es[0]);
      RunFrom(Next(s, es[0]), es[1..]);
    }
  }

  /** Over every run of starts, appends and stops, with failing opens and short writes: each
      day's files are 1..k, all but the k-th have reached the roll size, each is smaller than
      the roll size plus its last write, and together they are everything written. */
  lemma EveryRun(rollSize: nat, es: seq<Event>)
    requires CanRun(Init(rollSize), es)
    ensures var s := Exec(Init(rollSize), es);
            && Numbered(s) && Filled(s)
            && (rollSize > 0 ==> forall name :: name in s.disk ==>
                  |s.disk[name]| < rollSize + if name in s.last then s.last[name] else 0)
            && DiskText(s.disk, s.day + 1) == s.text
  {
    hide CanRun, Exec, Next, Enabled;
    InitInv(rollSize);
    RunFrom(Init(rollSize), es);
    SameRollSize(Init(rollSize), es);
  }

  lemma InitInv(rollSize: nat)
    ensures Inv(Init(rollSize))
  {
    assert DayText(map[], 0, SCAN_LIMIT) == [] by { EmptyDay(map[], 0, SCAN_LIMIT); }
    assert DiskText(map[], 1) == DiskText(map[], 0) + DayText(map[], 0, SCAN_LIMIT);
  }

  lemma {:induction false} SameRollSize(s: State, es: seq<Event>)
    requires CanRun(s, es)
    ensures Exec(s, es).rollSize == s.rollSize
    decreases |es|
  {
    if es == [] {
    } else {
      SameRollSize(Next(s, es[0]), es[1..]);
    }
  }

  /** After a restart on a day whose files are 1..k, all but the last filled, writing goes on
      at the end exactly when the scan limit has not hidden the last file from it. */
  lemma RestartResumesIff(disk: Disk, today: Date, rollSize: nat, max: nat, k: nat)
    requires k >= 1 && IsScanResult(disk, today, max)
    requires forall n: nat :: Name(today, n) in disk <==> 1 <= n <= k
    requires forall n: nat :: 1 <= n < k ==> |disk[Name(today, n)]| >= rollSize
    ensures var roomLeft := |disk[Name(today, k)]| < rollSize;
            FirstNumber(disk, today, rollSize, max) == (if roomLeft then k else k + 1)
            <==> k <= SCAN_LIMIT || (k == SCAN_LIMIT + 1 && roomLeft)
  {
    assert max == if k <= SCAN_LIMIT then k else SCAN_LIMIT by {
      assert Name(today, if k <= SCAN_LIMIT then k else SCAN_LIMIT) in disk;
      assert max > 0 ==> Name(today, max) in disk;
    }
  }

  /** A day of filled files that the scan cannot see the end of. */
  ghost function ManyFiles(today: Date, rollSize: nat): Disk {
    map n: nat | 1 <= n <= SCAN_LIMIT + 2 :: Name(today, n) := seq(rollSize, _ => 0)
  }

  /** With files up to two beyond the limit, all filled, a restart goes back to the one just
      beyond it instead of on to a new one. */
  lemma RestartGoesBack(today: Date, rollSize: nat)
    ensures IsScanResult(ManyFiles(today, rollSize), today, SCAN_LIMIT)
    ensures FirstNumber(ManyFiles(today, rollSize), today, rollSize, SCAN_LIMIT) == SCAN_LIMIT + 1
    ensures Name(today, SCAN_LIMIT + 1) in ManyFiles(today, rollSize) && Name(today, SCAN_LIMIT + 2) in ManyFiles(today, rollSize)
  {
    var disk := ManyFiles(today, rollSize);
    assert forall n: nat :: Name(today, n) in disk <==> 1 <= n <= SCAN_LIMIT + 2;
    assert Name(today, SCAN_LIMIT) in disk;
    RestartResumesIff(disk, today, rollSize, SCAN_LIMIT, SCAN_LIMIT + 2);
  }

  // ----- what the text is -----

  /** Must a writer open a file before it can write today? */
  predicate NeedsRoll(w: Writer, today: Date, rollSize: nat) {
    !w.isOpen || w.date != Some(today) || w.written >= rollSize
  }

  /** The bytes that an append gets into a file: all that the library takes, unless a file had to
      be opened and could not be. */
  ghost function Lands(s: State, e: Event): bytes
    requires Enabled(s, e)
  {
    match e
    case Append(data, today, _, ok, n) => if ok || !NeedsRoll(s.w, today, s.rollSize) then data[..n] else []
    case _ => []
  }

  ghost function Landed(s: State, es: seq<Event>): bytes
    requires CanRun(s, es)
    decreases |es|
  {
    if es == [] then [] else Lands(s, es[0]) + Landed(Next(s, es[0]), es[1..])
  }

  lemma RollOpensIff(s: State, today: Date, max: nat, ok: bool)
    requires AtTheEnd(s)
    ensures var w := RollState(s, today, max, ok).w;
            && (w.isOpen <==> ok || !NeedsRoll(s.w, today, s.rollSize))
            && (w.isOpen ==> w.date.Some? && Current(w) in RollState(s, today, max, ok).disk)
  {
  }

  lemma TextStep(s: State, e: Event)
    requires Inv(s) && Enabled(s, e)
    ensures Next(s, e).text == s.text + Lands(s, e)
  {
    hide Numbered, Filled, Bounded, Complete, Rolled, Wrote;
    match e
    case Append(data, today, max, ok, n) => RollOpensIff(s, today, max, ok);
    case _ =>
  }

  lemma {:induction false} TextIsWhatLanded(s: State, es: seq<Event>)
    requires Inv(s) && CanRun(s, es)
    ensures Exec(s, es).text == s.text + Landed(s, es)
    decreases |es|
  {
    hide Inv, Next, Enabled, Lands;
    if es == [] {
      assert s.text + [] == s.text;
    } else {
      Preserved(s, es[0]);
      TextStep(s, es[0]);
      var t := Next(s, es[0]);
      TextIsWhatLanded(t, es[1..]);
      assert s.text + Lands(s, es[0]) + Landed(t, es[1..]) == s.text + (Lands(s, es[0]) + Landed(t, es[1..]));
    }
  }

  /** Over every run, all files in (date, number) order are the bytes of the appends that found
      or could open their file, in order. */
  lemma DirectoryIsWhatLanded(rollSize: nat, es: seq<Event>)
    requires CanRun(Init(rollSize), es)
    ensures var s := Exec(Init(rollSize), es);
            DiskText(s.disk, s.day + 1) == Landed(Init(rollSize), es)
  {
    hide CanRun, Exec, Next, Enabled, Landed, Numbered, Filled, Bounded, AtTheEnd;
    InitInv(rollSize);
    RunFrom(Init(rollSize), es);
    TextIsWhatLanded(Init(rollSize), es);
    assert [] + Landed(Init(rollSize), es) == Landed(Init(rollSize), es);
  }

  // ----- stopping and starting again -----

  /** A running object can be stopped and a new one started, on the same day or later, as long as
      the day has numbers left; and nothing is lost by it. */
  lemma CanRestart(s: State, today: Date) returns (es: seq<Event>)
    requires Inv(s) && s.running && s.day <= today && Count(s.count, today) < SCAN_LIMIT
    ensures CanRun(s, es) && Exec(s, es).running && Exec(s, es).w.isOpen && Exec(s, es).w.date == Some(today)
    ensures Exec(s, es).text == s.text && |es| == 2 && es[0] == Stop && es[1].Start?
  {
    var max := Count(s.count, today);
    var stopped := Next(s, Stop);
    var start := Start(today, max, true);
    assert IsScanResult(s.disk, today, max) by {
      assert max > 0 ==> Name(today, max) in s.disk;
    }
    assert Enabled(stopped, start);
    var t := Next(stopped, start);
    assert t.running && t.w.isOpen && t.w.date == Some(today) && t.text == s.text;
    assert CanRun(t, []) && Exec(t, []) == t;
    hide Next, Enabled, CanRun, Exec;
    OneMore(stopped, start, []);
    OneMore(s, Stop, [start] + []);
    es := [Stop] + ([start] + []);
  }

  lemma OneMore(s: State, e: Event, es: seq<Event>)
    requires Enabled(s, e) && CanRun(Next(s, e), es)
    ensures CanRun(s, [e] + es) && Exec(s, [e] + es) == Exec(Next(s, e), es)
  {
    hide Enabled, Next;
    assert ([e] + es)[1..] == es;
  }
}
