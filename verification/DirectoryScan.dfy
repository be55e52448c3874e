/** The scan of a camera's backup directory: hour folders outside the wanted window are skipped
    by name, and every remaining file is filtered by the time in its name.

    Instants are seconds since year 1; a clock reading and its UTC instant are both such numbers. */
module DirectoryScan {
  import opened Outcomes
  import opened TextCodec

  const HOUR := 3600
  const CLIP_SECONDS := 60
  const C_INT_MAX := 2147483647
  const MAX_INT_DIGITS := 4300

  /** Camera-local time, or none: the offset is the same throughout each hour of the clock. */
  datatype Zone = Naive | Local(offset: int -> int)

  datatype Window = Window(min: Option<int>, max: Option<int>)

  datatype File = File(name: string, size: nat)

  /** An entry of the root directory; `files` is its listing if it is a directory. */
  datatype Folder = Folder(name: string, isDirectory: bool, files: seq<File>)

  datatype Video = Video(folder: string, name: string, start: int, end: int, durationSeconds: int, size: nat)

  /** `OverflowError`: it is not a `ValueError`, so nothing in the scan catches it. */
  datatype ScanError = Overflow

  // ---------------------------------------------------------------------------
  // Calendar
  // ---------------------------------------------------------------------------

  function DaysBeforeYear(year: int): int {
    365 * (year - 1) + (year - 1) / 4 - (year - 1) / 100 + (year - 1) / 400
  }

  predicate IsLeap(year: int) {
    year % 4 == 0 && (year % 100 != 0 || year % 400 == 0)
  }

  function DaysInMonth(year: int, month: int): int {
    if month == 2 then (if IsLeap(year) then 29 else 28)
    else if month in {4, 6, 9, 11} then 30
    else 31
  }

  function DaysBeforeMonth(year: int, month: int): (days: int)
    requires 1 <= month <= 12
    ensures 28 * (month - 1) <= days <= 31 * (month - 1)
    decreases month
  {
    if month == 1 then 0 else DaysBeforeMonth(year, month - 1) + DaysInMonth(year, month - 1)
  }

  const END_OF_TIME := DaysBeforeYear(10000) * 24 * HOUR

  predicate ValidHour(year: int, month: int, day: int, hour: int) {
    1 <= year <= 9999 && 1 <= month <= 12 && 1 <= day <= DaysInMonth(year, month) && 0 <= hour <= 23
  }

  function HourStart(year: int, month: int, day: int, hour: int): int
    requires ValidHour(year, month, day, hour)
  {
    ((DaysBeforeYear(year) + DaysBeforeMonth(year, month) + day - 1) * 24 + hour) * HOUR
  }

  // ---------------------------------------------------------------------------
  // Names
  // ---------------------------------------------------------------------------

  /** `s[from:to]`, which clips. */
  function Slice(s: string, from: nat, to: nat): string
    requires from <= to
  {
    s[(if from < |s| then from else |s|)..(if to < |s| then to else |s|)]
  }

  datatype Fields = Fields(year: int, month: int, day: int, hour: int)

  /** The four numbers in the first ten characters of a folder name. */
  function FolderFields(name: string): Option<Fields> {
    var year, month := ParseInt(Slice(name, 0, 4)), ParseInt(Slice(name, 4, 6));
    var day, hour := ParseInt(Slice(name, 6, 8)), ParseInt(Slice(name, 8, 10));
    if year.None? || month.None? || day.None? || hour.None? then None
    else Some(Fields(year.value, month.value, day.value, hour.value))
  }

  /** The clock hour that they name. On ten digits, `strptime(name, "%Y%m%d%H")` accepts the same
      names with the same result. */
  function FolderHour(name: string): Option<int> {
    var f := FolderFields(name);
    if f.Some? && ValidHour(f.value.year, f.value.month, f.value.day, f.value.hour)
    then Some(HourStart(f.value.year, f.value.month, f.value.day, f.value.hour))
    else None
  }

  lemma {:induction false} DigitsParse(s: string)
    requires s != "" && AllDigits(s)
    ensures ParseNat(s).Some?
  {
    if |s| > 1 {
      assert IsDigit(s[|s| - 2]);
      DigitsParse(s[..|s| - 1]);
    }
  }

  function DigitRun(s: string): (n: nat)
    ensures n <= |s| && AllDigits(s[..n])
  {
    if s == "" || !IsDigit(s[0]) then 0 else
      var n := 1 + DigitRun(s[1..]);
      assert s[..n] == [s[0]] + s[1..][..n - 1];
      n
  }

  /** The numbers of a file name that starts with `(\d+)M(\d+)S_`. `int` refuses longer ones. */
  function Stamp(name: string): (r: Option<(int, int)>)
    ensures r.Some? ==> r.value.0 >= 0 && r.value.1 >= 0
  {
    var m := DigitRun(name);
    if m == 0 || m == |name| || name[m] != 'M' then None
    else
      var rest := name[m + 1..];
      var s := DigitRun(rest);
      if s == 0 || !("S_" <= rest[s..]) || m > MAX_INT_DIGITS || s > MAX_INT_DIGITS then None
      else
        DigitsParse(name[..m]);
        DigitsParse(rest[..s]);
        Some((ParseNat(name[..m]).value, ParseNat(rest[..s]).value))
  }

  /** `datetime` takes its fields as C integers, before it looks at their ranges. */
  predicate IsHuge(stamp: (int, int)) {
    stamp.0 > C_INT_MAX || stamp.1 > C_INT_MAX
  }

  predicate IsClockStamp(stamp: (int, int)) {
    stamp.0 <= 59 && stamp.1 <= 59
  }

  function ToUtc(zone: Zone, clock: int): Result<int, ScanError> {
    if zone.Naive? then Ok(clock)
    else
      var utc := clock - zone.offset(clock / HOUR);
      if 0 <= utc < END_OF_TIME then Ok(utc) else Err(Overflow)
  }

  /** `t + timedelta(seconds=s)` */
  function Later(t: int, s: nat): Result<int, ScanError> {
    if t + s < END_OF_TIME then Ok(t + s) else Err(Overflow)
  }

  /** `parse_file_name`: start and end of the clip. */
  function ParseFileName(zone: Zone, folder: string, name: string): Result<Option<(int, int)>, ScanError> {
    var stamp, hour := Stamp(name), FolderHour(folder);
    if FolderFields(folder).None? || stamp.None? then Ok(None)
    else if IsHuge(stamp.value) then Err(Overflow)
    else if hour.None? || !IsClockStamp(stamp.value) then Ok(None)
    else
      var start := ToUtc(zone, hour.value + stamp.value.0 * 60 + stamp.value.1);
      if start.Err? then Err(start.error)
      else
        var end := Later(start.value, CLIP_SECONDS);
        if end.Err? then Err(end.error) else Ok(Some((start.value, end.value)))
  }

  // ---------------------------------------------------------------------------
  // The plain scan: every file, filtered by its own time
  // ---------------------------------------------------------------------------

  predicate InWindow(w: Window, start: int) {
    (w.min.None? || start > w.min.value) && (w.max.None? || start <= w.max.value)
  }

  predicate IsMp4(name: string) {
    |name| >= 4 && name[|name| - 4..] == ".mp4"
  }

  function ScanFile(zone: Zone, w: Window, folder: string, file: File): Result<seq<Video>, ScanError> {
    if !IsMp4(file.name) then Ok([])
    else
      var parsed := ParseFileName(zone, folder, file.name);
      if parsed.Err? then Err(parsed.error)
      else if parsed.value.None? || !InWindow(w, parsed.value.value.0) then Ok([])
      else
        var (start, end) := parsed.value.value;
        Ok([Video(folder, file.name, start, end, CLIP_SECONDS, file.size)])
  }

  function Append(a: Result<seq<Video>, ScanError>, b: Result<seq<Video>, ScanError>): Result<seq<Video>, ScanError> {
    if a.Err? then a else if b.Err? then b else Ok(a.value + b.value)
  }

  function ScanFiles(zone: Zone, w: Window, folder: string, files: seq<File>): Result<seq<Video>, ScanError> {
    if files == [] then Ok([])
    else Append(ScanFiles(zone, w, folder, files[..|files| - 1]), ScanFile(zone, w, folder, files[|files| - 1]))
  }

  function Visit(zone: Zone, w: Window, folder: Folder): Result<seq<Video>, ScanError> {
    if folder.isDirectory then ScanFiles(zone, w, folder.name, folder.files) else Ok([])
  }

  function PlainScan(zone: Zone, w: Window, folders: seq<Folder>): Result<seq<Video>, ScanError> {
    if folders == [] then Ok([])
    else Append(PlainScan(zone, w, folders[..|folders| - 1]), Visit(zone, w, folders[|folders| - 1]))
  }

  // ---------------------------------------------------------------------------
  // The pruned scan
  // ---------------------------------------------------------------------------

  predicate TenDigits(name: string) {
    |name| == 10 && AllDigits(name)
  }

  /** Whether the folder name alone rules the folder out. */
  function Prefilter(zone: Zone, w: Window, name: string): Result<bool, ScanError> {
    if !TenDigits(name) || FolderHour(name).None? then Ok(false)
    else
      var time := ToUtc(zone, FolderHour(name).value);
      if time.Err? then Err(time.error)
      else if w.min.Some? && Later(time.value, HOUR).Err? then Err(Overflow)
      else
        Ok((w.min.Some? && time.value + HOUR <= w.min.value) || (w.max.Some? && time.value > w.max.value))
  }

  function PrunedVisit(zone: Zone, w: Window, folder: Folder): Result<seq<Video>, ScanError> {
    var skip := Prefilter(zone, w, folder.name);
    if skip.Err? then Err(skip.error) else if skip.value then Ok([]) else Visit(zone, w, folder)
  }

  function PrunedScan(zone: Zone, w: Window, folders: seq<Folder>): Result<seq<Video>, ScanError> {
    if folders == [] then Ok([])
    else Append(PrunedScan(zone, w, folders[..|folders| - 1]), PrunedVisit(zone, w, folders[|folders| - 1]))
  }

  method ScanDirectory(root: Option<seq<Folder>>, zone: Zone, w: Window) returns (r: Result<seq<Video>, ScanError>)
    ensures r == if root.None? then Ok([]) else PrunedScan(zone, w, root.value)
  {
    hide FolderHour, ToUtc, TenDigits, PrunedScan, ScanFiles;
    if root.None? {
      return Ok([]);
    }
    var folders, results := root.value, [];
    ScanOfNothing(zone, w);
    for i := 0 to |folders|
      invariant PrunedScan(zone, w, folders[..i]) == Ok(results)
    {
      ScanStep(zone, w, folders, i);
      var folder := folders[i];
      assert Append(Ok(results), Ok([])) == Ok(results) by {
        assert results + [] == results;
      }
      if TenDigits(folder.name) && FolderHour(folder.name).Some? {
        var time := ToUtc(zone, FolderHour(folder.name).value);
        if time.Err? {
          return Err(Overflow);
        }
        if w.min.Some? {
          var hourLater := Later(time.value, HOUR);
          if hourLater.Err? {
            return Err(Overflow);
          }
          if hourLater.value <= w.min.value {
            continue;
          }
        }
        if w.max.Some? && time.value > w.max.value {
          continue;
        }
      }
      if !folder.isDirectory {
        continue;
      }
      var found := ScanFolder(folder, zone, w);
      if found.Err? {
        return Err(Overflow);
      }
      results := results + found.value;
    }
    assert folders[..|folders|] == folders;
    return Ok(results);
  }

  /** The inner loop, over the files of one folder. */
  method ScanFolder(folder: Folder, zone: Zone, w: Window) returns (r: Result<seq<Video>, ScanError>)
    ensures r == ScanFiles(zone, w, folder.name, folder.files)
  {
    hide ParseFileName, IsMp4, ScanFiles;
    var files, results := folder.files, [];
    FilesOfNothing(zone, w, folder.name);
    for j := 0 to |files|
      invariant ScanFiles(zone, w, folder.name, files[..j]) == Ok(results)
    {
      FilesStep(zone, w, folder.name, files, j);
      var file := files[j];
      assert Append(Ok(results), Ok([])) == Ok(results) by {
        assert results + [] == results;
      }
      if !IsMp4(file.name) {
        continue;
      }
      var parsed := ParseFileName(zone, folder.name, file.name);
      if parsed.Err? {
        return Err(Overflow);
      }
      if parsed.value.None? {
        continue;
      }
      var (start, end) := parsed.value.value;
      if w.min.Some? && start <= w.min.value {
        continue;
      }
      if w.max.Some? && start > w.max.value {
        continue;
      }
      results := results + [Video(folder.name, file.name, start, end, CLIP_SECONDS, file.size)];
    }
    assert files[..|files|] == files;
    return Ok(results);
  }

  lemma OnlyOverflow(e: ScanError)
    ensures e == Overflow
  {
  }

  lemma ScanOfNothing(zone: Zone, w: Window)
    ensures PrunedScan(zone, w, []) == Ok([])
  {
  }

  lemma FilesOfNothing(zone: Zone, w: Window, folder: string)
    ensures ScanFiles(zone, w, folder, []) == Ok([])
  {
  }

  lemma ScanStep(zone: Zone, w: Window, folders: seq<Folder>, i: nat)
    requires i < |folders|
    ensures PrunedScan(zone, w, folders[..i + 1]) == Append(PrunedScan(zone, w, folders[..i]), PrunedVisit(zone, w, folders[i]))
    ensures PrunedScan(zone, w, folders[..i + 1]).Err? ==> PrunedScan(zone, w, folders) == Err(Overflow)
  {
    hide PrunedVisit;
    assert folders[..i + 1][..i] == folders[..i];
    ScanIsSticky(zone, w, folders, i + 1);
    if PrunedScan(zone, w, folders).Err? {
      OnlyOverflow(PrunedScan(zone, w, folders).error);
    }
  }

  lemma FilesStep(zone: Zone, w: Window, folder: string, files: seq<File>, j: nat)
    requires j < |files|
    ensures ScanFiles(zone, w, folder, files[..j + 1])
         == Append(ScanFiles(zone, w, folder, files[..j]), ScanFile(zone, w, folder, files[j]))
    ensures ScanFiles(zone, w, folder, files[..j + 1]).Err? ==> ScanFiles(zone, w, folder, files) == Err(Overflow)
  {
    hide ScanFile;
    assert files[..j + 1][..j] == files[..j];
    FilesAreSticky(zone, w, folder, files, j + 1);
    if ScanFiles(zone, w, folder, files).Err? {
      OnlyOverflow(ScanFiles(zone, w, folder, files).error);
    }
  }

  /** An error in a prefix is an error of the whole. */
  lemma {:induction false} FilesAreSticky(zone: Zone, w: Window, folder: string, files: seq<File>, k: nat)
    requires k <= |files|
    ensures ScanFiles(zone, w, folder, files[..k]).Err? ==> ScanFiles(zone, w, folder, files).Err?
    decreases |files|
  {
    if k < |files| {
      FilesAreSticky(zone, w, folder, files[..|files| - 1], k);
      assert files[..|files| - 1][..k] == files[..k];
    } else {
      assert files[..k] == files;
    }
  }

  lemma {:induction false} ScanIsSticky(zone: Zone, w: Window, folders: seq<Folder>, k: nat)
    requires k <= |folders|
    ensures PrunedScan(zone, w, folders[..k]).Err? ==> PrunedScan(zone, w, folders).Err?
    decreases |folders|
  {
    if k < |folders| {
      ScanIsSticky(zone, w, folders[..|folders| - 1], k);
      assert folders[..|folders| - 1][..k] == folders[..k];
    } else {
      assert folders[..k] == folders;
    }
  }

  // ---------------------------------------------------------------------------
  // Pruning loses nothing
  // ---------------------------------------------------------------------------

  lemma HoursAreWhole(folder: string)
    requires FolderHour(folder).Some?
    ensures FolderHour(folder).value % HOUR == 0
  {
    hide FolderFields;
    var f := FolderFields(folder).value;
    MultiplesOfHour((DaysBeforeYear(f.year) + DaysBeforeMonth(f.year, f.month) + f.day - 1) * 24 + f.hour);
    hide DaysBeforeYear, DaysBeforeMonth, DaysInMonth;
  }

  lemma MultiplesOfHour(n: int)
    ensures n * HOUR % HOUR == 0
  {
  }

  /** The hour's start in UTC, whether or not the calendar reaches that far. */
  function UtcHour(zone: Zone, hour: int): int {
    if zone.Naive? then hour else hour - zone.offset(hour / HOUR)
  }

  /** Every clip of an hour folder starts within the folder's own hour, in UTC too. */
  lemma ClipsStartWithinTheHour(zone: Zone, folder: string, name: string)
    requires FolderHour(folder).Some? && Stamp(name).Some? && IsClockStamp(Stamp(name).value)
    ensures var hour, stamp := FolderHour(folder).value, Stamp(name).value;
      var utc := UtcHour(zone, hour);
      var start := utc + stamp.0 * 60 + stamp.1;
      && utc <= start < utc + HOUR
      && ToUtc(zone, hour + stamp.0 * 60 + stamp.1)
           == if zone.Naive? || 0 <= start < END_OF_TIME then Ok(start) else Err(Overflow)
  {
    HoursAreWhole(folder);
    hide FolderHour;
    var hour, stamp := FolderHour(folder).value, Stamp(name).value;
    hide Stamp;
    assert (hour + stamp.0 * 60 + stamp.1) / HOUR == hour / HOUR;
  }

  lemma SkippedFileIsOutside(zone: Zone, w: Window, folder: string, file: File)
    requires Prefilter(zone, w, folder) == Ok(true)
    ensures ScanFile(zone, w, folder, file).Ok? ==> ScanFile(zone, w, folder, file).value == []
  {
    hide FolderHour, FolderFields, Stamp, IsMp4, TenDigits;
    if Stamp(file.name).Some? && IsClockStamp(Stamp(file.name).value) {
      ClipsStartWithinTheHour(zone, folder, file.name);
    }
  }

  lemma {:induction false} SkippedFilesAreOutside(zone: Zone, w: Window, folder: string, files: seq<File>)
    requires Prefilter(zone, w, folder) == Ok(true)
    ensures ScanFiles(zone, w, folder, files).Ok? ==> ScanFiles(zone, w, folder, files).value == []
  {
    if files != [] {
      SkippedFilesAreOutside(zone, w, folder, files[..|files| - 1]);
      SkippedFileIsOutside(zone, w, folder, files[|files| - 1]);
    }
  }

  /** Skipping folders by name loses nothing and reorders nothing: whenever both scans return,
      they return the same list. */
  lemma {:induction false} PruningLosesNothing(zone: Zone, w: Window, folders: seq<Folder>)
    requires PlainScan(zone, w, folders).Ok? && PrunedScan(zone, w, folders).Ok?
    ensures PrunedScan(zone, w, folders) == PlainScan(zone, w, folders)
  {
    if folders != [] {
      var last := folders[|folders| - 1];
      PruningLosesNothing(zone, w, folders[..|folders| - 1]);
      if Prefilter(zone, w, last.name) == Ok(true) && last.isDirectory {
        SkippedFilesAreOutside(zone, w, last.name, last.files);
      }
    }
  }

  // ---------------------------------------------------------------------------
  // When the scans raise
  // ---------------------------------------------------------------------------

  /** The clip's start or end is outside the calendar. */
  predicate ClipEscapes(zone: Zone, hour: int, stamp: (int, int)) {
    var start := UtcHour(zone, hour) + stamp.0 * 60 + stamp.1;
    (zone.Local? && !(0 <= start < END_OF_TIME)) || start + CLIP_SECONDS >= END_OF_TIME
  }

  /** A number that `int` reads and `datetime` cannot take. */
  predicate HasHugeStamp(folder: string, file: File) {
    IsMp4(file.name) && FolderFields(folder).Some? && Stamp(file.name).Some? && IsHuge(Stamp(file.name).value)
  }

  predicate FileRaises(zone: Zone, folder: string, file: File) {
    HasHugeStamp(folder, file) || (
      && IsMp4(file.name) && FolderHour(folder).Some?
      && Stamp(file.name).Some? && IsClockStamp(Stamp(file.name).value)
      && ClipEscapes(zone, FolderHour(folder).value, Stamp(file.name).value))
  }

  predicate FolderRaises(zone: Zone, folder: Folder) {
    folder.isDirectory && exists j :: 0 <= j < |folder.files| && FileRaises(zone, folder.name, folder.files[j])
  }

  predicate PlainRaises(zone: Zone, folders: seq<Folder>) {
    exists i :: 0 <= i < |folders| && FolderRaises(zone, folders[i])
  }

  /** The folder's hour, or with a lower bound the hour after it, is outside the calendar. */
  predicate HourEscapes(zone: Zone, w: Window, name: string) {
    TenDigits(name) && FolderHour(name).Some? &&
    var utc := UtcHour(zone, FolderHour(name).value);
    (zone.Local? && !(0 <= utc < END_OF_TIME)) || (w.min.Some? && utc + HOUR >= END_OF_TIME)
  }

  /** The folder's hour is inside the calendar and outside the window. */
  predicate Skipped(zone: Zone, w: Window, name: string) {
    TenDigits(name) && FolderHour(name).Some? && !HourEscapes(zone, w, name) &&
    var utc := UtcHour(zone, FolderHour(name).value);
    (w.min.Some? && utc + HOUR <= w.min.value) || (w.max.Some? && utc > w.max.value)
  }

  predicate PrunedFolderRaises(zone: Zone, w: Window, folder: Folder) {
    HourEscapes(zone, w, folder.name) || (!Skipped(zone, w, folder.name) && FolderRaises(zone, folder))
  }

  predicate PrunedRaises(zone: Zone, w: Window, folders: seq<Folder>) {
    exists i :: 0 <= i < |folders| && PrunedFolderRaises(zone, w, folders[i])
  }

  lemma PrefilterMeans(zone: Zone, w: Window, name: string)
    ensures Prefilter(zone, w, name).Err? <==> HourEscapes(zone, w, name)
    ensures Prefilter(zone, w, name) == Ok(true) <==> Skipped(zone, w, name)
  {
  }

  lemma FileRaisesIff(zone: Zone, folder: string, file: File)
    ensures IsMp4(file.name) && ParseFileName(zone, folder, file.name).Err? <==> FileRaises(zone, folder, file)
  {
    FieldsOfHour(folder);
    hide FolderHour, FolderFields, IsMp4;
    if Stamp(file.name).Some? && IsClockStamp(Stamp(file.name).value) && FolderHour(folder).Some? {
      ClipsStartWithinTheHour(zone, folder, file.name);
    }
    hide Stamp;
  }

  lemma FieldsOfHour(folder: string)
    ensures FolderHour(folder).Some? ==> FolderFields(folder).Some?
  {
  }

  lemma {:induction false} FilesRaiseIff(zone: Zone, w: Window, folder: string, files: seq<File>)
    ensures ScanFiles(zone, w, folder, files).Err? <==>
      exists j :: 0 <= j < |files| && FileRaises(zone, folder, files[j])
  {
    hide ParseFileName, IsMp4, InWindow, FileRaises;
    if files != [] {
      var init, last := files[..|files| - 1], files[|files| - 1];
      FilesRaiseIff(zone, w, folder, init);
      FileRaisesIff(zone, folder, last);
      assert forall j :: 0 <= j < |init| ==> files[j] == init[j];
    }
  }

  lemma {:induction false} ScansRaiseIff(zone: Zone, w: Window, folders: seq<Folder>)
    ensures PlainScan(zone, w, folders).Err? <==> PlainRaises(zone, folders)
    ensures PrunedScan(zone, w, folders).Err? <==> PrunedRaises(zone, w, folders)
  {
    hide ScanFiles, Prefilter, HourEscapes, Skipped, FileRaises;
    if folders != [] {
      var init, last := folders[..|folders| - 1], folders[|folders| - 1];
      ScansRaiseIff(zone, w, init);
      PrefilterMeans(zone, w, last.name);
      FilesRaiseIff(zone, w, last.name, last.files);
      assert forall i :: 0 <= i < |init| ==> folders[i] == init[i];
    }
  }

  /** The pruned scan refines the plain one exactly, up to who raises: they agree if and only if
      both raise or neither does. The plain scan raises on a file whose numbers do not fit or whose
      clip leaves the calendar; the pruned one on a folder whose hour leaves it, and on such a file
      in a folder that it does not skip. */
  lemma PrunedRefinesPlain(zone: Zone, w: Window, folders: seq<Folder>)
    ensures PrunedScan(zone, w, folders) == PlainScan(zone, w, folders) <==>
      (PrunedRaises(zone, w, folders) <==> PlainRaises(zone, folders))
  {
    hide PlainScan, PrunedScan, PrunedRaises, PlainRaises;
    ScansRaiseIff(zone, w, folders);
    if PrunedScan(zone, w, folders).Ok? && PlainScan(zone, w, folders).Ok? {
      PruningLosesNothing(zone, w, folders);
    } else if PrunedScan(zone, w, folders).Err? && PlainScan(zone, w, folders).Err? {
      OnlyOverflow(PrunedScan(zone, w, folders).error);
      OnlyOverflow(PlainScan(zone, w, folders).error);
    }
  }

  predicate HasHugeFile(folder: Folder) {
    folder.isDirectory && exists j :: 0 <= j < |folder.files| && HasHugeStamp(folder.name, folder.files[j])
  }

  /** On every directory without folders of the years 1 and 9999, only numbers that do not fit
      raise, and the scans agree unless all of those are in skipped folders. */
  lemma OrdinaryYearsAgree(zone: Zone, w: Window, folders: seq<Folder>)
    requires zone.Local? ==> forall h :: -24 * HOUR < zone.offset(h) < 24 * HOUR
    requires forall i :: 0 <= i < |folders| ==> ParseInt(Slice(folders[i].name, 0, 4)) !in {Some(1), Some(9999)}
    ensures var held := exists i :: 0 <= i < |folders| && HasHugeFile(folders[i]);
      var met := exists i :: 0 <= i < |folders| && !Skipped(zone, w, folders[i].name) && HasHugeFile(folders[i]);
      && (PlainScan(zone, w, folders).Err? <==> held)
      && (PrunedScan(zone, w, folders).Err? <==> met)
      && (PrunedScan(zone, w, folders) == PlainScan(zone, w, folders) <==> (held ==> met))
  {
    forall i | 0 <= i < |folders|
      ensures FolderRaises(zone, folders[i]) <==> HasHugeFile(folders[i])
      ensures !HourEscapes(zone, w, folders[i].name)
    {
      OrdinaryFolder(zone, w, folders[i]);
    }
    hide FolderRaises, HasHugeFile, HourEscapes, Skipped, PlainScan, PrunedScan;
    ScansRaiseIff(zone, w, folders);
    PrunedRefinesPlain(zone, w, folders);
  }

  lemma YearStep(year: int)
    requires year >= 1
    ensures DaysBeforeYear(year) + 365 <= DaysBeforeYear(year + 1)
  {
    assert year / 100 == (year - 1) / 100 || (year % 100 == 0 && year / 100 == (year - 1) / 100 + 1);
    assert year % 100 == 0 ==> year % 4 == 0;
    assert year / 400 >= (year - 1) / 400;
  }

  lemma {:induction false} YearsGrow(a: int, b: int)
    requires 1 <= a <= b
    ensures DaysBeforeYear(a) + 365 * (b - a) <= DaysBeforeYear(b)
    decreases b - a
  {
    hide DaysBeforeYear;
    if a < b {
      YearsGrow(a, b - 1);
      YearStep(b - 1);
    }
  }

  lemma OrdinaryHour(name: string)
    requires FolderHour(name).Some? && ParseInt(Slice(name, 0, 4)) !in {Some(1), Some(9999)}
    ensures 24 * HOUR <= FolderHour(name).value <= END_OF_TIME - 48 * HOUR
  {
    hide ParseInt, Slice, DaysBeforeMonth, DaysInMonth;
    var year := ParseInt(Slice(name, 0, 4)).value;
    assert DaysBeforeYear(2) == 365 && DaysBeforeYear(10000) == DaysBeforeYear(9998) + 730;
    hide DaysBeforeYear;
    YearsGrow(2, year);
    YearsGrow(year, 9998);
    var month, day := ParseInt(Slice(name, 4, 6)).value, ParseInt(Slice(name, 6, 8)).value;
    assert 0 <= DaysBeforeMonth(year, month) <= 341;
    DaysInMonthBound(year, month);
  }

  lemma DaysInMonthBound(year: int, month: int)
    ensures 28 <= DaysInMonth(year, month) <= 31
  {
  }

  lemma OrdinaryFolder(zone: Zone, w: Window, folder: Folder)
    requires zone.Local? ==> forall h :: -24 * HOUR < zone.offset(h) < 24 * HOUR
    requires ParseInt(Slice(folder.name, 0, 4)) !in {Some(1), Some(9999)}
    ensures FolderRaises(zone, folder) <==> HasHugeFile(folder)
    ensures !HourEscapes(zone, w, folder.name)
  {
    hide FolderHour, Stamp, HasHugeStamp, IsMp4, TenDigits, ParseInt, Slice;
    if FolderHour(folder.name).Some? {
      OrdinaryHour(folder.name);
    }
    forall j | 0 <= j < |folder.files|
      ensures FileRaises(zone, folder.name, folder.files[j]) <==> HasHugeStamp(folder.name, folder.files[j])
    {
      var stamp := Stamp(folder.files[j].name);
      if FolderHour(folder.name).Some? && stamp.Some? && IsClockStamp(stamp.value) {
        ClipsStartWithinTheHour(zone, folder.name, folder.files[j].name);
      }
    }
    hide FileRaises;
  }

  // ---------------------------------------------------------------------------
  // Where they differ
  // ---------------------------------------------------------------------------

  lemma ParseDigits(s: string)
    requires s != "" && AllDigits(s)
    ensures ParseInt(s) == if ParseNat(s).Some? then Some(ParseNat(s).value) else None
  {
  }

  lemma ParseTwoDigits(a: char, b: char)
    requires IsDigit(a) && IsDigit(b)
    ensures ParseNat([a, b]) == Some(10 * DigitValue(a) + DigitValue(b))
    ensures ParseInt([a, b]) == Some(10 * DigitValue(a) + DigitValue(b))
  {
  }

  lemma ParseFourDigits(a: char, b: char, c: char, d: char)
    requires IsDigit(a) && IsDigit(b) && IsDigit(c) && IsDigit(d)
    ensures ParseInt([a, b, c, d])
         == Some(1000 * DigitValue(a) + 100 * DigitValue(b) + 10 * DigitValue(c) + DigitValue(d))
  {
    ParseDigits([a, b, c, d]);
    ParseTwoDigits(a, b);
    assert [a, b, c, d][..3] == [a, b, c] && [a, b, c][..2] == [a, b];
    assert ParseNat([a, b, c]) == Some(100 * DigitValue(a) + 10 * DigitValue(b) + DigitValue(c));
  }

  lemma LastHourFields(name: string)
    requires name == "9999123123"
    ensures TenDigits(name)
    ensures ParseInt(Slice(name, 0, 4)) == Some(9999) && ParseInt(Slice(name, 4, 6)) == Some(12)
    ensures ParseInt(Slice(name, 6, 8)) == Some(31) && ParseInt(Slice(name, 8, 10)) == Some(23)
  {
    ParseFourDigits('9', '9', '9', '9');
    ParseTwoDigits('1', '2');
    ParseTwoDigits('3', '1');
    ParseTwoDigits('2', '3');
    hide ParseInt, AllDigits;
    assert Slice(name, 0, 4) == name[0..4] == ['9', '9', '9', '9'];
    assert Slice(name, 4, 6) == name[4..6] == ['1', '2'];
    assert Slice(name, 6, 8) == name[6..8] == ['3', '1'];
    assert Slice(name, 8, 10) == name[8..10] == ['2', '3'];
  }

  lemma LastHour(name: string)
    requires name == "9999123123"
    ensures TenDigits(name) && FolderHour(name) == Some(END_OF_TIME - HOUR)
  {
    LastHourFields(name);
    DaysBeforeDecember(9999);
    hide ParseInt, Slice, DaysBeforeMonth, TenDigits;
  }

  lemma DaysBeforeDecember(year: int)
    ensures DaysBeforeMonth(year, 12) == if IsLeap(year) then 335 else 334
  {
  }

  /** One empty folder named after the very last hour: with a lower bound the pruned scan adds an
      hour to it and raises, where the plain scan returns an empty list. */
  lemma LastHourRaisesOnlyPruned(minTime: int) returns (folders: seq<Folder>)
    ensures PlainScan(Naive, Window(Some(minTime), None), folders) == Ok([])
    ensures PrunedScan(Naive, Window(Some(minTime), None), folders) == Err(Overflow)
  {
    var folder := Folder("9999123123", true, []);
    folders := [folder];
    LastHour(folder.name);
    hide FolderHour;
    assert folders[..0] == [];
    assert Prefilter(Naive, Window(Some(minTime), None), folder.name).Err?;
    var none: seq<Video> := [];
    assert none + none == none;
  }

  lemma NewYearFields(name: string)
    requires name == "2026010100"
    ensures TenDigits(name) && FolderFields(name) == Some(Fields(2026, 1, 1, 0))
    ensures FolderHour(name) == Some(HourStart(2026, 1, 1, 0))
  {
    ParseFourDigits('2', '0', '2', '6');
    ParseTwoDigits('0', '1');
    ParseTwoDigits('0', '0');
    hide ParseInt;
    assert Slice(name, 0, 4) == name[0..4] == ['2', '0', '2', '6'];
    assert Slice(name, 4, 6) == name[4..6] == ['0', '1'];
    assert Slice(name, 6, 8) == name[6..8] == ['0', '1'];
    assert Slice(name, 8, 10) == name[8..10] == ['0', '0'];
  }

  lemma AppendZero(s: string)
    requires s != "" && AllDigits(s) && ParseNat(s).Some?
    ensures ParseNat(s + "0") == Some(10 * ParseNat(s).value)
  {
    hide ParseNat, AllDigits;
    var t := s + "0";
    assert t[..|t| - 1] == s && t[|t| - 1] == '0' && t[|t| - 2] == s[|s| - 1];
    LastOfDigits(s);
    LastDigit(t, ParseNat(s).value, 0);
  }

  lemma LastOfDigits(s: string)
    requires s != "" && AllDigits(s)
    ensures IsDigit(s[|s| - 1])
  {
  }

  lemma LastDigit(t: string, front: nat, d: nat)
    requires |t| > 1 && IsDigit(t[|t| - 2]) && IsDigit(t[|t| - 1])
    requires ParseNat(t[..|t| - 1]) == Some(front) && DigitValue(t[|t| - 1]) == d
    ensures ParseNat(t) == Some(10 * front + d)
  {
  }

  function Zeros(n: nat): (s: string)
    ensures |s| == n && AllDigits(s)
  {
    if n == 0 then "" else Zeros(n - 1) + "0"
  }

  function Pow10(n: nat): nat {
    if n == 0 then 1 else 10 * Pow10(n - 1)
  }

  lemma ParseThree()
    ensures ParseNat("3") == Some(3)
  {
  }

  lemma {:induction false} ParseThreeAndZeros(n: nat)
    ensures AllDigits("3" + Zeros(n)) && ParseNat("3" + Zeros(n)) == Some(3 * Pow10(n))
  {
    hide ParseNat;
    if n > 0 {
      ParseThreeAndZeros(n - 1);
      AppendZero("3" + Zeros(n - 1));
      assert "3" + Zeros(n) == "3" + Zeros(n - 1) + "0";
    } else {
      ParseThree();
      assert "3" + Zeros(0) == "3";
    }
  }

  lemma {:induction false} DigitRunOf(digits: string, rest: string)
    requires AllDigits(digits) && (rest == "" || !IsDigit(rest[0]))
    ensures DigitRun(digits + rest) == |digits|
  {
    if digits == "" {
      assert digits + rest == rest;
    } else {
      DigitRunOf(digits[1..], rest);
      assert (digits + rest)[1..] == digits[1..] + rest;
    }
  }

  /** Two numbers in front of their letters are read back. */
  lemma StampOf(minute: string, second: string, rest: string)
    requires minute != "" && AllDigits(minute) && |minute| <= MAX_INT_DIGITS && ParseNat(minute).Some?
    requires second != "" && AllDigits(second) && |second| <= MAX_INT_DIGITS && ParseNat(second).Some?
    ensures Stamp(minute + ("M" + (second + ("S_" + rest)))) == Some((ParseNat(minute).value, ParseNat(second).value))
  {
    hide ParseNat;
    var name := minute + ("M" + (second + ("S_" + rest)));
    DigitRunOf(minute, "M" + (second + ("S_" + rest)));
    DigitRunOf(second, "S_" + rest);
    assert name[..|minute|] == minute && name[|minute| + 1..] == second + ("S_" + rest);
    assert (second + ("S_" + rest))[..|second|] == second && (second + ("S_" + rest))[|second|..] == "S_" + rest;
    hide DigitRun, AllDigits;
  }

  lemma NineZeros()
    ensures Zeros(9) == "000000000"
  {
  }

  lemma ZeroSeconds()
    ensures AllDigits("00") && ParseNat("00") == Some(0)
  {
  }

  lemma HugeStamp(name: string)
    requires name == "3000000000M00S_1.mp4"
    ensures Stamp(name) == Some((3 * Pow10(9), 0)) && IsMp4(name)
  {
    hide Stamp, DigitRun, Zeros, AllDigits, ParseNat;
    NineZeros();
    ParseThreeAndZeros(9);
    ZeroSeconds();
    StampOf("3" + Zeros(9), "00", "1.mp4");
    assert name == "3" + Zeros(9) + ("M" + ("00" + ("S_" + "1.mp4")));
  }

  lemma Pow10Of9()
    ensures Pow10(9) == 1000000000
  {
  }

  /** `2026010100/3000000000M00S_1.mp4`, with the window after that hour: the plain scan raises,
      and the pruned one skips the folder and returns an empty list. */
  lemma HugeStampRaisesOnlyPlain(minTime: int) returns (folders: seq<Folder>)
    requires minTime >= HourStart(2026, 1, 1, 1)
    ensures folders == [Folder("2026010100", true, [File("3000000000M00S_1.mp4", 0)])]
    ensures PlainScan(Naive, Window(Some(minTime), None), folders) == Err(Overflow)
    ensures PrunedScan(Naive, Window(Some(minTime), None), folders) == Ok([])
  {
    var folder := Folder("2026010100", true, [File("3000000000M00S_1.mp4", 0)]);
    NewYear(folder.name, minTime);
    HugeStamp(folder.files[0].name);
    Pow10Of9();
    hide FolderFields, FolderHour, Stamp, IsMp4, Skipped, Pow10;
    assert HasHugeStamp(folder.name, folder.files[0]);
    assert FileRaises(Naive, folder.name, folder.files[0]);
    SkippingHidesErrors(Naive, Window(Some(minTime), None), folder);
    folders := [folder];
  }

  /** A skipped folder on its own, with a file that raises. */
  lemma SkippingHidesErrors(zone: Zone, w: Window, folder: Folder)
    requires FolderRaises(zone, folder) && Skipped(zone, w, folder.name)
    ensures PlainScan(zone, w, [folder]) == Err(Overflow) && PrunedScan(zone, w, [folder]) == Ok([])
  {
    hide FolderRaises, Skipped, Prefilter;
    var folders := [folder];
    assert folders[..0] == [] && FolderRaises(zone, folders[0]);
    ScansRaiseIff(zone, w, folders);
    OnlyOverflow(PlainScan(zone, w, folders).error);
    PrefilterMeans(zone, w, folder.name);
    ScanOfNothing(zone, w);
    var none: seq<Video> := [];
    assert none + none == none;
  }

  lemma NewYear(name: string, minTime: int)
    requires name == "2026010100" && minTime >= HourStart(2026, 1, 1, 1)
    ensures FolderFields(name).Some? && Skipped(Naive, Window(Some(minTime), None), name)
  {
    NewYearFields(name);
    NewYearIsOrdinary(name);
    hide FolderHour, FolderFields, TenDigits;
  }

  lemma NewYearIsOrdinary(name: string)
    requires FolderFields(name) == Some(Fields(2026, 1, 1, 0)) && FolderHour(name).Some?
    ensures FolderHour(name).value <= END_OF_TIME - 48 * HOUR
  {
  }
}
