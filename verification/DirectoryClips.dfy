/** What the scan of a backup directory finds, told from names, offsets and window alone. */
module DirectoryClips {
  import opened Outcomes
  import opened TextCodec
  import opened DirectoryScan

  /** Start of the clip at this minute and second of the hour, in UTC. */
  function ClipStart(zone: Zone, hour: int, minute: int, second: int): int {
    hour - (if zone.Naive? then 0 else zone.offset(hour / 3600)) + 60 * minute + second
  }

  /** The parser finds a clip exactly with a readable hour and a clock reading, and gives it its
      own start and an end 60 seconds later. */
  lemma ParsedTimes(zone: Zone, folder: string, name: string)
    requires ParseFileName(zone, folder, name).Ok?
    ensures var hour, stamp, r := FolderHour(folder), Stamp(name), ParseFileName(zone, folder, name).value;
      && (r.Some? <==> hour.Some? && stamp.Some? && stamp.value.0 <= 59 && stamp.value.1 <= 59)
      && (r.Some? ==>
            var start := ClipStart(zone, hour.value, stamp.value.0, stamp.value.1);
            r.value == (start, start + 60))
  {
    hide FolderHour, FolderFields, Stamp;
    FieldsOfHour(folder);
    if FolderHour(folder).Some? && Stamp(name).Some? && IsClockStamp(Stamp(name).value) {
      ClipsStartWithinTheHour(zone, folder, name);
    }
  }

  /** The parser raises exactly on a number of more than 31 bits and on a clip that starts outside
      the 3652059 days of the calendar or ends beyond them. */
  lemma ParserRaises(zone: Zone, folder: string, name: string)
    ensures ParseFileName(zone, folder, name).Err? <==>
      && FolderFields(folder).Some? && Stamp(name).Some?
      && var (minute, second) := Stamp(name).value;
      || minute >= 0x8000_0000 || second >= 0x8000_0000
      || (&& FolderHour(folder).Some? && minute <= 59 && second <= 59
          && var start := ClipStart(zone, FolderHour(folder).value, minute, second);
            (zone.Local? && !(0 <= start < 3652059 * 86400)) || start + 60 >= 3652059 * 86400)
  {
    hide FolderHour, FolderFields, Stamp;
    FieldsOfHour(folder);
    if FolderHour(folder).Some? && Stamp(name).Some? && IsClockStamp(Stamp(name).value) {
      ClipsStartWithinTheHour(zone, folder, name);
    }
  }

  /** `v` is the clip of this file, and it starts after the lower and not after the upper bound. */
  predicate IsClip(zone: Zone, w: Window, folder: Folder, file: File, v: Video) {
    && folder.isDirectory && |file.name| >= 4 && file.name[|file.name| - 4..] == ".mp4"
    && FolderHour(folder.name).Some? && Stamp(file.name).Some?
    && var (minute, second) := Stamp(file.name).value;
    && minute <= 59 && second <= 59
    && var start := ClipStart(zone, FolderHour(folder.name).value, minute, second);
    && v == Video(folder.name, file.name, start, start + 60, 60, file.size)
    && (w.min.Some? ==> start > w.min.value)
    && (w.max.Some? ==> start <= w.max.value)
  }

  ghost predicate FolderHasClip(zone: Zone, w: Window, folder: Folder, v: Video) {
    exists j :: 0 <= j < |folder.files| && IsClip(zone, w, folder, folder.files[j], v)
  }

  ghost predicate HasClip(zone: Zone, w: Window, folders: seq<Folder>, v: Video) {
    exists i :: 0 <= i < |folders| && FolderHasClip(zone, w, folders[i], v)
  }

  lemma FileFinds(zone: Zone, w: Window, folder: Folder, file: File, v: Video)
    requires folder.isDirectory && ScanFile(zone, w, folder.name, file).Ok?
    ensures v in ScanFile(zone, w, folder.name, file).value <==> IsClip(zone, w, folder, file, v)
  {
    hide FolderHour, Stamp, ParseFileName;
    if IsMp4(file.name) {
      ParsedTimes(zone, folder.name, file.name);
    }
  }

  lemma {:induction false} FilesFind(zone: Zone, w: Window, folder: Folder, files: seq<File>, v: Video)
    requires folder.isDirectory && ScanFiles(zone, w, folder.name, files).Ok?
    ensures v in ScanFiles(zone, w, folder.name, files).value <==>
      exists j :: 0 <= j < |files| && IsClip(zone, w, folder, files[j], v)
  {
    hide ScanFile, IsClip;
    if files != [] {
      var init, last := files[..|files| - 1], files[|files| - 1];
      FilesFind(zone, w, folder, init, v);
      FileFinds(zone, w, folder, last, v);
      assert forall j :: 0 <= j < |init| ==> files[j] == init[j];
    }
  }

  /** A skipped folder has no clip in the window. */
  lemma SkippedHasNoClip(zone: Zone, w: Window, folder: Folder, v: Video)
    requires Prefilter(zone, w, folder.name) == Ok(true)
    ensures !FolderHasClip(zone, w, folder, v)
  {
  }

  lemma FolderFinds(zone: Zone, w: Window, folder: Folder, v: Video)
    requires PrunedVisit(zone, w, folder).Ok?
    ensures v in PrunedVisit(zone, w, folder).value <==> FolderHasClip(zone, w, folder, v)
  {
    hide Prefilter, ScanFiles;
    if Prefilter(zone, w, folder.name) == Ok(true) {
      SkippedHasNoClip(zone, w, folder, v);
    } else if folder.isDirectory {
      FilesFind(zone, w, folder, folder.files, v);
    }
  }

  /** A scan that returns finds exactly the clips of its directories that lie in the window. */
  lemma {:induction false} ScanFinds(zone: Zone, w: Window, folders: seq<Folder>, v: Video)
    requires PrunedScan(zone, w, folders).Ok?
    ensures v in PrunedScan(zone, w, folders).value <==> HasClip(zone, w, folders, v)
  {
    hide PrunedVisit, FolderHasClip;
    if folders != [] {
      var init, last := folders[..|folders| - 1], folders[|folders| - 1];
      ScanFinds(zone, w, init, v);
      FolderFinds(zone, w, last, v);
      assert forall i :: 0 <= i < |init| ==> folders[i] == init[i];
    }
  }

  lemma NothingMore(a: seq<Video>)
    ensures a + [] == a
  {
  }

  lemma RegroupClips(a: seq<Video>, b: seq<Video>, c: seq<Video>)
    ensures a + (b + c) == (a + b) + c
  {
  }

  lemma {:induction false} FilesInOrder(zone: Zone, w: Window, folder: string, a: seq<File>, b: seq<File>)
    requires ScanFiles(zone, w, folder, a).Ok? && ScanFiles(zone, w, folder, b).Ok?
    ensures ScanFiles(zone, w, folder, a + b)
         == Ok(ScanFiles(zone, w, folder, a).value + ScanFiles(zone, w, folder, b).value)
  {
    hide ScanFile;
    if b == [] {
      NothingMore(ScanFiles(zone, w, folder, a).value);
      assert a + b == a;
    } else {
      var init, last := b[..|b| - 1], b[|b| - 1];
      FilesInOrder(zone, w, folder, a, init);
      assert (a + b)[..|a + b| - 1] == a + init;
      RegroupClips(ScanFiles(zone, w, folder, a).value, ScanFiles(zone, w, folder, init).value,
                   ScanFile(zone, w, folder, last).value);
    }
  }

  /** The clips come in the order of the directory listings: those of the folders before come before,
      and within a folder those of the files before; a file gives at most one. */
  lemma {:induction false} ScanInOrder(zone: Zone, w: Window, a: seq<Folder>, b: seq<Folder>)
    requires PrunedScan(zone, w, a).Ok? && PrunedScan(zone, w, b).Ok?
    ensures PrunedScan(zone, w, a + b) == Ok(PrunedScan(zone, w, a).value + PrunedScan(zone, w, b).value)
  {
    hide PrunedVisit;
    if b == [] {
      NothingMore(PrunedScan(zone, w, a).value);
      assert a + b == a;
    } else {
      var init, last := b[..|b| - 1], b[|b| - 1];
      ScanInOrder(zone, w, a, init);
      assert (a + b)[..|a + b| - 1] == a + init;
      RegroupClips(PrunedScan(zone, w, a).value, PrunedScan(zone, w, init).value, PrunedVisit(zone, w, last).value);
    }
  }

  lemma OneFolder(zone: Zone, w: Window, folder: Folder)
    requires Prefilter(zone, w, folder.name) == Ok(false) && folder.isDirectory
    ensures PrunedScan(zone, w, [folder]) == ScanFiles(zone, w, folder.name, folder.files)
    ensures |folder.files| == 1 && PrunedScan(zone, w, [folder]).Ok? ==> |PrunedScan(zone, w, [folder]).value| <= 1
  {
    hide ScanFile, Prefilter;
    var none: seq<Video> := [];
    assert [folder][..0] == [];
    assert ScanFiles(zone, w, folder.name, folder.files).Ok? ==>
      none + ScanFiles(zone, w, folder.name, folder.files).value == ScanFiles(zone, w, folder.name, folder.files).value;
    if |folder.files| == 1 {
      OneFile(zone, w, folder.name, folder.files[0]);
      assert folder.files[..0] == [];
    }
  }

  lemma OneFile(zone: Zone, w: Window, folder: string, file: File)
    ensures ScanFile(zone, w, folder, file).Ok? ==> |ScanFile(zone, w, folder, file).value| <= 1
  {
  }

  // ---------------------------------------------------------------------------
  // Names and calendar
  // ---------------------------------------------------------------------------

  predicate StartsWithTenDigits(name: string) {
    |name| >= 10 && TenDigits(name[..10])
  }

  function D(name: string, i: nat): int
    requires StartsWithTenDigits(name) && i < 10
  {
    assert name[i] == name[..10][i];
    DigitValue(name[i])
  }

  /** The first ten digits are read as year, month, day and hour, whatever follows them. */
  lemma FolderNameIsRead(name: string)
    requires StartsWithTenDigits(name)
    ensures FolderFields(name) == Some(Fields(
      1000 * D(name, 0) + 100 * D(name, 1) + 10 * D(name, 2) + D(name, 3),
      10 * D(name, 4) + D(name, 5), 10 * D(name, 6) + D(name, 7), 10 * D(name, 8) + D(name, 9)))
  {
    assert forall i :: 0 <= i < 10 ==> name[i] == name[..10][i];
    ParseFourDigits(name[0], name[1], name[2], name[3]);
    ParseTwoDigits(name[4], name[5]);
    ParseTwoDigits(name[6], name[7]);
    ParseTwoDigits(name[8], name[9]);
    hide ParseInt, ParseNat;
    assert Slice(name, 0, 4) == name[0..4] == [name[0], name[1], name[2], name[3]];
    assert Slice(name, 4, 6) == name[4..6] == [name[4], name[5]];
    assert Slice(name, 6, 8) == name[6..8] == [name[6], name[7]];
    assert Slice(name, 8, 10) == name[8..10] == [name[8], name[9]];
  }

  /** The names that the cameras write, `MMMSSS_...`, are read as their two numbers. */
  lemma FileNameIsRead(a: char, b: char, c: char, d: char, rest: string)
    requires IsDigit(a) && IsDigit(b) && IsDigit(c) && IsDigit(d)
    ensures Stamp([a, b] + ("M" + ([c, d] + ("S_" + rest))))
         == Some((10 * DigitValue(a) + DigitValue(b), 10 * DigitValue(c) + DigitValue(d)))
  {
    ParseTwoDigits(a, b);
    ParseTwoDigits(c, d);
    hide ParseNat, ParseInt, Stamp;
    StampOf([a, b], [c, d], rest);
  }

  /** The hour after a valid one. */
  function NextHour(f: Fields): Fields {
    if f.hour < 23 then f.(hour := f.hour + 1)
    else if f.day < DaysInMonth(f.year, f.month) then Fields(f.year, f.month, f.day + 1, 0)
    else if f.month < 12 then Fields(f.year, f.month + 1, 1, 0)
    else Fields(f.year + 1, 1, 1, 0)
  }

  predicate IsHour(f: Fields) {
    ValidHour(f.year, f.month, f.day, f.hour)
  }

  function StartOf(f: Fields): int
    requires IsHour(f)
  {
    HourStart(f.year, f.month, f.day, f.hour)
  }

  lemma QuotientSteps(year: int)
    requires year >= 1
    ensures year / 4 == (year - 1) / 4 + if year % 4 == 0 then 1 else 0
    ensures year / 100 == (year - 1) / 100 + if year % 100 == 0 then 1 else 0
    ensures year / 400 == (year - 1) / 400 + if year % 400 == 0 then 1 else 0
    ensures year % 400 == 0 ==> year % 100 == 0
    ensures year % 100 == 0 ==> year % 4 == 0
  {
  }

  /** The Gregorian year: 366 days in every fourth year, but not in centuries that 400 does not divide. */
  lemma YearLength(year: int)
    requires year >= 1
    ensures DaysBeforeYear(year + 1) - DaysBeforeYear(year)
         == if year % 400 == 0 || (year % 4 == 0 && year % 100 != 0) then 366 else 365
    ensures DaysBeforeMonth(year, 12) + DaysInMonth(year, 12) == DaysBeforeYear(year + 1) - DaysBeforeYear(year)
  {
    hide DaysBeforeMonth;
    DaysBeforeDecember(year);
    QuotientSteps(year);
  }

  lemma MonthsFollow(year: int, month: int)
    requires 1 <= month <= 12
    ensures DaysBeforeMonth(year, 1) == 0
    ensures month < 12 ==> DaysBeforeMonth(year, month + 1) == DaysBeforeMonth(year, month) + DaysInMonth(year, month)
    ensures 28 <= DaysInMonth(year, month) && DaysInMonth(year, 12) == 31
    ensures DaysInMonth(year, month)
         == [31, if IsLeap(year) then 29 else 28, 31, 30, 31, 30, 31, 31, 30, 31, 30, 31][month - 1]
  {
  }

  lemma TimeStarts()
    ensures StartOf(Fields(1, 1, 1, 0)) == 0
  {
  }

  /** The calendar starts at zero and has no gaps: each hour starts 3600 seconds after the one
      before it, through the ends of days, months and years up to the last hour of 9999. */
  lemma HoursFollow(f: Fields)
    requires IsHour(f) && f != Fields(9999, 12, 31, 23)
    ensures StartOf(Fields(1, 1, 1, 0)) == 0
    ensures IsHour(NextHour(f)) && StartOf(NextHour(f)) == StartOf(f) + 3600
  {
    hide DaysBeforeYear, DaysBeforeMonth, DaysInMonth;
    TimeStarts();
    YearLength(f.year);
    MonthsFollow(f.year, f.month);
    MonthsFollow(f.year, if f.month < 12 then f.month + 1 else 12);
    MonthsFollow(f.year + 1, 1);
  }
}
