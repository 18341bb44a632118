/**
 * The archive and homepage builder (`generate_index_pages.py`): report pages
 * named `Y-M-D-h-m.html` in the archive directory are parsed into date-times,
 * listed newest first, grouped by calendar day for the archive index, and
 * offered on the homepage with the newest one selected.
 */
module ArchiveIndex {
  import opened Wrappers
  import opened Text
  import opened Sorting
  import opened Clock
  import Files

  const ArchiveDir := "analysis_results/archive"
  const ResultsDir := "analysis_results"
  const ArchiveIndexFile := "analysis_results/archive/index.html"
  const HomepageFile := "analysis_results/index.html"

  // ----- file names -----

  /** `os.path.basename`: what follows the last `/`. */
  function Basename(p: string): (r: string)
    ensures '/' !in r && EndsWith(p, r)
    ensures '/' !in p ==> r == p
    decreases |p|
  {
    if p == [] || p[|p| - 1] == '/' then []
    else
      var init := p[..|p| - 1];
      var r := Basename(init) + [p[|p| - 1]];
      assert p[|p| - |r|..] == init[|init| - (|r| - 1)..] + [p[|p| - 1]];
      assert '/' !in p ==> '/' !in init && init + [p[|p| - 1]] == p;
      r
  }

  lemma {:induction false} BasenameOfJoin(dir: string, name: string)
    requires '/' !in name
    ensures Basename(dir + "/" + name) == name
    decreases |name|
  {
    var p := dir + "/" + name;
    if name != [] {
      var init := name[..|name| - 1];
      assert p[..|p| - 1] == dir + "/" + init;
      assert p[|p| - 1] == name[|name| - 1];
      BasenameOfJoin(dir, init);
      assert init + [name[|name| - 1]] == name;
    }
  }

  /** Python's `int(s)` for an optional sign followed by ASCII digits. */
  function PyInt(s: string): (r: Option<int>)
    ensures r.Some? <==> |s| > 0 && (AllDigits(s) || ((s[0] == '+' || s[0] == '-') && |s| > 1 && AllDigits(s[1..])))
  {
    if |s| > 0 && (s[0] == '+' || s[0] == '-') then
      if |s| > 1 && AllDigits(s[1..]) then
        var v: int := DigitsValue(s[1..]);
        Some(if s[0] == '-' then -v else v)
      else None
    else if |s| > 0 && AllDigits(s) then Some(DigitsValue(s))
    else None
  }

  /** `int()` reads back a zero-padded field. */
  lemma PyIntZeroPad(n: nat, width: nat)
    ensures PyInt(ZeroPad(n, width)) == Some(n)
  {
    DecimalRoundTrip(n);
  }

  /** The name with `.html` removed, split on `-`. */
  function NameParts(path: string): seq<string>
  {
    Split(RemoveAll(Basename(path), ".html"), '-')
  }

  // ----- what a report file name says -----

  /** `get_time_label`: the edition an hour belongs to. */
  function TimeLabel(hour: int): (edition: string)
    ensures edition == "早报" <==> 6 <= hour < 12
    ensures edition == "午报" <==> 12 <= hour < 18
    ensures edition == "晚报" <==> hour < 6 || 18 <= hour
  {
    if 6 <= hour < 12 then "早报"
    else if 12 <= hour < 18 then "午报"
    else "晚报"
  }

  /** `strftime('%Y年%m月%d日')`. */
  function DateStr(t: DateTime): string
  {
    YearText(t) + "年" + Two(t.month) + "月" + Two(t.day) + "日"
  }

  /** `strftime('%H:%M')`. */
  function TimeStr(t: DateTime): string
  {
    Two(t.hour) + ":" + Two(t.minute)
  }

  /** `strftime('%Y-%m-%d %H:%M')`. */
  function Timestamp(t: DateTime): string
  {
    YearText(t) + "-" + Two(t.month) + "-" + Two(t.day) + " " + TimeStr(t)
  }

  /** Day `a` is not after day `b`, the time of day ignored. */
  predicate DayNotAfter(a: DateTime, b: DateTime)
  {
    a.year < b.year || (a.year == b.year && (a.month < b.month || (a.month == b.month && a.day <= b.day)))
  }

  lemma FourDigitYear(y: nat)
    requires 1000 <= y <= 9999
    ensures |Decimal(y)| == 4
  {
    assert |Decimal(y / 1000)| == 1;
    assert Decimal(y / 100) == Decimal(y / 1000) + [DigitChar(y / 100 % 10)];
    assert Decimal(y / 10) == Decimal(y / 100) + [DigitChar(y / 10 % 10)];
  }

  /** The part of `DateStr` after the year. */
  function MonthDay(t: DateTime): string
  {
    "年" + Two(t.month) + "月" + Two(t.day) + "日"
  }

  lemma {:induction false} TwoDigitsOrder(m: int, n: int, x: string, y: string)
    requires 0 <= m < 100 && 0 <= n < 100
    ensures m != n ==> (StrLe(Two(m) + x, Two(n) + y) <==> m < n)
    ensures m == n ==> (StrLe(Two(m) + x, Two(n) + y) <==> StrLe(x, y))
  {
    if m != n {
      StrLeDifferentPrefix(Two(m), Two(n), x, y);
      DigitsOrder(Two(m), Two(n));
    } else {
      StrLeSamePrefix(Two(m), x, y);
    }
  }

  lemma MonthDayOrder(a: DateTime, b: DateTime)
    requires 1 <= a.month <= 12 && 1 <= b.month <= 12 && 1 <= a.day <= 31 && 1 <= b.day <= 31
    ensures StrLe(MonthDay(a), MonthDay(b)) <==>
      a.month < b.month || (a.month == b.month && a.day <= b.day)
  {
    var ra := "月" + Two(a.day) + "日";
    var rb := "月" + Two(b.day) + "日";
    assert MonthDay(a) == "年" + (Two(a.month) + ra);
    assert MonthDay(b) == "年" + (Two(b.month) + rb);
    StrLeSamePrefix("年", Two(a.month) + ra, Two(b.month) + rb);
    TwoDigitsOrder(a.month, b.month, ra, rb);
    if a.month == b.month {
      assert ra == "月" + (Two(a.day) + "日");
      assert rb == "月" + (Two(b.day) + "日");
      StrLeSamePrefix("月", Two(a.day) + "日", Two(b.day) + "日");
      TwoDigitsOrder(a.day, b.day, "日", "日");
      StrLeRefl("日");
    }
  }

  /**
   * For four-digit years, the string order of `DateStr` is the order of the
   * days, so a descending string sort puts later days first.
   */
  lemma DateStrOrder(a: DateTime, b: DateTime)
    requires Valid(a) && Valid(b) && 1000 <= a.year && 1000 <= b.year
    ensures StrLe(DateStr(a), DateStr(b)) <==> DayNotAfter(a, b)
  {
    var ya, yb := YearText(a), YearText(b);
    YearTextOrder(a, b);
    DateStrParts(a);
    DateStrParts(b);
    if a.year != b.year {
      StrLeDifferentPrefix(ya, yb, MonthDay(a), MonthDay(b));
    } else {
      StrLeSamePrefix(ya, MonthDay(a), MonthDay(b));
      MonthDayOrder(a, b);
    }
  }

  lemma DateStrParts(t: DateTime)
    ensures DateStr(t) == YearText(t) + MonthDay(t)
  {
  }

  /** Four-digit years print with the same length, and their strings order as the years do. */
  lemma YearTextOrder(a: DateTime, b: DateTime)
    requires 1000 <= a.year <= 9999 && 1000 <= b.year <= 9999
    ensures |YearText(a)| == |YearText(b)|
    ensures YearText(a) == YearText(b) <==> a.year == b.year
    ensures StrLe(YearText(a), YearText(b)) <==> a.year <= b.year
  {
    var ya, yb := Decimal(a.year), Decimal(b.year);
    FourDigitYear(a.year);
    FourDigitYear(b.year);
    DecimalRoundTrip(a.year);
    DecimalRoundTrip(b.year);
    DigitsOrder(ya, yb);
  }

  datatype Report = Report(filename: string, dt: DateTime, dateStr: string, timeStr: string,
                           timeLabel: string, timestamp: string)

  /** The report entry for a parsed file name: every string is derived from the date-time. */
  function ReportOf(filename: string, t: DateTime): Report
  {
    Report(filename, t, DateStr(t), TimeStr(t), TimeLabel(t.hour), Timestamp(t))
  }

  /** The first five parts as integers, read as a date-time at second zero; `None` where `int()` raises. */
  function LeadingFields(parts: seq<string>): (r: Option<DateTime>)
    ensures r.Some? <==> |parts| >= 5 && forall k :: 0 <= k < 5 ==> PyInt(parts[k]).Some?
  {
    if |parts| < 5 then None
    else
      match (PyInt(parts[0]), PyInt(parts[1]), PyInt(parts[2]), PyInt(parts[3]), PyInt(parts[4]))
      case (Some(y), Some(mo), Some(d), Some(h), Some(mi)) => Some(DateTime(y, mo, d, h, mi, 0))
      case _ => None
  }

  /**
   * `parse_report_filename`: at least five `-`-separated parts, the first five
   * integers forming a valid date-time; every failure is caught and gives
   * `None`. Parts after the fifth are ignored.
   */
  function ParseReportFilename(path: string): (r: Option<Report>)
    ensures r.Some? ==> r.value == ReportOf(Basename(path), r.value.dt) && Valid(r.value.dt) && r.value.dt.second == 0
  {
    match LeadingFields(NameParts(path))
    case Some(t) => if Valid(t) then Some(ReportOf(Basename(path), t)) else None
    case None => None
  }

  /** The fields of the name the pipeline gives a report, zero-padded. */
  function ReportFields(t: DateTime): seq<string>
    requires Valid(t)
  {
    [ZeroPad(t.year, 4), ZeroPad(t.month, 2), ZeroPad(t.day, 2), ZeroPad(t.hour, 2), ZeroPad(t.minute, 2)]
  }

  /** The name the pipeline gives a report: `YYYY-MM-DD-HH-MM.html`. */
  function ReportName(t: DateTime): string
    requires Valid(t)
  {
    Join(ReportFields(t), "-") + ".html"
  }

  lemma {:induction false} RemoveSuffix(stem: string)
    requires '.' !in stem
    ensures RemoveAll(stem + ".html", ".html") == stem
    decreases |stem|
  {
    var s := stem + ".html";
    if stem == [] {
      assert s[..5] == ".html";
      assert s[5..] == [];
    } else {
      assert s[0] == stem[0] && s[0] != '.';
      assert s[1..] == stem[1..] + ".html";
      RemoveSuffix(stem[1..]);
    }
  }

  lemma NoDash(n: nat, width: nat)
    ensures '-' !in ZeroPad(n, width) && '.' !in ZeroPad(n, width) && '/' !in ZeroPad(n, width)
  {
  }

  /** The canonical name of `t`, in any directory, splits into its five zero-padded fields. */
  lemma ReportNameParts(dir: string, t: DateTime)
    requires Valid(t)
    ensures '/' !in ReportName(t)
    ensures NameParts(dir + "/" + ReportName(t)) == ReportFields(t)
  {
    var fields := ReportFields(t);
    FieldsPlain(t);
    var stem := Join(fields, "-");
    JoinNoDot(fields);
    assert ReportName(t) == stem + ".html";
    assert '/' !in ReportName(t);
    BasenameOfJoin(dir, ReportName(t));
    RemoveSuffix(stem);
    assert NameParts(dir + "/" + ReportName(t)) == Split(stem, '-');
    JoinSplit(fields, '-');
  }

  /** No field of a report name holds a dash, a dot or a slash. */
  lemma FieldsPlain(t: DateTime)
    requires Valid(t)
    ensures forall k :: 0 <= k < |ReportFields(t)| ==>
      '-' !in ReportFields(t)[k] && '.' !in ReportFields(t)[k] && '/' !in ReportFields(t)[k]
  {
    NoDash(t.year, 4); NoDash(t.month, 2); NoDash(t.day, 2); NoDash(t.hour, 2); NoDash(t.minute, 2);
  }

  lemma {:induction false} JoinNoDot(parts: seq<string>)
    requires forall k :: 0 <= k < |parts| ==> '.' !in parts[k] && '/' !in parts[k]
    ensures '.' !in Join(parts, "-") && '/' !in Join(parts, "-")
    decreases |parts|
  {
    if |parts| > 1 {
      JoinNoDot(parts[1..]);
    }
  }

  lemma ReportFieldsRead(t: DateTime)
    requires Valid(t) && t.second == 0
    ensures LeadingFields(ReportFields(t)) == Some(t)
  {
    var fields := ReportFields(t);
    PyIntZeroPad(t.year, 4); PyIntZeroPad(t.month, 2); PyIntZeroPad(t.day, 2);
    PyIntZeroPad(t.hour, 2); PyIntZeroPad(t.minute, 2);
    assert PyInt(fields[0]) == Some(t.year) && PyInt(fields[1]) == Some(t.month);
    assert PyInt(fields[2]) == Some(t.day) && PyInt(fields[3]) == Some(t.hour);
    assert PyInt(fields[4]) == Some(t.minute);
  }

  /** A report saved under its canonical name in any directory parses back to its own date-time, minute for minute. */
  lemma ParseReportName(dir: string, t: DateTime)
    requires Valid(t) && t.second == 0
    ensures ParseReportFilename(dir + "/" + ReportName(t)) == Some(ReportOf(ReportName(t), t))
  {
    var path := dir + "/" + ReportName(t);
    ReportNameParts(dir, t);
    BasenameOfJoin(dir, ReportName(t));
    ReportFieldsRead(t);
    assert LeadingFields(NameParts(path)) == Some(t);
    assert Basename(path) == ReportName(t);
  }

  // ----- the report list -----

  /** `glob('*.html')` in the archive directory: names ending in `.html`, hidden names left out. */
  predicate GlobHtml(name: string)
  {
    EndsWith(name, ".html") && !(|name| > 0 && name[0] == '.')
  }

  function ArchivePath(name: string): string
  {
    ArchiveDir + "/" + name
  }

  /** The paths `glob` returns for a listing of the archive directory, in listing order. */
  function GlobPaths(listing: seq<string>): seq<string>
  {
    Map(Filter(listing, GlobHtml), ArchivePath)
  }

  /** Not an index page. */
  predicate Listed(path: string)
  {
    !EndsWith(path, "index.html")
  }

  /** The report a path contributes: none for an index page or a name that does not parse. */
  function ListedReport(path: string): Option<Report>
  {
    if Listed(path) then ParseReportFilename(path) else None
  }

  /** The reports of the listed paths that parse, in path order. */
  function ParsedReports(paths: seq<string>): seq<Report>
  {
    Collect(paths, ListedReport)
  }

  /** A report is on the list exactly when some non-index path parses to it. */
  lemma ParsedReportsFrom(paths: seq<string>, r: Report)
    ensures r in ParsedReports(paths) <==>
      exists i :: 0 <= i < |paths| && Listed(paths[i]) && ParseReportFilename(paths[i]) == Some(r)
  {
    CollectFrom(paths, ListedReport, r);
  }

  /** The loop of `generate_archive_index` that keeps the names that parse. */
  method CollectReports(paths: seq<string>) returns (reports: seq<Report>)
    ensures reports == ParsedReports(paths)
  {
    reports := [];
    for i := 0 to |paths|
      invariant reports == ParsedReports(paths[..i])
    {
      assert paths[..i + 1][..i] == paths[..i];
      if Listed(paths[i]) {
        var info := ParseReportFilename(paths[i]);
        if info.Some? {
          reports := reports + [info.value];
        }
      }
      assert reports == ParsedReports(paths[..i + 1]);
    }
    assert paths[..|paths|] == paths;
  }

  function ReportKey(r: Report): int
  {
    Ordinal(r.dt)
  }

  /** `reports.sort(key=datetime, reverse=True)`: newest first, reports with the same date-time in listing order. */
  function NewestFirst(reports: seq<Report>): seq<Report>
  {
    SortBy(reports, Negate(ReportKey))
  }

  /** Every report holds a valid date-time and the strings derived from it. */
  ghost predicate AllValid(reports: seq<Report>)
  {
    forall i :: 0 <= i < |reports| ==> Valid(reports[i].dt) && reports[i] == ReportOf(reports[i].filename, reports[i].dt)
  }

  lemma ParsedValid(paths: seq<string>)
    ensures AllValid(ParsedReports(paths))
  {
    var rs := ParsedReports(paths);
    forall i | 0 <= i < |rs| ensures Valid(rs[i].dt) && rs[i] == ReportOf(rs[i].filename, rs[i].dt) {
      ParsedReportsFrom(paths, rs[i]);
    }
  }

  /** The sorted list holds the same reports, and none is older than a report after it. */
  lemma NewestFirstOrder(reports: seq<Report>)
    requires AllValid(reports)
    ensures multiset(NewestFirst(reports)) == multiset(reports)
    ensures var s := NewestFirst(reports);
      forall i, j :: 0 <= i < j < |s| ==> !Before(s[i].dt, s[j].dt)
  {
    var s := NewestFirst(reports);
    SortBySorted(reports, Negate(ReportKey));
    SortedByNegate(s, ReportKey);
    forall i, j | 0 <= i < j < |s| ensures !Before(s[i].dt, s[j].dt) {
      assert s[i] in multiset(reports) && s[j] in multiset(reports);
      var a :| 0 <= a < |reports| && reports[a] == s[i];
      var b :| 0 <= b < |reports| && reports[b] == s[j];
      OrdinalOrder(s[i].dt, s[j].dt);
    }
  }

  // ----- grouping by day -----

  function SameDate(date: string): Report -> bool
  {
    (r: Report) => r.dateStr == date
  }

  /** The keys of `reports_by_date` in insertion order: each day once, at its first report. */
  function DistinctDates(reports: seq<Report>): (dates: seq<string>)
    ensures forall d :: d in dates <==> exists i :: 0 <= i < |reports| && reports[i].dateStr == d
    ensures forall i, j :: 0 <= i < j < |dates| ==> dates[i] != dates[j]
    decreases |reports|
  {
    if reports == [] then []
    else
      var p := reports[..|reports| - 1];
      var last := reports[|reports| - 1];
      var ds := DistinctDates(p);
      assert forall i :: 0 <= i < |p| ==> p[i] == reports[i];
      if last.dateStr in ds then ds else ds + [last.dateStr]
  }

  /**
   * The `reports_by_date` loop: a list per day, holding that day's reports in
   * the order of `reports`.
   */
  method GroupByDate(reports: seq<Report>) returns (dates: seq<string>, byDate: map<string, seq<Report>>)
    ensures dates == DistinctDates(reports)
    ensures forall d :: d in byDate <==> d in dates
    ensures forall d :: d in byDate ==> byDate[d] == Filter(reports, SameDate(d))
  {
    dates, byDate := [], map[];
    for i := 0 to |reports|
      invariant Grouped(reports[..i], dates, byDate)
    {
      var r := reports[i];
      assert reports[..i + 1] == reports[..i] + [r];
      if r.dateStr !in byDate {
        NewDateStep(reports[..i], r, dates, byDate);
        byDate := byDate[r.dateStr := [r]];
        dates := dates + [r.dateStr];
      } else {
        SameDateStep(reports[..i], r, dates, byDate);
        byDate := byDate[r.dateStr := byDate[r.dateStr] + [r]];
      }
    }
    assert reports[..|reports|] == reports;
  }

  /** The loop invariant of `GroupByDate`: `dates` and `byDate` describe exactly `prefix`. */
  ghost predicate Grouped(prefix: seq<Report>, dates: seq<string>, byDate: map<string, seq<Report>>)
  {
    && dates == DistinctDates(prefix)
    && (forall d :: d in byDate <==> d in dates)
    && (forall d :: d in byDate ==> byDate[d] == Filter(prefix, SameDate(d)))
  }

  /** The loop step for a report whose day has no list yet. */
  lemma NewDateStep(prefix: seq<Report>, r: Report, dates: seq<string>, byDate: map<string, seq<Report>>)
    requires Grouped(prefix, dates, byDate)
    requires r.dateStr !in byDate
    ensures Grouped(prefix + [r], dates + [r.dateStr], byDate[r.dateStr := [r]])
  {
    assert (prefix + [r])[..|prefix|] == prefix;
    NoneOfDate(prefix, r.dateStr);
    forall d | d in byDate[r.dateStr := [r]] ensures byDate[r.dateStr := [r]][d] == Filter(prefix + [r], SameDate(d)) {
      GroupStep(prefix, r, d);
    }
  }

  /** The loop step for a report whose day already has a list. */
  lemma SameDateStep(prefix: seq<Report>, r: Report, dates: seq<string>, byDate: map<string, seq<Report>>)
    requires Grouped(prefix, dates, byDate)
    requires r.dateStr in byDate
    ensures Grouped(prefix + [r], dates, byDate[r.dateStr := byDate[r.dateStr] + [r]])
  {
    assert (prefix + [r])[..|prefix|] == prefix;
    var m := byDate[r.dateStr := byDate[r.dateStr] + [r]];
    forall d | d in m ensures m[d] == Filter(prefix + [r], SameDate(d)) {
      GroupStep(prefix, r, d);
    }
  }

  lemma GroupStep(prefix: seq<Report>, r: Report, d: string)
    ensures Filter(prefix + [r], SameDate(d)) == Filter(prefix, SameDate(d)) + (if r.dateStr == d then [r] else [])
  {
    FilterAppend(prefix, [r], SameDate(d));
  }

  lemma NoneOfDate(reports: seq<Report>, d: string)
    requires d !in DistinctDates(reports)
    ensures Filter(reports, SameDate(d)) == []
  {
  }

  function Reverse(s: seq<string>): (r: seq<string>)
    ensures |r| == |s| && forall i :: 0 <= i < |s| ==> r[i] == s[|s| - 1 - i]
  {
    if s == [] then [] else Reverse(s[1..]) + [s[0]]
  }

  /** `sorted(dates, reverse=True)`; equal strings cannot be told apart, so this is the ascending sort reversed. */
  function DescendingDates(dates: seq<string>): seq<string>
  {
    Reverse(SortStrings(dates))
  }

  /** The same days, each once, in descending string order. */
  lemma DescendingDatesOrder(dates: seq<string>)
    requires NoDuplicates(dates)
    ensures multiset(DescendingDates(dates)) == multiset(dates)
    ensures var r := DescendingDates(dates);
      forall i, j :: 0 <= i < j < |r| ==> StrLe(r[j], r[i]) && r[i] != r[j]
  {
    var s := SortStrings(dates);
    var r := DescendingDates(dates);
    SortStringsSorted(dates);
    PermutationNoDuplicates(dates, s);
    assert multiset(r) == multiset(s) by {
      ReverseMultiset(s);
    }
    ReverseDescending(s);
  }

  /** The reverse of a sorted list without duplicates strictly descends. */
  lemma ReverseDescending(s: seq<string>)
    requires StrSorted(s) && NoDuplicates(s)
    ensures var r := Reverse(s);
      forall i, j :: 0 <= i < j < |r| ==> StrLe(r[j], r[i]) && r[i] != r[j]
  {
    var r := Reverse(s);
    forall i, j | 0 <= i < j < |r| ensures StrLe(r[j], r[i]) && r[i] != r[j] {
      var a, b := |s| - 1 - j, |s| - 1 - i;
      assert 0 <= a < b < |s|;
      assert r[j] == s[a] && r[i] == s[b];
      assert StrLe(s[a], s[b]) && s[a] != s[b];
    }
  }

  lemma {:induction false} ReverseMultiset(s: seq<string>)
    ensures multiset(Reverse(s)) == multiset(s)
    decreases |s|
  {
    if s != [] {
      ReverseMultiset(s[1..]);
      assert s == [s[0]] + s[1..];
    }
  }

  datatype DateGroup = DateGroup(date: string, reports: seq<Report>)

  /** The archive index: the day groups, newest day first, or the empty state. */
  datatype ArchivePage = EmptyArchive | Archive(groups: seq<DateGroup>)

  function GroupOf(reports: seq<Report>): string -> DateGroup
  {
    (d: string) => DateGroup(d, Filter(reports, SameDate(d)))
  }

  /** The archive index of the sorted report list. */
  function ArchiveOf(reports: seq<Report>): ArchivePage
  {
    if reports == [] then EmptyArchive
    else Archive(Map(DescendingDates(DistinctDates(reports)), GroupOf(reports)))
  }

  /** Every day of the descending order is one of the days listed. */
  lemma DescendingMember(dates: seq<string>, g: int)
    requires 0 <= g < |DescendingDates(dates)|
    ensures DescendingDates(dates)[g] in dates
  {
    var s := SortStrings(dates);
    var x := s[|s| - 1 - g];
    assert DescendingDates(dates)[g] == x;
    assert x in multiset(s);
    assert multiset(s) == multiset(dates);
    assert x in multiset(dates);
  }

  /** Every day of the descending order has a report. */
  lemma GroupsNonEmpty(reports: seq<Report>, g: int)
    requires 0 <= g < |DescendingDates(DistinctDates(reports))|
    ensures Filter(reports, SameDate(DescendingDates(DistinctDates(reports))[g])) != []
  {
    var d := DescendingDates(DistinctDates(reports))[g];
    DescendingMember(DistinctDates(reports), g);
    var i :| 0 <= i < |reports| && reports[i].dateStr == d;
    FilterKeeps(reports, SameDate(d), i);
  }

  /** The day of every report has a place in the descending order. */
  lemma EveryDayListed(reports: seq<Report>, i: int) returns (g: int)
    requires 0 <= i < |reports|
    ensures 0 <= g < |DescendingDates(DistinctDates(reports))|
    ensures DescendingDates(DistinctDates(reports))[g] == reports[i].dateStr
    ensures reports[i] in Filter(reports, SameDate(reports[i].dateStr))
  {
    var dates := DistinctDates(reports);
    var order := DescendingDates(dates);
    DescendingDatesOrder(dates);
    assert reports[i].dateStr in dates;
    assert reports[i].dateStr in multiset(dates);
    assert reports[i].dateStr in multiset(order);
    g :| 0 <= g < |order| && order[g] == reports[i].dateStr;
    FilterKeeps(reports, SameDate(reports[i].dateStr), i);
  }

  /** Each group holds the reports of its day, in list order, and is never empty. */
  lemma GroupContents(reports: seq<Report>, g: int)
    requires reports != [] && 0 <= g < |ArchiveOf(reports).groups|
    ensures var group := ArchiveOf(reports).groups[g];
      group.reports != [] && group.reports == Filter(reports, SameDate(group.date))
  {
    var order := DescendingDates(DistinctDates(reports));
    assert ArchiveOf(reports).groups[g] == GroupOf(reports)(order[g]);
    GroupsNonEmpty(reports, g);
  }

  /** Groups come in strictly descending day-string order. */
  lemma GroupsDescending(reports: seq<Report>, g: int, h: int)
    requires reports != [] && 0 <= g < h < |ArchiveOf(reports).groups|
    ensures var gs := ArchiveOf(reports).groups;
      StrLe(gs[h].date, gs[g].date) && gs[g].date != gs[h].date
  {
    var order := DescendingDates(DistinctDates(reports));
    DescendingDatesOrder(DistinctDates(reports));
    assert ArchiveOf(reports).groups[g] == GroupOf(reports)(order[g]);
    assert ArchiveOf(reports).groups[h] == GroupOf(reports)(order[h]);
  }

  /** Every report is in the group of its day. */
  lemma ReportGrouped(reports: seq<Report>, i: int) returns (g: int)
    requires 0 <= i < |reports|
    ensures var gs := ArchiveOf(reports).groups;
      0 <= g < |gs| && gs[g].date == reports[i].dateStr && reports[i] in gs[g].reports
  {
    g := EveryDayListed(reports, i);
    var order := DescendingDates(DistinctDates(reports));
    assert ArchiveOf(reports).groups[g] == GroupOf(reports)(order[g]);
  }

  lemma NoDatesNoReports(reports: seq<Report>)
    ensures DistinctDates(reports) == [] <==> reports == []
  {
    if reports != [] {
      assert reports[0].dateStr in DistinctDates(reports);
    }
  }

  /**
   * For four-digit years, the archive's day groups run from the newest day to
   * the oldest: every report of an earlier group is of a strictly later day
   * than every report of a later group.
   */
  lemma ArchiveNewestDayFirst(listing: seq<string>, g: int, h: int, x: Report, y: Report)
    requires var reports := ListedReports(listing);
      reports != [] && (forall r :: r in reports ==> r.dt.year >= 1000) &&
      0 <= g < h < |ArchiveOf(reports).groups| &&
      x in ArchiveOf(reports).groups[g].reports && y in ArchiveOf(reports).groups[h].reports
    ensures DayNotAfter(y.dt, x.dt) && !DayNotAfter(x.dt, y.dt)
  {
    ListedValid(listing);
    GroupDaysDescending(ListedReports(listing), g, h, x, y);
  }

  /** The listed reports are the parsed ones, each valid, newest first. */
  lemma ListedValid(listing: seq<string>)
    ensures AllValid(ListedReports(listing))
    ensures multiset(ListedReports(listing)) == multiset(ParsedReports(GlobPaths(listing)))
    ensures var s := ListedReports(listing);
      forall i, j :: 0 <= i < j < |s| ==> !Before(s[i].dt, s[j].dt)
  {
    var parsed := ParsedReports(GlobPaths(listing));
    var sorted := ListedReports(listing);
    ParsedValid(GlobPaths(listing));
    NewestFirstOrder(parsed);
    forall i | 0 <= i < |sorted| ensures Valid(sorted[i].dt) && sorted[i] == ReportOf(sorted[i].filename, sorted[i].dt) {
      assert sorted[i] in multiset(parsed);
      ValidMember(parsed, sorted[i]);
    }
  }

  /** Two reports of different groups: the earlier group's is of the strictly later day. */
  lemma GroupDaysDescending(reports: seq<Report>, g: int, h: int, x: Report, y: Report)
    requires AllValid(reports) && forall r :: r in reports ==> r.dt.year >= 1000
    requires reports != [] && 0 <= g < h < |ArchiveOf(reports).groups|
    requires x in ArchiveOf(reports).groups[g].reports && y in ArchiveOf(reports).groups[h].reports
    ensures DayNotAfter(y.dt, x.dt) && !DayNotAfter(x.dt, y.dt)
  {
    var gs := ArchiveOf(reports).groups;
    GroupContents(reports, g);
    GroupContents(reports, h);
    GroupsDescending(reports, g, h);
    assert x in reports && x.dateStr == gs[g].date;
    assert y in reports && y.dateStr == gs[h].date;
    ValidMember(reports, x);
    ValidMember(reports, y);
    DateStrOrder(y.dt, x.dt);
    DateStrOrder(x.dt, y.dt);
    if StrLe(DateStr(x.dt), DateStr(y.dt)) {
      StrLeAntisym(DateStr(x.dt), DateStr(y.dt));
    }
  }

  lemma ValidMember(reports: seq<Report>, x: Report)
    requires AllValid(reports) && x in reports
    ensures Valid(x.dt) && x == ReportOf(x.filename, x.dt)
  {
    var i :| 0 <= i < |reports| && reports[i] == x;
  }

  /** The `for date_str in sorted(...)` loop: one group per day, in the given order. */
  method GroupsInOrder(order: seq<string>, byDate: map<string, seq<Report>>, ghost reports: seq<Report>)
    returns (groups: seq<DateGroup>)
    requires forall d :: d in order ==> d in byDate && byDate[d] == Filter(reports, SameDate(d))
    ensures groups == Map(order, GroupOf(reports))
  {
    groups := [];
    for g := 0 to |order|
      invariant groups == Map(order[..g], GroupOf(reports))
    {
      var d := order[g];
      var group := DateGroup(d, byDate[d]);
      assert group == GroupOf(reports)(d);
      MapPrefix(order, g, GroupOf(reports));
      groups := groups + [group];
    }
    assert order[..|order|] == order;
  }

  /** The `if reports_by_date` branch: the day groups in `sorted(..., reverse=True)` order, or the empty state. */
  method BuildArchive(reports: seq<Report>) returns (page: ArchivePage)
    ensures page == ArchiveOf(reports)
  {
    var dates, byDate := GroupByDate(reports);
    NoDatesNoReports(reports);
    assert dates != [] ==> dates[0] in byDate;
    if byDate == map[] {
      return EmptyArchive;
    }
    var order := DescendingDates(dates);
    forall d | d in order ensures d in dates {
      var g :| 0 <= g < |order| && order[g] == d;
      DescendingMember(dates, g);
    }
    var groups := GroupsInOrder(order, byDate, reports);
    return Archive(groups);
  }

  // ----- the homepage -----

  /** One element of the homepage's report list. */
  datatype Entry = Entry(filename: string, timestamp: string, dateStr: string, timeStr: string, timeLabel: string)

  function EntryOf(r: Report): Entry
  {
    Entry(r.filename, r.timestamp, r.dateStr, r.timeStr, r.timeLabel)
  }

  /**
   * What the homepage shows once its script has run: the welcome state when
   * there are no reports, otherwise the list in the order given with the
   * first entry selected and its page loaded into the frame.
   */
  datatype Homepage = Welcome | Latest(entries: seq<Entry>, selected: string, frame: string)

  function HomepageOf(reports: seq<Report>): (h: Homepage)
    ensures h.Welcome? <==> reports == []
    ensures h.Latest? ==> |h.entries| == |reports| && h.entries[0].filename == h.selected
  {
    if reports == [] then Welcome
    else Latest(Map(reports, EntryOf), reports[0].filename, "archive/" + reports[0].filename)
  }

  /** The reports of a listing of the archive directory, newest first. */
  function ListedReports(listing: seq<string>): seq<Report>
  {
    NewestFirst(ParsedReports(GlobPaths(listing)))
  }

  /**
   * The homepage selects a report no older than any report in the archive
   * listing, and lists every one of them.
   */
  lemma HomepageSelectsNewest(listing: seq<string>)
    requires ListedReports(listing) != []
    ensures var h := HomepageOf(ListedReports(listing));
      var parsed := ParsedReports(GlobPaths(listing));
      exists newest :: newest in parsed && h.selected == newest.filename &&
        forall r :: r in parsed ==> !Before(newest.dt, r.dt)
    ensures forall r :: r in ParsedReports(GlobPaths(listing)) ==>
      EntryOf(r) in HomepageOf(ListedReports(listing)).entries
  {
    var parsed := ParsedReports(GlobPaths(listing));
    var sorted := ListedReports(listing);
    ListedValid(listing);
    assert sorted[0] in multiset(parsed);
    forall r | r in parsed ensures !Before(sorted[0].dt, r.dt) && EntryOf(r) in HomepageOf(sorted).entries {
      assert r in multiset(sorted);
      assert r in sorted;
      HeadNotBefore(sorted, r);
    }
  }

  /** In a list sorted newest first, the head is no older than any member, and every member has an entry. */
  lemma HeadNotBefore(sorted: seq<Report>, r: Report)
    requires r in sorted
    requires forall i, j :: 0 <= i < j < |sorted| ==> !Before(sorted[i].dt, sorted[j].dt)
    ensures !Before(sorted[0].dt, r.dt) && EntryOf(r) in HomepageOf(sorted).entries
  {
    var j :| 0 <= j < |sorted| && sorted[j] == r;
    assert HomepageOf(sorted).entries[j] == EntryOf(r);
  }

  // ----- main -----

  /**
   * `os.makedirs(archive_dir)` when the archive directory does not exist: it
   * creates `analysis_results` too, and raises when that is a file.
   */
  function MakeArchiveDir(fs: Files.FileSystem): Option<Files.FileSystem>
  {
    if Files.Exists(fs, ArchiveDir) then Some(fs)
    else if ResultsDir in fs.files then None
    else Some(fs.(dirs := fs.dirs + {ResultsDir, ArchiveDir}))
  }

  /**
   * `main`: the archive index is written to the archive directory, then the
   * homepage to `analysis_results`; nothing catches a failure to write either.
   * `listing` is the archive directory's listing; a directory that did not
   * exist, or a file in its place, lists nothing.
   */
  method RunScript(fs: Files.FileSystem, listing: seq<string>,
              renderArchive: ArchivePage -> string, renderHome: Homepage -> string)
    returns (run: Run, fs': Files.FileSystem)
    ensures MakeArchiveDir(fs).None? ==> run == Crashed && fs' == fs
    ensures MakeArchiveDir(fs).Some? ==>
      var fs1 := MakeArchiveDir(fs).value;
      var reports := ListedReports(if ArchiveDir in fs.dirs then listing else []);
      var fs2 := Files.Write(fs1, ArchiveIndexFile, Files.TextFile(renderArchive(ArchiveOf(reports))));
      (!Files.CanCreate(fs1, ArchiveDir, ArchiveIndexFile) ==> run == Crashed && fs' == fs1) &&
      (Files.CanCreate(fs1, ArchiveDir, ArchiveIndexFile) && !Files.CanCreate(fs2, ResultsDir, HomepageFile) ==>
        run == Crashed && fs' == fs2) &&
      (Files.CanCreate(fs1, ArchiveDir, ArchiveIndexFile) && Files.CanCreate(fs2, ResultsDir, HomepageFile) ==>
        run == Exited(0) && fs' == Files.Write(fs2, HomepageFile, Files.TextFile(renderHome(HomepageOf(reports)))))
  {
    var made := MakeArchiveDir(fs);
    if made.None? {
      return Crashed, fs;
    }
    fs' := made.value;
    var names := if ArchiveDir in fs.dirs then listing else [];
    var collected := CollectReports(GlobPaths(names));
    var reports := NewestFirst(collected);
    var page := BuildArchive(reports);
    if !Files.CanCreate(fs', ArchiveDir, ArchiveIndexFile) {
      return Crashed, fs';
    }
    fs' := Files.Write(fs', ArchiveIndexFile, Files.TextFile(renderArchive(page)));
    var home := HomepageOf(reports);
    if !Files.CanCreate(fs', ResultsDir, HomepageFile) {
      return Crashed, fs';
    }
    fs' := Files.Write(fs', HomepageFile, Files.TextFile(renderHome(home)));
    run := Exited(0);
  }
}
