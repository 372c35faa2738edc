/** The batch-job log summary: job keys from log names, `MM/DD HH:MM:SS` time stamps,
    the five lifecycle events (submit, execute, evict, abort, terminate), the
    predecessor check, the crediting of each gap between events to user or system
    time, the looper time scraped from a job's stdout and the per-metric ranking.
    The shell-outs (`grep`, `glob`) become lists of lines handed in by the caller, and
    the current year becomes a parameter. */
module CondorLog {
  import opened Wrappers
  import opened Strs
  import opened Seqs

  // ---------------------------------------------------------------------------
  // Job key

  /** The key of a job: the log file's basename with every `log_` and then every
      `.log` removed, one replacement pass each. */
  function JobKey(logFileName: string): string
  {
    Replace(Replace(Basename(logFileName), "log_", ""), ".log", "")
  }

  /** A log named `<dir>/log_<key>.log` gives back `<key>`, for any key without a
      slash, `log_` or `.log` in it. */
  lemma JobKeyOfLogName(dir: string, key: string)
    requires '/' !in key && !Contains(key, "log_") && !Contains(key, ".log")
    ensures JobKey(dir + "/" + ("log_" + key + ".log")) == key
  {
    var name := "log_" + key + ".log";
    NoSlashInLogName(key);
    BasenameOfPath(dir, name);
    JoinAssoc("log_", key, ".log");
    DropLogPrefix(key);
    DropLogSuffix(key);
  }

  lemma NoSlashInLogName(key: string)
    requires '/' !in key
    ensures '/' !in "log_" + key + ".log"
  {
    var name := "log_" + key + ".log";
    forall i | 0 <= i < |name| ensures name[i] != '/' {
      if 4 <= i < 4 + |key| { assert name[i] == key[i - 4]; }
    }
  }

  /** The first pass removes only the leading `log_`. */
  lemma DropLogPrefix(key: string)
    requires !Contains(key, "log_")
    ensures Replace("log_" + (key + ".log"), "log_", "") == key + ".log"
  {
    NoStraddleByHead("log_", key + ".log", "log_");
    ReplaceAppend("log_", key + ".log", "log_", "");
    assert Replace("log_", "log_", "") == "";
    NoStraddleByTail(key, ".log", "log_");
    ReplaceAppend(key, ".log", "log_", "");
    ReplaceAbsent(key, "log_", "");
    assert !Contains(".log", "log_") by { assert forall i :: !OccursAt(".log", "log_", i); }
    ReplaceAbsent(".log", "log_", "");
    assert "" + (key + ".log") == key + ".log";
  }

  /** The second pass removes only the trailing `.log`. */
  lemma DropLogSuffix(key: string)
    requires !Contains(key, ".log")
    ensures Replace(key + ".log", ".log", "") == key
  {
    NoStraddleByTail(key, ".log", ".log");
    ReplaceAppend(key, ".log", ".log", "");
    ReplaceAbsent(key, ".log", "");
    assert Replace(".log", ".log", "") == "";
    assert key + "" == key;
  }

  /** No occurrence straddles `a + b` when no character near the end of `a` can start `p`. */
  lemma NoStraddleByHead(a: string, b: string, p: string)
    requires |p| > 0
    requires forall i :: 0 <= i < |a| && |a| < i + |p| ==> a[i] != p[0]
    ensures NoStraddle(a, b, p)
  {
    forall i | 0 <= i < |a| < i + |p| ensures !OccursAt(a + b, p, i) {
      if i + |p| <= |a + b| {
        assert (a + b)[i..i + |p|][0] == a[i];
      }
    }
  }

  /** No occurrence straddles `a + b` when the first character of `b` occurs nowhere in
      `p` but at its start. */
  lemma NoStraddleByTail(a: string, b: string, p: string)
    requires |b| > 0
    requires forall t :: 0 < t < |p| ==> p[t] != b[0]
    ensures NoStraddle(a, b, p)
  {
    forall i | 0 <= i < |a| < i + |p| ensures !OccursAt(a + b, p, i) {
      if i + |p| <= |a + b| {
        assert (a + b)[i..i + |p|][|a| - i] == b[0];
      }
    }
  }

  // ---------------------------------------------------------------------------
  // Time stamps

  /** The time-stamp pattern ` [0-9][0-9]/[0-9][0-9] [0-9][0-9]:[0-9][0-9]:[0-9][0-9] `
      matches the 16 characters of `line` starting at `i`. */
  predicate TimeMatchAt(line: string, i: int)
  {
    0 <= i && i + 16 <= |line| &&
    line[i] == ' ' && IsDigit(line[i + 1]) && IsDigit(line[i + 2]) && line[i + 3] == '/' &&
    IsDigit(line[i + 4]) && IsDigit(line[i + 5]) && line[i + 6] == ' ' &&
    IsDigit(line[i + 7]) && IsDigit(line[i + 8]) && line[i + 9] == ':' &&
    IsDigit(line[i + 10]) && IsDigit(line[i + 11]) && line[i + 12] == ':' &&
    IsDigit(line[i + 13]) && IsDigit(line[i + 14]) && line[i + 15] == ' '
  }

  /** `re.search` of the time-stamp pattern: the first matching index, or -1. */
  function FindTimeFrom(line: string, i: nat): (r: int)
    requires i <= |line|
    ensures r == -1 || (i <= r && TimeMatchAt(line, r))
    ensures forall j :: i <= j && (r == -1 || j < r) ==> !TimeMatchAt(line, j)
    decreases |line| - i
  {
    if i + 16 > |line| then -1
    else if TimeMatchAt(line, i) then i
    else FindTimeFrom(line, i + 1)
  }

  function FindTime(line: string): (r: int)
    ensures r == -1 || TimeMatchAt(line, r)
    ensures forall j :: 0 <= j && (r == -1 || j < r) ==> !TimeMatchAt(line, j)
  {
    FindTimeFrom(line, 0)
  }

  /** The line would be printed by `grep -E` with the time-stamp pattern. */
  predicate HasTimeStamp(line: string)
  {
    FindTime(line) >= 0
  }

  /** A calendar time with the fields Python's `datetime` is built from. */
  datatype DateTime = DateTime(year: int, month: int, day: int, hour: int, minute: int, second: int)

  predicate IsLeap(year: int)
  {
    year % 4 == 0 && (year % 100 != 0 || year % 400 == 0)
  }

  function DaysInMonth(year: int, month: int): (n: int)
    ensures month in {1, 3, 5, 7, 8, 10, 12} ==> n == 31
    ensures month in {4, 6, 9, 11} ==> n == 30
    ensures month == 2 ==> n == if IsLeap(year) then 29 else 28
  {
    if month == 2 then (if IsLeap(year) then 29 else 28)
    else if month == 4 || month == 6 || month == 9 || month == 11 then 30
    else 31
  }

  /** The fields `datetime(year, month, day, hour, minute, second)` accepts without
      raising ValueError. */
  predicate ValidDateTime(t: DateTime)
  {
    1 <= t.year <= 9999 && 1 <= t.month <= 12 && 1 <= t.day <= DaysInMonth(t.year, t.month) &&
    0 <= t.hour < 24 && 0 <= t.minute < 60 && 0 <= t.second < 60
  }

  datatype Failure =
    | NoTimeStamp(line: string)         // re.search(...) is None: AttributeError
    | InvalidDate(line: string)         // datetime(...) raises ValueError
    | NoLooperTime                      // no 'Analysis time: Real' line: AttributeError on 0
    | MalformedLooperTime(text: string) // int() raises ValueError or a field is missing
    | BadOrder                          // an assert in check_times fails (or it raises)

  function TwoDigits(s: string, i: nat): (v: nat)
    requires i + 2 <= |s| && IsDigit(s[i]) && IsDigit(s[i + 1])
    ensures v < 100
  {
    10 * (s[i] - '0') as nat + (s[i + 1] - '0') as nat
  }

  /** `time_str_to_datetime`: month, day, hour, minute and second read from the first
      time-stamp match, the year supplied by the caller. */
  function ParseTime(line: string, year: int): (r: Result<DateTime, Failure>)
    ensures r.Err? <==> FindTime(line) < 0 || !ValidDateTime(ReadFields(line, FindTime(line), year))
    ensures r.Ok? ==> ValidDateTime(r.value) && r.value.year == year
    ensures r.Ok? ==> var i := FindTime(line);
      r.value.month == TwoDigits(line, i + 1) && r.value.day == TwoDigits(line, i + 4) &&
      r.value.hour == TwoDigits(line, i + 7) && r.value.minute == TwoDigits(line, i + 10) &&
      r.value.second == TwoDigits(line, i + 13)
  {
    var i := FindTime(line);
    if i < 0 then Err(NoTimeStamp(line))
    else
      var t := ReadFields(line, i, year);
      if ValidDateTime(t) then Ok(t) else Err(InvalidDate(line))
  }

  /** The fields at the offsets 0-1, 3-4, 6-7, 9-10 and 12-13 of the stripped match. */
  function ReadFields(line: string, i: int, year: int): DateTime
    requires i == -1 || TimeMatchAt(line, i)
  {
    if i < 0 then DateTime(year, 0, 0, 0, 0, 0)
    else
      var s := line[i + 1..i + 15];
      DateTime(year, TwoDigits(s, 0), TwoDigits(s, 3), TwoDigits(s, 6), TwoDigits(s, 9), TwoDigits(s, 12))
  }

  function Digit(n: nat): char
    requires n < 10
  {
    ('0' as int + n) as char
  }

  /** `MM/DD HH:MM:SS`, the way the scheduler writes a time into its log. */
  function FormatTime(t: DateTime): string
    requires ValidDateTime(t)
  {
    [Digit(t.month / 10), Digit(t.month % 10), '/', Digit(t.day / 10), Digit(t.day % 10), ' ',
     Digit(t.hour / 10), Digit(t.hour % 10), ':', Digit(t.minute / 10), Digit(t.minute % 10), ':',
     Digit(t.second / 10), Digit(t.second % 10)]
  }

  /** Reading back a written time: a log line whose text before the stamp has no '/'
      parses to the time written into it. */
  lemma ParseFormattedTime(prefix: string, t: DateTime, rest: string)
    requires ValidDateTime(t) && '/' !in prefix
    ensures ParseTime(prefix + " " + FormatTime(t) + " " + rest, t.year) == Ok(t)
  {
    var line := prefix + " " + FormatTime(t) + " " + rest;
    var n := |prefix|;
    FormattedStampAt(prefix, t, rest);
    NoStampInPrefix(prefix, line);
    assert FindTime(line) == n;
    ReadFormatted(line, n, t);
  }

  /** The written stamp sits right after the prefix and matches the pattern there. */
  lemma FormattedStampAt(prefix: string, t: DateTime, rest: string)
    requires ValidDateTime(t)
    ensures var line := prefix + " " + FormatTime(t) + " " + rest;
      TimeMatchAt(line, |prefix|) && line[|prefix| + 1..|prefix| + 15] == FormatTime(t)
  {
    var line := prefix + " " + FormatTime(t) + " " + rest;
    var n := |prefix|;
    assert line[n..n + 16] == " " + FormatTime(t) + " ";
    assert line[n + 1..n + 15] == line[n..n + 16][1..15];
  }

  /** Every match needs a '/' three characters in, so none starts inside a prefix
      without one. */
  lemma NoStampInPrefix(prefix: string, line: string)
    requires '/' !in prefix && prefix <= line && |prefix| < |line| && line[|prefix|] == ' '
    ensures forall j :: 0 <= j < |prefix| ==> !TimeMatchAt(line, j)
  {
    var n := |prefix|;
    forall j | 0 <= j < n ensures !TimeMatchAt(line, j) {
      if j + 3 < n {
        assert line[j + 3] == prefix[j + 3];
      } else if j + 3 == n {
        assert line[j + 3] == ' ';
      } else {
        assert line[n] == ' ' && (j + 1 == n || j + 2 == n);
      }
    }
  }

  /** Two written digits read back as their value. */
  lemma TwoDigitsOfDigit(s: string, i: nat, v: nat)
    requires v < 100 && i + 2 <= |s| && s[i] == Digit(v / 10) && s[i + 1] == Digit(v % 10)
    ensures IsDigit(s[i]) && IsDigit(s[i + 1]) && TwoDigits(s, i) == v
  {
  }

  /** The fields read from a written stamp are the time written. */
  lemma ReadFormatted(line: string, n: int, t: DateTime)
    requires ValidDateTime(t) && TimeMatchAt(line, n) && line[n + 1..n + 15] == FormatTime(t)
    ensures ReadFields(line, n, t.year) == t
  {
    var s := FormatTime(t);
    TwoDigitsOfDigit(s, 0, t.month);
    TwoDigitsOfDigit(s, 3, t.day);
    TwoDigitsOfDigit(s, 6, t.hour);
    TwoDigitsOfDigit(s, 9, t.minute);
    TwoDigitsOfDigit(s, 12, t.second);
  }

  /** Days from January 1st to the first of `month`. */
  function DaysBeforeMonth(year: int, month: int): (d: nat)
    decreases month
  {
    if month <= 1 then 0 else DaysBeforeMonth(year, month - 1) + DaysInMonth(year, month - 1)
  }

  /** Seconds since the start of the time's year; subtracting two `datetime`s of the
      same year gives the difference of these. */
  function SecondOfYear(t: DateTime): int
  {
    (DaysBeforeMonth(t.year, t.month) + t.day - 1) * 86400 + t.hour * 3600 + t.minute * 60 + t.second
  }

  /** Python's `a < b` on `datetime`: the fields compared in order. */
  predicate Before(a: DateTime, b: DateTime)
  {
    if a.year != b.year then a.year < b.year
    else if a.month != b.month then a.month < b.month
    else if a.day != b.day then a.day < b.day
    else if a.hour != b.hour then a.hour < b.hour
    else if a.minute != b.minute then a.minute < b.minute
    else a.second < b.second
  }

  lemma {:induction false} DaysBeforeLater(year: int, m: int, m2: int)
    requires 1 <= m < m2
    ensures DaysBeforeMonth(year, m2) >= DaysBeforeMonth(year, m) + DaysInMonth(year, m)
    decreases m2
  {
    if m2 > m + 1 {
      DaysBeforeLater(year, m, m2 - 1);
    }
  }

  /** Field-wise order and elapsed seconds agree, so a strictly increasing list of
      same-year times has positive gaps. */
  lemma BeforeIffEarlier(a: DateTime, b: DateTime)
    requires ValidDateTime(a) && ValidDateTime(b) && a.year == b.year
    ensures Before(a, b) <==> SecondOfYear(a) < SecondOfYear(b)
  {
    if a.month < b.month {
      DaysBeforeLater(a.year, a.month, b.month);
    } else if b.month < a.month {
      DaysBeforeLater(a.year, b.month, a.month);
    }
  }

  // ---------------------------------------------------------------------------
  // Event lines

  const SubmitText := "Job submitted from host"
  const ExecuteText := "Job executing on host"
  const EvictText := "Job was evicted"
  const AbortText := "Job was aborted by the user"
  const TerminateText := "Job terminated"
  const AddInfoText := "Job ad information event triggered"
  const UpdateSizeText := "Image size of job updated:"

  predicate IsSubmitLine(line: string) { Contains(line, SubmitText) }
  predicate IsExecuteLine(line: string) { Contains(line, ExecuteText) }
  predicate IsEvictLine(line: string) { Contains(line, EvictText) }
  predicate IsAbortLine(line: string) { Contains(line, AbortText) }
  predicate IsTerminateLine(line: string) { Contains(line, TerminateText) }

  /** Informational lines that are not lifecycle events. */
  predicate IgnoreTimeLine(line: string)
  {
    Contains(line, AddInfoText) || Contains(line, UpdateSizeText)
  }

  datatype Kind = Submit | Execute | Evict | Abort | Terminate

  /** The tag `extract_times` gives a line: the first test that holds, in the order
      submit, execute, evict, abort, terminate. */
  function Classify(line: string): (k: Option<Kind>)
    ensures k == Some(Submit) <==> IsSubmitLine(line)
    ensures k == Some(Execute) <==> !IsSubmitLine(line) && IsExecuteLine(line)
    ensures k == Some(Evict) <==> !IsSubmitLine(line) && !IsExecuteLine(line) && IsEvictLine(line)
    ensures k == Some(Abort) <==>
      !IsSubmitLine(line) && !IsExecuteLine(line) && !IsEvictLine(line) && IsAbortLine(line)
    ensures k == Some(Terminate) <==> (!IsSubmitLine(line) && !IsExecuteLine(line) &&
      !IsEvictLine(line) && !IsAbortLine(line) && IsTerminateLine(line))
  {
    if IsSubmitLine(line) then Some(Submit)
    else if IsExecuteLine(line) then Some(Execute)
    else if IsEvictLine(line) then Some(Evict)
    else if IsAbortLine(line) then Some(Abort)
    else if IsTerminateLine(line) then Some(Terminate)
    else None
  }

  /** A log line `get_time_stamps` keeps: `grep` prints it and it is not informational. */
  predicate Kept(line: string)
  {
    HasTimeStamp(line) && !IgnoreTimeLine(line)
  }

  /** `[s.strip() for s in lines if keep(s)]`. */
  function StripWhere(lines: seq<string>, keep: string -> bool): (r: seq<string>)
    ensures |r| <= |lines|
  {
    if |lines| == 0 then []
    else if keep(lines[0]) then [Strip(lines[0])] + StripWhere(lines[1..], keep)
    else StripWhere(lines[1..], keep)
  }

  /** Every entry of the list is a kept line, stripped. */
  lemma StripWhereSound(lines: seq<string>, keep: string -> bool)
    ensures forall x :: x in StripWhere(lines, keep) ==>
      exists i :: 0 <= i < |lines| && keep(lines[i]) && x == Strip(lines[i])
  {
    forall x | x in StripWhere(lines, keep)
      ensures exists i :: 0 <= i < |lines| && keep(lines[i]) && x == Strip(lines[i])
    {
      StripWhereSoundAt(lines, keep, x);
    }
  }

  lemma {:induction false} StripWhereSoundAt(lines: seq<string>, keep: string -> bool, x: string)
    requires x in StripWhere(lines, keep)
    ensures exists i :: 0 <= i < |lines| && keep(lines[i]) && x == Strip(lines[i])
    decreases |lines|
  {
    var tail := lines[1..];
    assert StripWhere(lines, keep) == (if keep(lines[0]) then [Strip(lines[0])] else []) + StripWhere(tail, keep);
    if !(keep(lines[0]) && x == Strip(lines[0])) {
      assert x in StripWhere(tail, keep);
      StripWhereSoundAt(tail, keep, x);
      var i :| 0 <= i < |tail| && keep(tail[i]) && x == Strip(tail[i]);
      assert lines[i + 1] == tail[i];
    }
  }

  /** Every kept line, stripped, is in the list. */
  lemma {:induction false} StripWhereComplete(lines: seq<string>, keep: string -> bool)
    ensures forall i :: 0 <= i < |lines| && keep(lines[i]) ==> Strip(lines[i]) in StripWhere(lines, keep)
  {
    if |lines| > 0 {
      var tail := lines[1..];
      StripWhereComplete(tail, keep);
      forall i | 0 <= i < |lines| && keep(lines[i]) ensures Strip(lines[i]) in StripWhere(lines, keep) {
        if i > 0 {
          assert lines[i] == tail[i - 1];
          assert Strip(tail[i - 1]) in StripWhere(tail, keep);
        }
      }
    }
  }

  /** `get_time_stamps`: the log lines `grep` prints for the time-stamp pattern, minus
      the informational ones, stripped, in log order. */
  function TimeStampLines(logLines: seq<string>): seq<string>
  {
    StripWhere(logLines, Kept)
  }

  /** Exactly the kept lines, stripped, make up the time-stamp list. */
  lemma TimeStampLinesAreKept(logLines: seq<string>)
    ensures forall x :: x in TimeStampLines(logLines) ==>
      exists i :: 0 <= i < |logLines| && Kept(logLines[i]) && x == Strip(logLines[i])
    ensures forall i :: 0 <= i < |logLines| && Kept(logLines[i]) ==> Strip(logLines[i]) in TimeStampLines(logLines)
  {
    StripWhereSound(logLines, Kept);
    StripWhereComplete(logLines, Kept);
  }

  datatype Event = Event(kind: Kind, time: DateTime)

  /** `extract_times`: one event per line, in order, tagged by `Classify` and timed by
      `ParseTime`; the first line whose time cannot be read ends the run. */
  method ExtractTimes(stamps: seq<string>, year: int) returns (r: Result<seq<Event>, Failure>)
    requires forall i :: 0 <= i < |stamps| ==> Classify(stamps[i]).Some?
    ensures r.Ok? <==> forall i :: 0 <= i < |stamps| ==> ParseTime(stamps[i], year).Ok?
    ensures r.Ok? ==> (|r.value| == |stamps| &&
      forall i :: 0 <= i < |stamps| ==>
        r.value[i] == Event(Classify(stamps[i]).value, ParseTime(stamps[i], year).value))
    ensures r.Err? ==> exists i :: (0 <= i < |stamps| && ParseTime(stamps[i], year) == Err(r.error) &&
      forall j :: 0 <= j < i ==> ParseTime(stamps[j], year).Ok?)
  {
    var times: seq<Event> := [];
    var n := 0;
    while n < |stamps|
      invariant 0 <= n <= |stamps| && |times| == n
      invariant forall i :: 0 <= i < n ==> (ParseTime(stamps[i], year).Ok? &&
        times[i] == Event(Classify(stamps[i]).value, ParseTime(stamps[i], year).value))
    {
      var kind := Classify(stamps[n]).value;
      var t := ParseTime(stamps[n], year);
      if t.Err? {
        return Err(t.error);
      }
      EventsSnoc(stamps, year, times, Event(kind, t.value));
      times := times + [Event(kind, t.value)];
      n := n + 1;
    }
    return Ok(times);
  }

  lemma EventsSnoc(stamps: seq<string>, year: int, times: seq<Event>, e: Event)
    requires forall i :: 0 <= i < |stamps| ==> Classify(stamps[i]).Some?
    requires |times| < |stamps| && ParseTime(stamps[|times|], year).Ok?
    requires e == Event(Classify(stamps[|times|]).value, ParseTime(stamps[|times|], year).value)
    requires forall i :: 0 <= i < |times| ==> (ParseTime(stamps[i], year).Ok? &&
      times[i] == Event(Classify(stamps[i]).value, ParseTime(stamps[i], year).value))
    ensures forall i :: 0 <= i < |times| + 1 ==> (ParseTime(stamps[i], year).Ok? &&
      (times + [e])[i] == Event(Classify(stamps[i]).value, ParseTime(stamps[i], year).value))
  {
  }

  // ---------------------------------------------------------------------------
  // Predecessor check

  /** The test `check_times` applies to a line given the line before it (`None` for the
      first). `false` stands for a failed assert, or for the TypeError raised when a
      non-submit line comes first; an unrecognised line is only reported. */
  predicate PredecessorOk(prev: Option<string>, line: string)
  {
    if IsSubmitLine(line) then
      prev.None? || prev.value == "" || IsAbortLine(prev.value) || IsTerminateLine(prev.value)
    else if IsExecuteLine(line) then
      prev.Some? && (IsSubmitLine(prev.value) || IsEvictLine(prev.value))
    else if IsEvictLine(line) then
      prev.Some? && IsExecuteLine(prev.value)
    else if IsAbortLine(line) then
      prev.Some? && (IsEvictLine(prev.value) || IsSubmitLine(prev.value))
    else if IsTerminateLine(line) then
      prev.Some? && IsExecuteLine(prev.value)
    else true
  }

  function Prev(lines: seq<string>, i: int): Option<string>
    requires 0 <= i <= |lines|
  {
    if i == 0 then None else Some(lines[i - 1])
  }

  /** Every line passes the predecessor test. */
  predicate LinesInOrder(lines: seq<string>)
  {
    forall i :: 0 <= i < |lines| ==> PredecessorOk(Prev(lines, i), lines[i])
  }

  /** Event times strictly increase (Python's `>` on `datetime`). */
  predicate StrictlyIncreasing(times: seq<Event>)
  {
    forall i :: 0 < i < |times| ==> Before(times[i - 1].time, times[i].time)
  }

  /** `check_times`: the predecessor test on every line, then `times[0]` (which raises
      on an empty list) and strictly increasing times. */
  method CheckTimes(stamps: seq<string>, times: seq<Event>) returns (ok: bool)
    ensures ok <==> LinesInOrder(stamps) && |times| > 0 && StrictlyIncreasing(times)
  {
    ok := CheckLineOrder(stamps);
    if ok {
      ok := CheckIncreasing(times);
    }
  }

  /** The first loop of `check_times`: each line against the line before it. */
  method CheckLineOrder(stamps: seq<string>) returns (ok: bool)
    ensures ok <==> LinesInOrder(stamps)
  {
    var prev: Option<string> := None;
    var i := 0;
    while i < |stamps|
      invariant 0 <= i <= |stamps| && prev == Prev(stamps, i)
      invariant forall j :: 0 <= j < i ==> PredecessorOk(Prev(stamps, j), stamps[j])
    {
      if !PredecessorOk(prev, stamps[i]) {
        return false;
      }
      OrderedPrefixGrows(stamps, i);
      prev := Some(stamps[i]);
      i := i + 1;
    }
    return true;
  }

  lemma OrderedPrefixGrows(stamps: seq<string>, i: nat)
    requires i < |stamps| && PredecessorOk(Prev(stamps, i), stamps[i])
    requires forall j :: 0 <= j < i ==> PredecessorOk(Prev(stamps, j), stamps[j])
    ensures forall j :: 0 <= j < i + 1 ==> PredecessorOk(Prev(stamps, j), stamps[j])
  {
  }

  /** The second loop of `check_times`: `times[0]` must exist, then each time after the
      one before it. */
  method CheckIncreasing(times: seq<Event>) returns (ok: bool)
    ensures ok <==> |times| > 0 && StrictlyIncreasing(times)
  {
    if |times| == 0 {
      return false;
    }
    var prevTime := times[0];
    var k := 1;
    while k < |times|
      invariant 1 <= k <= |times| && prevTime == times[k - 1]
      invariant forall j :: 0 < j < k ==> Before(times[j - 1].time, times[j].time)
    {
      if !Before(prevTime.time, times[k].time) {
        return false;
      }
      prevTime := times[k];
      k := k + 1;
    }
    return true;
  }

  /** The predecessor table on event kinds: submit first or after abort/terminate,
      execute after submit or evict, evict after execute, abort after evict or submit,
      terminate after execute. */
  predicate Legal(prev: Option<Kind>, next: Kind)
  {
    match next
    case Submit => prev.None? || prev == Some(Abort) || prev == Some(Terminate)
    case Execute => prev == Some(Submit) || prev == Some(Evict)
    case Evict => prev == Some(Execute)
    case Abort => prev == Some(Evict) || prev == Some(Submit)
    case Terminate => prev == Some(Execute)
  }

  /** The line carries exactly one of the five event texts. */
  predicate Unambiguous(line: string)
  {
    (if IsSubmitLine(line) then 1 else 0) + (if IsExecuteLine(line) then 1 else 0) +
    (if IsEvictLine(line) then 1 else 0) + (if IsAbortLine(line) then 1 else 0) +
    (if IsTerminateLine(line) then 1 else 0) == 1
  }

  function PrevKind(lines: seq<string>, i: int): Option<Kind>
    requires 0 <= i <= |lines|
  {
    if i == 0 then None else Classify(lines[i - 1])
  }

  /** On lines that each carry exactly one event text, the line-level test of
      `check_times` is the predecessor table on kinds. */
  lemma LinesInOrderIsTable(lines: seq<string>)
    requires forall i :: 0 <= i < |lines| ==> Unambiguous(lines[i])
    ensures LinesInOrder(lines) <==>
      forall i :: 0 <= i < |lines| ==> Classify(lines[i]).Some? && Legal(PrevKind(lines, i), Classify(lines[i]).value)
  {
    forall i | 0 <= i < |lines|
      ensures PredecessorOk(Prev(lines, i), lines[i]) <==> Classify(lines[i]).Some? && Legal(PrevKind(lines, i), Classify(lines[i]).value)
    {
      if i > 0 {
        assert lines[i - 1] != "" by {
          assert Unambiguous(lines[i - 1]);
          NonEmptyWhenMarked(lines[i - 1]);
        }
      }
    }
  }

  lemma NonEmptyWhenMarked(line: string)
    requires IsSubmitLine(line) || IsExecuteLine(line) || IsEvictLine(line) || IsAbortLine(line) || IsTerminateLine(line)
    ensures line != ""
  {
  }

  // ---------------------------------------------------------------------------
  // Durations

  datatype Bucket = User | SystemSubmit | SystemOther

  /** The bucket a gap is credited to, chosen by the event that opens the gap. */
  function BucketOf(k: Kind): Bucket
  {
    match k
    case Execute => User
    case Submit => SystemSubmit
    case _ => SystemOther
  }

  /** Seconds from event `i` to event `i + 1`. */
  function Gap(times: seq<Event>, i: int): int
    requires 0 <= i < |times| - 1
  {
    SecondOfYear(times[i + 1].time) - SecondOfYear(times[i].time)
  }

  /** The gaps among the first `n` events opened by an event of bucket `b`, summed. */
  function Credited(times: seq<Event>, n: int, b: Bucket): int
    requires 0 <= n <= |times|
  {
    if n <= 1 then 0
    else Credited(times, n - 1, b) + (if BucketOf(times[n - 2].kind) == b then Gap(times, n - 2) else 0)
  }

  /** The three buckets share out the whole span: user + system_submit + system_other
      is the last time minus the first. */
  lemma {:induction false} CreditedSumsToSpan(times: seq<Event>, n: int)
    requires 1 <= n <= |times|
    ensures Credited(times, n, User) + Credited(times, n, SystemSubmit) + Credited(times, n, SystemOther)
      == SecondOfYear(times[n - 1].time) - SecondOfYear(times[0].time)
  {
    if n > 1 {
      CreditedSumsToSpan(times, n - 1);
    }
  }

  /** With strictly increasing times of one year every bucket is non-negative and at
      most the whole span. */
  lemma {:induction false} CreditedBounds(times: seq<Event>, n: int, b: Bucket)
    requires 1 <= n <= |times| && StrictlyIncreasing(times)
    requires forall i :: 0 <= i < |times| ==> ValidDateTime(times[i].time) && times[i].time.year == times[0].time.year
    ensures 0 <= Credited(times, n, b) <= SecondOfYear(times[n - 1].time) - SecondOfYear(times[0].time)
  {
    if n > 1 {
      CreditedBounds(times, n - 1, b);
      BeforeIffEarlier(times[n - 2].time, times[n - 1].time);
    }
  }

  datatype Durations = Durations(user: int, systemSubmit: int, systemOther: int, total: int)

  /** `determine_durations`: each gap goes to the bucket of the event opening it; the
      closing assert (the three buckets add up to `total`) always holds. */
  method DetermineDurations(times: seq<Event>) returns (d: Durations)
    requires |times| > 0
    ensures d.total == SecondOfYear(times[|times| - 1].time) - SecondOfYear(times[0].time)
    ensures d.user == Credited(times, |times|, User)
    ensures d.systemSubmit == Credited(times, |times|, SystemSubmit)
    ensures d.systemOther == Credited(times, |times|, SystemOther)
    ensures d.user + d.systemSubmit + d.systemOther == d.total
  {
    var user, submit, other := 0, 0, 0;
    var total := SecondOfYear(times[|times| - 1].time) - SecondOfYear(times[0].time);
    var prev := times[0];
    var k := 1;
    while k < |times|
      invariant 1 <= k <= |times| && prev == times[k - 1]
      invariant user == Credited(times, k, User)
      invariant submit == Credited(times, k, SystemSubmit)
      invariant other == Credited(times, k, SystemOther)
    {
      var t := times[k];
      var gap := SecondOfYear(t.time) - SecondOfYear(prev.time);
      if prev.kind == Execute {
        user := user + gap;
      } else if prev.kind == Submit {
        submit := submit + gap;
      } else {
        other := other + gap;
      }
      prev := t;
      k := k + 1;
    }
    CreditedSumsToSpan(times, |times|);
    d := Durations(user, submit, other, total);
  }

  // ---------------------------------------------------------------------------
  // Looper time from the job's stdout

  const LooperPattern := "Analysis time: Real"
  const LooperEnd := ", CPU"

  /** Python's `s.split(sep)` for a one-character separator. */
  function Split(s: string, sep: char): (parts: seq<string>)
    ensures |parts| >= 1
  {
    if sep !in s then [s]
    else
      var i := IndexOfChar(s, sep);
      [s[..i]] + Split(s[i + 1..], sep)
  }

  lemma SplitConcat(a: string, sep: char, b: string)
    requires sep !in a
    ensures Split(a + [sep] + b, sep) == [a] + Split(b, sep)
  {
    var s := a + [sep] + b;
    var i := IndexOfChar(s, sep);
    assert forall k :: 0 <= k < |a| ==> s[k] == a[k];
    assert forall k :: 0 <= k < i ==> s[..i][k] == s[k];
    assert s[|a|] == sep;
    assert s[..i] == a && s[i + 1..] == b;
  }

  function IndexOfChar(s: string, c: char): (i: nat)
    requires c in s
    ensures i < |s| && s[i] == c && c !in s[..i]
  {
    if s[0] == c then 0 else 1 + IndexOfChar(s[1..], c)
  }

  /** A stdout line that, once stripped, holds the looper pattern. */
  predicate IsLooperLine(line: string)
  {
    Contains(Strip(line), LooperPattern)
  }

  /** Line `i` is the first looper line of `lines`: no earlier line holds the pattern. */
  predicate FirstLooperAt(lines: seq<string>, i: int)
  {
    0 <= i < |lines| && IsLooperLine(lines[i]) && forall j :: 0 <= j < i ==> !IsLooperLine(lines[j])
  }

  /** Two first looper lines of the same output are the same line. */
  lemma FirstLooperUnique(lines: seq<string>)
    ensures forall i, k :: FirstLooperAt(lines, i) && FirstLooperAt(lines, k) ==> i == k
  {
  }

  /** The first stripped stdout line holding the looper pattern, if any (the loop's `break`). */
  function FirstLooperLine(outLines: seq<string>): (r: Option<string>)
    ensures r.Some? ==> exists i :: FirstLooperAt(outLines, i) && r.value == Strip(outLines[i])
    ensures r.None? ==> forall i :: 0 <= i < |outLines| ==> !IsLooperLine(outLines[i])
  {
    if |outLines| == 0 then None
    else if IsLooperLine(outLines[0]) then
      assert FirstLooperAt(outLines, 0);
      Some(Strip(outLines[0]))
    else
      var r := FirstLooperLine(outLines[1..]);
      if r.Some? then FirstInTail(outLines, r.value); r else r
  }

  /** The first looper line of the tail is the first of the whole when the head is not one. */
  lemma FirstInTail(lines: seq<string>, v: string)
    requires |lines| > 0 && !IsLooperLine(lines[0])
    requires exists i :: FirstLooperAt(lines[1..], i) && v == Strip(lines[1..][i])
    ensures exists i :: FirstLooperAt(lines, i) && v == Strip(lines[i])
  {
    var i :| FirstLooperAt(lines[1..], i) && v == Strip(lines[1..][i]);
    forall j | 0 <= j < i + 1
      ensures !IsLooperLine(lines[j])
    {
      if j > 0 { assert lines[j] == lines[1..][j - 1]; }
    }
    assert FirstLooperAt(lines, i + 1);
  }

  /** The `H:M:S` text of a looper line: after the pattern and one more character, up to
      `, CPU` (a missing end marker slices to one before the end, as Python's -1 does). */
  function LooperText(l: string): string
  {
    Slice(l, Find(l, LooperPattern) + |LooperPattern| + 1, Find(l, LooperEnd))
  }

  /** `extract_looper_time`, in seconds: the time text of the first looper line read by
      `HmsSeconds`; no such line ends the run. */
  function LooperTime(outLines: seq<string>): (r: Result<int, Failure>)
    ensures r == Err(NoLooperTime) <==> forall i :: 0 <= i < |outLines| ==> !IsLooperLine(outLines[i])
    ensures forall i :: FirstLooperAt(outLines, i) ==> r == HmsSeconds(LooperText(Strip(outLines[i])))
  {
    match FirstLooperLine(outLines)
    case None => Err(NoLooperTime)
    case Some(l) => FirstLooperUnique(outLines); HmsSeconds(LooperText(l))
  }

  /** `hours*3600 + minutes*60 + seconds` of the first three `:`-separated fields; a
      missing field or one `int()` rejects is an error. */
  function HmsSeconds(text: string): Result<int, Failure>
  {
    var parts := Split(text, ':');
    if |parts| < 3 then Err(MalformedLooperTime(text))
    else HmsOfFields(PyInt(parts[0]), PyInt(parts[1]), PyInt(parts[2]), text)
  }

  /** The seconds of three fields as `int()` read them, or the error naming `text`. */
  function HmsOfFields(h: Option<int>, m: Option<int>, s: Option<int>, text: string): Result<int, Failure>
  {
    if h.None? || m.None? || s.None? then Err(MalformedLooperTime(text))
    else Ok(h.value * 3600 + m.value * 60 + s.value)
  }

  /** `H:M:S` as the looper prints an elapsed time. */
  function FormatHms(h: nat, m: nat, sec: nat): string
  {
    NatToString(h) + ":" + NatToString(m) + ":" + NatToString(sec)
  }

  /** The looper's timing line carrying `h:m:s`, after any lines without the pattern and
      before anything at all, is read back as `h*3600 + m*60 + sec`. */
  lemma LooperTimeOfLine(pre: seq<string>, h: nat, m: nat, sec: nat, rest: string, post: seq<string>)
    requires rest == [] || !IsSpace(rest[|rest| - 1])
    requires forall j :: 0 <= j < |pre| ==> !IsLooperLine(pre[j])
    ensures LooperTime(pre + [LooperPattern + " " + FormatHms(h, m, sec) + LooperEnd + rest] + post)
      == Ok(h * 3600 + m * 60 + sec)
  {
    var t := FormatHms(h, m, sec);
    var l := LooperPattern + " " + t + LooperEnd + rest;
    var lines := pre + [l] + post;
    LooperLineFound(t, rest);
    assert lines[|pre|] == l;
    forall j | 0 <= j < |pre|
      ensures !IsLooperLine(lines[j])
    {
      assert lines[j] == pre[j];
    }
    assert FirstLooperAt(lines, |pre|);
    HmsHasNoComma(h, m, sec);
    LooperTextOf(t, rest);
    HmsSecondsOfFormat(h, m, sec);
  }

  /** A printed `h:m:s` reads back as `h*3600 + m*60 + sec`. */
  lemma HmsSecondsOfFormat(h: nat, m: nat, sec: nat)
    ensures HmsSeconds(FormatHms(h, m, sec)) == Ok(h * 3600 + m * 60 + sec)
  {
    SplitHms(h, m, sec);
    PyIntOfNatToString(h);
    PyIntOfNatToString(m);
    PyIntOfNatToString(sec);
    HmsSecondsOfParts(FormatHms(h, m, sec), NatToString(h), NatToString(m), NatToString(sec), h, m, sec);
  }

  lemma HmsSecondsOfParts(text: string, a: string, b: string, c: string, x: int, y: int, z: int)
    requires Split(text, ':') == [a, b, c] && PyInt(a) == Some(x) && PyInt(b) == Some(y) && PyInt(c) == Some(z)
    ensures HmsSeconds(text) == Ok(x * 3600 + y * 60 + z)
  {
    var parts := Split(text, ':');
    assert parts[0] == a && parts[1] == b && parts[2] == c;
    assert HmsSeconds(text) == HmsOfFields(Some(x), Some(y), Some(z), text);
    HmsOfReadFields(x, y, z, text);
  }

  lemma HmsOfReadFields(x: int, y: int, z: int, text: string)
    ensures HmsOfFields(Some(x), Some(y), Some(z), text) == Ok(x * 3600 + y * 60 + z)
  {
  }

  /** A line starting with the pattern is its own stripped form and holds the pattern. */
  lemma LooperLineFound(t: string, rest: string)
    requires rest == [] || !IsSpace(rest[|rest| - 1])
    ensures var l := LooperPattern + " " + t + LooperEnd + rest;
      Strip(l) == l && IsLooperLine(l)
  {
    var l := LooperPattern + " " + t + LooperEnd + rest;
    assert l[0] == 'A';
    assert l[|l| - 1] == if rest == [] then 'U' else rest[|rest| - 1];
    StripUnchanged(l);
    assert l[..|LooperPattern|] == LooperPattern;
    assert LooperPattern <= l;
  }

  /** The text cut out of such a line is the time between the pattern and `, CPU`. */
  lemma LooperTextOf(t: string, rest: string)
    requires ',' !in t
    ensures LooperText(LooperPattern + " " + t + LooperEnd + rest) == t
  {
    var l := LooperPattern + " " + t + LooperEnd + rest;
    assert l[..|LooperPattern|] == LooperPattern;
    assert Find(l, LooperPattern) == 0;
    FindEndMarker(LooperPattern + " ", t, rest);
    assert l[20..20 + |t|] == t;
  }

  lemma HmsHasNoComma(h: nat, m: nat, sec: nat)
    ensures ',' !in FormatHms(h, m, sec)
  {
    var hs, ms, ss := NatToString(h), NatToString(m), NatToString(sec);
    var t := FormatHms(h, m, sec);
    forall j | 0 <= j < |t| ensures t[j] != ',' {
      if j < |hs| { assert t[j] == hs[j]; }
      else if j == |hs| { }
      else if j < |hs| + 1 + |ms| { assert t[j] == ms[j - |hs| - 1]; }
      else if j == |hs| + 1 + |ms| { }
      else { assert t[j] == ss[j - |hs| - 2 - |ms|]; }
    }
  }

  /** `, CPU` is first found right after a comma-free head and time. */
  lemma FindEndMarker(head: string, t: string, rest: string)
    requires ',' !in head && ',' !in t
    ensures Find(head + t + LooperEnd + rest, LooperEnd) == |head| + |t|
  {
    var l := head + t + LooperEnd + rest;
    var e := |head| + |t|;
    assert l[e..e + 5] == LooperEnd;
    assert OccursAt(l, LooperEnd, e);
    forall j | 0 <= j < e ensures !OccursAt(l, LooperEnd, j) {
      if j < |head| { assert l[j] == head[j]; } else { assert l[j] == t[j - |head|]; }
      assert l[j..j + 5][0] == l[j];
    }
  }

  lemma SplitHms(h: nat, m: nat, sec: nat)
    ensures Split(FormatHms(h, m, sec), ':') == [NatToString(h), NatToString(m), NatToString(sec)]
  {
    var hs, ms, ss := NatToString(h), NatToString(m), NatToString(sec);
    assert ':' !in hs && ':' !in ms && ':' !in ss;
    assert FormatHms(h, m, sec) == hs + [':'] + (ms + [':'] + ss);
    SplitConcat(hs, ':', ms + [':'] + ss);
    SplitConcat(ms, ':', ss);
  }

  // ---------------------------------------------------------------------------
  // Rankings

  /** Python's `(v, k) < (v2, k2)` on (value, key) pairs. */
  predicate PairLess(a: (int, string), b: (int, string))
  {
    a.0 < b.0 || (a.0 == b.0 && LexLess(a.1, b.1))
  }

  lemma PairLessTransitive(a: (int, string), b: (int, string), c: (int, string))
    requires PairLess(a, b) && PairLess(b, c)
    ensures PairLess(a, c)
  {
    if a.0 == b.0 == c.0 { LexTransitive(a.1, b.1, c.1); }
  }

  lemma PairLessTotal(a: (int, string), b: (int, string))
    requires a != b
    ensures PairLess(a, b) || PairLess(b, a)
  {
    if a.0 == b.0 { LexTotal(a.1, b.1); }
  }

  lemma PairLessIrreflexive(a: (int, string))
    ensures !PairLess(a, a)
  {
    LexIrreflexive(a.1);
  }

  /** Every finite non-empty set of pairs has a greatest element. */
  lemma {:induction false} HasMax(s: set<(int, string)>)
    requires s != {}
    ensures exists m :: m in s && forall o :: o in s && o != m ==> PairLess(o, m)
    decreases |s|
  {
    var x :| x in s;
    var rest := s - {x};
    if rest == {} {
      assert s == {x};
    } else {
      HasMax(rest);
      var m :| m in rest && forall o :: o in rest && o != m ==> PairLess(o, m);
      if PairLess(x, m) {
        assert forall o :: o in s && o != m ==> PairLess(o, m);
      } else {
        PairLessTotal(x, m);
        forall o | o in s && o != x ensures PairLess(o, x) {
          if o != m { PairLessTransitive(o, m, x); }
        }
      }
    }
  }

  /** The (value, key) pairs of a metric table. */
  function Items(dic: map<string, int>): set<(int, string)>
  {
    set k | k in dic :: (dic[k], k)
  }

  /** Strictly descending in (value, key) order. */
  predicate Descending(items: seq<(int, string)>)
  {
    forall i, j :: 0 <= i < j < |items| ==> PairLess(items[j], items[i])
  }

  /** `sorted(dic.iteritems(), key=(v, k), reverse=True)`. */
  method SortDescending(dic: map<string, int>) returns (items: seq<(int, string)>)
    ensures Descending(items) && |items| == |dic|
    ensures forall i :: 0 <= i < |items| ==> items[i].1 in dic && dic[items[i].1] == items[i].0
    ensures forall k :: k in dic ==> (dic[k], k) in items
  {
    var rest := Items(dic);
    ItemsCount(dic);
    items := [];
    while rest != {}
      invariant rest <= Items(dic) && |items| + |rest| == |dic|
      invariant Descending(items)
      invariant forall i :: 0 <= i < |items| ==> items[i] in Items(dic) && items[i] !in rest
      invariant forall i, o :: 0 <= i < |items| && o in rest ==> PairLess(o, items[i])
      invariant forall o :: o in Items(dic) ==> o in rest || o in items
      decreases |rest|
    {
      HasMax(rest);
      var m :| m in rest && forall o :: o in rest && o != m ==> PairLess(o, m);
      items := items + [m];
      rest := rest - {m};
    }
  }

  lemma ItemsCount(dic: map<string, int>)
    ensures |Items(dic)| == |dic|
  {
    if dic != map[] {
      var k :| k in dic;
      var smaller := dic - {k};
      ItemsCount(smaller);
      forall o | o in Items(dic) ensures o in Items(smaller) + {(dic[k], k)} {
        var k2 :| k2 in dic && o == (dic[k2], k2);
        if k2 != k { assert k2 in smaller; }
      }
      forall o | o in Items(smaller) ensures o in Items(dic) {
        var k2 :| k2 in smaller && o == (smaller[k2], k2);
      }
      assert Items(dic) == Items(smaller) + {(dic[k], k)};
      assert (dic[k], k) !in Items(smaller);
    } else {
      assert Items(dic) == {};
    }
  }

  datatype Row = Row(rank: nat, value: int, key: string)

  /** `make_rank_str` with `reverse=True`: the rows of the ranking, best first; the loop
      breaks only once `ii > nresults`, so `nresults + 1` rows at most. */
  method MakeRanking(dic: map<string, int>, nresults: int) returns (rows: seq<Row>)
    ensures |rows| == if nresults < 0 then 0 else if |dic| < nresults + 1 then |dic| else nresults + 1
    ensures forall i :: 0 <= i < |rows| ==> rows[i].rank == i && rows[i].key in dic && dic[rows[i].key] == rows[i].value
    ensures forall i, j :: 0 <= i < j < |rows| ==> PairLess((rows[j].value, rows[j].key), (rows[i].value, rows[i].key))
    ensures forall k, i :: k in dic && 0 <= i < |rows| && (forall j :: 0 <= j < |rows| ==> rows[j].key != k) ==>
      PairLess((dic[k], k), (rows[i].value, rows[i].key))
  {
    var items := SortDescending(dic);
    rows := [];
    var ii := 0;
    while ii < |items|
      invariant 0 <= ii <= |items| && |rows| == ii
      invariant ii > 0 ==> ii - 1 <= nresults
      invariant forall i :: 0 <= i < ii ==> rows[i] == Row(i, items[i].0, items[i].1)
    {
      if ii > nresults {
        break;
      }
      RowsGrow(items, rows);
      rows := rows + [Row(ii, items[ii].0, items[ii].1)];
      ii := ii + 1;
    }
    UnlistedRankLower(dic, items, rows);
  }

  lemma RowsGrow(items: seq<(int, string)>, rows: seq<Row>)
    requires |rows| < |items| && forall i :: 0 <= i < |rows| ==> rows[i] == Row(i, items[i].0, items[i].1)
    ensures var rows2 := rows + [Row(|rows|, items[|rows|].0, items[|rows|].1)];
      forall i :: 0 <= i < |rows2| ==> rows2[i] == Row(i, items[i].0, items[i].1)
  {
  }

  /** The leading rows of a descending list of a dictionary's items are entries of it,
      ranked in order, and a key they leave out ranks below every row. */
  lemma UnlistedRankLower(dic: map<string, int>, items: seq<(int, string)>, rows: seq<Row>)
    requires Descending(items) && forall k :: k in dic ==> (dic[k], k) in items
    requires forall i :: 0 <= i < |items| ==> items[i].1 in dic && dic[items[i].1] == items[i].0
    requires |rows| <= |items| && forall i :: 0 <= i < |rows| ==> rows[i] == Row(i, items[i].0, items[i].1)
    ensures forall i :: 0 <= i < |rows| ==> rows[i].rank == i && rows[i].key in dic && dic[rows[i].key] == rows[i].value
    ensures forall i, j :: 0 <= i < j < |rows| ==> PairLess((rows[j].value, rows[j].key), (rows[i].value, rows[i].key))
    ensures forall k, i :: k in dic && 0 <= i < |rows| && (forall j :: 0 <= j < |rows| ==> rows[j].key != k) ==>
      PairLess((dic[k], k), (rows[i].value, rows[i].key))
  {
    forall i, j | 0 <= i < j < |rows|
      ensures PairLess((rows[j].value, rows[j].key), (rows[i].value, rows[i].key))
    {
      assert PairLess(items[j], items[i]);
    }
    forall k, i | k in dic && 0 <= i < |rows| && (forall j :: 0 <= j < |rows| ==> rows[j].key != k)
      ensures PairLess((dic[k], k), (rows[i].value, rows[i].key))
    {
      var p :| 0 <= p < |items| && items[p] == (dic[k], k);
      assert p >= |rows|;
    }
  }
}
