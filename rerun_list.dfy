/** The rerun list built from batch outputs that never printed the pass phrase: empty
    outputs (jobs still running) are set aside, and each remaining output is mapped to
    the input list file it came from or, for a split job, to the xrootd link it was
    reading. `grep -L`, `find -empty` and `glob` become the lists `notComplete`,
    `empty` and `inputFiles`; the lines of an output file are given by `linesOf`. */
module RerunList {
  import opened Wrappers
  import opened Strs
  import opened Seqs

  const SusyNtTag := "n0306"

  /** `[f for f in notComplete if f not in empty]`. */
  function Examined(notComplete: seq<string>, empty: seq<string>): (r: seq<string>)
    ensures |r| <= |notComplete|
    ensures forall x :: x in r <==> x in notComplete && x !in empty
  {
    if |notComplete| == 0 then []
    else
      var rest := Examined(notComplete[1..], empty);
      assert forall x :: x in notComplete <==> x == notComplete[0] || x in notComplete[1..];
      if notComplete[0] !in empty then [notComplete[0]] + rest else rest
  }

  /** The examined files keep their order: each examined file is the next incomplete
      one that is not empty. */
  lemma {:induction false} ExaminedIsOrderedFilter(notComplete: seq<string>, empty: seq<string>)
    ensures Examined(notComplete, empty) == Filtered(notComplete, empty)
  {
    if |notComplete| > 0 {
      ExaminedIsOrderedFilter(notComplete[1..], empty);
      assert notComplete == [notComplete[0]] + notComplete[1..];
      FilteredCons(notComplete[0], notComplete[1..], empty);
    }
  }

  /** The same filter written from the back, as a reference definition. */
  function Filtered(s: seq<string>, drop: seq<string>): seq<string>
  {
    if |s| == 0 then []
    else Filtered(s[..|s| - 1], drop) + (if s[|s| - 1] in drop then [] else [s[|s| - 1]])
  }

  lemma {:induction false} FilteredCons(x: string, s: seq<string>, drop: seq<string>)
    ensures Filtered([x] + s, drop) == (if x in drop then [] else [x]) + Filtered(s, drop)
    decreases |s|
  {
    if |s| > 0 {
      var t := [x] + s;
      assert t[..|t| - 1] == [x] + s[..|s| - 1];
      FilteredCons(x, s[..|s| - 1], drop);
    } else {
      assert [x] + s == [x];
      assert ([x] + s)[..0] == [];
    }
  }

  /** The regex `n0306[a-z]?.out` matches at `i` (`.` is any character but a newline),
      trying the optional letter first. */
  predicate NonSplitMatchAt(f: string, i: int)
  {
    0 <= i && i + 5 <= |f| && f[i..i + 5] == SusyNtTag &&
    ((i + 10 <= |f| && 'a' <= f[i + 5] <= 'z' && f[i + 6] != '\n' && f[i + 7..i + 10] == "out") ||
     (i + 9 <= |f| && f[i + 5] != '\n' && f[i + 6..i + 9] == "out"))
  }

  /** `re.search(pattern, f)` succeeds: the output is from a job that was not split. */
  predicate IsNonSplit(f: string)
  {
    exists i :: 0 <= i < |f| && NonSplitMatchAt(f, i)
  }

  /** An unsplit job's output ends in the tag, an optional letter and `.out`; a split job
      carries a `_<n>` part number after the tag, so the pattern no longer matches. */
  lemma SplitDetection()
    ensures IsNonSplit("log_p3637_n0306b.out")
    ensures !IsNonSplit("log_p3637_n0306b_13.out")
  {
    assert NonSplitMatchAt("log_p3637_n0306b.out", 10);
    var split := "log_p3637_n0306b_13.out";
    forall i | 0 <= i < |split| ensures !NonSplitMatchAt(split, i) {
      if i != 10 && i + 5 <= |split| {
        assert split[i..i + 5][0] == split[i];
        assert split[i] != 'n';
      } else if i == 10 {
        assert split[17..20] == "13." && split[16..19] == "_13";
      }
    }
  }

  /** Any output named with the tag, an optional letter and `.out` is an unsplit job's. */
  lemma UnsplitOutputMatches(p: string, letter: string, rest: string)
    requires letter == [] || (|letter| == 1 && 'a' <= letter[0] <= 'z')
    ensures IsNonSplit(p + SusyNtTag + letter + ".out" + rest)
  {
    var f := p + SusyNtTag + letter + ".out" + rest;
    var i := |p|;
    assert f[i..i + 5] == SusyNtTag;
    if letter == [] {
      assert f[i + 5] == '.' && f[i + 6..i + 9] == "out";
    } else {
      assert f[i + 5] == letter[0] && f[i + 6] == '.' && f[i + 7..i + 10] == "out";
    }
    assert NonSplitMatchAt(f, i);
  }

  /** The tag occurs at `i`. */
  predicate TagAt(f: string, i: int)
  {
    0 <= i && i + 5 <= |f| && f[i..i + 5] == SusyNtTag
  }

  /** An output with a `_<n>` part number after the tag, and the tag nowhere else, is a
      split job's. */
  lemma SplitOutputMisses(p: string, part: string, rest: string)
    requires AllDigits(part)
    requires var f := p + SusyNtTag + "_" + part + ".out" + rest;
      forall i :: TagAt(f, i) ==> i == |p|
    ensures !IsNonSplit(p + SusyNtTag + "_" + part + ".out" + rest)
  {
    var f := p + SusyNtTag + "_" + part + ".out" + rest;
    var i := |p|;
    assert f[i + 5] == '_';
    assert f[i + 6] == if |part| > 0 then part[0] else '.';
    forall j | 0 <= j < |f|
      ensures !NonSplitMatchAt(f, j)
    {
      assert NonSplitMatchAt(f, j) ==> TagAt(f, j);
    }
  }

  /** The key of an input list file: its basename without `.txt`. */
  function InputKey(ifile: string): string
  {
    Replace(Basename(ifile), ".txt", "")
  }

  /** The output `f` was produced from input list `ifile`. */
  predicate FromInput(f: string, ifile: string)
  {
    Contains(f, InputKey(ifile))
  }

  function InputMatcher(f: string): string -> bool
  {
    (ifile: string) => FromInput(f, ifile)
  }

  /** The first input list `f` was produced from, stripped; the inner `for` loop over
      the input files breaks there. */
  function MatchingInput(f: string, inputFiles: seq<string>): (r: Option<string>)
    ensures r.None? <==> forall k :: 0 <= k < |inputFiles| ==> !FromInput(f, inputFiles[k])
    ensures r.Some? ==> exists k :: (0 <= k < |inputFiles| && FromInput(f, inputFiles[k]) &&
      r.value == Strip(inputFiles[k]) && forall j :: 0 <= j < k ==> !FromInput(f, inputFiles[j]))
  {
    var k := FirstIndex(inputFiles, InputMatcher(f));
    if k < 0 then None else Some(Strip(inputFiles[k]))
  }

  const XrootdStart := "root:" + "/" + "/"
  const XrootdEnd := "susyNt.root"

  /** A line naming the xrootd file a split job read. */
  predicate IsLinkLine(line: string)
  {
    Contains(line, XrootdStart) && Contains(line, XrootdEnd)
  }

  /** `line[start:end]` from the first `root://` to the end of the first `susyNt.root`. */
  function LinkOf(line: string): string
  {
    Slice(line, Find(line, XrootdStart), Find(line, XrootdEnd) + |XrootdEnd|)
  }

  /** The link on the first line naming one; the loop over the file's lines breaks there. */
  function MatchingLink(lines: seq<string>): (r: Option<string>)
    ensures r.None? <==> forall k :: 0 <= k < |lines| ==> !IsLinkLine(lines[k])
    ensures r.Some? ==> exists k :: (0 <= k < |lines| && IsLinkLine(lines[k]) &&
      r.value == LinkOf(lines[k]) && forall j :: 0 <= j < k ==> !IsLinkLine(lines[j]))
  {
    var k := FirstIndex(lines, IsLinkLine);
    if k < 0 then None else Some(LinkOf(lines[k]))
  }

  /** A line carrying `root://<path>susyNt.root` gives back exactly that link, when
      neither marker occurs earlier in the line. */
  lemma LinkOfLinkLine(pre: string, path: string, post: string)
    requires !Contains(pre + XrootdStart[..|XrootdStart| - 1], XrootdStart)
    requires !Contains(pre + XrootdStart + path + XrootdEnd[..|XrootdEnd| - 1], XrootdEnd)
    ensures LinkOf(pre + XrootdStart + path + XrootdEnd + post) == XrootdStart + path + XrootdEnd
  {
    var line := pre + XrootdStart + path + XrootdEnd + post;
    var link := XrootdStart + path + XrootdEnd;
    StartFound(pre, path, post);
    EndFound(pre, path, post);
    JoinAssoc(pre + XrootdStart, path, XrootdEnd);
    JoinAssoc(pre, XrootdStart, path + XrootdEnd);
    JoinAssoc(XrootdStart, path, XrootdEnd);
    assert line == pre + link + post;
    MiddleSlice(pre, link, post);
  }

  lemma StartFound(pre: string, path: string, post: string)
    requires !Contains(pre + XrootdStart[..|XrootdStart| - 1], XrootdStart)
    ensures Find(pre + XrootdStart + path + XrootdEnd + post, XrootdStart) == |pre|
  {
    var line := pre + XrootdStart + path + XrootdEnd + post;
    var n := |pre|;
    assert line[n..n + |XrootdStart|] == XrootdStart;
    assert line[..n + |XrootdStart| - 1] == pre + XrootdStart[..|XrootdStart| - 1];
    FindFirst(line, XrootdStart, n);
  }

  lemma EndFound(pre: string, path: string, post: string)
    requires !Contains(pre + XrootdStart + path + XrootdEnd[..|XrootdEnd| - 1], XrootdEnd)
    ensures Find(pre + XrootdStart + path + XrootdEnd + post, XrootdEnd) == |pre| + |XrootdStart| + |path|
  {
    var line := pre + XrootdStart + path + XrootdEnd + post;
    var e := |pre| + |XrootdStart| + |path|;
    assert line[e..e + |XrootdEnd|] == XrootdEnd;
    assert line[..e + |XrootdEnd| - 1] == pre + XrootdStart + path + XrootdEnd[..|XrootdEnd| - 1];
    FindFirst(line, XrootdEnd, e);
  }

  /** The rerun entry for one examined output, if one is found: the matching input list
      for a job that was not split, the xrootd link for a split one. */
  function EntryFor(f: string, inputFiles: seq<string>, linesOf: string -> seq<string>): Option<string>
  {
    if IsNonSplit(f) then MatchingInput(f, inputFiles) else MatchingLink(linesOf(Strip(f)))
  }

  /** The entries found for the examined outputs, in order; at most one per output. */
  function RerunEntries(examined: seq<string>, inputFiles: seq<string>, linesOf: string -> seq<string>): (r: seq<string>)
    ensures |r| <= |examined|
    ensures forall e :: e in r ==> exists f :: f in examined && EntryFor(f, inputFiles, linesOf) == Some(e)
  {
    if |examined| == 0 then []
    else
      var rest := RerunEntries(examined[1..], inputFiles, linesOf);
      assert forall f :: f in examined[1..] ==> f in examined;
      match EntryFor(examined[0], inputFiles, linesOf)
      case Some(e) => [e] + rest
      case None => rest
  }

  /** Line 45: the incomplete outputs that are not empty, in order. */
  method ExamineOutputs(notComplete: seq<string>, empty: seq<string>) returns (examined: seq<string>)
    ensures examined == Examined(notComplete, empty)
  {
    examined := [];
    for n := 0 to |notComplete|
      invariant examined == Examined(notComplete[..n], empty)
    {
      TakeSnoc(notComplete, n);
      ExaminedSnoc(notComplete[..n], notComplete[n], empty);
      if notComplete[n] !in empty {
        examined := examined + [notComplete[n]];
      }
    }
    TakeAll(notComplete);
  }

  /** Lines 53-59: the loop over the input lists, breaking on the first one `f` came from. */
  method FindInput(f: string, inputFiles: seq<string>) returns (entry: Option<string>)
    ensures entry == MatchingInput(f, inputFiles)
  {
    var j := FirstMatch(inputFiles, InputMatcher(f));
    entry := if j < 0 then None else Some(Strip(inputFiles[j]));
  }

  /** Lines 63-71: the loop over a split job's output lines, breaking on the first link. */
  method FindLink(lines: seq<string>) returns (entry: Option<string>)
    ensures entry == MatchingLink(lines)
  {
    var j := FirstMatch(lines, IsLinkLine);
    entry := if j < 0 then None else Some(LinkOf(lines[j]));
  }

  /** Lines 51-71 for one examined output: the split test, then the matching loop. */
  method FindEntry(f: string, inputFiles: seq<string>, linesOf: string -> seq<string>) returns (entry: Option<string>)
    ensures entry == EntryFor(f, inputFiles, linesOf)
  {
    if IsNonSplit(f) {
      entry := FindInput(f, inputFiles);
    } else {
      entry := FindLink(linesOf(Strip(f)));
    }
  }

  /** Lines 45-71: the examined outputs and, when there are any, the rerun list built
      by the loop over them. */
  method BuildRerunList(notComplete: seq<string>, empty: seq<string>, inputFiles: seq<string>,
                        linesOf: string -> seq<string>)
    returns (examined: seq<string>, rerun: seq<string>)
    ensures examined == Examined(notComplete, empty)
    ensures rerun == RerunEntries(examined, inputFiles, linesOf)
  {
    examined := ExamineOutputs(notComplete, empty);
    rerun := [];
    if |examined| == 0 {
      return;
    }
    for n := 0 to |examined|
      invariant rerun == RerunEntries(examined[..n], inputFiles, linesOf)
    {
      var f := examined[n];
      var entry := FindEntry(f, inputFiles, linesOf);
      RerunEntriesSnoc(examined[..n], f, inputFiles, linesOf);
      TakeSnoc(examined, n);
      if entry.Some? {
        rerun := rerun + [entry.value];
      }
    }
    TakeAll(examined);
  }

  lemma {:induction false} ExaminedSnoc(s: seq<string>, x: string, empty: seq<string>)
    ensures Examined(s + [x], empty) == Examined(s, empty) + (if x in empty then [] else [x])
    decreases |s|
  {
    if |s| == 0 {
      assert s + [x] == [x];
    } else {
      assert (s + [x])[1..] == s[1..] + [x];
      ExaminedSnoc(s[1..], x, empty);
    }
  }

  lemma {:induction false} RerunEntriesSnoc(s: seq<string>, f: string, inputFiles: seq<string>, linesOf: string -> seq<string>)
    ensures RerunEntries(s + [f], inputFiles, linesOf) == RerunEntries(s, inputFiles, linesOf) +
      (match EntryFor(f, inputFiles, linesOf) case Some(e) => [e] case None => [])
    decreases |s|
  {
    if |s| == 0 {
      assert s + [f] == [f];
    } else {
      assert (s + [f])[1..] == s[1..] + [f];
      RerunEntriesSnoc(s[1..], f, inputFiles, linesOf);
    }
  }

  /** What the script ends with: "All files passed", the rerun list written out, or,
      as written, a NameError. */
  datatype Outcome = AllPassed | Written(contents: string) | NameErrorRaised

  /** Lines 73-82 as written: `files_to_rerun` is only bound inside `if len(get_input_files)`,
      so with incomplete outputs that are all empty the count on line 76 raises. */
  function OutcomeAsWritten(notComplete: seq<string>, examined: seq<string>, rerun: seq<string>): (o: Outcome)
    ensures o == NameErrorRaised <==> |notComplete| > 0 && |examined| == 0
  {
    if |notComplete| == 0 then AllPassed
    else if |examined| == 0 then NameErrorRaised
    else Written(Join(rerun, "\n"))
  }

  /** Every incomplete output empty (still running): the script as written stops with a
      NameError instead of writing a rerun list. */
  lemma AsWrittenFailsWhenAllEmpty()
    ensures var out := ["log_group.data16.p3637_n0306_1.out"];
      OutcomeAsWritten(out, Examined(out, out), []) == NameErrorRaised
  {
    var out := ["log_group.data16.p3637_n0306_1.out"];
    assert Examined(out[1..], out) == [];
  }

  /** Lines 73-82 as intended: the rerun list (empty when every incomplete output is still
      running) is written iff some output is incomplete. */
  function RerunOutcome(notComplete: seq<string>, rerun: seq<string>): (o: Outcome)
    ensures o.Written? <==> |notComplete| > 0
    ensures o.Written? ==> o.contents == Join(rerun, "\n")
    ensures o != NameErrorRaised
  {
    if |notComplete| == 0 then AllPassed else Written(Join(rerun, "\n"))
  }

  /** Wherever the script as written does not raise, it agrees with the intended outcome. */
  lemma OutcomeAsWrittenAgrees(notComplete: seq<string>, examined: seq<string>, rerun: seq<string>)
    requires OutcomeAsWritten(notComplete, examined, rerun) != NameErrorRaised
    ensures OutcomeAsWritten(notComplete, examined, rerun) == RerunOutcome(notComplete, rerun)
  {
  }

  /** The whole reconciliation: examine, build the rerun list, report. */
  method CheckForFailedSamples(notComplete: seq<string>, empty: seq<string>, inputFiles: seq<string>,
                               linesOf: string -> seq<string>)
    returns (outcome: Outcome)
    ensures outcome.Written? <==> |notComplete| > 0
    ensures outcome.Written? ==>
      outcome.contents == Join(RerunEntries(Examined(notComplete, empty), inputFiles, linesOf), "\n")
  {
    var examined, rerun := BuildRerunList(notComplete, empty, inputFiles, linesOf);
    outcome := RerunOutcome(notComplete, rerun);
  }
}
