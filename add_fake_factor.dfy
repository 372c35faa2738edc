/** The program that adds a friend tree of fake weights to an ntuple: its strict
    command-line parser, the per-event selection of the leptons handed to the fake tool,
    the prompt-subtraction rule for simulated events and the program's exit codes. */
module AddFakeFactor {
  import opened Wrappers
  import opened FakeFactor
  import opened Seqs

  // ---------------------------------------------------------------------------
  // Args::parse

  /** The fields of `Args`. */
  datatype Options = Options(progName: string, ifileName: string, ttreeName: string,
                             fakeName: string, selection: string, fakeTreeName: string,
                             test: bool, debug: bool)

  /** A verdict of the parser, or the `std::out_of_range` that `arg.at(0)` throws on an
      empty argument. */
  datatype Outcome = Parsed(ok: bool) | OutOfRange

  /** What one argument does: update the options, stop the parse with false (help or an
      unrecognised flag), or throw. */
  datatype Step = Next(o: Options) | Stop | Throws

  /** The flags the parser accepts without stopping. */
  const KnownFlags: set<string> :=
    {"-i", "--input", "-t", "--tree", "-f", "--fake-file", "-s", "--selection", "--ftree",
     "--test", "--debug"}

  function ApplyArg(o: Options, arg: string, value: string): (s: Step)
    ensures s.Throws? <==> arg == ""
    ensures s.Stop? <==> |arg| > 0 && arg[0] == '-' && arg !in KnownFlags
    ensures |arg| > 0 && arg[0] != '-' ==> s == Next(o)
    ensures s.Next? ==> s.o.progName == o.progName
  {
    if |arg| == 0 then Throws
    else if arg[0] != '-' then Next(o)
    else if arg == "-i" || arg == "--input" then Next(o.(ifileName := value))
    else if arg == "-t" || arg == "--tree" then Next(o.(ttreeName := value))
    else if arg == "-f" || arg == "--fake-file" then Next(o.(fakeName := value))
    else if arg == "-s" || arg == "--selection" then Next(o.(selection := value))
    else if arg == "--ftree" then Next(o.(fakeTreeName := value))
    else if arg == "--test" then Next(o.(test := true))
    else if arg == "--debug" then Next(o.(debug := true))
    else Stop
  }

  /** The checks after the loop, in order: an input name, an existing input file, a fake
      file name, an existing fake file. A missing selection is reported but accepted. */
  function Checked(o: Options, accessible: string -> bool): (ok: bool)
    ensures ok <==> |o.ifileName| > 0 && accessible(o.ifileName) && |o.fakeName| > 0 && accessible(o.fakeName)
  {
    if |o.ifileName| == 0 then false
    else if !accessible(o.ifileName) then false
    else if |o.fakeName| == 0 then false
    else if !accessible(o.fakeName) then false
    else true
  }

  /** The parse from argument `i` on. */
  function ParseFrom(argv: seq<string>, i: nat, o: Options, accessible: string -> bool): (Options, Outcome)
    requires i <= |argv|
    decreases |argv| - i
  {
    if i == |argv| then (o, Parsed(Checked(o, accessible)))
    else
      var value := if i + 1 < |argv| then argv[i + 1] else "";
      match ApplyArg(o, argv[i], value)
      case Throws => (o, OutOfRange)
      case Stop => (o, Parsed(false))
      case Next(o2) => ParseFrom(argv, i + 1, o2, accessible)
  }

  /** The global `args`. */
  class Args {
    var progName: string
    var ifileName: string
    var ttreeName: string
    var fakeName: string
    var selection: string
    var fakeTreeName: string
    var test: bool
    var debug: bool

    function Snapshot(): Options
      reads this
    {
      Options(progName, ifileName, ttreeName, fakeName, selection, fakeTreeName, test, debug)
    }

    /** The defaults: the friend tree is called "fakeFactorInfo", test and debug are off. */
    constructor ()
      ensures Snapshot() == Defaults()
    {
      progName, ifileName, ttreeName, fakeName, selection := "", "", "", "", "";
      fakeTreeName := "fakeFactorInfo";
      test, debug := false, false;
    }

    /** `Args::parse`; `accessible` says which paths are accessible. */
    method Parse(argv: seq<string>, accessible: string -> bool) returns (outcome: Outcome)
      requires |argv| >= 1
      modifies this
      ensures (Snapshot(), outcome) == ParseFrom(argv, 0, old(Snapshot()).(progName := argv[0]), accessible)
    {
      progName := argv[0];
      for i := 0 to |argv|
        invariant ParseFrom(argv, i, Snapshot(), accessible) == ParseFrom(argv, 0, old(Snapshot()).(progName := argv[0]), accessible)
      {
        var arg := argv[i];
        var value := if i + 1 < |argv| then argv[i + 1] else "";
        if |arg| == 0 {
          return OutOfRange;
        }
        if arg[0] != '-' {
          continue;
        }
        var known := ApplyFlag(arg, value);
        if !known {
          return Parsed(false);
        }
      }
      if |ifileName| == 0 {
        return Parsed(false);
      } else if !accessible(ifileName) {
        return Parsed(false);
      } else if |fakeName| == 0 {
        return Parsed(false);
      } else if !accessible(fakeName) {
        return Parsed(false);
      }
      return Parsed(true);
    }

    /** The flag tests of the loop body, for an argument starting with '-': a known
        flag sets its field, any other stops the parse. */
    method ApplyFlag(arg: string, value: string) returns (known: bool)
      requires |arg| > 0 && arg[0] == '-'
      modifies this
      ensures known <==> arg in KnownFlags
      ensures known ==> ApplyArg(old(Snapshot()), arg, value) == Next(Snapshot())
      ensures !known ==> Snapshot() == old(Snapshot())
    {
      known := true;
      if arg == "-i" || arg == "--input" {
        ifileName := value;
      } else if arg == "-t" || arg == "--tree" {
        ttreeName := value;
      } else if arg == "-f" || arg == "--fake-file" {
        fakeName := value;
      } else if arg == "-s" || arg == "--selection" {
        selection := value;
      } else if arg == "--ftree" {
        fakeTreeName := value;
      } else if arg == "--test" {
        test := true;
      } else if arg == "--debug" {
        debug := true;
      } else {
        known := false;
      }
    }
  }

  function Defaults(): Options
  {
    Options("", "", "", "", "", "fakeFactorInfo", false, false)
  }

  /** An argument the parser gets past: not empty, and a known flag if it looks like one. */
  predicate Accepted(arg: string)
  {
    |arg| > 0 && (arg[0] == '-' ==> arg in KnownFlags)
  }

  /** A successful parse met no help request and no unrecognised flag, and both files
      exist; conversely, such an argument list always parses. */
  lemma {:induction false} ParseSucceeds(argv: seq<string>, i: nat, o: Options, accessible: string -> bool)
    requires i <= |argv|
    ensures ParseFrom(argv, i, o, accessible).1 == Parsed(true) <==>
      (forall k :: i <= k < |argv| ==> Accepted(argv[k])) && Checked(ParseFrom(argv, i, o, accessible).0, accessible)
    decreases |argv| - i
  {
    if i < |argv| {
      var o2 := ParseFromStep(argv, i, o, accessible);
      AcceptedFrom(argv, i);
      if Accepted(argv[i]) {
        ParseSucceeds(argv, i + 1, o2, accessible);
      }
    }
  }

  /** One argument of the parse: an accepted one moves on with the options it leaves,
      any other ends the parse without success. */
  lemma ParseFromStep(argv: seq<string>, i: nat, o: Options, accessible: string -> bool) returns (o2: Options)
    requires i < |argv|
    ensures Accepted(argv[i]) ==> ParseFrom(argv, i, o, accessible) == ParseFrom(argv, i + 1, o2, accessible)
    ensures !Accepted(argv[i]) ==> ParseFrom(argv, i, o, accessible).1 != Parsed(true)
  {
    var s := ApplyArg(o, argv[i], if i + 1 < |argv| then argv[i + 1] else "");
    if s.Next? {
      o2 := s.o;
    } else {
      o2 := o;
    }
  }

  lemma AcceptedFrom(argv: seq<string>, i: nat)
    requires i < |argv|
    ensures (forall k :: i <= k < |argv| ==> Accepted(argv[k])) <==>
      Accepted(argv[i]) && forall k :: i + 1 <= k < |argv| ==> Accepted(argv[k])
  {
  }

  /** Unlike the flat-ntuple maker's parser, an unrecognised flag ends the parse with
      false. */
  lemma UnknownFlagFails(prog: string, flag: string, accessible: string -> bool)
    requires |prog| > 0 && prog[0] != '-'
    requires |flag| > 0 && flag[0] == '-' && flag !in KnownFlags
    ensures ParseFrom([prog, flag], 0, Defaults().(progName := prog), accessible).1 == Parsed(false)
  {
    var argv := [prog, flag];
    assert ParseFrom(argv, 0, Defaults().(progName := prog), accessible) == ParseFrom(argv, 1, Defaults().(progName := prog), accessible);
  }

  /** The selection is not needed for the parse to succeed. */
  lemma SelectionOptional(o: Options, accessible: string -> bool)
    ensures Checked(o.(selection := ""), accessible) == Checked(o, accessible)
  {
  }

  // ---------------------------------------------------------------------------
  // Per-event work

  /** The loop that collects the leptons handed to the fake tool. */
  method SelectForTool(leps: seq<LeptonProperties>) returns (r: seq<LeptonProperties>)
    ensures r == ToolInput(leps)
  {
    r := [];
    assert leps[0..] == leps;
    JoinEmpty(ToolInput(leps));
    for i := 0 to |leps|
      invariant r + ToolInput(leps[i..]) == ToolInput(leps)
    {
      ToolInputFrom(leps, i);
      if leps[i].recoStatus != ID && leps[i].recoStatus != AntiID {
        continue;
      }
      JoinAssoc(r, [leps[i]], ToolInput(leps[i + 1..]));
      r := r + [leps[i]];
    }
    assert leps[|leps|..] == [];
    JoinEmpty(r);
  }

  /** The fake-tool input of a suffix: its first lepton when that one qualifies, then the
      input of the rest. */
  lemma ToolInputFrom(leps: seq<LeptonProperties>, i: nat)
    requires i < |leps|
    ensures ToolInput(leps[i..]) == (if ForTool(leps[i]) then [leps[i]] else []) + ToolInput(leps[i + 1..])
  {
    assert leps[i..][1..] == leps[i + 1..];
    JoinEmpty(ToolInput(leps[i + 1..]));
  }

  /** `all_prompt`: an early-exit scan for a lepton that is not prompt. */
  method AllPromptScan(lps: seq<LeptonProperties>) returns (r: bool)
    ensures r == AllPrompt(lps)
    ensures lps == [] ==> r
  {
    for i := 0 to |lps|
      invariant forall k :: 0 <= k < i ==> lps[k].truthStatus == Prompt
    {
      if lps[i].truthStatus != Prompt {
        return false;
      }
    }
    return true;
  }

  /** The fake weight of an event and its statistical and systematic errors. */
  datatype Weight = Weight(value: real, stat: real, syst: real)

  /** The treatment of simulated events: all-prompt events enter with the opposite sign,
      so they subtract the prompt contamination of the fake estimate; every other simulated
      event gets nothing. Data events keep the weight the fake tool gave. */
  function AdjustWeight(isMC: bool, allPrompt: bool, w: Weight): (r: Weight)
    ensures !isMC ==> r == w
    ensures isMC && allPrompt ==> r.value + w.value == 0.0 && (r.stat, r.syst) == (w.stat, w.syst)
    ensures isMC && !allPrompt ==> r == Weight(0.0, 0.0, 0.0)
  {
    if !isMC then w
    else if allPrompt then w.(value := -w.value)
    else Weight(0.0, 0.0, 0.0)
  }

  /** Adjusting twice restores data and prompt weights and leaves zeroed weights zero. */
  lemma AdjustInvolutive(isMC: bool, allPrompt: bool, w: Weight)
    ensures AdjustWeight(isMC, allPrompt, AdjustWeight(isMC, allPrompt, w)) ==
      (if isMC && !allPrompt then Weight(0.0, 0.0, 0.0) else w)
  {
  }

  // ---------------------------------------------------------------------------
  // main

  /** One entry of the input tree: its branches and the status the never-assigned
      field of its third ID entry happens to hold. */
  datatype Event = Event(branches: Branches, third: RecoStatus)

  /** The fake tool, as a function of the leptons it is given and the selection; `None`
      when `getEventWeight` fails. */
  type FakeTool = (seq<LeptonProperties>, string) -> Option<Weight>

  /** The row an event adds to the friend tree, or `None` when the fake tool fails. */
  function EventRow(e: Event, tool: FakeTool, selection: string): Option<Weight>
  {
    var leps := Built(e.branches, e.third);
    match tool(ToolInput(leps), selection)
    case None => None
    case Some(w) => Some(AdjustWeight(e.branches.isMC, AllPrompt(leps), w))
  }

  /** What the fake tool makes of each event, in order. */
  function EventResults(events: seq<Event>, tool: FakeTool, selection: string): (r: seq<Option<Weight>>)
    ensures |r| == |events|
    ensures forall k :: 0 <= k < |events| ==> r[k] == EventRow(events[k], tool, selection)
  {
    seq(|events|, k requires 0 <= k < |events| => EventRow(events[k], tool, selection))
  }

  /** The rows filled in order up to the first failing event, and whether every event
      succeeded. */
  function Rows(results: seq<Option<Weight>>): (seq<Weight>, bool)
  {
    if results == [] then ([], true)
    else
      match results[0]
      case None => ([], false)
      case Some(w) =>
        var rest := Rows(results[1..]);
        ([w] + rest.0, rest.1)
  }

  /** Every event succeeds exactly when the loop runs to the end; the rows filled are
      the weights of the events, in order. */
  lemma {:induction false} RowsMeaning(results: seq<Option<Weight>>)
    ensures var r := Rows(results);
            && |r.0| <= |results|
            && (r.1 <==> forall k :: 0 <= k < |results| ==> results[k].Some?)
            && (r.1 ==> |r.0| == |results|)
            && forall k :: 0 <= k < |r.0| ==> results[k] == Some(r.0[k])
  {
    if results != [] {
      RowsMeaning(results[1..]);
      assert forall k :: 1 <= k < |results| ==> results[k] == results[1..][k - 1];
    }
  }

  /** How the program ends: terminated by the uncaught exception of an empty argument,
      or with an exit code, the mode the input was opened in ("" when it was not), the
      rows filled into the friend tree and whether the file was updated. */
  datatype RunResult = Terminated | Finished(code: int, mode: string, rows: seq<Weight>, written: bool)

  /** The file is opened read-only in test mode and for update otherwise. */
  function FileMode(test: bool): string
  {
    if test then "READ" else "UPDATE"
  }

  /** `main`: `accessible` says which paths are accessible, `opens` whether the input opens
      (it is not a zombie), `toolReady` whether the fake tool initialises. */
  function RunSpec(argv: seq<string>, accessible: string -> bool, opens: bool, toolReady: bool,
                   events: seq<Event>, tool: FakeTool): RunResult
    requires |argv| >= 1
  {
    var (o, outcome) := ParseFrom(argv, 0, Defaults().(progName := argv[0]), accessible);
    if outcome.OutOfRange? then Terminated
    else if !outcome.ok then Finished(3, "", [], false)
    else if !opens then Finished(3, FileMode(o.test), [], false)
    else if !toolReady then Finished(1, FileMode(o.test), [], false)
    else
      var (rows, ok) := Rows(EventResults(events, tool, o.selection));
      if !ok then Finished(3, FileMode(o.test), rows, false)
      else Finished(0, FileMode(o.test), rows, !o.test)
  }

  /** `main`, step by step. */
  method Run(argv: seq<string>, accessible: string -> bool, opens: bool, toolReady: bool,
             events: seq<Event>, tool: FakeTool) returns (r: RunResult)
    requires |argv| >= 1
    ensures r == RunSpec(argv, accessible, opens, toolReady, events, tool)
  {
    var args := new Args();
    var outcome := args.Parse(argv, accessible);
    if outcome.OutOfRange? {
      return Terminated;
    }
    if !outcome.ok {
      return Finished(3, "", [], false);
    }
    var selection := args.selection;
    var mode := if args.test then "READ" else "UPDATE";
    if !opens {
      return Finished(3, mode, [], false);
    }
    if !toolReady {
      return Finished(1, mode, [], false);
    }
    var rows, ok := ProcessEvents(events, tool, selection);
    if !ok {
      return Finished(3, mode, rows, false);
    }
    return Finished(0, mode, rows, !args.test);
  }

  /** The event loop of `main`: the rows filled up to the first failing event. */
  method ProcessEvents(events: seq<Event>, tool: FakeTool, selection: string) returns (rows: seq<Weight>, ok: bool)
    ensures (rows, ok) == Rows(EventResults(events, tool, selection))
  {
    ghost var results := EventResults(events, tool, selection);
    var helper := new TreeHelper();
    rows := [];
    assert results[0..] == results;
    JoinEmpty(Rows(results).0);
    for i := 0 to |events|
      invariant Rows(results) == (rows + Rows(results[i..]).0, Rows(results[i..]).1)
    {
      RowsFrom(results, i);
      var w := ProcessEvent(helper, events[i], tool, selection);
      assert w == results[i];
      if w.None? {
        JoinEmpty(rows);
        return rows, false;
      }
      JoinAssoc(rows, [w.value], Rows(results[i + 1..]).0);
      rows := rows + [w.value];
    }
    assert results[|events|..] == [];
    JoinEmpty(rows);
    return rows, true;
  }

  /** The rows from event `i` on: none after a failure, else its weight and the rows of
      the events after it. */
  lemma RowsFrom(results: seq<Option<Weight>>, i: nat)
    requires i < |results|
    ensures results[i].None? ==> Rows(results[i..]) == ([], false)
    ensures results[i].Some? ==>
      Rows(results[i..]) == ([results[i].value] + Rows(results[i + 1..]).0, Rows(results[i + 1..]).1)
  {
    assert results[i..][0] == results[i];
    assert results[i..][1..] == results[i + 1..];
  }

  /** One pass of the event loop: clear the helper, read the entry, hand the ID and
      anti-ID leptons to the fake tool and adjust the weight of a simulated event. */
  method ProcessEvent(helper: TreeHelper, e: Event, tool: FakeTool, selection: string) returns (w: Option<Weight>)
    modifies helper
    ensures w == EventRow(e, tool, selection)
  {
    helper.Clear();
    helper.GetEntry(e.branches);
    var leptons := helper.Leptons(e.third);
    var input := SelectForTool(leptons);
    var result := tool(input, selection);
    if result.None? {
      return None;
    }
    var fakeWeight := result.value;
    if e.branches.isMC {
      var prompt := AllPromptScan(leptons);
      if prompt {
        fakeWeight := fakeWeight.(value := -fakeWeight.value);
      } else {
        fakeWeight := Weight(0.0, 0.0, 0.0);
      }
    }
    return Some(fakeWeight);
  }

  /** The exit codes: 3 when the parse fails, the input does not open or the fake tool
      fails on an event; 1 when the fake tool does not initialise; 0 otherwise. */
  lemma ExitCodes(argv: seq<string>, accessible: string -> bool, opens: bool, toolReady: bool,
                  events: seq<Event>, tool: FakeTool)
    requires |argv| >= 1
    ensures var o := ParseFrom(argv, 0, Defaults().(progName := argv[0]), accessible);
            var r := RunSpec(argv, accessible, opens, toolReady, events, tool);
            && (r.Terminated? <==> o.1.OutOfRange?)
            && (r.Finished? ==> r.code == 0 || r.code == 1 || r.code == 3)
            && (r.Finished? && r.code == 1 <==> o.1 == Parsed(true) && opens && !toolReady)
            && (r.Finished? && r.code == 0 <==>
                  o.1 == Parsed(true) && opens && toolReady &&
                  forall k :: 0 <= k < |events| ==> EventRow(events[k], tool, o.0.selection).Some?)
  {
    var o := ParseFrom(argv, 0, Defaults().(progName := argv[0]), accessible);
    RowsMeaning(EventResults(events, tool, o.0.selection));
  }

  /** Test mode opens the input read-only and never writes; otherwise the file is
      written exactly when the program succeeds. */
  lemma TestModeWritesNothing(argv: seq<string>, accessible: string -> bool, opens: bool, toolReady: bool,
                              events: seq<Event>, tool: FakeTool)
    requires |argv| >= 1
    ensures var o := ParseFrom(argv, 0, Defaults().(progName := argv[0]), accessible);
            var r := RunSpec(argv, accessible, opens, toolReady, events, tool);
            && (r.Finished? && r.written <==> r.Finished? && r.code == 0 && !o.0.test)
            && (r.Finished? && r.code != 3 ==> (r.mode == "READ" <==> o.0.test))
  {
  }

  /** On success the friend tree has one row per entry: the fake tool's weight for data,
      its negation for all-prompt simulated events, and zero for other simulated
      events. */
  lemma SuccessRows(argv: seq<string>, accessible: string -> bool, opens: bool, toolReady: bool,
                    events: seq<Event>, tool: FakeTool, k: nat)
    requires |argv| >= 1
    requires RunSpec(argv, accessible, opens, toolReady, events, tool).Finished?
    requires RunSpec(argv, accessible, opens, toolReady, events, tool).code == 0
    requires k < |events|
    ensures var o := ParseFrom(argv, 0, Defaults().(progName := argv[0]), accessible).0;
            var r := RunSpec(argv, accessible, opens, toolReady, events, tool);
            var leps := Built(events[k].branches, events[k].third);
            var w := tool(ToolInput(leps), o.selection);
            && |r.rows| == |events|
            && w.Some?
            && r.rows[k] == AdjustWeight(events[k].branches.isMC, AllPrompt(leps), w.value)
  {
    var o := ParseFrom(argv, 0, Defaults().(progName := argv[0]), accessible);
    var results := EventResults(events, tool, o.0.selection);
    RowsMeaning(results);
    assert results[k] == EventRow(events[k], tool, o.0.selection);
  }
}
