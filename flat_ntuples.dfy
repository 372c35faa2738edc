/** The flat-ntuple maker: its command-line parser, the output suffix, which
    cutflows run and the lepton cuts and variables each event gets. */
module FlatNtuples {
  import opened Wrappers
  import opened Strs
  import opened Leptons

  /** `unsigned int` holds values modulo 2^32. */
  const UintModulus: int := 0x1_0000_0000

  function ToUint(v: int): (u: nat)
    ensures u < UintModulus && (u - v) % UintModulus == 0
  {
    v % UintModulus
  }

  // ---------------------------------------------------------------------------
  // Args::parse

  /** The parsed options, as the fields of `Args` hold them. */
  datatype Options = Options(progName: string, inputName: string, nEvents: nat, nSkipped: nat,
                             nameSuffix: string, baselineSel: bool, zllCr: bool)

  /** What the parser leaves the caller with: a verdict, or the `std::out_of_range`
      that `arg.at(0)` throws on an empty argument. */
  datatype Outcome = Parsed(ok: bool) | OutOfRange

  /** What one argument does to the options. */
  datatype Step = Next(o: Options) | Help | Throws

  function ApplyArg(o: Options, arg: string, value: string): Step
  {
    if |arg| == 0 then Throws
    else if arg[0] != '-' then Next(o)
    else if arg == "-i" || arg == "--input" then Next(o.(inputName := value))
    else if arg == "-n" || arg == "--nevents" then Next(o.(nEvents := ToUint(Atoi(value))))
    else if arg == "-k" || arg == "--nskipped" then Next(o.(nSkipped := ToUint(Atoi(value))))
    else if arg == "-s" || arg == "--suffix" then Next(o.(nameSuffix := value))
    else if arg == "--baseline_sel" then Next(o.(baselineSel := true))
    else if arg == "--zll_cr" then Next(o.(zllCr := true))
    else if arg == "-h" || arg == "--help" then Help
    else Next(o)
  }

  /** The parse from argument `i` on: every argument is read, the one after it serving
      as its value ("" after the last). */
  function ParseFrom(argv: seq<string>, i: nat, o: Options): (Options, Outcome)
    requires i <= |argv|
    decreases |argv| - i
  {
    if i == |argv| then (o, Parsed(|o.inputName| > 0))
    else
      var value := if i + 1 < |argv| then argv[i + 1] else "";
      match ApplyArg(o, argv[i], value)
      case Throws => (o, OutOfRange)
      case Help => (o, Parsed(false))
      case Next(o2) => ParseFrom(argv, i + 1, o2)
  }

  /** The global `Args` object. */
  class Args {
    var progName: string
    var inputName: string
    var nEvents: nat
    var nSkipped: nat
    var nameSuffix: string
    var baselineSel: bool
    var zllCr: bool

    function Snapshot(): Options
      reads this
    {
      Options(progName, inputName, nEvents, nSkipped, nameSuffix, baselineSel, zllCr)
    }

    /** The defaults: `n_events` is `-1` stored in an unsigned int. */
    constructor ()
      ensures Snapshot() == Options("", "", UintModulus - 1, 0, "", false, false)
    {
      progName, inputName := "", "";
      nEvents, nSkipped := UintModulus - 1, 0;
      nameSuffix := "";
      baselineSel, zllCr := false, false;
    }

    /** `Args::parse`: `argv[0]` is the program name; unknown flags are reported and
        skipped, `-h` stops with false, and otherwise the result says whether an input
        was given. */
    method Parse(argv: seq<string>) returns (outcome: Outcome)
      requires |argv| >= 1
      modifies this
      ensures (Snapshot(), outcome) == ParseFrom(argv, 0, old(Snapshot()).(progName := argv[0]))
    {
      progName := argv[0];
      for i := 0 to |argv|
        invariant ParseFrom(argv, i, Snapshot()) == ParseFrom(argv, 0, old(Snapshot()).(progName := argv[0]))
      {
        var arg := argv[i];
        var value := if i + 1 < |argv| then argv[i + 1] else "";
        if |arg| == 0 {
          return OutOfRange;
        }
        if arg[0] != '-' {
          continue;
        }
        if arg == "-i" || arg == "--input" {
          inputName := value;
        } else if arg == "-n" || arg == "--nevents" {
          nEvents := ToUint(Atoi(value));
        } else if arg == "-k" || arg == "--nskipped" {
          nSkipped := ToUint(Atoi(value));
        } else if arg == "-s" || arg == "--suffix" {
          nameSuffix := value;
        } else if arg == "--baseline_sel" {
          baselineSel := true;
        } else if arg == "--zll_cr" {
          zllCr := true;
        } else if arg == "-h" || arg == "--help" {
          return Parsed(false);
        }
      }
      return Parsed(|inputName| > 0);
    }
  }

  /** A successful parse always has an input; a failed one either has none or met a
      help flag. */
  lemma {:induction false} ParseVerdict(argv: seq<string>, i: nat, o: Options)
    requires i <= |argv|
    ensures ParseFrom(argv, i, o).1 == Parsed(true) ==> |ParseFrom(argv, i, o).0.inputName| > 0
    ensures ParseFrom(argv, i, o).1 == Parsed(false) ==>
      |ParseFrom(argv, i, o).0.inputName| == 0 || exists k :: i <= k < |argv| && argv[k] in {"-h", "--help"}
    decreases |argv| - i
  {
    if i < |argv| {
      var value := if i + 1 < |argv| then argv[i + 1] else "";
      var s := ApplyArg(o, argv[i], value);
      if s.Next? {
        ParseVerdict(argv, i + 1, s.o);
      }
    }
  }

  /** An unrecognised flag changes nothing and parsing goes on. */
  lemma UnknownFlagIgnored(o: Options, arg: string, value: string)
    requires |arg| > 0 && arg[0] == '-'
    requires arg !in {"-i", "--input", "-n", "--nevents", "-k", "--nskipped", "-s", "--suffix",
                      "--baseline_sel", "--zll_cr", "-h", "--help"}
    ensures ApplyArg(o, arg, value) == Next(o)
  {
  }

  /** `prog -i <file>` sets the input and succeeds. */
  lemma ParseInputOnly(prog: string, file: string, o: Options)
    requires |prog| > 0 && prog[0] != '-'
    requires |file| > 0 && file[0] != '-'
    ensures ParseFrom([prog, "-i", file], 0, o) == (o.(inputName := file), Parsed(true))
  {
    var argv := [prog, "-i", file];
    assert ParseFrom(argv, 3, o.(inputName := file)) == (o.(inputName := file), Parsed(true));
    assert ParseFrom(argv, 2, o.(inputName := file)) == ParseFrom(argv, 3, o.(inputName := file));
    assert ParseFrom(argv, 1, o) == ParseFrom(argv, 2, o.(inputName := file));
  }

  /** `-n` reads the count with `atoi` and keeps it modulo 2^32, so `-n -1` gives the
      largest unsigned value. */
  lemma NegativeCountWraps(o: Options)
    ensures ApplyArg(o, "-n", "-1") == Next(o.(nEvents := UintModulus - 1))
  {
    assert LeadingDigits("1") == "1";
    assert DigitsValue("1") == 1;
  }

  // ---------------------------------------------------------------------------
  // Selections

  /** The `Sel` enum. */
  datatype Sel = BaselineSel | ZllCr

  function SelName(s: Sel): string
  {
    match s
    case BaselineSel => "baseline"
    case ZllCr => "zll_cr"
  }

  /** `determine_suffix`: the user's suffix, an underscore if it is not empty, then the
      selection's name. */
  function DetermineSuffix(user: string, s: Sel): (r: string)
    ensures user <= r
    ensures |r| == |user| + (if |user| > 0 then 1 else 0) + |SelName(s)|
    ensures |user| > 0 ==> r[|user|] == '_'
    ensures r[|r| - |SelName(s)|..] == SelName(s)
  {
    (if user != "" then user + "_" else user) + SelName(s)
  }

  /** How `main` ends: the uncaught `std::out_of_range` of the parser, `return 1` after
      a failed parse, or the cutflows run before `return 0`. */
  datatype MainResult = Terminated | Exited(code: int) | Ran(cutflows: seq<Sel>)

  /** `main`: the cutflows run, baseline before Z->ll, or how it stops before them. */
  function CutflowsToRun(o: Options, outcome: Outcome): (r: MainResult)
    ensures r.Terminated? <==> outcome.OutOfRange?
    ensures r.Exited? <==> outcome == Parsed(false)
    ensures r.Exited? ==> r.code == 1
    ensures r.Ran? ==> (BaselineSel in r.cutflows <==> o.baselineSel) && (ZllCr in r.cutflows <==> o.zllCr)
    ensures r.Ran? ==> |r.cutflows| == (if o.baselineSel then 1 else 0) + (if o.zllCr then 1 else 0)
    ensures r.Ran? && |r.cutflows| == 2 ==> r.cutflows == [BaselineSel, ZllCr]
  {
    if outcome.OutOfRange? then Terminated
    else if !outcome.ok then Exited(1)
    else Ran((if o.baselineSel then [BaselineSel] else []) + (if o.zllCr then [ZllCr] else []))
  }

  /** The lepton cuts of each selection: exactly two signal leptons with different
      flavour and opposite charge, or at least two with the same flavour and opposite
      charge. */
  predicate PassLeptonCuts(s: Sel, leps: seq<Lepton>)
  {
    match s
    case BaselineSel => |leps| == 2 && Dfos(leps)
    case ZllCr => |leps| >= 2 && Sfos(leps)
  }

  /** No event passes both selections' lepton cuts. */
  lemma SelectionsDisjoint(leps: seq<Lepton>)
    ensures !(PassLeptonCuts(BaselineSel, leps) && PassLeptonCuts(ZllCr, leps))
  {
  }

  // ---------------------------------------------------------------------------
  // Event variables

  /** `l_iso0` to `l_iso2`: empty without lepton `i`, else its isolation codes 0-4 (5 when
      it passes none). */
  function LeptonIso(leps: seq<Option<Lepton>>, i: nat): (r: seq<int>)
    ensures r == [] <==> i >= |leps| || leps[i].None?
    ensures r != [] ==> r == IsoCodes(FiveIsoPoints(leps[i].value.iso))
  {
    if i >= |leps| || leps[i].None? then [] else IsoCodes(FiveIsoPoints(leps[i].value.iso))
  }

  /** `m_triggerLeptons`: the first and second selected leptons, those present, in order. */
  function TriggerLeptons(leps: seq<Option<Lepton>>): (r: seq<Lepton>)
    ensures |r| == (if |leps| > 0 && leps[0].Some? then 1 else 0) + (if |leps| > 1 && leps[1].Some? then 1 else 0)
    ensures |leps| > 0 && leps[0].Some? ==> r[0] == leps[0].value
    ensures |leps| > 1 && leps[1].Some? ==> r[|r| - 1] == leps[1].value
    ensures forall x :: x in r ==> Some(x) in leps[..if |leps| < 2 then |leps| else 2]
  {
    (if |leps| > 0 && leps[0].Some? then [leps[0].value] else []) +
    (if |leps| > 1 && leps[1].Some? then [leps[1].value] else [])
  }

  /** The lepton shortcuts of one event: the trigger leptons from the first two selected
      leptons, and the dilepton trigger slots filled from every selected lepton present. */
  method LeptonShortcuts(selectLeptons: seq<Option<Lepton>>)
    returns (trigger: seq<Lepton>, el0: Option<Lepton>, el1: Option<Lepton>, mu0: Option<Lepton>, mu1: Option<Lepton>)
    ensures trigger == TriggerLeptons(selectLeptons)
    ensures el0 == At(OfFlavour(selectLeptons, true), 0) && el1 == At(OfFlavour(selectLeptons, true), 1)
    ensures mu0 == At(OfFlavour(selectLeptons, false), 0) && mu1 == At(OfFlavour(selectLeptons, false), 1)
  {
    trigger := [];
    if |selectLeptons| > 0 && selectLeptons[0].Some? {
      trigger := trigger + [selectLeptons[0].value];
    }
    if |selectLeptons| > 1 && selectLeptons[1].Some? {
      trigger := trigger + [selectLeptons[1].value];
    }
    el0, el1, mu0, mu1 := TriggerSlots(selectLeptons);
  }
}
