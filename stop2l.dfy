/** The Stop2L analysis: which selection a run makes, the leptons each event hands to
    the variables (the Z-tagged pair and the probe of the three-lepton region, the
    anti-ID leptons and the trigger-matching slots) and the per-lepton variables. */
module Stop2L {
  import opened Wrappers
  import opened Strs
  import opened Leptons

  /** `FLT_MAX`, the starting distance of the Z-pair search. */
  const FltMax: real := 340282346638528859811704183484516925440.0

  // ---------------------------------------------------------------------------
  // Selection dispatch in main

  /** The six selections; the mode flags of the program hold exactly one of them. */
  datatype Selection = BaselineDF | BaselineSF | Zjets3l | FakeBaselineDF | FakeBaselineSF | FakeZjets3l

  function SelectionName(s: Selection): string
  {
    match s
    case BaselineDF => "baseline_DF"
    case BaselineSF => "baseline_SF"
    case Zjets3l => "zjets3l"
    case FakeBaselineDF => "fake_baseline_DF"
    case FakeBaselineSF => "fake_baseline_SF"
    case FakeZjets3l => "fake_zjets3l"
  }

  /** `main`: failing to read the options or an unknown selection name exits with 1. */
  function ChooseSelection(optionsRead: bool, name: string): (r: Result<Selection, int>)
    ensures r.Err? ==> r.error == 1
    ensures r.Ok? ==> optionsRead && SelectionName(r.value) == name
  {
    if !optionsRead then Err(1)
    else if name == "baseline_DF" then Ok(BaselineDF)
    else if name == "baseline_SF" then Ok(BaselineSF)
    else if name == "zjets3l" then Ok(Zjets3l)
    else if name == "fake_baseline_DF" then Ok(FakeBaselineDF)
    else if name == "fake_baseline_SF" then Ok(FakeBaselineSF)
    else if name == "fake_zjets3l" then Ok(FakeZjets3l)
    else Err(1)
  }

  /** Every selection is reached by its own name and by no other. */
  lemma ChooseSelectionByName(s: Selection, name: string)
    ensures ChooseSelection(true, SelectionName(s)) == Ok(s)
    ensures ChooseSelection(true, name).Ok? <==> exists t :: SelectionName(t) == name
  {
    if ChooseSelection(true, name).Ok? {
      assert SelectionName(ChooseSelection(true, name).value) == name;
    }
    if exists t :: SelectionName(t) == name {
      var t :| SelectionName(t) == name;
      assert ChooseSelection(true, name) == Ok(t) by {
        match t
        case BaselineDF =>
        case BaselineSF =>
        case Zjets3l =>
        case FakeBaselineDF =>
        case FakeBaselineSF =>
        case FakeZjets3l =>
      }
    }
  }

  // ---------------------------------------------------------------------------
  // Lepton predicates

  /** `is_antiID_lepton`: inside the acceptance, passing the loose anti-ID point and
      failing the full ID. Electrons: ID is gradient isolation with medium LH, anti-ID
      is loose-with-B-layer LH. Muons: ID is FCLoose isolation with medium, anti-ID is
      medium. Anything else is never anti-ID. */
  predicate IsAntiID(l: Lepton)
  {
    match l.flavour
    case Electron(el) =>
      l.pt > 0.0 && -2.47 < l.eta < 2.47 && el.looseLLHBLayer && !(l.iso.gradient && el.mediumLLH)
    case Muon(mu) =>
      l.pt > 0.0 && -2.47 < l.eta < 2.47 && mu.medium && !(l.iso.fcLoose && mu.medium)
    case Neither => false
  }

  /** An anti-ID muon is a medium muon that fails FCLoose isolation. */
  lemma MuonAntiID(l: Lepton)
    requires l.flavour.Muon?
    ensures IsAntiID(l) <==> l.pt > 0.0 && -2.47 < l.eta < 2.47 && l.flavour.mu.medium && !l.iso.fcLoose
  {
  }

  /** `is_ID_lepton`: the lepton is one of the signal leptons (the same object). */
  method IsIDLepton(signal: seq<Lepton>, lep: Lepton) returns (r: bool)
    ensures r <==> exists i :: 0 <= i < |signal| && signal[i].id == lep.id
  {
    var k := FirstMatch(signal, (x: Lepton) => x.id == lep.id);
    r := k >= 0;
    if !r {
      forall i | 0 <= i < |signal| ensures signal[i].id != lep.id {
        assert !(((x: Lepton) => x.id == lep.id)(signal[i]));
      }
    }
  }

  /** `is_2lep_trig_matched`: false when either lepton is missing; otherwise the trigger
      must have fired and the trigger tool must match the pair. */
  function TwoLepTrigMatched(lep1: Option<Lepton>, lep2: Option<Lepton>, fired: bool, matched: bool): (r: bool)
    ensures r ==> lep1.Some? && lep2.Some?
    ensures lep1.Some? && lep2.Some? ==> (r <==> fired && matched)
  {
    if lep1.None? || lep2.None? then false
    else if !fired then false
    else matched
  }

  /** The `Iso` vector of a lepton slot: empty without a lepton, else its isolation
      codes 0-7 (8 when it passes none). */
  function LepIso(lep: Option<Lepton>): (r: seq<int>)
    ensures r == [] <==> lep.None?
    ensures lep.Some? ==> r == IsoCodes(EightIsoPoints(lep.value.iso))
  {
    if lep.None? then [] else IsoCodes(EightIsoPoints(lep.value.iso))
  }

  // ---------------------------------------------------------------------------
  // The Z-tagged pair and the probe

  /** Pair (a, b) is visited before pair (c, d). */
  predicate PairBefore(a: int, b: int, c: int, d: int)
  {
    a < c || (a == c && b < d)
  }

  /** A pair of the first `n` leptons, ordered. */
  predicate IsPair(n: int, a: int, b: int)
  {
    0 <= a < b < n
  }

  /** The distance `|m - ZMASS|` of the pair of leptons with the two indices. */
  type PairDistance = (int, int) -> real

  /** The answer of the Z-pair search over `n` leptons: -1, -1 with fewer than three
      leptons or no pair below `FLT_MAX`; otherwise the first pair in visiting order
      whose distance is the least. */
  ghost predicate ZPairChoice(n: nat, zdiff: PairDistance, i1: int, i2: int)
  {
    (n < 3 ==> i1 == -1 && i2 == -1) &&
    (n >= 3 && i1 == -1 ==> i2 == -1 && forall a, b :: IsPair(n, a, b) ==> zdiff(a, b) >= FltMax) &&
    (i1 != -1 ==>
      n >= 3 && IsPair(n, i1, i2) && zdiff(i1, i2) < FltMax &&
      (forall a, b :: IsPair(n, a, b) ==> zdiff(i1, i2) <= zdiff(a, b)) &&
      (forall a, b :: IsPair(n, a, b) && PairBefore(a, b, i1, i2) ==> zdiff(i1, i2) < zdiff(a, b)))
  }

  /** The search has one answer: the strict comparison leaves no tie to break. */
  lemma ZPairChoiceUnique(n: nat, zdiff: PairDistance, i1: int, i2: int, j1: int, j2: int)
    requires ZPairChoice(n, zdiff, i1, i2) && ZPairChoice(n, zdiff, j1, j2)
    ensures i1 == j1 && i2 == j2
  {
    if i1 != -1 && j1 != -1 {
      assert zdiff(i1, i2) == zdiff(j1, j2);
    }
  }

  /** The Z-pair search: among the pairs `ii < jj` of `n >= 3` leptons, the first one
      with the least distance `zdiff(ii, jj)` (|m - ZMASS|) below `FLT_MAX`, or -1, -1. */
  method ZPair(n: nat, zdiff: PairDistance) returns (i1: int, i2: int)
    ensures ZPairChoice(n, zdiff, i1, i2)
  {
    i1, i2 := -1, -1;
    if n < 3 {
      return;
    }
    var best := FltMax;
    for ii := 0 to n
      invariant i1 == -1 ==> i2 == -1 && best == FltMax
      invariant i1 != -1 ==> IsPair(n, i1, i2) && i1 < ii && best == zdiff(i1, i2) && best < FltMax
      invariant forall a, b :: IsPair(n, a, b) && a < ii ==> best <= zdiff(a, b)
      invariant i1 != -1 ==> forall a, b :: IsPair(n, a, b) && a < ii && PairBefore(a, b, i1, i2) ==> best < zdiff(a, b)
    {
      for jj := ii + 1 to n
        invariant i1 == -1 ==> i2 == -1 && best == FltMax
        invariant i1 != -1 ==> IsPair(n, i1, i2) && PairBefore(i1, i2, ii, jj) && best == zdiff(i1, i2) && best < FltMax
        invariant forall a, b :: IsPair(n, a, b) && PairBefore(a, b, ii, jj) ==> best <= zdiff(a, b)
        invariant i1 != -1 ==> forall a, b :: IsPair(n, a, b) && PairBefore(a, b, i1, i2) ==> best < zdiff(a, b)
      {
        var d := zdiff(ii, jj);
        if d < best {
          best := d;
          i1, i2 := ii, jj;
        }
      }
    }
  }

  /** The probe of the three-lepton region: the first of 0, 1, 2 outside the Z pair
      (there always is one, so the -1 the code starts from is never kept). */
  function ProbeIndex(i1: int, i2: int): (p: int)
    ensures 0 <= p <= 2 && p != i1 && p != i2
    ensures p >= 1 ==> i1 == 0 || i2 == 0
    ensures p == 2 ==> i1 == 1 || i2 == 1
  {
    if i1 != 0 && i2 != 0 then 0
    else if i1 != 1 && i2 != 1 then 1
    else
      assert i1 != 2 || i2 != 2;
      2
  }

  /** With three leptons, the Z pair and the probe are the three leptons, each once. */
  lemma ProbeCompletesTriple(i1: int, i2: int)
    requires IsPair(3, i1, i2)
    ensures ProbeIndex(i1, i2) in {0, 1, 2}
    ensures ({i1, i2, ProbeIndex(i1, i2)} == {0, 1, 2})
  {
  }

  // ---------------------------------------------------------------------------
  // set_global_variables

  /** The leptons the event's variables read. */
  datatype Globals = Globals(roles: Roles, invLeps: seq<Lepton>,
                             el0: Option<Lepton>, el1: Option<Lepton>,
                             mu0: Option<Lepton>, mu1: Option<Lepton>)

  /** The anti-ID leptons among the baseline leptons, in order. */
  function AntiIDLeptons(base: seq<Lepton>): (r: seq<Lepton>)
    ensures |r| <= |base|
    ensures forall x :: x in r <==> x in base && IsAntiID(x)
  {
    if |base| == 0 then []
    else
      var init := AntiIDLeptons(base[..|base| - 1]);
      var last := base[|base| - 1];
      assert base == base[..|base| - 1] + [last];
      if IsAntiID(last) then init + [last] else init
  }

  function Present(s: seq<Lepton>): (r: seq<Option<Lepton>>)
    ensures |r| == |s| && forall i :: 0 <= i < |s| ==> r[i] == Some(s[i])
  {
    seq(|s|, i requires 0 <= i < |s| => Some(s[i]))
  }

  /** The `m_invLeps` loop: the anti-ID baseline leptons, in order. */
  method CollectAntiID(base: seq<Lepton>) returns (invLeps: seq<Lepton>)
    ensures invLeps == AntiIDLeptons(base)
  {
    invLeps := [];
    for k := 0 to |base|
      invariant invLeps == AntiIDLeptons(base[..k])
    {
      assert base[..k + 1][..k] == base[..k];
      if IsAntiID(base[k]) {
        invLeps := invLeps + [base[k]];
      }
    }
    assert base[..|base|] == base;
  }

  /** The leptons chosen for the event's variables. */
  datatype Roles = Roles(lep1: Option<Lepton>, lep2: Option<Lepton>,
                         probeLep1: Option<Lepton>, probeLep2: Option<Lepton>, trigger: seq<Lepton>)

  /** The region branches of "read in", given the anti-ID leptons and the Z pair found.
      `None` is the `std::out_of_range` of `at(-1)` when three leptons have no Z pair. */
  function RolesOf(sel: Selection, leptons: seq<Lepton>, invLeps: seq<Lepton>, zi1: int, zi2: int)
    : (r: Option<Roles>)
    requires (zi1 == -1 && zi2 == -1) || IsPair(|leptons|, zi1, zi2)
    ensures r.None? <==> sel == Zjets3l && |leptons| == 3 && zi1 == -1
    ensures r.Some? ==> |r.value.trigger| <= 2 && forall x :: x in r.value.trigger ==> x in leptons
    ensures r.Some? && |r.value.trigger| >= 1 ==> r.value.lep1 == Some(r.value.trigger[0])
    ensures r.Some? && |r.value.trigger| == 2 ==> r.value.lep2 == Some(r.value.trigger[1])
    ensures r.Some? && r.value.probeLep2.Some? ==> r.value.probeLep1.Some?
  {
    if (sel == BaselineDF || sel == BaselineSF) && |leptons| == 2 then
      Some(Roles(Some(leptons[0]), Some(leptons[1]), Some(leptons[1]), Some(leptons[0]), [leptons[0], leptons[1]]))
    else if (sel == FakeBaselineDF || sel == FakeBaselineSF) && |leptons| == 1 && |invLeps| >= 1 then
      Some(Roles(Some(leptons[0]), Some(invLeps[0]), Some(invLeps[0]), At(invLeps, 1), [leptons[0]]))
    else if sel == Zjets3l && |leptons| == 3 then
      if zi1 == -1 then None
      else
        Some(Roles(Some(leptons[zi1]), Some(leptons[zi2]), Some(leptons[ProbeIndex(zi1, zi2)]), None,
                   [leptons[zi1], leptons[zi2]]))
    else if sel == FakeZjets3l && |leptons| == 2 && |invLeps| >= 1 then
      Some(Roles(Some(leptons[0]), Some(leptons[1]), Some(invLeps[0]), At(invLeps, 1), [leptons[0], leptons[1]]))
    else
      Some(Roles(At(leptons, 0), At(leptons, 1), None, None, []))
  }

  /** In the three-lepton region the two Z leptons and the probe are the event's three
      leptons, each once. */
  lemma ZjetsRolesCoverTriple(leptons: seq<Lepton>, invLeps: seq<Lepton>, zi1: int, zi2: int)
    requires |leptons| == 3 && IsPair(3, zi1, zi2)
    ensures var r := RolesOf(Zjets3l, leptons, invLeps, zi1, zi2);
      r.Some? && r.value.lep1.Some? && r.value.lep2.Some? && r.value.probeLep1.Some? &&
      multiset{r.value.lep1.value, r.value.lep2.value, r.value.probeLep1.value} == multiset(leptons)
  {
    var p := ProbeIndex(zi1, zi2);
    ProbeCompletesTriple(zi1, zi2);
    assert leptons == [leptons[0], leptons[1], leptons[2]];
    if zi1 == 0 && zi2 == 1 { assert p == 2; }
    else if zi1 == 0 && zi2 == 2 { assert p == 1; }
    else { assert zi1 == 1 && zi2 == 2 && p == 0; }
  }

  /** The lepton part of the "read in" step for one event: the signal leptons
      `leptons`, the baseline leptons `base` and the pair distances `zdiff`. `None` is
      the `std::out_of_range` thrown when three leptons have no pair below `FLT_MAX`. */
  method SetGlobals(sel: Selection, leptons: seq<Lepton>, base: seq<Lepton>, zdiff: PairDistance)
    returns (r: Option<Globals>)
    ensures r.None? <==> sel == Zjets3l && |leptons| == 3 && forall a, b :: IsPair(3, a, b) ==> zdiff(a, b) >= FltMax
    ensures r.Some? ==> r.value.invLeps == AntiIDLeptons(base)
    ensures r.Some? ==> exists i1, i2 ::
      ZPairChoice(|leptons|, zdiff, i1, i2) && RolesOf(sel, leptons, AntiIDLeptons(base), i1, i2) == Some(r.value.roles)
    ensures r.Some? && sel == Zjets3l && |leptons| == 3 ==> exists i1, i2 ::
      IsPair(3, i1, i2) && zdiff(i1, i2) < FltMax &&
      r.value.roles.lep1 == Some(leptons[i1]) && r.value.roles.lep2 == Some(leptons[i2]) &&
      r.value.roles.probeLep1 == Some(leptons[ProbeIndex(i1, i2)]) &&
      r.value.roles.trigger == [leptons[i1], leptons[i2]] &&
      (forall a, b :: IsPair(3, a, b) ==> zdiff(i1, i2) <= zdiff(a, b)) &&
      (forall a, b :: IsPair(3, a, b) && PairBefore(a, b, i1, i2) ==> zdiff(i1, i2) < zdiff(a, b))
    ensures r.Some? ==>
      r.value.el0 == At(OfFlavour(Present(r.value.roles.trigger), true), 0) &&
      r.value.el1 == At(OfFlavour(Present(r.value.roles.trigger), true), 1) &&
      r.value.mu0 == At(OfFlavour(Present(r.value.roles.trigger), false), 0) &&
      r.value.mu1 == At(OfFlavour(Present(r.value.roles.trigger), false), 1)
  {
    var invLeps := CollectAntiID(base);
    var zi1, zi2 := ZPair(|leptons|, zdiff);
    var roles := RolesOf(sel, leptons, invLeps, zi1, zi2);
    if roles.None? {
      return None;
    }
    var t := roles.value.trigger;
    var el0, el1, mu0, mu1 := TriggerSlots(Present(t));
    r := Some(Globals(roles.value, invLeps, el0, el1, mu0, mu1));
    if sel == Zjets3l && |leptons| == 3 {
      assert IsPair(3, zi1, zi2) && r.value.roles.lep1 == Some(leptons[zi1]);
    }
  }
}
