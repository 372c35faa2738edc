/** Leptons as the two ntuple makers see them, and the rules both apply to them: the
    truth class cascade, the electron ID and isolation codes, the flavour/charge cuts
    and the trigger-matching slots. Kinematics are left out; only the fields the rules
    read are kept. */
module Leptons {
  import opened Wrappers
  import opened Seqs

  /** `-INT_MAX` for a 32-bit `int`, the "no value" code. */
  const NoValue: int := -2147483647

  /** The electron working points. */
  datatype ElectronFlags = ElectronFlags(tightLLH: bool, mediumLLH: bool, looseLLHBLayer: bool,
                                         looseLLH: bool, veryLooseLLH: bool)

  /** The muon working points. */
  datatype MuonFlags = MuonFlags(tight: bool, medium: bool, loose: bool, veryLoose: bool)

  /** What `dynamic_cast` finds: an electron, a muon, or neither. */
  datatype Flavour = Electron(el: ElectronFlags) | Muon(mu: MuonFlags) | Neither

  /** The isolation working points, in the order the codes number them. */
  datatype IsoFlags = IsoFlags(gradient: bool, gradientLoose: bool, loose: bool, looseTrackOnly: bool,
                               fixedCutTightTrackOnly: bool, fcLoose: bool, fcTight: bool,
                               fcTightTrackOnly: bool)

  /** The truth record: type, origin, background origin and background mother PDG ID. */
  datatype Truth = Truth(mcType: int, mcOrigin: int, mcBkgTruthOrigin: int, mcBkgMotherPdgId: int)

  /** A lepton. `id` stands for the object's address, which the C++ compares by address. */
  datatype Lepton = Lepton(id: nat, flavour: Flavour, q: int, pt: real, eta: real, iso: IsoFlags, truth: Truth)

  predicate IsEle(l: Lepton) { l.flavour.Electron? }
  predicate IsMu(l: Lepton) { l.flavour.Muon? }

  // ---------------------------------------------------------------------------
  // Truth classification

  // Particle types of the ATLAS MCTruthClassifier.
  const Unknown := 0
  const IsoElectron := 2
  const NonIsoElectron := 3
  const BkgElectron := 4
  const IsoMuon := 6
  const NonIsoMuon := 7
  const BkgMuon := 8
  const IsoPhoton := 14
  const NonIsoPhoton := 15
  const BkgPhoton := 16
  const Hadron := 17

  // Particle origins of the ATLAS MCTruthClassifier.
  const PhotonConv := 5
  const DalitzDec := 6
  const ElMagProc := 7
  const Mu := 8
  const TauLep := 9
  const Top := 10
  const WBoson := 12
  const ZBoson := 13
  const Higgs := 14
  const HiggsMSSM := 15
  const SUSY := 22
  const LightMeson := 23
  const StrangeMeson := 24
  const CharmedMeson := 25
  const BottomMeson := 26
  const CCbarMeson := 27
  const BBbarMeson := 29
  const CharmedBaryon := 32
  const BottomBaryon := 33
  const PionDecay := 34
  const KaonDecay := 35
  const PromptPhot := 37
  const UndrPhot := 38
  const FSRPhot := 40
  const PiZero := 42
  const DiBoson := 43

  function Abs(x: int): nat { if x < 0 then -x else x }

  /** `get_lepton_truth_class` for a present lepton: the first category that holds,
      1 to 10, or -1, -2, -3 or 0 when none does. The mother type is not stored and
      is fixed at 0, so every clause that asks for a mother type can never hold. */
  function TruthClass(t: Truth): (r: int)
    ensures -3 <= r <= 10
  {
    var T := t.mcType;
    var O := t.mcOrigin;
    var MO := t.mcBkgTruthOrigin;
    var MT := 0;
    var M_ID := t.mcBkgMotherPdgId;

    var motherIsEl := Abs(M_ID) == 11;
    var bkgElFromPhoConv := T == BkgElectron && O == PhotonConv;
    var bkgElFromEMProc := T == BkgElectron && O == ElMagProc;
    var fromSMBoson := O == WBoson || O == ZBoson || O == Higgs || O == DiBoson;
    var mFromSMBoson := MO == WBoson || MO == ZBoson || MO == Higgs || MO == DiBoson;

    var promptEl := T == IsoElectron || (bkgElFromPhoConv && motherIsEl) ||
      (bkgElFromEMProc && MT == IsoElectron && (MO == Top || mFromSMBoson));
    var promptElFromFSR := (bkgElFromPhoConv && MO == FSRPhot) || (T == NonIsoPhoton && O == FSRPhot);
    var promptMuon := T == IsoMuon && (O == Top || fromSMBoson || O == HiggsMSSM || O == SUSY);
    var promptPho := (T == IsoPhoton && O == PromptPhot) ||
      (bkgElFromPhoConv && MT == IsoPhoton && MO == PromptPhot) ||
      (bkgElFromEMProc && MT == IsoPhoton && MO == PromptPhot) ||
      (bkgElFromPhoConv && MT == BkgPhoton && MO == UndrPhot) ||
      (T == BkgPhoton && O == UndrPhot);
    var hadDecay := (T == BkgElectron && (O == DalitzDec || O == ElMagProc || O == LightMeson || O == StrangeMeson)) ||
      (bkgElFromPhoConv && MT == BkgPhoton && (MO == PiZero || MO == LightMeson || MO == StrangeMeson)) ||
      (bkgElFromEMProc && ((MT == BkgElectron && MO == StrangeMeson) || (MT == BkgPhoton && MO == PiZero))) ||
      (T == BkgPhoton && (O == LightMeson || O == PiZero)) ||
      (T == BkgMuon && (O == LightMeson || O == StrangeMeson || O == PionDecay || O == KaonDecay)) ||
      T == Hadron;
    var muAsE := ((T == NonIsoElectron || T == NonIsoPhoton) && O == Mu) ||
      (bkgElFromEMProc && MT == NonIsoElectron && MO == Mu) ||
      (bkgElFromPhoConv && MT == NonIsoPhoton && MO == Mu);
    var hfTau := ((T == NonIsoElectron || T == NonIsoPhoton) && O == TauLep) ||
      (bkgElFromPhoConv && MT == NonIsoPhoton && MO == TauLep) ||
      (T == NonIsoMuon && O == TauLep);
    var hfB := (T == NonIsoElectron && (O == BottomMeson || O == BBbarMeson || O == BottomBaryon)) ||
      (T == BkgPhoton && O == BottomMeson) ||
      (bkgElFromPhoConv && MT == BkgPhoton && MO == BottomMeson) ||
      ((T == IsoMuon || T == NonIsoMuon) && (O == BottomMeson || O == BBbarMeson || O == BottomBaryon));
    var hfC := (T == NonIsoElectron && (O == CharmedMeson || O == CharmedBaryon || O == CCbarMeson)) ||
      (T == BkgElectron && O == CCbarMeson) ||
      (T == BkgPhoton && (O == CharmedMeson || O == CCbarMeson)) ||
      (bkgElFromPhoConv && MT == BkgPhoton && (MO == CharmedMeson || MO == CCbarMeson)) ||
      (T == NonIsoMuon && (O == CharmedMeson || O == CharmedBaryon || O == CCbarMeson)) ||
      ((T == IsoMuon || T == BkgMuon) && (O == CCbarMeson || MO == CCbarMeson));

    if promptEl then 1
    else if promptMuon then 2
    else if promptPho then 3
    else if promptElFromFSR then 4
    else if hadDecay then 5
    else if muAsE then 6
    else if hfTau then 7
    else if hfB then 8
    else if hfC then 9
    else if bkgElFromPhoConv then 10
    else if !(T != 0 || O != 0 || MT != 0 || MO != 0 || M_ID != 0) then -1
    else if T != 0 && O != 0 && !(MT != 0 || MO != 0 || M_ID != 0) then -2
    else if T != 0 && O == 0 then -3
    else 0
  }

  /** `get_lepton_truth_class` on a possibly null lepton: `-INT_MAX` for a null one. */
  function LeptonTruthClass(lep: Option<Lepton>): (r: int)
    ensures r == NoValue <==> lep.None?
    ensures lep.Some? ==> -3 <= r <= 10
  {
    if lep.None? then NoValue else TruthClass(lep.value.truth)
  }

  // The categories as they act once the mother type is known to be 0: each clause
  // that needs a nonzero mother type is gone.

  predicate PromptEl(t: Truth)
  {
    t.mcType == IsoElectron ||
    (t.mcType == BkgElectron && t.mcOrigin == PhotonConv && Abs(t.mcBkgMotherPdgId) == 11)
  }

  predicate PromptMuon(t: Truth)
  {
    t.mcType == IsoMuon &&
    t.mcOrigin in {Top, WBoson, ZBoson, Higgs, DiBoson, HiggsMSSM, SUSY}
  }

  predicate PromptPho(t: Truth)
  {
    (t.mcType == IsoPhoton && t.mcOrigin == PromptPhot) || (t.mcType == BkgPhoton && t.mcOrigin == UndrPhot)
  }

  predicate PromptElFromFSR(t: Truth)
  {
    (t.mcType == BkgElectron && t.mcOrigin == PhotonConv && t.mcBkgTruthOrigin == FSRPhot) ||
    (t.mcType == NonIsoPhoton && t.mcOrigin == FSRPhot)
  }

  predicate HadDecay(t: Truth)
  {
    (t.mcType == BkgElectron && t.mcOrigin in {DalitzDec, ElMagProc, LightMeson, StrangeMeson}) ||
    (t.mcType == BkgPhoton && t.mcOrigin in {LightMeson, PiZero}) ||
    (t.mcType == BkgMuon && t.mcOrigin in {LightMeson, StrangeMeson, PionDecay, KaonDecay}) ||
    t.mcType == Hadron
  }

  predicate MuAsE(t: Truth)
  {
    (t.mcType == NonIsoElectron || t.mcType == NonIsoPhoton) && t.mcOrigin == Mu
  }

  predicate HfTau(t: Truth)
  {
    ((t.mcType == NonIsoElectron || t.mcType == NonIsoPhoton || t.mcType == NonIsoMuon) && t.mcOrigin == TauLep)
  }

  predicate HfB(t: Truth)
  {
    ((t.mcType == NonIsoElectron || t.mcType == IsoMuon || t.mcType == NonIsoMuon) &&
     t.mcOrigin in {BottomMeson, BBbarMeson, BottomBaryon}) ||
    (t.mcType == BkgPhoton && t.mcOrigin == BottomMeson)
  }

  predicate HfC(t: Truth)
  {
    ((t.mcType == NonIsoElectron || t.mcType == NonIsoMuon) && t.mcOrigin in {CharmedMeson, CharmedBaryon, CCbarMeson}) ||
    (t.mcType == BkgElectron && t.mcOrigin == CCbarMeson) ||
    (t.mcType == BkgPhoton && t.mcOrigin in {CharmedMeson, CCbarMeson}) ||
    ((t.mcType == IsoMuon || t.mcType == BkgMuon) && (t.mcOrigin == CCbarMeson || t.mcBkgTruthOrigin == CCbarMeson))
  }

  predicate FromPhotonConversion(t: Truth)
  {
    t.mcType == BkgElectron && t.mcOrigin == PhotonConv
  }

  /** Some category 1 to 10 holds. */
  predicate Categorised(t: Truth)
  {
    PromptEl(t) || PromptMuon(t) || PromptPho(t) || PromptElFromFSR(t) || HadDecay(t) ||
    MuAsE(t) || HfTau(t) || HfB(t) || HfC(t) || FromPhotonConversion(t)
  }

  /** The cascade picks the first category that holds, in the order 1 to 10. */
  lemma TruthClassFirstMatch(t: Truth)
    ensures TruthClass(t) == 1 <==> PromptEl(t)
    ensures TruthClass(t) == 2 <==> !PromptEl(t) && PromptMuon(t)
    ensures TruthClass(t) == 3 <==> !PromptEl(t) && !PromptMuon(t) && PromptPho(t)
    ensures TruthClass(t) == 4 <==> !PromptEl(t) && !PromptMuon(t) && !PromptPho(t) && PromptElFromFSR(t)
    ensures TruthClass(t) == 5 <==> !PromptEl(t) && !PromptMuon(t) && !PromptPho(t) && !PromptElFromFSR(t) && HadDecay(t)
    ensures TruthClass(t) == 6 <==> !PromptEl(t) && !PromptMuon(t) && !PromptPho(t) && !PromptElFromFSR(t) && !HadDecay(t) && MuAsE(t)
    ensures TruthClass(t) == 7 <==> !PromptEl(t) && !PromptMuon(t) && !PromptPho(t) && !PromptElFromFSR(t) && !HadDecay(t) && !MuAsE(t) && HfTau(t)
    ensures TruthClass(t) == 8 <==> !PromptEl(t) && !PromptMuon(t) && !PromptPho(t) && !PromptElFromFSR(t) && !HadDecay(t) && !MuAsE(t) && !HfTau(t) && HfB(t)
    ensures TruthClass(t) == 9 <==> !PromptEl(t) && !PromptMuon(t) && !PromptPho(t) && !PromptElFromFSR(t) && !HadDecay(t) && !MuAsE(t) && !HfTau(t) && !HfB(t) && HfC(t)
    ensures TruthClass(t) == 10 <==> !PromptEl(t) && !PromptMuon(t) && !PromptPho(t) && !PromptElFromFSR(t) && !HadDecay(t) && !MuAsE(t) && !HfTau(t) && !HfB(t) && !HfC(t) && FromPhotonConversion(t)
    ensures TruthClass(t) >= 1 <==> Categorised(t)
  {
  }

  /** Without a category the code tells what truth information is missing. */
  lemma TruthClassFallback(t: Truth)
    requires !Categorised(t)
    ensures TruthClass(t) ==
      if t.mcType == 0 && t.mcOrigin == 0 && t.mcBkgTruthOrigin == 0 && t.mcBkgMotherPdgId == 0 then -1
      else if t.mcType != 0 && t.mcOrigin != 0 && t.mcBkgTruthOrigin == 0 && t.mcBkgMotherPdgId == 0 then -2
      else if t.mcType != 0 && t.mcOrigin == 0 then -3
      else 0
  {
    TruthClassFirstMatch(t);
  }

  /** A record with no truth information at all is class -1. */
  lemma NoTruthInfo(t: Truth)
    requires t.mcType == 0 && t.mcOrigin == 0 && t.mcBkgTruthOrigin == 0 && t.mcBkgMotherPdgId == 0
    ensures TruthClass(t) == -1
  {
    TruthClassFirstMatch(t);
    TruthClassFallback(t);
  }

  /** The prompt classes, 1 and 2, are exactly the prompt electrons and muons. */
  lemma PromptClasses(t: Truth)
    ensures TruthClass(t) in {1, 2} <==> PromptEl(t) || PromptMuon(t)
  {
    TruthClassFirstMatch(t);
  }

  // ---------------------------------------------------------------------------
  // Identification and isolation codes

  /** The electron working points, tightest first. */
  function ElectronPoints(e: ElectronFlags): seq<bool>
  {
    [e.tightLLH, e.mediumLLH, e.looseLLHBLayer, e.looseLLH, e.veryLooseLLH]
  }

  /** The `El_ID` code of one electron: the first working point it passes, or 5. */
  function ElectronCode(e: ElectronFlags): (c: int)
    ensures 0 <= c <= 5
    ensures c < 5 ==> ElectronPoints(e)[c] && forall j :: 0 <= j < c ==> !ElectronPoints(e)[j]
    ensures c == 5 <==> forall j :: 0 <= j < 5 ==> !ElectronPoints(e)[j]
  {
    if e.tightLLH then 0
    else if e.mediumLLH then 1
    else if e.looseLLHBLayer then 2
    else if e.looseLLH then 3
    else if e.veryLooseLLH then 4
    else 5
  }

  /** The `El_ID` variable: one code per electron, in order. */
  method ElectronIds(electrons: seq<ElectronFlags>) returns (out: seq<int>)
    ensures |out| == |electrons|
    ensures forall i :: 0 <= i < |out| ==> out[i] == ElectronCode(electrons[i])
  {
    out := [];
    for i := 0 to |electrons|
      invariant |out| == i
      invariant forall k :: 0 <= k < i ==> out[k] == ElectronCode(electrons[k])
    {
      out := out + [ElectronCode(electrons[i])];
    }
  }

  /** The indices at or after `from` of the flags that are set, in ascending order. */
  function SetIndices(flags: seq<bool>, from: nat): (r: seq<int>)
    requires from <= |flags|
    ensures forall i :: 0 <= i < |r| ==> from <= r[i] < |flags| && flags[r[i]]
    ensures forall i, j :: 0 <= i < j < |r| ==> r[i] < r[j]
    ensures forall k :: from <= k < |flags| && flags[k] ==> k in r
    decreases |flags| - from
  {
    if from == |flags| then []
    else if flags[from] then [from] + SetIndices(flags, from + 1)
    else SetIndices(flags, from + 1)
  }

  /** An isolation vector: -1 for every entry, the code of each isolation working point
      passed, in order, and one code past the last when none is. */
  function IsoCodes(flags: seq<bool>): (r: seq<int>)
    ensures |r| >= 2 && r[0] == -1
    ensures forall k :: 0 <= k < |flags| ==> (flags[k] <==> k in r)
    ensures |flags| in r <==> forall k :: 0 <= k < |flags| ==> !flags[k]
    ensures forall i, j :: 0 <= i < j < |r| ==> r[i] < r[j]
    ensures forall i :: 0 <= i < |r| ==> -1 <= r[i] <= |flags|
  {
    var set_ := SetIndices(flags, 0);
    if |set_| == 0 then [-1, |flags|]
    else
      assert set_[0] in set_;
      [-1] + set_
  }

  /** The five working points numbered by `l_iso0` to `l_iso2`. */
  function FiveIsoPoints(f: IsoFlags): seq<bool>
  {
    [f.gradient, f.gradientLoose, f.loose, f.looseTrackOnly, f.fixedCutTightTrackOnly]
  }

  /** The eight working points numbered by the per-lepton `Iso` vector. */
  function EightIsoPoints(f: IsoFlags): seq<bool>
  {
    FiveIsoPoints(f) + [f.fcLoose, f.fcTight, f.fcTightTrackOnly]
  }

  // ---------------------------------------------------------------------------
  // Trigger-matching slots

  /** The present leptons of one flavour, in order. */
  function OfFlavour(leps: seq<Option<Lepton>>, electrons: bool): (r: seq<Lepton>)
    ensures |r| <= |leps|
    ensures forall x :: x in r ==> Some(x) in leps && (if electrons then IsEle(x) else IsMu(x))
  {
    if |leps| == 0 then []
    else
      var init := OfFlavour(leps[..|leps| - 1], electrons);
      var last := leps[|leps| - 1];
      assert forall x :: x in init ==> Some(x) in leps by {
        forall x | x in init ensures Some(x) in leps {
          var k :| 0 <= k < |leps| - 1 && leps[..|leps| - 1][k] == Some(x);
          assert leps[k] == Some(x);
        }
      }
      if last.Some? && (if electrons then IsEle(last.value) else IsMu(last.value)) then init + [last.value]
      else init
  }

  function At(s: seq<Lepton>, i: nat): Option<Lepton>
  {
    if i < |s| then Some(s[i]) else None
  }

  /** The dilepton trigger slots: the first two electrons fill `el0` then `el1`, the
      first two muons `mu0` then `mu1`; absent leptons are passed over and further
      leptons of a flavour are ignored. */
  method TriggerSlots(leps: seq<Option<Lepton>>) returns (el0: Option<Lepton>, el1: Option<Lepton>,
                                                          mu0: Option<Lepton>, mu1: Option<Lepton>)
    ensures el0 == At(OfFlavour(leps, true), 0) && el1 == At(OfFlavour(leps, true), 1)
    ensures mu0 == At(OfFlavour(leps, false), 0) && mu1 == At(OfFlavour(leps, false), 1)
  {
    el0, el1, mu0, mu1 := None, None, None, None;
    ghost var es, ms := [], [];
    for i := 0 to |leps|
      invariant es == OfFlavour(leps[..i], true) && ms == OfFlavour(leps[..i], false)
      invariant el0 == At(es, 0) && el1 == At(es, 1)
      invariant mu0 == At(ms, 0) && mu1 == At(ms, 1)
    {
      OfFlavourStep(leps, i, true);
      OfFlavourStep(leps, i, false);
      var lep := leps[i];
      if lep.None? {
        continue;
      }
      if IsEle(lep.value) {
        FirstTwoSnoc(es, lep.value);
        es := es + [lep.value];
        if el0.None? {
          el0 := lep;
        } else if el1.None? {
          el1 := lep;
        }
      } else if IsMu(lep.value) {
        FirstTwoSnoc(ms, lep.value);
        ms := ms + [lep.value];
        if mu0.None? {
          mu0 := lep;
        } else if mu1.None? {
          mu1 := lep;
        }
      }
    }
    TakeAll(leps);
  }

  /** Appending a lepton fills the first empty one of the two leading slots. */
  lemma FirstTwoSnoc(s: seq<Lepton>, x: Lepton)
    ensures At(s + [x], 0) == if At(s, 0).None? then Some(x) else At(s, 0)
    ensures At(s + [x], 1) == if At(s, 0).None? then None else if At(s, 1).None? then Some(x) else At(s, 1)
  {
  }

  /** One more slot extends the selection of a flavour by that slot's lepton, when it
      is present and of that flavour. */
  lemma OfFlavourStep(leps: seq<Option<Lepton>>, i: nat, electrons: bool)
    requires i < |leps|
    ensures OfFlavour(leps[..i + 1], electrons)
            == if leps[i].Some? && (if electrons then IsEle(leps[i].value) else IsMu(leps[i].value))
               then OfFlavour(leps[..i], electrons) + [leps[i].value]
               else OfFlavour(leps[..i], electrons)
  {
    TakeSnoc(leps, i);
  }

  // ---------------------------------------------------------------------------
  // Dilepton flavour and charge

  /** `dilep_flav`: e-mu 0, mu-e 1, ee 2, mumu 3, anything else 4; `-INT_MAX` with fewer
      than two leptons. */
  function DilepFlav(leps: seq<Lepton>): (r: int)
    ensures |leps| < 2 <==> r == NoValue
    ensures |leps| >= 2 ==> 0 <= r <= 4
    ensures |leps| >= 2 ==> (r == 0 <==> IsEle(leps[0]) && IsMu(leps[1]))
    ensures |leps| >= 2 ==> (r == 1 <==> IsMu(leps[0]) && IsEle(leps[1]))
    ensures |leps| >= 2 ==> (r == 2 <==> IsEle(leps[0]) && IsEle(leps[1]))
    ensures |leps| >= 2 ==> (r == 3 <==> IsMu(leps[0]) && IsMu(leps[1]))
    ensures |leps| >= 2 ==> (r == 4 <==> leps[0].flavour.Neither? || leps[1].flavour.Neither?)
  {
    if |leps| < 2 then NoValue
    else if IsEle(leps[0]) && IsMu(leps[1]) then 0
    else if IsMu(leps[0]) && IsEle(leps[1]) then 1
    else if IsEle(leps[0]) && IsEle(leps[1]) then 2
    else if IsMu(leps[0]) && IsMu(leps[1]) then 3
    else 4
  }

  /** The SFOS cut: same flavour (electron or not), opposite charge. */
  predicate Sfos(leps: seq<Lepton>)
    requires |leps| >= 2
  {
    IsEle(leps[0]) == IsEle(leps[1]) && leps[0].q != leps[1].q
  }

  /** The DFOS cut: different flavour (electron or not), opposite charge. */
  predicate Dfos(leps: seq<Lepton>)
    requires |leps| >= 2
  {
    IsEle(leps[0]) != IsEle(leps[1]) && leps[0].q != leps[1].q
  }

  /** On electron and muon pairs the cuts split the opposite-sign events by the
      flavour code: SFOS takes ee and mumu, DFOS takes e-mu and mu-e. */
  lemma CutsAgreeWithFlavour(leps: seq<Lepton>)
    requires |leps| >= 2
    requires (IsEle(leps[0]) || IsMu(leps[0])) && (IsEle(leps[1]) || IsMu(leps[1]))
    ensures Sfos(leps) <==> leps[0].q != leps[1].q && DilepFlav(leps) in {2, 3}
    ensures Dfos(leps) <==> leps[0].q != leps[1].q && DilepFlav(leps) in {0, 1}
    ensures !(Sfos(leps) && Dfos(leps))
  {
  }
}
