/** The lepton bookkeeping behind the fake-factor friend tree: the truth and
    reconstruction statuses, the `leptonProperties` record and the tree helper that
    builds the lepton list of one event from the branches and caches it. */
module FakeFactor {
  import Leptons
  import opened Seqs

  // ---------------------------------------------------------------------------
  // Statuses

  datatype TruthStatus = TruthUndefined | Prompt | Fake
  datatype RecoStatus = RecoUndefined | ID | AntiID | Other

  /** `toString(TruthStatus)`. */
  function TruthLabel(s: TruthStatus): (r: string)
    ensures r == "Undefined" <==> s == TruthUndefined
    ensures r == "Prompt" <==> s == Prompt
    ensures r == "Fake" <==> s == Fake
  {
    match s
    case TruthUndefined => "Undefined"
    case Prompt => "Prompt"
    case Fake => "Fake"
  }

  /** `toString(RecoStatus)`. */
  function RecoLabel(s: RecoStatus): (r: string)
    ensures r == "Undefined" <==> s == RecoUndefined
    ensures r == "ID" <==> s == ID
    ensures r == "Anti-ID" <==> s == AntiID
    ensures r == "Other" <==> s == Other
  {
    match s
    case RecoUndefined => "Undefined"
    case ID => "ID"
    case AntiID => "Anti-ID"
    case Other => "Other"
  }

  /** Each label names one status. */
  lemma LabelsDistinct(a: TruthStatus, b: TruthStatus, c: RecoStatus, d: RecoStatus)
    ensures TruthLabel(a) == TruthLabel(b) ==> a == b
    ensures RecoLabel(c) == RecoLabel(d) ==> c == d
  {
  }

  // ---------------------------------------------------------------------------
  // leptonProperties

  /** One lepton as the fake tool sees it; `isEle` false means a muon. */
  datatype LeptonProperties = LeptonProperties(isEle: bool, pt: real, eta: real, phi: real, m: real,
                                               q: int, recoStatus: RecoStatus, truthStatus: TruthStatus)

  /** `leptonProperties::clear`: every field back to its placeholder. */
  function Cleared(lp: LeptonProperties): (r: LeptonProperties)
    ensures !r.isEle && r.recoStatus == RecoUndefined && r.truthStatus == TruthUndefined
    ensures r.pt == r.eta == r.phi == r.m == -99.0 && r.q == -99
  {
    LeptonProperties(false, -99.0, -99.0, -99.0, -99.0, -99, RecoUndefined, TruthUndefined)
  }

  /** The leptons that are handed to the fake tool: those with status ID or anti-ID. */
  predicate ForTool(lp: LeptonProperties)
  {
    lp.recoStatus == ID || lp.recoStatus == AntiID
  }

  /** The fake-tool input of a lepton list, in order. */
  function ToolInput(leps: seq<LeptonProperties>): (r: seq<LeptonProperties>)
    ensures |r| <= |leps|
  {
    if leps == [] then []
    else (if ForTool(leps[0]) then [leps[0]] else []) + ToolInput(leps[1..])
  }

  /** The fake tool gets every ID and anti-ID lepton, as often as it occurs, and nothing
      else. */
  lemma {:induction false} ToolInputCounts(leps: seq<LeptonProperties>, lp: LeptonProperties)
    ensures multiset(ToolInput(leps))[lp] == if ForTool(lp) then multiset(leps)[lp] else 0
  {
    if leps != [] {
      assert leps == [leps[0]] + leps[1..];
      ToolInputCounts(leps[1..], lp);
    }
  }

  lemma {:induction false} ToolInputAppend(a: seq<LeptonProperties>, b: seq<LeptonProperties>)
    ensures ToolInput(a + b) == ToolInput(a) + ToolInput(b)
  {
    if a != [] {
      assert (a + b)[0] == a[0];
      assert (a + b)[1..] == a[1..] + b;
      ToolInputAppend(a[1..], b);
      var h := if ForTool(a[0]) then [a[0]] else [];
      calc {
        ToolInput(a + b);
        h + ToolInput(a[1..] + b);
        h + (ToolInput(a[1..]) + ToolInput(b));
        (h + ToolInput(a[1..])) + ToolInput(b);
      }
    } else {
      assert a + b == b;
    }
  }

  /** `all_prompt`, as a property of the list. */
  predicate AllPrompt(leps: seq<LeptonProperties>)
  {
    forall lp :: lp in leps ==> lp.truthStatus == Prompt
  }

  /** A cleared lepton is never handed to the fake tool and never counts as prompt. */
  lemma ClearedIsInert(lp: LeptonProperties)
    ensures ToolInput([Cleared(lp)]) == []
    ensures !AllPrompt([Cleared(lp)])
  {
    assert Cleared(lp) in [Cleared(lp)];
  }

  // ---------------------------------------------------------------------------
  // TreeHelper

  /** The branches of one input lepton; `m` is the invariant mass the four-vector
      built from (pt, eta, phi, E) yields. */
  datatype BranchLepton = BranchLepton(flav: int, pt: real, eta: real, phi: real, m: real,
                                       q: int, truthClass: int)

  /** The branches of one entry of the input tree. */
  datatype Branches = Branches(eventNumber: int, isMC: bool, nSigLeps: int, nInvLeps: int,
                               lep1: BranchLepton, lep2: BranchLepton,
                               probeLep1: BranchLepton, probeLep2: BranchLepton)

  /** `get_truth_status`: classes 1 and 2 (prompt electron, prompt muon) are prompt,
      everything else is fake. */
  function GetTruthStatus(truthClass: int): (r: TruthStatus)
    ensures r == Prompt <==> truthClass == 1 || truthClass == 2
    ensures r != TruthUndefined
  {
    if truthClass == 1 || truthClass == 2 then Prompt else Fake
  }

  /** A lepton whose truth class comes from the MCTruthClassifier cascade is prompt
      exactly when it is a prompt electron or a prompt muon. */
  lemma PromptIffPromptClass(t: Leptons.Truth)
    ensures GetTruthStatus(Leptons.TruthClass(t)) == Prompt <==> Leptons.PromptEl(t) || Leptons.PromptMuon(t)
  {
    Leptons.PromptClasses(t);
  }

  /** `BUILD_LEPTON` followed by the assignment of the reconstruction status. */
  function BuildLepton(bl: BranchLepton, isMC: bool, status: RecoStatus): (r: LeptonProperties)
    ensures r.isEle <==> bl.flav == 0
    ensures (r.pt, r.eta, r.phi, r.m, r.q) == (bl.pt, bl.eta, bl.phi, bl.m, bl.q)
    ensures r.recoStatus == status
    ensures r.truthStatus == TruthUndefined <==> !isMC
    ensures isMC ==> (r.truthStatus == Prompt <==> bl.truthClass in {1, 2})
  {
    LeptonProperties(bl.flav == 0, bl.pt, bl.eta, bl.phi, bl.m, bl.q, status,
                     if isMC then GetTruthStatus(bl.truthClass) else TruthUndefined)
  }

  /** A count clamped to 0..4, as the nested `if`s of `build_leptons` allow. */
  function Clamp4(n: int): (c: nat)
    ensures c <= 4 && (0 <= n <= 4 ==> c == n) && (n < 0 ==> c == 0) && (n > 4 ==> c == 4)
  {
    if n < 0 then 0 else if n > 4 then 4 else n
  }

  /** The ID-derived entries: the two signal leptons with status ID, then the first probe
      lepton with the status its never-assigned field happens to hold (`third`), then
      that same entry again. */
  function IdEntries(b: Branches, third: RecoStatus): (r: seq<LeptonProperties>)
    ensures |r| == Clamp4(b.nSigLeps)
    ensures |r| > 0 ==> r[0] == BuildLepton(b.lep1, b.isMC, ID)
    ensures |r| > 1 ==> r[1] == BuildLepton(b.lep2, b.isMC, ID)
    ensures |r| > 2 ==> r[2] == BuildLepton(b.probeLep1, b.isMC, third)
    ensures |r| > 3 ==> r[3] == r[2]
  {
    var e1 := if b.nSigLeps > 0 then [BuildLepton(b.lep1, b.isMC, ID)] else [];
    var e2 := if b.nSigLeps > 1 then [BuildLepton(b.lep2, b.isMC, ID)] else [];
    var e3 := if b.nSigLeps > 2 then [BuildLepton(b.probeLep1, b.isMC, third)] else [];
    var e4 := if b.nSigLeps > 3 then e3 else [];
    e1 + e2 + e3 + e4
  }

  /** The anti-ID entries: the two probe leptons with status anti-ID, then the second one
      again, once or twice. */
  function AntiEntries(b: Branches): (r: seq<LeptonProperties>)
    ensures |r| == Clamp4(b.nInvLeps)
    ensures |r| > 0 ==> r[0] == BuildLepton(b.probeLep1, b.isMC, AntiID)
    ensures forall k :: 1 <= k < |r| ==> r[k] == BuildLepton(b.probeLep2, b.isMC, AntiID)
  {
    var a1 := if b.nInvLeps > 0 then [BuildLepton(b.probeLep1, b.isMC, AntiID)] else [];
    var a2 := if b.nInvLeps > 1 then [BuildLepton(b.probeLep2, b.isMC, AntiID)] else [];
    var a3 := if b.nInvLeps > 2 then a2 else [];
    var a4 := if b.nInvLeps > 3 then a2 else [];
    a1 + a2 + a3 + a4
  }

  /** What `build_leptons` appends: all ID-derived entries before all anti-ID entries. */
  function Built(b: Branches, third: RecoStatus): (r: seq<LeptonProperties>)
    ensures |r| == Clamp4(b.nSigLeps) + Clamp4(b.nInvLeps)
    ensures r[..Clamp4(b.nSigLeps)] == IdEntries(b, third)
    ensures r[Clamp4(b.nSigLeps)..] == AntiEntries(b)
  {
    IdEntries(b, third) + AntiEntries(b)
  }

  /** Every built lepton of a data event has an undefined truth status, so a data event
      with leptons is never all prompt. */
  lemma DataHasNoTruth(b: Branches, third: RecoStatus)
    requires !b.isMC
    ensures forall lp :: lp in Built(b, third) ==> lp.truthStatus == TruthUndefined
    ensures AllPrompt(Built(b, third)) <==> Built(b, third) == []
  {
    var ids, antis := IdEntries(b, third), AntiEntries(b);
    var built := Built(b, third);
    assert built == ids + antis;
    EntriesNoTruth(b, third);
    forall k | 0 <= k < |built| ensures built[k].truthStatus == TruthUndefined {
      if k < |ids| {
        assert built[k] == ids[k];
      } else {
        assert built[k] == antis[k - |ids|];
      }
    }
    NoTruthNotPrompt(built);
  }

  /** A data event's entries carry no truth status. */
  lemma EntriesNoTruth(b: Branches, third: RecoStatus)
    requires !b.isMC
    ensures forall k :: 0 <= k < |IdEntries(b, third)| ==> IdEntries(b, third)[k].truthStatus == TruthUndefined
    ensures forall k :: 0 <= k < |AntiEntries(b)| ==> AntiEntries(b)[k].truthStatus == TruthUndefined
  {
    var ids, antis := IdEntries(b, third), AntiEntries(b);
    forall k | 0 <= k < |ids| ensures ids[k].truthStatus == TruthUndefined {
      var bl := if k == 0 then b.lep1 else if k == 1 then b.lep2 else b.probeLep1;
      var st := if k < 2 then ID else third;
      assert ids[k] == BuildLepton(bl, b.isMC, st);
    }
    forall k | 0 <= k < |antis| ensures antis[k].truthStatus == TruthUndefined {
      var bl := if k == 0 then b.probeLep1 else b.probeLep2;
      assert antis[k] == BuildLepton(bl, b.isMC, AntiID);
    }
  }

  /** The ID entries for each signal-lepton count. */
  lemma IdEntriesCases(b: Branches, third: RecoStatus)
    ensures var l1, l2, l3 := BuildLepton(b.lep1, b.isMC, ID), BuildLepton(b.lep2, b.isMC, ID),
                              BuildLepton(b.probeLep1, b.isMC, third);
      IdEntries(b, third) ==
        if b.nSigLeps <= 0 then [] else if b.nSigLeps == 1 then [l1] else if b.nSigLeps == 2 then [l1, l2]
        else if b.nSigLeps == 3 then [l1, l2, l3] else [l1, l2, l3, l3]
  {
  }

  /** The anti-ID entries for each inverted-lepton count. */
  lemma AntiEntriesCases(b: Branches)
    ensures var a1, a2 := BuildLepton(b.probeLep1, b.isMC, AntiID), BuildLepton(b.probeLep2, b.isMC, AntiID);
      AntiEntries(b) ==
        if b.nInvLeps <= 0 then [] else if b.nInvLeps == 1 then [a1] else if b.nInvLeps == 2 then [a1, a2]
        else if b.nInvLeps == 3 then [a1, a2, a2] else [a1, a2, a2, a2]
  {
  }

  lemma NoTruthNotPrompt(leps: seq<LeptonProperties>)
    requires forall k :: 0 <= k < |leps| ==> leps[k].truthStatus == TruthUndefined
    ensures forall lp :: lp in leps ==> lp.truthStatus == TruthUndefined
    ensures AllPrompt(leps) <==> leps == []
  {
    if leps != [] {
      assert leps[0] in leps;
    }
  }

  /** Whether the third ID entry reaches the fake tool depends only on the status it
      happens to hold: the fake tool sees the two signal leptons, the third entry (twice
      with four or more signal leptons) only when that status is ID or anti-ID, and every
      anti-ID entry. */
  lemma ToolInputOfBuilt(b: Branches, third: RecoStatus)
    ensures var ids := IdEntries(b, third);
            var n := if |ids| < 2 then |ids| else 2;
            ToolInput(Built(b, third)) ==
              ids[..n] + (if third == ID || third == AntiID then ids[n..] else []) + AntiEntries(b)
  {
    var ids, antis := IdEntries(b, third), AntiEntries(b);
    var n := if |ids| < 2 then |ids| else 2;
    var head, tail := ids[..n], ids[n..];
    TakeDrop(ids, n);
    assert Built(b, third) == ids + antis;
    ToolInputAppend(ids, antis);
    ToolInputAppend(head, tail);
    IdEntriesForTool(b, third);
    AntiEntriesForTool(b);
  }

  /** The first two ID entries, of status ID, all reach the fake tool; the later ones
      reach it exactly when `third` is ID or anti-ID. */
  lemma IdEntriesForTool(b: Branches, third: RecoStatus)
    ensures var ids := IdEntries(b, third);
      var n := if |ids| < 2 then |ids| else 2;
      ToolInput(ids[..n]) == ids[..n] &&
      ToolInput(ids[n..]) == if third == ID || third == AntiID then ids[n..] else []
  {
    var ids := IdEntries(b, third);
    var n := if |ids| < 2 then |ids| else 2;
    var head, tail := ids[..n], ids[n..];
    assert forall k :: 0 <= k < |head| ==> ForTool(head[k]);
    forall k | 0 <= k < |tail| ensures tail[k].recoStatus == third {
      assert tail[k] == ids[n + k];
    }
    AllForTool(head);
    if third == ID || third == AntiID {
      AllForTool(tail);
    } else {
      NoneForTool(tail);
    }
  }

  /** Every anti-ID entry reaches the fake tool. */
  lemma AntiEntriesForTool(b: Branches)
    ensures ToolInput(AntiEntries(b)) == AntiEntries(b)
  {
    AllForTool(AntiEntries(b));
  }

  /** As written: with three signal leptons and a third entry that happens to hold an
      undefined status, the fake tool sees one lepton fewer than was built. */
  lemma ThirdIdEntryCanBeDropped(b: Branches)
    requires b.nSigLeps == 3
    ensures |ToolInput(Built(b, RecoUndefined))| == |Built(b, RecoUndefined)| - 1
  {
    ToolInputOfBuilt(b, RecoUndefined);
  }

  /** The evident intent, the third and fourth ID entries marked ID like the first two:
      every built lepton reaches the fake tool. */
  function IntendedBuilt(b: Branches): (r: seq<LeptonProperties>)
    ensures ToolInput(r) == r
    ensures |r| == Clamp4(b.nSigLeps) + Clamp4(b.nInvLeps)
  {
    ToolInputOfBuilt(b, ID);
    var ids := IdEntries(b, ID);
    var n := if |ids| < 2 then |ids| else 2;
    assert ids == ids[..n] + ids[n..];
    Built(b, ID)
  }

  lemma {:induction false} AllForTool(leps: seq<LeptonProperties>)
    requires forall k :: 0 <= k < |leps| ==> ForTool(leps[k])
    ensures ToolInput(leps) == leps
  {
    if leps != [] {
      AllForTool(leps[1..]);
    }
  }

  lemma {:induction false} NoneForTool(leps: seq<LeptonProperties>)
    requires forall k :: 0 <= k < |leps| ==> !ForTool(leps[k])
    ensures ToolInput(leps) == []
  {
    if leps != [] {
      NoneForTool(leps[1..]);
    }
  }

  /** The tree helper: the branch values of the current entry and the cached lepton
      list of that entry. */
  class TreeHelper {
    var branches: Branches
    var cache: seq<LeptonProperties>

    constructor ()
      ensures cache == []
    {
      cache := [];
    }

    /** Reading an entry of the tree overwrites the branch values only. */
    method GetEntry(b: Branches)
      modifies this
      ensures branches == b && cache == old(cache)
    {
      branches := b;
    }

    /** `clear`: empties the cache, so the next `Leptons` call rebuilds it. */
    method Clear()
      modifies this
      ensures cache == [] && branches == old(branches)
    {
      cache := [];
    }

    /** `build_leptons`: appends the entries the lepton counts call for; `third` is the
        status the third ID entry holds, which the code never assigns. */
    method BuildLeptons(third: RecoStatus)
      modifies this
      ensures branches == old(branches)
      ensures cache == old(cache) + Built(branches, third)
    {
      PushIdLeptons(third);
      PushAntiIdLeptons();
      JoinAssoc(old(cache), IdEntries(branches, third), AntiEntries(branches));
    }

    /** The first half of `build_leptons`, driven by `nSigLeps`. */
    method PushIdLeptons(third: RecoStatus)
      modifies this
      ensures branches == old(branches)
      ensures cache == old(cache) + IdEntries(branches, third)
    {
      var b := branches;
      if b.nSigLeps > 0 {
        cache := cache + [BuildLepton(b.lep1, b.isMC, ID)];
      }
      if b.nSigLeps > 1 {
        cache := cache + [BuildLepton(b.lep2, b.isMC, ID)];
      }
      if b.nSigLeps > 2 {
        var idLep3 := BuildLepton(b.probeLep1, b.isMC, third);
        cache := cache + [idLep3];
        if b.nSigLeps > 3 {
          cache := cache + [idLep3];
        }
      }
      IdEntriesCases(b, third);
    }

    /** The second half of `build_leptons`, driven by `nInvLeps`. */
    method PushAntiIdLeptons()
      modifies this
      ensures branches == old(branches)
      ensures cache == old(cache) + AntiEntries(branches)
    {
      var b := branches;
      if b.nInvLeps > 0 {
        cache := cache + [BuildLepton(b.probeLep1, b.isMC, AntiID)];
      }
      if b.nInvLeps > 1 {
        var antiLep2 := BuildLepton(b.probeLep2, b.isMC, AntiID);
        cache := cache + [antiLep2];
        if b.nInvLeps > 2 {
          cache := cache + [antiLep2];
        }
        if b.nInvLeps > 3 {
          cache := cache + [antiLep2];
        }
      }
      AntiEntriesCases(b);
    }

    /** `leptons`: builds the list only when the cache is empty and returns a copy of the
        cache, so repeated calls without `Clear` neither rebuild nor duplicate. */
    method Leptons(third: RecoStatus) returns (r: seq<LeptonProperties>)
      modifies this
      ensures branches == old(branches)
      ensures old(cache) == [] ==> cache == Built(branches, third)
      ensures old(cache) != [] ==> cache == old(cache)
      ensures r == cache
    {
      if |cache| == 0 {
        BuildLeptons(third);
      }
      r := cache;
    }
  }

  /** Cached lepton lists only ever come from `build_leptons`: starting from an empty
      cache, two `Leptons` calls with no `Clear` between them return the same list, the
      one built from the branches at the first call. */
  method LeptonsTwice(h: TreeHelper, t1: RecoStatus, t2: RecoStatus) returns (r1: seq<LeptonProperties>, r2: seq<LeptonProperties>)
    requires h.cache == []
    modifies h
    ensures r1 == Built(old(h.branches), t1)
    ensures r1 != [] ==> r2 == r1
    ensures r1 == [] ==> r2 == Built(old(h.branches), t2)
  {
    r1 := h.Leptons(t1);
    r2 := h.Leptons(t2);
  }
}
