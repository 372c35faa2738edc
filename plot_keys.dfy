/** The histogram-key bookkeeping of the fake-factor plot looper: the numerator and
    denominator name helpers, the consistency check of the configured regions and the
    `KeyManager` registry, which invents a key for each histogram and remembers which
    role it plays. */
module PlotKeys {
  import opened Wrappers
  import opened Strs

  /** The configured channel tags `NUM_STR` and `DEN_STR`. */
  datatype Conf = Conf(numStr: string, denStr: string)

  // ---------------------------------------------------------------------------
  // Name helpers

  /** `remove_num_den`: delete both tags, collapse doubled underscores in one pass and
      drop at most one trailing and one leading underscore. */
  function RemoveNumDen(name: string, conf: Conf): (r: string)
    ensures |r| <= |Replace(Replace(name, conf.numStr, ""), conf.denStr, "")|
  {
    var a := Replace(Replace(name, conf.numStr, ""), conf.denStr, "");
    var b := Replace(a, "__", "_");
    ReplaceShrinks(a, "__", "_");
    var c := if |b| > 0 && b[|b| - 1] == '_' then b[..|b| - 1] else b;
    if |c| > 0 && c[0] == '_' then c[1..] else c
  }

  /** Replacing a pattern by a shorter string never lengthens the text. */
  lemma {:induction false} ReplaceShrinks(s: string, p: string, r: string)
    requires |p| > 0 && |r| <= |p|
    ensures |Replace(s, p, r)| <= |s|
    decreases |s|
  {
    if |s| >= |p| {
      if p <= s {
        ReplaceShrinks(s[|p|..], p, r);
      } else {
        ReplaceShrinks(s[1..], p, r);
      }
    }
  }

  /** A name that holds neither tag, no doubled underscore and no underscore at either
      end is its own stripped name. */
  lemma RemoveNumDenPlain(name: string, conf: Conf)
    requires |conf.numStr| > 0 && |conf.denStr| > 0
    requires !Contains(name, conf.numStr) && !Contains(name, conf.denStr) && !Contains(name, "__")
    requires name == [] || (name[0] != '_' && name[|name| - 1] != '_')
    ensures RemoveNumDen(name, conf) == name
  {
    ReplaceAbsent(name, conf.numStr, "");
    ReplaceAbsent(name, conf.denStr, "");
    ReplaceAbsent(name, "__", "_");
  }

  /** A sample named `<base>_<tag>` for either channel tag is stored under `<base>`. */
  lemma RemoveNumDenTagged(base: string, tag: string, conf: Conf)
    requires |conf.numStr| > 0 && |conf.denStr| > 0 && (tag == conf.numStr || tag == conf.denStr)
    requires |base| > 0 && base[0] != '_'
    requires !Contains(base + "_", conf.numStr) && !Contains(base + "_", conf.denStr)
    requires !Contains(base + "_", "__")
    requires NoStraddle(base + "_", tag, tag)
    requires tag != conf.numStr ==> !Contains(base + "_" + tag, conf.numStr)
    ensures RemoveNumDen(base + "_" + tag, conf) == base
  {
    var head := base + "_";
    ReplaceAppend(head, tag, tag, "");
    ReplaceAbsent(head, tag, "");
    assert Replace(tag, tag, "") == "" by {
      assert tag <= tag;
      assert tag[|tag|..] == [];
    }
    assert Replace(head + tag, tag, "") == head;
    if tag == conf.numStr {
      ReplaceAbsent(head, conf.denStr, "");
    } else {
      ReplaceAbsent(head + tag, conf.numStr, "");
    }
    assert Replace(Replace(head + tag, conf.numStr, ""), conf.denStr, "") == head;
    ReplaceAbsent(head, "__", "_");
    assert head[..|head| - 1] == base;
  }

  /** `get_fake_channel`: the denominator tag when the region name holds it, else the
      numerator tag. */
  function FakeChannel(regionName: string, conf: Conf): (r: string)
    ensures r == conf.denStr || r == conf.numStr
    ensures Contains(regionName, conf.denStr) ==> r == conf.denStr
    ensures !Contains(regionName, conf.denStr) ==> r == conf.numStr
  {
    if Contains(regionName, conf.denStr) then conf.denStr else conf.numStr
  }

  /** A region named after the denominator tag is a denominator region. */
  lemma ChannelOfDenRegion(prefix: string, suffix: string, conf: Conf)
    ensures FakeChannel(prefix + conf.denStr + suffix, conf) == conf.denStr
  {
    ContainsWhole(conf.denStr);
    ContainsAppend(prefix, conf.denStr, conf.denStr);
    ContainsAppend(prefix + conf.denStr, suffix, conf.denStr);
  }

  lemma {:induction false} ContainsWhole(p: string)
    ensures Contains(p, p)
  {
    assert p <= p;
  }

  // ---------------------------------------------------------------------------
  // check_import_globals

  /** The names in `names` that hold `tag`, in order. */
  function WithTag(names: seq<string>, tag: string): (r: seq<string>)
    ensures |r| <= |names|
    ensures forall n :: n in r <==> n in names && Contains(n, tag)
    ensures forall n :: multiset(r)[n] == if Contains(n, tag) then multiset(names)[n] else 0
  {
    if names == [] then []
    else
      assert names == [names[0]] + names[1..];
      (if Contains(names[0], tag) then [names[0]] else []) + WithTag(names[1..], tag)
  }

  /** Every name with `tag` deleted. */
  function DeleteTag(names: seq<string>, tag: string): (r: seq<string>)
    ensures |r| == |names|
    ensures forall k :: 0 <= k < |names| ==> r[k] == Replace(names[k], tag, "")
  {
    if names == [] then [] else [Replace(names[0], tag, "")] + DeleteTag(names[1..], tag)
  }

  /** Which of the assertions of `check_import_globals` fails first. */
  datatype CheckFailure = NonFakeRegion | CountMismatch | NamesMismatch

  /** `check_import_globals` over the regions of the configured plots. */
  function CheckImportGlobals(regionNames: seq<string>, conf: Conf): (r: Option<CheckFailure>)
    ensures r == Some(NonFakeRegion) <==>
      exists n :: n in regionNames && !Contains(n, conf.numStr) && !Contains(n, conf.denStr)
    ensures r == None <==>
      (forall n :: n in regionNames ==> Contains(n, conf.numStr) || Contains(n, conf.denStr))
      && multiset(DeleteTag(WithTag(regionNames, conf.numStr), conf.numStr))
         == multiset(DeleteTag(WithTag(regionNames, conf.denStr), conf.denStr))
  {
    var num := WithTag(regionNames, conf.numStr);
    var den := WithTag(regionNames, conf.denStr);
    var numNames := DeleteTag(num, conf.numStr);
    var denNames := DeleteTag(den, conf.denStr);
    if exists n :: n in regionNames && !Contains(n, conf.numStr) && !Contains(n, conf.denStr) then
      Some(NonFakeRegion)
    else if |num| != |den| then
      assert |multiset(numNames)| != |multiset(denNames)|;
      Some(CountMismatch)
    else if Sorted(numNames) != Sorted(denNames) then
      assert multiset(numNames) != multiset(denNames) by {
        if multiset(numNames) == multiset(denNames) {
          SortedUnique(Sorted(numNames), Sorted(denNames));
        }
      }
      Some(NamesMismatch)
    else
      None
  }

  // ---------------------------------------------------------------------------
  // KeyManager

  const BkgMcStr := "MC_probe_lep_prompt"
  const FakeMcStr := "MC_probe_lep_fake"
  const FakeMcSysScaleStr := "MC_probe_lep_fake_scaled"
  const PromptMcSysUpStr := "MC_probe_lep_prompt_shifted_up"
  const PromptMcSysDnStr := "MC_probe_lep_prompt_shifted_dn"

  /** One histogram family of a `KeyManager` (`mc`, `mc_truth_bkg`, `mc_truth_fake` or
      `mc_truth_fake_sys`): the key of its stack, the key of each sample's histogram by
      sample name, and the key of its total. `None` is an unset attribute. */
  datatype Family = Family(stack: Option<string>, stackHists: map<string, string>, hist: Option<string>)

  const EmptyFamily := Family(None, map[], None)

  /** The data histograms: nominal, background-subtracted, composition systematic and the
      two prompt shifts. */
  datatype DataSlots = DataSlots(hist: Option<string>, corr: Option<string>, compSys: Option<string>,
                                 promptSysUp: Option<string>, promptSysDn: Option<string>)

  /** The attributes only the generators create (`mc_bkgd_sys_*_hist`,
      `mc_prompt_sys_*_key`); no test and no list reads them. */
  datatype Created = Created(mcBkgdSysUpHist: Option<string>, mcBkgdSysDnHist: Option<string>,
                             mcPromptSysUpKey: Option<string>, mcPromptSysDnKey: Option<string>)

  /** The state of a `KeyManager`. */
  datatype Registry = Registry(
    mc: Family, truthBkg: Family, truthFake: Family, truthFakeSys: Family,
    truthBkgSysUpHist: Option<string>, truthBkgSysDnHist: Option<string>,
    data: DataSlots, fakeFactorKeys: map<string, string>, created: Created)

  /** The slots that hold a key (Python keeps the truthy ones), in order. */
  function Present(slots: seq<Option<string>>): (r: seq<string>)
    ensures |r| <= |slots|
    ensures forall k :: k in r <==> Some(k) in slots && k != ""
  {
    if slots == [] then []
    else (if slots[0].Some? && slots[0].value != "" then [slots[0].value] else []) + Present(slots[1..])
  }

  /** The non-empty values of a dictionary; the order Python lists them in is not part of
      the model. */
  function TruthyValues(m: map<string, string>): (r: set<string>)
    ensures forall k :: k in r <==> k in m.Values && k != ""
  {
    set v | v in m.Values && v != ""
  }

  function DataSlotList(d: DataSlots): seq<Option<string>>
  {
    [d.hist, d.corr, d.compSys, d.promptSysUp, d.promptSysDn]
  }

  /** `get_data_keys`. */
  function DataKeys(g: Registry): seq<string>
  {
    Present(DataSlotList(g.data))
  }

  function StackSlotList(g: Registry): seq<Option<string>>
  {
    [g.mc.stack, g.truthBkg.stack, g.truthFake.stack, g.truthFakeSys.stack]
  }

  /** `get_stack_keys`. */
  function StackKeys(g: Registry): seq<string>
  {
    Present(StackSlotList(g))
  }

  /** `get_total_mc_hist_keys`. */
  function TotalMcHistKeys(g: Registry): seq<string>
  {
    Present([g.mc.hist, g.truthBkg.hist, g.truthFake.hist, g.truthFakeSys.hist])
  }

  /** `get_raw_mc_keys`, `get_truth_bkg_keys`, `get_truth_fake_keys` and
      `get_truth_fake_comp_sys_keys` of a family: its histograms, its stack and its total. */
  function FamilyKeys(f: Family): set<string>
  {
    TruthyValues(f.stackHists) + set k | k in Present([f.stack, f.hist])
  }

  /** `get_fake_factor_input_keys`: the data keys followed by the fake MC totals. */
  function FakeFactorInputKeys(g: Registry): (r: seq<string>)
    ensures r == DataKeys(g) + Present([g.truthFake.hist, g.truthFakeSys.hist])
  {
    var fake := [g.truthFake.hist, g.truthFakeSys.hist];
    PresentAppend(DataSlotList(g.data), fake);
    Present(DataSlotList(g.data) + fake)
  }

  lemma {:induction false} PresentAppend(a: seq<Option<string>>, b: seq<Option<string>>)
    ensures Present(a + b) == Present(a) + Present(b)
  {
    if a == [] {
      assert a + b == b;
    } else {
      assert (a + b)[0] == a[0];
      assert (a + b)[1..] == a[1..] + b;
      PresentAppend(a[1..], b);
    }
  }

  // The `is_*` tests: membership of a key (possibly `None`) in the matching list, written
  // out slot by slot; `MembershipTests` ties each to its list.

  /** `k` is set, non-empty and held by one of `slots`. */
  predicate InSlots(k: Option<string>, slots: seq<Option<string>>)
  {
    k.Some? && k.value != "" && k in slots
  }

  /** `k` is one of the keys of family `f`. */
  predicate InFamily(k: Option<string>, f: Family)
  {
    k.Some? && k.value != "" && (k.value in f.stackHists.Values || k == f.stack || k == f.hist)
  }

  predicate IsData(g: Registry, k: Option<string>)
  {
    InSlots(k, DataSlotList(g.data))
  }

  predicate IsStack(g: Registry, k: Option<string>)
  {
    InSlots(k, StackSlotList(g))
  }

  predicate IsRawMc(g: Registry, k: Option<string>)
  {
    InFamily(k, g.mc)
  }

  predicate IsFakeMc(g: Registry, k: Option<string>)
  {
    InFamily(k, g.truthFake)
  }

  predicate IsFakeCompSysMc(g: Registry, k: Option<string>)
  {
    InFamily(k, g.truthFakeSys)
  }

  predicate IsBkgMc(g: Registry, k: Option<string>)
  {
    InFamily(k, g.truthBkg)
  }

  /** `is_bkg_sys_up_mc` and `is_bkg_sys_dn_mc` compare with slots no generator assigns. */
  predicate IsBkgSysUpMc(g: Registry, k: Option<string>)
  {
    k == g.truthBkgSysUpHist
  }

  predicate IsBkgSysDnMc(g: Registry, k: Option<string>)
  {
    k == g.truthBkgSysDnHist
  }

  /** Every `is_*` test is membership of the key in the list its `get_*_keys` returns, and
      no unset key is in any list. */
  lemma MembershipTests(g: Registry, k: Option<string>)
    ensures IsData(g, k) <==> k.Some? && k.value in DataKeys(g)
    ensures IsStack(g, k) <==> k.Some? && k.value in StackKeys(g)
    ensures IsRawMc(g, k) <==> k.Some? && k.value in FamilyKeys(g.mc)
    ensures IsFakeMc(g, k) <==> k.Some? && k.value in FamilyKeys(g.truthFake)
    ensures IsFakeCompSysMc(g, k) <==> k.Some? && k.value in FamilyKeys(g.truthFakeSys)
    ensures IsBkgMc(g, k) <==> k.Some? && k.value in FamilyKeys(g.truthBkg)
    ensures !IsData(g, None) && !IsStack(g, None) && !IsRawMc(g, None) && !IsFakeMc(g, None)
    ensures !IsFakeCompSysMc(g, None) && !IsBkgMc(g, None)
  {
    InSlotsIff(k, DataSlotList(g.data));
    InSlotsIff(k, StackSlotList(g));
    InFamilyIff(k, g.mc);
    InFamilyIff(k, g.truthFake);
    InFamilyIff(k, g.truthFakeSys);
    InFamilyIff(k, g.truthBkg);
  }

  lemma InSlotsIff(k: Option<string>, slots: seq<Option<string>>)
    ensures InSlots(k, slots) <==> k.Some? && k.value in Present(slots)
  {
  }

  lemma InFamilyIff(k: Option<string>, f: Family)
    ensures InFamily(k, f) <==> k.Some? && k.value in FamilyKeys(f)
  {
  }

  /** `"%s" % k`: Python prints `None` as "None". */
  function Show(k: Option<string>): string
  {
    if k.None? then "None" else k.value
  }

  /** `fake_factor_keys[k]`; `None` stands for the `KeyError` of a histogram without a
      fake-factor key. */
  function FakeFactorOf(g: Registry, k: Option<string>): (r: Option<string>)
    ensures r.Some? <==> k.Some? && k.value in g.fakeFactorKeys
  {
    if k.Some? && k.value in g.fakeFactorKeys then Some(g.fakeFactorKeys[k.value]) else None
  }

  /** The `*_fake_factor` properties. */
  datatype FakeFactorProperty =
    | DataFakeFactor | DataCorrFakeFactor | McFakeFactor | McCompSysFakeFactor
    | DataCompSysFakeFactor | DataPromptSysUpFakeFactor | DataPromptSysDnFakeFactor

  /** The histogram whose fake factor a property looks up. */
  function PropertyHist(g: Registry, p: FakeFactorProperty): Option<string>
  {
    match p
    case DataFakeFactor => g.data.hist
    case DataCorrFakeFactor => g.data.corr
    case McFakeFactor => g.truthFake.hist
    case McCompSysFakeFactor => g.truthFakeSys.hist
    case DataCompSysFakeFactor => g.data.compSys
    case DataPromptSysUpFakeFactor => g.data.promptSysUp
    case DataPromptSysDnFakeFactor => g.data.promptSysDn
  }

  /** A property's value; `None` is the `KeyError` of a histogram without a fake factor. */
  function PropertyValue(g: Registry, p: FakeFactorProperty): Option<string>
  {
    FakeFactorOf(g, PropertyHist(g, p))
  }

  /** `generate_fake_factor_key`'s update of `fake_factor_keys`. */
  function RecordFakeFactor(g: Registry, histKey: string): Registry
  {
    g.(fakeFactorKeys := g.fakeFactorKeys[histKey := "fake_factor_" + histKey])
  }

  /** Once a fake-factor key is generated for the histogram a property names, the property
      finds it; every other histogram's fake factor is untouched. */
  lemma FakeFactorFound(g: Registry, histKey: string, p: FakeFactorProperty)
    requires PropertyHist(g, p) == Some(histKey)
    ensures PropertyValue(RecordFakeFactor(g, histKey), p) == Some("fake_factor_" + histKey)
    ensures forall k :: k != Some(histKey) ==> FakeFactorOf(RecordFakeFactor(g, histKey), k) == FakeFactorOf(g, k)
  {
  }

  /** A sample of the configuration: its name and whether it is simulation. */
  datatype Sample = Sample(name: string, isMC: bool)

  /** A region of the configuration: its name and the truth selections of fake and of
      prompt (background) probe leptons. */
  datatype Region = Region(name: string, truthFakeSel: string, truthBkgSel: string)

  /** The role `generate_hist_key` gives a histogram. */
  datatype HistRole = FakeCompSysHist | FakeHist | BkgHist | McHist | DataHist

  /** The first matching role: fake selection together with the composition weight of
      the region's channel, fake selection, background selection, simulation, data.
      `compWeight` is `get_comp_sys_weight` of the channel. */
  function HistRoleOf(sample: Sample, region: Region, cut: string, compWeight: string): (r: HistRole)
    ensures r == FakeCompSysHist <==> Contains(cut, region.truthFakeSel) && Contains(cut, compWeight)
    ensures r == FakeHist <==> Contains(cut, region.truthFakeSel) && !Contains(cut, compWeight)
    ensures r == BkgHist <==> !Contains(cut, region.truthFakeSel) && Contains(cut, region.truthBkgSel)
    ensures r == McHist <==> !Contains(cut, region.truthFakeSel) && !Contains(cut, region.truthBkgSel) && sample.isMC
    ensures r == DataHist <==> !Contains(cut, region.truthFakeSel) && !Contains(cut, region.truthBkgSel) && !sample.isMC
  {
    if Contains(cut, region.truthFakeSel) && Contains(cut, compWeight) then FakeCompSysHist
    else if Contains(cut, region.truthFakeSel) then FakeHist
    else if Contains(cut, region.truthBkgSel) then BkgHist
    else if sample.isMC then McHist
    else DataHist
  }

  /** `get_comp_sys_weight`: the numerator expression for the numerator tag, otherwise the
      denominator one. The expressions themselves are parameters. */
  function CompSysWeight(channel: string, conf: Conf, numWeight: string, denWeight: string): (w: string)
    ensures w == numWeight || w == denWeight
    ensures channel == conf.numStr ==> w == numWeight
    ensures channel != conf.numStr ==> w == denWeight
  {
    if channel == conf.numStr then numWeight else denWeight
  }

  /** The key `generate_hist_key` gives a histogram of a role, from the stripped sample
      name. */
  function HistKey(role: HistRole, name: string): string
  {
    match role
    case FakeCompSysHist => FakeMcSysScaleStr + "_" + name
    case FakeHist => FakeMcStr + "_" + name
    case BkgHist => BkgMcStr + "_" + name
    case McHist => name
    case DataHist => name
  }

  function AddToStack(f: Family, name: string, key: string): Family
  {
    f.(stackHists := f.stackHists[name := key])
  }

  /** Where `generate_hist_key` records a key: the per-sample dictionary of the role's
      family, or the data slot. */
  function RecordHist(g: Registry, role: HistRole, name: string, key: string): Registry
  {
    match role
    case FakeCompSysHist => g.(truthFakeSys := AddToStack(g.truthFakeSys, name, key))
    case FakeHist => g.(truthFake := AddToStack(g.truthFake, name, key))
    case BkgHist => g.(truthBkg := AddToStack(g.truthBkg, name, key))
    case McHist => g.(mc := AddToStack(g.mc, name, key))
    case DataHist => g.(data := g.data.(hist := Some(key)))
  }

  /** A recorded histogram key is recognised by its role's test (a raw MC or data key only
      when not empty, since Python drops empty keys from the lists), and recording never
      touches the other families. */
  lemma {:induction false} HistKeyRecognised(g: Registry, role: HistRole, name: string)
    ensures var key := HistKey(role, name);
            var h := RecordHist(g, role, name, key);
            && (role == FakeCompSysHist ==> IsFakeCompSysMc(h, Some(key)))
            && (role == FakeHist ==> IsFakeMc(h, Some(key)))
            && (role == BkgHist ==> IsBkgMc(h, Some(key)))
            && (role == McHist ==> (IsRawMc(h, Some(key)) <==> key != ""))
            && (role == DataHist ==> (IsData(h, Some(key)) <==> key != ""))
            && h.fakeFactorKeys == g.fakeFactorKeys
            && (role != DataHist ==> h.data == g.data)
  {
    var key := HistKey(role, name);
    var h := RecordHist(g, role, name, key);
    match role
    case FakeCompSysHist => assert h.truthFakeSys.stackHists[name] == key;
    case FakeHist => assert h.truthFake.stackHists[name] == key;
    case BkgHist => assert h.truthBkg.stackHists[name] == key;
    case McHist => assert h.mc.stackHists[name] == key;
    case DataHist =>
  }

  /** The family a stack or total belongs to, by the tests of `generate_stack_key`. */
  datatype StackRole = CompSysStack | BkgStack | FakeStack | McStack

  function StackRoleOf(g: Registry, k: Option<string>): StackRole
  {
    if IsFakeCompSysMc(g, k) then CompSysStack
    else if IsBkgMc(g, k) then BkgStack
    else if IsFakeMc(g, k) then FakeStack
    else McStack
  }

  /** The first test that holds decides the stack. */
  lemma StackRoleFirstMatch(g: Registry, k: Option<string>)
    ensures StackRoleOf(g, k) == CompSysStack <==> IsFakeCompSysMc(g, k)
    ensures StackRoleOf(g, k) == BkgStack <==> !IsFakeCompSysMc(g, k) && IsBkgMc(g, k)
    ensures StackRoleOf(g, k) == FakeStack <==> !IsFakeCompSysMc(g, k) && !IsBkgMc(g, k) && IsFakeMc(g, k)
    ensures StackRoleOf(g, k) == McStack <==> !IsFakeCompSysMc(g, k) && !IsBkgMc(g, k) && !IsFakeMc(g, k)
  {
  }

  function StackKey(role: StackRole): string
  {
    match role
    case CompSysStack => "stack_" + FakeMcSysScaleStr
    case BkgStack => "stack_" + BkgMcStr
    case FakeStack => "stack_" + FakeMcStr
    case McStack => "stack_MC"
  }

  function RecordStack(g: Registry, role: StackRole, key: string): Registry
  {
    match role
    case CompSysStack => g.(truthFakeSys := g.truthFakeSys.(stack := Some(key)))
    case BkgStack => g.(truthBkg := g.truthBkg.(stack := Some(key)))
    case FakeStack => g.(truthFake := g.truthFake.(stack := Some(key)))
    case McStack => g.(mc := g.mc.(stack := Some(key)))
  }

  /** A recorded stack key is a stack key, and also a key of its own family, so the tests
      send it back to the same stack. */
  lemma StackKeyRecognised(g: Registry, role: StackRole)
    ensures var h := RecordStack(g, role, StackKey(role));
            var k := Some(StackKey(role));
            && IsStack(h, k)
            && (role == CompSysStack ==> IsFakeCompSysMc(h, k))
            && (role == BkgStack ==> IsBkgMc(h, k))
            && (role == FakeStack ==> IsFakeMc(h, k))
            && (role == McStack ==> IsRawMc(h, k))
  {
  }

  /** The total MC histogram a histogram belongs to. */
  datatype McTotalRole = CompSysTotal | SysUpTotal | SysDnTotal | BkgTotal | FakeTotal | McTotal

  /** The tests of `generate_mc_hist_key`, in order. */
  function McRoleOf(g: Registry, k: Option<string>): McTotalRole
  {
    if IsFakeCompSysMc(g, k) then CompSysTotal
    else if IsBkgSysUpMc(g, k) then SysUpTotal
    else if IsBkgSysDnMc(g, k) then SysDnTotal
    else if IsBkgMc(g, k) then BkgTotal
    else if IsFakeMc(g, k) then FakeTotal
    else McTotal
  }

  /** The first test that holds decides the role: a key is a fake composition-systematic
      key, else a shifted background, else a background, else a fake, else plain MC. */
  lemma McRoleFirstMatch(g: Registry, k: Option<string>)
    ensures McRoleOf(g, k) == CompSysTotal <==> IsFakeCompSysMc(g, k)
    ensures McRoleOf(g, k) == SysUpTotal <==> !IsFakeCompSysMc(g, k) && IsBkgSysUpMc(g, k)
    ensures McRoleOf(g, k) == SysDnTotal <==> !IsFakeCompSysMc(g, k) && !IsBkgSysUpMc(g, k) && IsBkgSysDnMc(g, k)
    ensures McRoleOf(g, k) == BkgTotal <==>
      !IsFakeCompSysMc(g, k) && !IsBkgSysUpMc(g, k) && !IsBkgSysDnMc(g, k) && IsBkgMc(g, k)
    ensures McRoleOf(g, k) == FakeTotal <==>
      !IsFakeCompSysMc(g, k) && !IsBkgSysUpMc(g, k) && !IsBkgSysDnMc(g, k) && !IsBkgMc(g, k) && IsFakeMc(g, k)
    ensures McRoleOf(g, k) == McTotal <==>
      !IsFakeCompSysMc(g, k) && !IsBkgSysUpMc(g, k) && !IsBkgSysDnMc(g, k) && !IsBkgMc(g, k) && !IsFakeMc(g, k)
  {
  }

  /** The key of each total MC histogram. */
  function McTotalKey(role: McTotalRole): string
  {
    match role
    case CompSysTotal => FakeMcSysScaleStr + "_hist"
    case SysUpTotal => PromptMcSysUpStr + "_hist"
    case SysDnTotal => PromptMcSysDnStr + "_hist"
    case BkgTotal => BkgMcStr + "_hist"
    case FakeTotal => FakeMcStr + "_hist"
    case McTotal => "mc_hist"
  }

  /** The registry with a total MC key recorded in the slot of its role; the shifted
      backgrounds go to `mc_bkgd_sys_*_hist`, which no test reads. */
  function RecordMcTotal(g: Registry, role: McTotalRole, key: string): Registry
  {
    match role
    case CompSysTotal => g.(truthFakeSys := g.truthFakeSys.(hist := Some(key)))
    case SysUpTotal => g.(created := g.created.(mcBkgdSysUpHist := Some(key)))
    case SysDnTotal => g.(created := g.created.(mcBkgdSysDnHist := Some(key)))
    case BkgTotal => g.(truthBkg := g.truthBkg.(hist := Some(key)))
    case FakeTotal => g.(truthFake := g.truthFake.(hist := Some(key)))
    case McTotal => g.(mc := g.mc.(hist := Some(key)))
  }

  /** Recording a background, fake or fake composition-systematic total makes its key
      recognised as such and a total MC key, and a recorded total is never a data key. */
  lemma McTotalRecognised(g: Registry, role: McTotalRole)
    ensures var h := RecordMcTotal(g, role, McTotalKey(role));
            var k := Some(McTotalKey(role));
            && (role == CompSysTotal ==> IsFakeCompSysMc(h, k))
            && (role == BkgTotal ==> IsBkgMc(h, k))
            && (role == FakeTotal ==> IsFakeMc(h, k))
            && (role == McTotal ==> IsRawMc(h, k))
            && (role !in {SysUpTotal, SysDnTotal} ==> McTotalKey(role) in TotalMcHistKeys(h))
            && (IsData(h, k) <==> IsData(g, k))
  {
  }

  /** A histogram recorded as fake, fake composition-systematic or background goes into
      its own family's total, as long as no earlier test claims its key: the key is not
      yet a fake composition-systematic or background key and the never-assigned shifted
      slots are unset. */
  lemma {:induction false} HistGoesToItsTotal(g: Registry, role: HistRole, name: string)
    requires role in {FakeCompSysHist, FakeHist, BkgHist}
    requires g.truthBkgSysUpHist == None && g.truthBkgSysDnHist == None
    requires role != FakeCompSysHist ==> !IsFakeCompSysMc(g, Some(HistKey(role, name)))
    requires role == FakeHist ==> !IsBkgMc(g, Some(HistKey(role, name)))
    ensures var h := RecordHist(g, role, name, HistKey(role, name));
            McRoleOf(h, Some(HistKey(role, name))) ==
              (match role case FakeCompSysHist => CompSysTotal case FakeHist => FakeTotal case _ => BkgTotal)
  {
    HistKeyRecognised(g, role, name);
  }

  /** The state of a fresh manager: every attribute `None`, every dictionary empty. */
  const FreshRegistry := Registry(EmptyFamily, EmptyFamily, EmptyFamily, EmptyFamily, None, None,
                                  DataSlots(None, None, None, None, None), map[],
                                  Created(None, None, None, None))

  class KeyManager {
    var mc: Family
    var truthBkg: Family
    var truthFake: Family
    var truthFakeSys: Family
    var mcTruthBkgSysUpHist: Option<string>
    var mcTruthBkgSysDnHist: Option<string>
    var data: DataSlots
    var fakeFactorKeys: map<string, string>
    var created: Created

    function Snapshot(): Registry
      reads this
    {
      Registry(mc, truthBkg, truthFake, truthFakeSys, mcTruthBkgSysUpHist, mcTruthBkgSysDnHist,
               data, fakeFactorKeys, created)
    }

    constructor ()
      ensures Snapshot() == FreshRegistry
    {
      mc, truthBkg, truthFake, truthFakeSys := EmptyFamily, EmptyFamily, EmptyFamily, EmptyFamily;
      mcTruthBkgSysUpHist, mcTruthBkgSysDnHist := None, None;
      data := DataSlots(None, None, None, None, None);
      fakeFactorKeys := map[];
      created := Created(None, None, None, None);
    }

    /** `generate_hist_key`: the key of a sample's histogram in a region under a cut,
        recorded where its role says; the key is then recognised as that role's. */
    method GenerateHistKey(sample: Sample, region: Region, cut: string, conf: Conf,
                           numWeight: string, denWeight: string) returns (key: string)
      modifies this
      ensures var role := HistRoleOf(sample, region, cut,
                                     CompSysWeight(FakeChannel(region.name, conf), conf, numWeight, denWeight));
              var name := RemoveNumDen(sample.name, conf);
              && key == HistKey(role, name)
              && Snapshot() == RecordHist(old(Snapshot()), role, name, key)
              && (role == FakeCompSysHist ==> IsFakeCompSysMc(Snapshot(), Some(key)))
              && (role == FakeHist ==> IsFakeMc(Snapshot(), Some(key)))
              && (role == BkgHist ==> IsBkgMc(Snapshot(), Some(key)))
    {
      var g := Snapshot();
      var name := RemoveNumDen(sample.name, conf);
      var role := HistRoleOf(sample, region, cut,
                             CompSysWeight(FakeChannel(region.name, conf), conf, numWeight, denWeight));
      key := HistKey(role, name);
      match role {
        case FakeCompSysHist => truthFakeSys := AddToStack(truthFakeSys, name, key);
        case FakeHist => truthFake := AddToStack(truthFake, name, key);
        case BkgHist => truthBkg := AddToStack(truthBkg, name, key);
        case McHist => mc := AddToStack(mc, name, key);
        case DataHist => data := data.(hist := Some(key));
      }
      HistKeyRecognised(g, role, name);
    }

    /** `generate_stack_key`: the stack of a histogram's family, recorded in that
        family's stack slot; the key is then a stack key. */
    method GenerateStackKey(histKey: string) returns (key: string)
      modifies this
      ensures key == StackKey(StackRoleOf(old(Snapshot()), Some(histKey)))
      ensures Snapshot() == RecordStack(old(Snapshot()), StackRoleOf(old(Snapshot()), Some(histKey)), key)
      ensures IsStack(Snapshot(), Some(key))
    {
      var g := Snapshot();
      var role := StackRoleOf(g, Some(histKey));
      key := StackKey(role);
      match role {
        case CompSysStack => truthFakeSys := truthFakeSys.(stack := Some(key));
        case BkgStack => truthBkg := truthBkg.(stack := Some(key));
        case FakeStack => truthFake := truthFake.(stack := Some(key));
        case McStack => mc := mc.(stack := Some(key));
      }
      StackKeyRecognised(g, role);
    }

    /** `generate_mc_hist_key`: the total MC histogram of a histogram's role, recorded
        in that role's slot. */
    method GenerateMcHistKey(histKey: string) returns (key: string)
      modifies this
      ensures key == McTotalKey(McRoleOf(old(Snapshot()), Some(histKey)))
      ensures Snapshot() == RecordMcTotal(old(Snapshot()), McRoleOf(old(Snapshot()), Some(histKey)), key)
    {
      var role := McRoleOf(Snapshot(), Some(histKey));
      key := McTotalKey(role);
      match role {
        case CompSysTotal => truthFakeSys := truthFakeSys.(hist := Some(key));
        case SysUpTotal => created := created.(mcBkgdSysUpHist := Some(key));
        case SysDnTotal => created := created.(mcBkgdSysDnHist := Some(key));
        case BkgTotal => truthBkg := truthBkg.(hist := Some(key));
        case FakeTotal => truthFake := truthFake.(hist := Some(key));
        case McTotal => mc := mc.(hist := Some(key));
      }
    }

    /** `generate_data_corr_key`: the background-subtracted data histogram. */
    method GenerateDataCorrKey() returns (key: string)
      modifies this
      ensures key == Show(old(data.hist)) + "_bkgd_subtracted"
      ensures Snapshot() == old(Snapshot()).(data := old(data).(corr := Some(key)))
      ensures IsData(Snapshot(), Some(key))
    {
      key := Show(data.hist) + "_bkgd_subtracted";
      data := data.(corr := Some(key));
    }

    /** `generate_data_comp_sys_key`: the data histogram of the composition systematic. */
    method GenerateDataCompSysKey() returns (key: string)
      modifies this
      ensures key == Show(old(data.hist)) + "_comp_sys"
      ensures Snapshot() == old(Snapshot()).(data := old(data).(compSys := Some(key)))
      ensures IsData(Snapshot(), Some(key))
    {
      key := Show(data.hist) + "_comp_sys";
      data := data.(compSys := Some(key));
    }

    /** `generate_prompt_sys_up_key`: recorded for a data histogram, or for the shifted
        background, or not at all. */
    method GeneratePromptSysUpKey(histKey: Option<string>) returns (key: string)
      modifies this
      ensures var g := old(Snapshot());
              && key == Show(histKey) + "_prompt_sys_up"
              && (IsData(g, histKey) ==> Snapshot() == g.(data := g.data.(promptSysUp := Some(key))))
              && (!IsData(g, histKey) && IsBkgSysUpMc(g, histKey) ==>
                    Snapshot() == g.(created := g.created.(mcPromptSysUpKey := Some(key))))
              && (!IsData(g, histKey) && !IsBkgSysUpMc(g, histKey) ==> Snapshot() == g)
    {
      key := Show(histKey) + "_prompt_sys_up";
      if IsData(Snapshot(), histKey) {
        data := data.(promptSysUp := Some(key));
      } else if IsBkgSysUpMc(Snapshot(), histKey) {
        created := created.(mcPromptSysUpKey := Some(key));
      }
    }

    /** `generate_prompt_sys_dn_key`, the downward twin. */
    method GeneratePromptSysDnKey(histKey: Option<string>) returns (key: string)
      modifies this
      ensures var g := old(Snapshot());
              && key == Show(histKey) + "_prompt_sys_dn"
              && (IsData(g, histKey) ==> Snapshot() == g.(data := g.data.(promptSysDn := Some(key))))
              && (!IsData(g, histKey) && IsBkgSysDnMc(g, histKey) ==>
                    Snapshot() == g.(created := g.created.(mcPromptSysDnKey := Some(key))))
              && (!IsData(g, histKey) && !IsBkgSysDnMc(g, histKey) ==> Snapshot() == g)
    {
      key := Show(histKey) + "_prompt_sys_dn";
      if IsData(Snapshot(), histKey) {
        data := data.(promptSysDn := Some(key));
      } else if IsBkgSysDnMc(Snapshot(), histKey) {
        created := created.(mcPromptSysDnKey := Some(key));
      }
    }

    /** `generate_fake_factor_key`: the fake factor of a histogram, found again under that
        histogram's key. */
    method GenerateFakeFactorKey(histKey: string) returns (key: string)
      modifies this
      ensures key == "fake_factor_" + histKey
      ensures Snapshot() == RecordFakeFactor(old(Snapshot()), histKey)
      ensures FakeFactorOf(Snapshot(), Some(histKey)) == Some(key)
    {
      key := "fake_factor_" + histKey;
      fakeFactorKeys := fakeFactorKeys[histKey := key];
    }
  }

  /** No generator assigns the slots `is_bkg_sys_up_mc` and `is_bkg_sys_dn_mc` compare
      with, so from a fresh manager they hold only for `None`, and the shifted-background
      branches of `generate_mc_hist_key` never fire for a key. */
  lemma SysTestsOnlyMatchNone(g: Registry, k: string)
    requires g.truthBkgSysUpHist == None && g.truthBkgSysDnHist == None
    ensures !IsBkgSysUpMc(g, Some(k)) && !IsBkgSysDnMc(g, Some(k))
    ensures IsBkgSysUpMc(g, None) && IsBkgSysDnMc(g, None)
    ensures McRoleOf(g, Some(k)) !in {SysUpTotal, SysDnTotal}
  {
  }
}
