/** The check for expected samples: each ROOT output's name gives a DSID and a
    campaign, the DSIDs found are collected per campaign, and every DSID of every
    group that matches a campaign but has no output is reported. The `glob` becomes
    the list of file names and the DSID table a parameter. */
module ExpectedSamples {
  import opened Wrappers
  import opened Strs
  import opened Seqs

  /** `is_match`: a data group matches the campaigns named inside it, an MC group
      matches every `mc16` campaign. */
  predicate IsMatch(campaign: string, group: string)
  {
    if Contains(group, "data") && Contains(group, campaign) then true
    else if !Contains(group, "data") && Contains(campaign, "mc16") then true
    else false
  }

  lemma IsMatchIff(campaign: string, group: string)
    ensures IsMatch(campaign, group) <==>
      (if Contains(group, "data") then Contains(group, campaign) else Contains(campaign, "mc16"))
  {
  }

  // ---------------------------------------------------------------------------
  // extract_info

  /** The first position in `[i, n)` where `p` holds, or -1: a left-to-right regex search. */
  function FirstPos(i: nat, n: nat, p: int -> bool): (r: int)
    requires i <= n
    ensures r == -1 || (i <= r < n && p(r))
    ensures forall j :: i <= j < n && (r == -1 || j < r) ==> !p(j)
    decreases n - i
  {
    if i == n then -1 else if p(i) then i else FirstPos(i + 1, n, p)
  }

  /** `[1-9][0-9]{5}` matches at `i`. */
  predicate DsidAt(s: string, i: int)
  {
    0 <= i && i + 6 <= |s| && '1' <= s[i] <= '9' && AllDigits(s[i + 1..i + 6])
  }

  /** `re.search("[1-9][0-9]{5}", s)`: the first position of a DSID, or -1. */
  function FindDsid(s: string): (r: int)
    ensures r == -1 || DsidAt(s, r)
    ensures forall j :: 0 <= j < |s| && (r == -1 || j < r) ==> !DsidAt(s, j)
  {
    var p := (i: int) => DsidAt(s, i);
    var r := FirstPos(0, |s|, p);
    forall j | 0 <= j < |s| && (r == -1 || j < r) ensures !DsidAt(s, j) {
      assert !p(j);
    }
    r
  }

  /** The campaign matched at `i` by `mc16[ade]|(?<=_20)1[5678]|(?<=data)1[5678]`,
      the alternatives tried in order. */
  function CampaignAt(s: string, i: int): (r: Option<string>)
    ensures r.Some? ==> 0 <= i && (|r.value| == 5 || |r.value| == 2) && i + |r.value| <= |s| && r.value == s[i..i + |r.value|]
  {
    if 0 <= i && i + 5 <= |s| && s[i..i + 4] == "mc16" && s[i + 4] in "ade" then Some(s[i..i + 5])
    else if 0 <= i && i + 2 <= |s| && s[i] == '1' && '5' <= s[i + 1] <= '8' &&
      ((i >= 3 && s[i - 3..i] == "_20") || (i >= 4 && s[i - 4..i] == "data"))
    then Some(s[i..i + 2])
    else None
  }

  function FindCampaign(s: string): (r: int)
    ensures r == -1 || CampaignAt(s, r).Some?
    ensures forall j :: 0 <= j < |s| && (r == -1 || j < r) ==> CampaignAt(s, j).None?
  {
    var p := (i: int) => CampaignAt(s, i).Some?;
    var r := FirstPos(0, |s|, p);
    forall j | 0 <= j < |s| && (r == -1 || j < r) ensures CampaignAt(s, j).None? {
      assert !p(j);
    }
    r
  }

  /** Where the digit run starting at `i` ends. */
  function DigitsEnd(t: string, i: nat): (j: nat)
    requires i <= |t|
    ensures i <= j <= |t| && AllDigits(t[i..j]) && (j == |t| || !IsDigit(t[j]))
  {
    var d := LeadingDigits(t[i..]);
    assert t[i..][..|d|] == t[i..i + |d|];
    i + |d|
  }

  /** `(?<=_)[0-9]*$` matches at `i`: after an underscore, digits up to the end of the
      text or up to a final newline. */
  predicate SuffixAt(t: string, i: int)
  {
    1 <= i <= |t| && t[i - 1] == '_' &&
    (DigitsEnd(t, i) == |t| || (DigitsEnd(t, i) == |t| - 1 && t[|t| - 1] == '\n'))
  }

  /** The text before one final newline, where `$` matches too. */
  function BeforeNewline(t: string): (u: string)
    ensures u <= t && (|u| == |t| || (|u| == |t| - 1 && t[|t| - 1] == '\n'))
  {
    if |t| > 0 && t[|t| - 1] == '\n' then t[..|t| - 1] else t
  }

  /** Where the run of digits closing `u` starts. */
  function TrailStart(u: string): (k: nat)
    ensures k <= |u| && AllDigits(u[k..]) && (k == 0 || !IsDigit(u[k - 1]))
  {
    if |u| > 0 && IsDigit(u[|u| - 1]) then
      var k := TrailStart(u[..|u| - 1]);
      assert u[k..] == u[..|u| - 1][k..] + [u[|u| - 1]];
      k
    else |u|
  }

  /** The suffix read off the end of `t`: the digits closing it (before one final
      newline) when an underscore comes right before them, and "" otherwise. */
  function TrailingSuffix(t: string): string
  {
    var u := BeforeNewline(t);
    var k := TrailStart(u);
    if k >= 1 && u[k - 1] == '_' then u[k..] else ""
  }

  /** A name ending in `_` and digits (with or without a final newline) has those digits
      as its suffix. */
  lemma TrailingSuffixOf(p: string, d: string, newline: bool)
    requires AllDigits(d)
    ensures TrailingSuffix(p + "_" + d + (if newline then "\n" else "")) == d
  {
    var t := p + "_" + d + (if newline then "\n" else "");
    var u := BeforeNewline(t);
    assert u == p + "_" + d by {
      if !newline { assert t == p + "_" + d; }
      else if |d| > 0 { assert t[|t| - 1] == '\n'; }
    }
    var k := TrailStart(u);
    assert u[|p|] == '_';
    forall m | |p| + 1 <= m < |u|
      ensures IsDigit(u[m])
    {
      assert u[m] == d[m - |p| - 1];
    }
    forall m | k <= m < |u|
      ensures IsDigit(u[m])
    {
      assert u[m] == u[k..][m - k];
    }
    assert k == |p| + 1;
    assert u[k..] == d;
  }

  /** `(?<=_)[0-9]*$` can match only at the start of the closing digit run, and does
      there exactly when an underscore precedes it. */
  lemma SuffixAtIff(t: string, i: int)
    requires 0 <= i <= |t|
    ensures var u := BeforeNewline(t); var k := TrailStart(u);
      SuffixAt(t, i) <==> i == k && k >= 1 && u[k - 1] == '_'
    ensures SuffixAt(t, i) ==> DigitsEnd(t, i) == |BeforeNewline(t)|
  {
    var u := BeforeNewline(t);
    var k := TrailStart(u);
    var j := DigitsEnd(t, i);
    assert forall m :: 0 <= m < |u| ==> u[m] == t[m];
    forall m | i <= m < j
      ensures IsDigit(t[m])
    {
      assert t[m] == t[i..j][m - i];
    }
    forall m | k <= m < |u|
      ensures IsDigit(u[m])
    {
      assert u[m] == u[k..][m - k];
    }
  }

  /** `re.search("(?<=_)[0-9]*$", t)`: the first position where it matches, or -1. */
  function SuffixPos(t: string): (r: int)
    ensures r == -1 || (0 <= r <= |t| && SuffixAt(t, r))
    ensures forall j :: 0 <= j <= |t| && (r == -1 || j < r) ==> !SuffixAt(t, j)
  {
    var p := (i: int) => SuffixAt(t, i);
    var r := FirstPos(0, |t| + 1, p);
    forall j | 0 <= j <= |t| && (r == -1 || j < r) ensures !SuffixAt(t, j) {
      assert !p(j);
    }
    r
  }

  /** The text the search matches is the suffix read off the end. */
  lemma SuffixMatchIsTrailing(t: string)
    ensures SuffixPos(t) < 0 ==> TrailingSuffix(t) == ""
    ensures SuffixPos(t) >= 0 ==> t[SuffixPos(t)..DigitsEnd(t, SuffixPos(t))] == TrailingSuffix(t)
  {
    var i := SuffixPos(t);
    var u := BeforeNewline(t);
    var k := TrailStart(u);
    SuffixAtIff(t, k);
    if i >= 0 {
      SuffixAtIff(t, i);
      assert i == k && DigitsEnd(t, i) == |u|;
      assert t[i..|u|] == u[k..];
    }
  }

  /** The trailing digits after `_` once the DSID is replaced by `X`, or "". */
  function SuffixOf(name: string, dsid: string): (r: string)
    ensures AllDigits(r)
    ensures r == TrailingSuffix(Replace(name, dsid, "X"))
  {
    var t := Replace(name, dsid, "X");
    SuffixMatchIsTrailing(t);
    var i := SuffixPos(t);
    if i < 0 then "" else t[i..DigitsEnd(t, i)]
  }

  datatype Info = Info(dsid: string, campaign: string, suffix: string)

  datatype Failure = NoDsid(name: string) | NoCampaign(name: string)

  /** `extract_info`: a missing DSID or campaign makes `.group()` fail on None. */
  function ExtractInfo(name: string): (r: Result<Info, Failure>)
    ensures r.Ok? <==> FindDsid(name) >= 0 && FindCampaign(name) >= 0
    ensures r.Ok? ==> |r.value.dsid| == 6 && '1' <= r.value.dsid[0] <= '9' && AllDigits(r.value.dsid[1..])
    ensures r.Ok? ==> r.value.campaign == CampaignAt(name, FindCampaign(name)).value
    ensures r.Ok? ==> r.value.dsid == name[FindDsid(name)..FindDsid(name) + 6]
    ensures r.Ok? ==> AllDigits(r.value.suffix) && r.value.suffix == SuffixOf(name, r.value.dsid)
  {
    var d := FindDsid(name);
    var c := FindCampaign(name);
    if d < 0 then Err(NoDsid(name))
    else if c < 0 then Err(NoCampaign(name))
    else
      var dsid := name[d..d + 6];
      assert dsid[1..] == name[d + 1..d + 6];
      Ok(Info(dsid, CampaignAt(name, c).value, SuffixOf(name, dsid)))
  }

  // ---------------------------------------------------------------------------
  // root_files: the DSIDs found per campaign

  /** What `extract_info` reads from a file's basename. */
  function InfoOf(file: string): Result<Info, Failure>
  {
    ExtractInfo(Basename(file))
  }

  predicate AllParse(files: seq<string>)
  {
    forall i :: 0 <= i < |files| ==> InfoOf(files[i]).Ok?
  }

  /** Every name of the list through `extract_info`: the first name without a DSID or a
      campaign stops the script. */
  method ParseNames(files: seq<string>) returns (r: Result<seq<Info>, Failure>)
    ensures r.Ok? <==> AllParse(files)
    ensures r.Ok? ==> |r.value| == |files| && forall i :: 0 <= i < |files| ==> InfoOf(files[i]) == Ok(r.value[i])
    ensures r.Err? ==> exists i :: 0 <= i < |files| && InfoOf(files[i]) == Err(r.error)
  {
    var infos: seq<Info> := [];
    for n := 0 to |files|
      invariant |infos| == n
      invariant forall i :: 0 <= i < n ==> InfoOf(files[i]) == Ok(infos[i])
    {
      var info := InfoOf(files[n]);
      if info.Err? {
        return Err(info.error);
      }
      ParsedSnoc(files, infos, info.value);
      infos := infos + [info.value];
    }
    return Ok(infos);
  }

  lemma ParsedSnoc(files: seq<string>, infos: seq<Info>, x: Info)
    requires |infos| < |files| && InfoOf(files[|infos|]) == Ok(x)
    requires forall i :: 0 <= i < |infos| ==> InfoOf(files[i]) == Ok(infos[i])
    ensures forall i :: 0 <= i < |infos| + 1 ==> InfoOf(files[i]) == Ok((infos + [x])[i])
  {
  }

  /** The DSIDs seen with campaign `c`. */
  function DsidsOf(infos: seq<Info>, c: string): set<string>
  {
    set i | 0 <= i < |infos| && infos[i].campaign == c :: infos[i].dsid
  }

  /** The campaigns seen. */
  function CampaignsOf(infos: seq<Info>): set<string>
  {
    set i | 0 <= i < |infos| :: infos[i].campaign
  }

  lemma SeenSnoc(infos: seq<Info>, x: Info, c: string)
    ensures DsidsOf(infos + [x], c) == DsidsOf(infos, c) + (if x.campaign == c then {x.dsid} else {})
    ensures CampaignsOf(infos + [x]) == CampaignsOf(infos) + {x.campaign}
  {
    var t := infos + [x];
    assert forall i :: 0 <= i < |infos| ==> t[i] == infos[i];
    assert t[|infos|] == x;
  }

  /** The `root_files` defaultdict: each campaign seen maps to the DSIDs seen with it. */
  method GroupByCampaign(infos: seq<Info>) returns (m: map<string, set<string>>)
    ensures m.Keys == CampaignsOf(infos)
    ensures forall c :: c in m ==> m[c] == DsidsOf(infos, c)
  {
    m := map[];
    for n := 0 to |infos|
      invariant m.Keys == CampaignsOf(infos[..n])
      invariant forall c :: c in m ==> m[c] == DsidsOf(infos[..n], c)
    {
      var c := infos[n].campaign;
      var found := if c in m then m[c] else {};
      TakeSnoc(infos, n);
      forall c2 ensures DsidsOf(infos[..n + 1], c2) ==
        DsidsOf(infos[..n], c2) + (if c == c2 then {infos[n].dsid} else {})
      {
        SeenSnoc(infos[..n], infos[n], c2);
      }
      SeenSnoc(infos[..n], infos[n], c);
      m := m[c := found + {infos[n].dsid}];
    }
    TakeAll(infos);
  }

  /** Lines 40-43 together: the names are parsed, then grouped. */
  method CollectRootFiles(files: seq<string>) returns (r: Result<map<string, set<string>>, Failure>)
    ensures r.Ok? <==> AllParse(files)
    ensures r.Err? ==> exists i :: 0 <= i < |files| && InfoOf(files[i]) == Err(r.error)
    ensures r.Ok? ==> exists infos: seq<Info> ::
      (|infos| == |files| && (forall i :: 0 <= i < |files| ==> InfoOf(files[i]) == Ok(infos[i])) &&
       r.value.Keys == CampaignsOf(infos) && (forall c :: c in r.value ==> r.value[c] == DsidsOf(infos, c)))
  {
    var parsed := ParseNames(files);
    if parsed.Err? {
      return Err(parsed.error);
    }
    var m := GroupByCampaign(parsed.value);
    return Ok(m);
  }

  // ---------------------------------------------------------------------------
  // missing_files: for each missing (group, DSID), the campaigns that lack it

  type Key = (string, string)

  /** `missing_files[key]`, a defaultdict of lists. */
  function Get(m: map<Key, seq<string>>, key: Key): seq<string>
  {
    if key in m then m[key] else []
  }

  /** How often campaign `c` is listed under (group `g`, DSID `d`). */
  function Count(m: map<Key, seq<string>>, g: string, d: string, c: string): nat
  {
    multiset(Get(m, (g, d)))[c]
  }

  /** How often the script lists campaign `c` under (`g`, `d`): once for every time `d`
      is listed in group `g`, when `c` was found, matches `g` and lacks `d`. */
  function ExpectedCount(rootFiles: map<string, set<string>>, groups: map<string, seq<string>>,
                         g: string, d: string, c: string): nat
  {
    if c in rootFiles && g in groups && IsMatch(c, g) && d !in rootFiles[c]
    then multiset(groups[g])[d] else 0
  }

  /** Every key present holds at least one campaign (a defaultdict entry is only made
      by `append`). */
  predicate NoEmptyEntry(m: map<Key, seq<string>>)
  {
    forall key :: key in m ==> |m[key]| > 0
  }

  /** Appending `c` under one key adds one to that key's count of `c` and nothing else. */
  lemma AppendCount(m: map<Key, seq<string>>, g: string, d: string, c: string)
    ensures var m2 := m[(g, d) := Get(m, (g, d)) + [c]];
      forall g2, d2, c2 :: Count(m2, g2, d2, c2) ==
        Count(m, g2, d2, c2) + (if g2 == g && d2 == d && c2 == c then 1 else 0)
  {
    var m2 := m[(g, d) := Get(m, (g, d)) + [c]];
    forall g2, d2, c2
      ensures Count(m2, g2, d2, c2) == Count(m, g2, d2, c2) + (if g2 == g && d2 == d && c2 == c then 1 else 0)
    {
      if (g2, d2) == (g, d) {
        assert Get(m2, (g2, d2)) == Get(m, (g, d)) + [c];
      } else {
        assert Get(m2, (g2, d2)) == Get(m, (g2, d2));
      }
    }
  }

  /** The innermost loop: every DSID of group `g` not among `found` gets `c` appended. */
  method AddGroup(m0: map<Key, seq<string>>, c: string, found: set<string>, g: string, dsids: seq<string>)
    returns (m: map<Key, seq<string>>)
    requires NoEmptyEntry(m0)
    ensures NoEmptyEntry(m)
    ensures forall g2, d, c2 :: (Count(m, g2, d, c2) ==
      Count(m0, g2, d, c2) + (if c2 == c && g2 == g && d !in found then multiset(dsids)[d] else 0))
  {
    m := m0;
    for i := 0 to |dsids|
      invariant NoEmptyEntry(m)
      invariant forall g2, d, c2 :: (Count(m, g2, d, c2) ==
        Count(m0, g2, d, c2) + (if c2 == c && g2 == g && d !in found then multiset(dsids[..i])[d] else 0))
    {
      TakeSnoc(dsids, i);
      if dsids[i] !in found {
        AppendCount(m, g, dsids[i], c);
        m := m[(g, dsids[i]) := Get(m, (g, dsids[i])) + [c]];
      }
    }
    TakeAll(dsids);
  }

  /** The loop over the groups for one campaign `c` with DSIDs `found`; the groups are
      visited in an arbitrary order, as a dict's are. */
  method AddCampaign(m0: map<Key, seq<string>>, c: string, found: set<string>, groups: map<string, seq<string>>)
    returns (m: map<Key, seq<string>>)
    requires NoEmptyEntry(m0)
    ensures NoEmptyEntry(m)
    ensures forall g, d, c2 :: (Count(m, g, d, c2) ==
      Count(m0, g, d, c2) + (if c2 == c && g in groups && IsMatch(c, g) && d !in found then multiset(groups[g])[d] else 0))
  {
    m := m0;
    var todo := groups.Keys;
    var done: set<string> := {};
    while todo != {}
      invariant todo + done == groups.Keys && todo !! done
      invariant NoEmptyEntry(m)
      invariant forall g, d, c2 :: Count(m, g, d, c2) == Count(m0, g, d, c2) + AddedBy(c, found, groups, done, g, d, c2)
      decreases |todo|
    {
      var g :| g in todo;
      var before := m;
      if IsMatch(c, g) {
        m := AddGroup(m, c, found, g, groups[g]);
      }
      AddCampaignStep(m0, before, m, c, found, groups, done, g);
      MoveOne(todo, done, groups.Keys, g);
      todo := todo - {g};
      done := done + {g};
    }
  }

  /** What the groups in `done` have added for campaign `c` under (`g`, `d`) as `c2`. */
  function AddedBy(c: string, found: set<string>, groups: map<string, seq<string>>, done: set<string>,
                   g: string, d: string, c2: string): nat
  {
    if c2 == c && g in done && g in groups && IsMatch(c, g) && d !in found then multiset(groups[g])[d] else 0
  }

  lemma AddCampaignStep(m0: map<Key, seq<string>>, m1: map<Key, seq<string>>, m2: map<Key, seq<string>>,
                        c: string, found: set<string>, groups: map<string, seq<string>>, done: set<string>, g: string)
    requires g in groups && g !in done
    requires forall g2, d, c2 :: Count(m1, g2, d, c2) == Count(m0, g2, d, c2) + AddedBy(c, found, groups, done, g2, d, c2)
    requires IsMatch(c, g) ==> forall g2, d, c2 :: (Count(m2, g2, d, c2) ==
      Count(m1, g2, d, c2) + (if c2 == c && g2 == g && d !in found then multiset(groups[g])[d] else 0))
    requires !IsMatch(c, g) ==> m2 == m1
    ensures forall g2, d, c2 :: Count(m2, g2, d, c2) == Count(m0, g2, d, c2) + AddedBy(c, found, groups, done + {g}, g2, d, c2)
  {
  }

  /** The `missing_files` loop over the campaigns found. Each campaign is listed under
      (group, DSID) exactly as often as the DSID is listed in a matching group it lacks,
      whatever order the dicts are visited in. */
  method FindMissing(rootFiles: map<string, set<string>>, groups: map<string, seq<string>>)
    returns (missing: map<Key, seq<string>>)
    ensures NoEmptyEntry(missing)
    ensures forall g, d, c :: Count(missing, g, d, c) == ExpectedCount(rootFiles, groups, g, d, c)
  {
    missing := map[];
    var todo := rootFiles.Keys;
    var done: set<string> := {};
    while todo != {}
      invariant todo + done == rootFiles.Keys && todo !! done
      invariant NoEmptyEntry(missing)
      invariant forall g, d, c :: (Count(missing, g, d, c) ==
        if c in done then ExpectedCount(rootFiles, groups, g, d, c) else 0)
      decreases |todo|
    {
      var c :| c in todo;
      var before := missing;
      missing := AddCampaign(missing, c, rootFiles[c], groups);
      FindMissingStep(rootFiles, groups, before, missing, done, c);
      MoveOne(todo, done, rootFiles.Keys, c);
      todo := todo - {c};
      done := done + {c};
    }
  }

  lemma FindMissingStep(rootFiles: map<string, set<string>>, groups: map<string, seq<string>>,
                        m1: map<Key, seq<string>>, m2: map<Key, seq<string>>, done: set<string>, c: string)
    requires c in rootFiles && c !in done
    requires forall g, d, c2 :: (Count(m1, g, d, c2) ==
      if c2 in done then ExpectedCount(rootFiles, groups, g, d, c2) else 0)
    requires forall g, d, c2 :: (Count(m2, g, d, c2) ==
      Count(m1, g, d, c2) + (if c2 == c && g in groups && IsMatch(c, g) && d !in rootFiles[c] then multiset(groups[g])[d] else 0))
    ensures forall g, d, c2 :: (Count(m2, g, d, c2) ==
      if c2 in done + {c} then ExpectedCount(rootFiles, groups, g, d, c2) else 0)
  {
  }

  /** A key is reported exactly when some campaign is listed under it. */
  lemma MissingKeys(rootFiles: map<string, set<string>>, groups: map<string, seq<string>>,
                    missing: map<Key, seq<string>>, g: string, d: string)
    requires NoEmptyEntry(missing)
    requires forall g, d, c :: Count(missing, g, d, c) == ExpectedCount(rootFiles, groups, g, d, c)
    ensures (g, d) in missing <==> exists c :: ExpectedCount(rootFiles, groups, g, d, c) > 0
  {
    if (g, d) in missing {
      var c := missing[(g, d)][0];
      assert c in multiset(missing[(g, d)]);
      assert Count(missing, g, d, c) > 0;
    }
    if exists c :: ExpectedCount(rootFiles, groups, g, d, c) > 0 {
      var c :| ExpectedCount(rootFiles, groups, g, d, c) > 0;
      assert Count(missing, g, d, c) > 0;
    }
  }

  // ---------------------------------------------------------------------------
  // The report

  /** The campaign column: "All" for three campaigns, otherwise the sorted list. */
  function CampaignColumn(campaigns: seq<string>): (r: string)
  {
    if |campaigns| == 3 then "All" else Join(Sorted(campaigns), ", ")
  }

  /** The column does not depend on the order the campaigns were appended in. */
  lemma CampaignColumnOrderFree(a: seq<string>, b: seq<string>)
    requires multiset(a) == multiset(b)
    ensures CampaignColumn(a) == CampaignColumn(b)
  {
    assert |a| == |multiset(a)| == |multiset(b)| == |b|;
    SortedUnique(Sorted(a), Sorted(b));
  }

  /** The five fields of `p + " : " + d + " : " + col` sit where a reader splits them. */
  lemma FieldsOfLine(p: string, d: string, col: string)
    ensures var r := p + " : " + d + " : " + col;
      && |r| == |p| + 6 + |d| + |col|
      && r[..|p|] == p
      && r[|p|..|p| + 3] == " : "
      && r[|p| + 3..|p| + 3 + |d|] == d
      && r[|p| + 3 + |d|..|p| + 6 + |d|] == " : "
      && r[|p| + 6 + |d|..] == col
  {
    var r := p + " : " + d + " : " + col;
    assert r == (p + " : ") + d + (" : " + col);
    MiddleSlice(p + " : ", d, " : " + col);
    MiddleSlice(p, " : ", d + " : " + col);
    assert r == (p + " : " + d) + " : " + col;
    MiddleSlice(p + " : " + d, " : ", col);
    TakeOfJoin(p + " : " + d + " : ", col);
    assert r == p + (" : " + d + " : " + col);
    TakeOfJoin(p, " : " + d + " : " + col);
  }

  /** One report line for (`g`, `d`): the group right-aligned to 20 characters, then
      the DSID and the campaign column, separated by " : ". */
  function ReportLine(g: string, d: string, campaigns: seq<string>): (r: string)
    ensures var p := PadLeft(g, 20);
      && |r| == |p| + 6 + |d| + |CampaignColumn(campaigns)|
      && r[..|p|] == p
      && r[|p|..|p| + 3] == " : "
      && r[|p| + 3..|p| + 3 + |d|] == d
      && r[|p| + 3 + |d|..|p| + 6 + |d|] == " : "
      && r[|p| + 6 + |d|..] == CampaignColumn(campaigns)
  {
    FieldsOfLine(PadLeft(g, 20), d, CampaignColumn(campaigns));
    PadLeft(g, 20) + " : " + d + " : " + CampaignColumn(campaigns)
  }

  /** The line printed for a reported key is fixed by how often each campaign is
      expected under it: any listing with those counts prints the same line. */
  lemma ReportLineOfKey(rootFiles: map<string, set<string>>, groups: map<string, seq<string>>,
                        missing: map<Key, seq<string>>, g: string, d: string, campaigns: seq<string>)
    requires NoEmptyEntry(missing)
    requires forall g, d, c :: Count(missing, g, d, c) == ExpectedCount(rootFiles, groups, g, d, c)
    requires (g, d) in missing
    requires forall c :: multiset(campaigns)[c] == ExpectedCount(rootFiles, groups, g, d, c)
    ensures ReportLine(g, d, missing[(g, d)]) == ReportLine(g, d, campaigns)
  {
    forall c ensures multiset(missing[(g, d)])[c] == multiset(campaigns)[c] {
      assert Count(missing, g, d, c) == multiset(missing[(g, d)])[c];
    }
    assert multiset(missing[(g, d)]) == multiset(campaigns);
    CampaignColumnOrderFree(missing[(g, d)], campaigns);
  }
}
