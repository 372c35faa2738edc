# Stop2L analysis bookkeeping, modelled in Dafny

This project models the decision logic and bookkeeping of an ATLAS two-lepton stop
search (Stop2L): the code around the ROOT and Superflow plumbing that decides which
leptons, files, samples and histograms go where. It covers:

- **Batch-job log summary** (`CondorLog`, `condor_log.dfy`). It derives a job key from a
  log file name and reads `MM/DD HH:MM:SS` time stamps. It tags the retained lines as
  submit, execute, evict, abort or terminate, and checks the predecessor table and
  strictly increasing times. It credits every gap between events to user,
  submit-system or other-system time, so the three add up to the total exactly. It
  also reads the looper time from a job's stdout and ranks jobs per metric.
- **Rerun list** (`RerunList`, `rerun_list.dfy`). The incomplete outputs minus the empty
  ones are mapped to the input list they came from or, for a split job, to the xrootd
  link they were reading.
- **Expected samples** (`ExpectedSamples`, `expected_samples.dfy`). A DSID and a campaign
  are read from each output's name, and campaigns are matched to DSID groups. Every
  (group, DSID) with no output for a matching campaign is reported.
- **DSID tables and lists** (`DsidGroups`, `dsid_groups.dfy`; `DsidList`,
  `dsid_list.dfy`). The table is filtered by group name. One file per label is written,
  from the shortest group up, skipping groups already covered.
- **Lepton rules of the two ntuple makers** (`Leptons`, `leptons.dfy`; `FlatNtuples`,
  `flat_ntuples.dfy`; `Stop2L`, `stop2l.dfy`). These are:
  - the truth-class cascade;
  - the electron ID and isolation code vectors;
  - the flavour/charge cuts;
  - the command-line parser and output suffix;
  - the selection dispatch and the anti-ID rule;
  - the Z-pair and probe choice of the three-lepton region;
  - the trigger-matching slots.

  The truth-class cascade of `util/makeFlatNtuples.cxx` (lines 1371-1468) is the same
  code as the one in `util/SuperflowAnaStop2L.cxx`. One function, `Leptons.TruthClass`,
  stands for both, and the rows below cite the second copy.
- **Fake-factor friend tree** (`FakeFactor`, `fake_factor.dfy`; `AddFakeFactor`,
  `add_fake_factor.dfy`). This covers:
  - the status enums and their labels;
  - the lepton record and its `clear`;
  - the tree helper, which builds an event's leptons and caches them (a class);
  - the strict argument parser;
  - the selection of the leptons handed to the fake tool;
  - the prompt-subtraction rule for simulated events;
  - the exit codes.
- **Plot-key registry** (`PlotKeys`, `plot_keys.dfy`). This covers the numerator and
  denominator name helpers, the check of the configured regions, and the `KeyManager`
  (a class). The `KeyManager` invents a key for each histogram and records the role
  the key plays.

`Strs` (`strings.dfy`) models the Python and C string operations the scripts use:
`find`, `in`, `replace`, `strip`, slicing, `int()`, `atoi`, lexicographic order and
sorting. `Wrappers` holds `Option` and `Result`. `Seqs` holds small sequence facts.

Loops and state changes in the source are modelled as methods. Each method is proved
against a function that specifies it, and the lemmas prove the source's promises about
those functions.

## Model

| member | source | states |
|---|---|---|
| CondorLog.JobKeyOfLogName | python/summarize_condor_job_info.py:75-78 | the key of `<dir>/log_<key>.log` is `<key>`, for any key without `/`, `log_` or `.log` in it |
| CondorLog.FindTime | python/summarize_condor_job_info.py:16 | the index found is a match of the time-stamp pattern and no earlier index matches; -1 only when there is no match |
| CondorLog.DaysInMonth | python/summarize_condor_job_info.py:91 | 31, 30 or 28/29 days by month and leap year, as `datetime` requires |
| CondorLog.ParseTime | python/summarize_condor_job_info.py:80-91 | fails exactly when no stamp is found or the fields do not form a valid date; otherwise the fields are read from the fixed offsets of the first stamp and the year is the one given |
| CondorLog.ParseFormattedTime | python/summarize_condor_job_info.py:80-91 | a line whose text before the stamp has no `/` and whose stamp writes a valid time is read back as that time |
| CondorLog.BeforeIffEarlier | python/summarize_condor_job_info.py:185 | field-wise `<` on two times of one year agrees with fewer elapsed seconds since the start of the year |
| CondorLog.Classify | python/summarize_condor_job_info.py:117-126 | the tag is the first of submit, execute, evict, abort, terminate whose text the line contains, in that order of tests, and none when no text is present |
| CondorLog.StripWhereSound | python/summarize_condor_job_info.py:141 | every entry of the filtered list is a kept line, stripped |
| CondorLog.StripWhereComplete | python/summarize_condor_job_info.py:141 | every kept line, stripped, is an entry of the filtered list |
| CondorLog.TimeStampLinesAreKept | python/summarize_condor_job_info.py:135-141 | the time-stamp list is exactly the stripped log lines that carry a stamp and are neither ad-information nor image-size lines |
| CondorLog.ExtractTimes | python/summarize_condor_job_info.py:143-159 | succeeds exactly when every line's time parses; then one event per line, in order, with the line's tag and time; otherwise the error of a line whose time fails |
| CondorLog.CheckTimes | python/summarize_condor_job_info.py:161-186 | passes exactly when every line passes the predecessor test, at least one event exists and the event times strictly increase |
| CondorLog.CheckLineOrder | python/summarize_condor_job_info.py:167-181 | passes exactly when every line passes the predecessor test against the line before it |
| CondorLog.CheckIncreasing | python/summarize_condor_job_info.py:183-186 | passes exactly when there is a first event and every later time is strictly after the one before |
| CondorLog.LinesInOrderIsTable | python/summarize_condor_job_info.py:162-178 | on lines carrying one event text each, the line test is the documented lifecycle table: submit first or after abort/terminate, execute after submit/evict, evict after execute, abort after evict/submit, terminate after execute |
| CondorLog.CreditedSumsToSpan | python/summarize_condor_job_info.py:195-205 | user, submit and other time share out the whole span from the first to the last event |
| CondorLog.CreditedBounds | python/summarize_condor_job_info.py:188-205 | with strictly increasing times each bucket is non-negative and at most the whole span |
| CondorLog.DetermineDurations | python/summarize_condor_job_info.py:188-206 | total is last minus first time, each gap is credited to the bucket of the event opening it, and the three buckets add up to the total (the source's own assertion) |
| CondorLog.Split | python/summarize_condor_job_info.py:114 | splitting gives at least one field |
| CondorLog.SplitConcat | python/summarize_condor_job_info.py:114 | a field free of the separator followed by the separator splits off as the first field |
| CondorLog.FirstLooperLine | python/summarize_condor_job_info.py:106-113 | the line found is the stripped form of the first stdout line whose stripped form holds the timing pattern (no earlier line does, the loop breaks there); none is found exactly when no line holds it |
| CondorLog.LooperTime | python/summarize_condor_job_info.py:102-115 | the error for a missing timing line (the source's `0.split` raises) comes exactly when no stripped line holds the pattern; otherwise the `H:M:S` text cut from the first such line, converted to seconds |
| CondorLog.LooperTimeOfLine | python/summarize_condor_job_info.py:102-115 | a looper timing line carrying `h:m:s`, after any number of lines without the pattern and before any lines at all, reads back as `h*3600 + m*60 + s` seconds |
| CondorLog.HmsSecondsOfFormat | python/summarize_condor_job_info.py:114-115 | a printed `h:m:s` reads back as `h*3600 + m*60 + s` |
| CondorLog.HmsSecondsOfParts | python/summarize_condor_job_info.py:114-115 | three fields that `int()` reads give hours, minutes and seconds in seconds |
| CondorLog.LooperTextOf | python/summarize_condor_job_info.py:110-112 | the text cut from a timing line is what lies between the pattern plus one character and `, CPU` |
| CondorLog.PairLessTransitive | python/summarize_condor_job_info.py:239 | the `(value, key)` order used by the ranking is transitive |
| CondorLog.PairLessTotal | python/summarize_condor_job_info.py:239 | any two distinct `(value, key)` pairs are ordered |
| CondorLog.PairLessIrreflexive | python/summarize_condor_job_info.py:239 | no pair is before itself |
| CondorLog.HasMax | python/summarize_condor_job_info.py:239 | every non-empty table has a greatest `(value, key)` pair |
| CondorLog.SortDescending | python/summarize_condor_job_info.py:239 | the pairs of the table, each exactly once, strictly descending by `(value, key)` |
| CondorLog.ItemsCount | python/summarize_condor_job_info.py:239 | a table has as many `(value, key)` pairs as keys |
| CondorLog.MakeRanking | python/summarize_condor_job_info.py:238-245 | the ranking lists `min(size, nresults + 1)` rows, numbered from 0, each a table entry, in descending `(value, key)` order, and every unlisted entry ranks below every listed one |
| RerunList.Examined | python/check_for_failed_samples.py:45 | an output is examined exactly when it is incomplete and not in the empty list |
| RerunList.ExaminedIsOrderedFilter | python/check_for_failed_samples.py:45 | the examined outputs are the incomplete ones minus the empty ones, in their original order (agrees with a reference filter) |
| RerunList.SplitDetection | python/check_for_failed_samples.py:51-52 | an output named `..._n0306b.out` counts as unsplit and one named `..._n0306b_13.out` as split |
| RerunList.UnsplitOutputMatches | python/check_for_failed_samples.py:51-52 | every name with the tag, an optional lower-case letter and `.out` (anything before or after) counts as unsplit |
| RerunList.SplitOutputMisses | python/check_for_failed_samples.py:51-52 | every name with the tag followed by `_`, a digit part number and `.out`, the tag occurring nowhere else, counts as split |
| RerunList.MatchingInput | python/check_for_failed_samples.py:53-59 | none exactly when no input list's basename without `.txt` occurs in the output name; otherwise the first such input list, stripped |
| RerunList.MatchingLink | python/check_for_failed_samples.py:63-71 | none exactly when no line holds both `root://` and `susyNt.root`; otherwise the link cut from the first such line |
| RerunList.LinkOfLinkLine | python/check_for_failed_samples.py:64-67 | a line carrying `root://<path>susyNt.root` gives back exactly that link when neither marker occurs earlier |
| RerunList.RerunEntries | python/check_for_failed_samples.py:49-71 | at most one entry per examined output, and each entry is the one found for some examined output |
| RerunList.ExamineOutputs | python/check_for_failed_samples.py:45 | the loop builds exactly the examined list |
| RerunList.FindInput | python/check_for_failed_samples.py:53-59 | the loop returns the first matching input list, or none |
| RerunList.FindLink | python/check_for_failed_samples.py:63-71 | the loop returns the link of the first link line, or none |
| RerunList.FindEntry | python/check_for_failed_samples.py:51-71 | unsplit outputs look up their input list, split outputs their xrootd link |
| RerunList.BuildRerunList | python/check_for_failed_samples.py:45-71 | the examined outputs and the entries found for them, in order |
| RerunList.OutcomeAsWritten | python/check_for_failed_samples.py:73-82 | the script as written raises `NameError` exactly when some output is incomplete and none is examined |
| RerunList.AsWrittenFailsWhenAllEmpty | python/check_for_failed_samples.py:47-76 | one incomplete output that is also empty makes the script as written raise |
| RerunList.RerunOutcome | python/check_for_failed_samples.py:73-82 | the rerun list is written exactly when some output is incomplete, joined by newlines, and never raises |
| RerunList.OutcomeAsWrittenAgrees | python/check_for_failed_samples.py:73-82 | wherever the script as written does not raise, it gives the intended outcome |
| RerunList.CheckForFailedSamples | python/check_for_failed_samples.py:31-82 | writes the entries of the examined outputs, joined by newlines, exactly when some output is incomplete |
| ExpectedSamples.IsMatchIff | python/check_for_expected_samples.py:18-24 | a data group matches exactly the campaigns named inside it, a non-data group exactly the `mc16` campaigns |
| ExpectedSamples.FirstPos | python/check_for_expected_samples.py:33-35 | the position found satisfies the pattern and no earlier one does; -1 only when none does |
| ExpectedSamples.FindDsid | python/check_for_expected_samples.py:33 | the first position where `[1-9][0-9]{5}` matches, or -1 when it matches nowhere |
| ExpectedSamples.CampaignAt | python/check_for_expected_samples.py:34 | a campaign matched at a position is the text there, five characters (`mc16x`) or two (the year after `_20` or `data`) |
| ExpectedSamples.FindCampaign | python/check_for_expected_samples.py:34 | the first position where the campaign pattern matches, or -1 when it matches nowhere |
| ExpectedSamples.DigitsEnd | python/check_for_expected_samples.py:35 | the digit run from a position ends at the first non-digit or the end |
| ExpectedSamples.SuffixPos | python/check_for_expected_samples.py:35 | the first position where `(?<=_)[0-9]*$` matches the name with the DSID replaced, or -1 when it matches nowhere |
| ExpectedSamples.SuffixOf | python/check_for_expected_samples.py:35-36 | once the DSID is replaced by `X`, the suffix is the run of digits closing the name (before one final newline) when an underscore precedes it, and empty otherwise |
| ExpectedSamples.SuffixAtIff | python/check_for_expected_samples.py:35 | `(?<=_)[0-9]*$` matches at a position exactly when it is the start of the closing digit run and an underscore precedes it |
| ExpectedSamples.TrailingSuffixOf | python/check_for_expected_samples.py:35-36 | a name ending in `_` and digits, with or without a final newline, has exactly those digits as its suffix |
| ExpectedSamples.ExtractInfo | python/check_for_expected_samples.py:32-37 | fails exactly when the name has no DSID or no campaign; otherwise the six characters at the first DSID match (a six-digit number not starting with 0), the first campaign matched, and the suffix of the name with that DSID replaced |
| ExpectedSamples.ParseNames | python/check_for_expected_samples.py:41-42 | succeeds exactly when every name parses, giving each name's info in order; otherwise the error of a name that fails |
| ExpectedSamples.SeenSnoc | python/check_for_expected_samples.py:41-43 | one more file adds its DSID to its campaign's set and its campaign to the campaigns seen |
| ExpectedSamples.GroupByCampaign | python/check_for_expected_samples.py:40-43 | the keys are exactly the campaigns seen, each mapped to the DSIDs seen with it |
| ExpectedSamples.CollectRootFiles | python/check_for_expected_samples.py:40-43 | succeeds exactly when every name parses, and then maps each campaign seen to its DSIDs |
| ExpectedSamples.AddGroup | python/check_for_expected_samples.py:50-53 | every DSID of the group not found gets the campaign appended once per listing, nothing else changes, and no entry is empty |
| ExpectedSamples.AddCampaign | python/check_for_expected_samples.py:48-53 | each matching group adds its missing DSIDs for the campaign, non-matching groups add nothing |
| ExpectedSamples.FindMissing | python/check_for_expected_samples.py:46-53 | campaign `c` is listed under (group, DSID) exactly once for every listing of the DSID in a group that `c` matches, when `c` was seen and the DSID was not found with it |
| ExpectedSamples.MissingKeys | python/check_for_expected_samples.py:46-54 | a (group, DSID) key is reported exactly when some campaign is listed under it |
| ExpectedSamples.CampaignColumnOrderFree | python/check_for_expected_samples.py:56 | the campaign column ("All" for three, otherwise the sorted list) does not depend on the order campaigns were appended in |
| ExpectedSamples.ReportLine | python/check_for_expected_samples.py:52-57 | the printed line is the group right-aligned in 20 characters, " : ", the DSID, " : ", then the campaign column, each field at its own position |
| ExpectedSamples.ReportLineOfKey | python/check_for_expected_samples.py:46-57 | the line printed for a reported (group, DSID) key is fixed by how often each campaign is expected under it, whatever order the campaigns were appended in |
| DsidGroups.McGroups | python/analysis_DSIDs.py:959-960 | exactly the groups whose name lacks "data", with their lists unchanged |
| DsidGroups.DataPattern | python/analysis_DSIDs.py:963-964 | the pattern starts with "data" (followed by the year when one is given) |
| DsidGroups.DataGroups | python/analysis_DSIDs.py:962-965 | exactly the groups whose name contains the pattern, with their lists unchanged |
| DsidGroups.McAndDataPartition | python/analysis_DSIDs.py:959-965 | the MC groups and the data groups of all years are disjoint and together make up the whole table |
| DsidGroups.YearIsSubset | python/analysis_DSIDs.py:962-965 | the data groups of one year are among the data groups of all years |
| DsidList.SizeOrder | python/make_dsid_list.py:53 | every group exactly once, shorter lists first |
| DsidList.EmitWritesUnion | python/make_dsid_list.py:52-59 | the written-DSID set ends as the DSIDs of every group visited, whether written or skipped |
| DsidList.EmitSkipsCovered | python/make_dsid_list.py:55 | a group is written exactly when its DSIDs are not all among those written by the groups before it |
| DsidList.EmitNames | python/make_dsid_list.py:53-56 | only visited groups are written |
| DsidList.EmptyGroupNotWritten | python/make_dsid_list.py:55 | a group with an empty list is never written (the empty set is a subset of anything) |
| DsidList.RenderSnoc | python/make_dsid_list.py:56-60 | writing one more group appends its header, its DSIDs in order and a blank line |
| DsidList.WriteGroups | python/make_dsid_list.py:52-60 | the file's lines are the rendering of the groups the subset rule lets through, and the written set is their union |
| DsidList.EmitSources | python/make_dsid_list.py:57-59 | every DSID newly in the written set comes from a group that was written |
| DsidList.RenderHolds | python/make_dsid_list.py:56-58 | every DSID of a written group is a line of the file |
| DsidList.EveryDsidListed | python/make_dsid_list.py:52-60 | whatever the subset rule skips, every DSID of every group of the label appears in its file |
| DsidList.GroupsList | python/make_dsid_list.py:38-46 | four data entries when data or all is asked for, plus one MC entry when mc or all is |
| DsidList.DataYearEntry | python/make_dsid_list.py:40-43 | the k-th data entry is labelled `data1<5+k>` and holds the data groups of that year |
| DsidList.GroupsListLabels | python/make_dsid_list.py:38-46 | labels come in the order data15..data18, mc16; the MC entry is last and present exactly when asked for, and each label holds its own groups |
| DsidList.MakeDsidLists | python/make_dsid_list.py:33-61 | more than one flag stops before anything is written; otherwise one file per label, named `<output>/desired_<label>_DSIDs.txt` and written from its groups in size order |
| Leptons.TruthClass | util/SuperflowAnaStop2L.cxx:1323-1425 | the class is between -3 and 10 |
| Leptons.LeptonTruthClass | util/SuperflowAnaStop2L.cxx:1323-1324 | `-INT_MAX` exactly for a missing lepton, otherwise a class between -3 and 10 |
| Leptons.TruthClassFirstMatch | util/SuperflowAnaStop2L.cxx:1399-1408 | class k (1 to 10) is given exactly when category k holds and no earlier category does, and some class 1 to 10 is given exactly when some category holds |
| Leptons.TruthClassFallback | util/SuperflowAnaStop2L.cxx:1409-1425 | without a category the class is -1 (no truth information), -2 (no mother information), -3 (no origin) or 0, by the source's tests in order |
| Leptons.NoTruthInfo | util/SuperflowAnaStop2L.cxx:1409 | a record with every truth field zero is class -1 |
| Leptons.PromptClasses | util/SuperflowAnaStop2L.cxx:1352-1363 | the prompt classes 1 and 2 are exactly the prompt electrons and prompt muons |
| Leptons.ElectronCode | util/SuperflowAnaStop2L.cxx:858-864 | the code is the first working point passed, tightest first, and 5 exactly when none is |
| Leptons.ElectronIds | util/SuperflowAnaStop2L.cxx:855-867 | one code per electron, in order |
| Leptons.SetIndices | util/SuperflowAnaStop2L.cxx:205-213 | exactly the indices of the set flags, ascending |
| Leptons.IsoCodes | util/SuperflowAnaStop2L.cxx:199-216 | starts with -1; holds each working point's code exactly when the lepton passes it; holds the "none" code exactly when it passes none; strictly ascending |
| Leptons.OfFlavour | util/SuperflowAnaStop2L.cxx:482-491 | only present leptons of the flavour asked for, and no more of them than slots |
| Leptons.OfFlavourStep | util/SuperflowAnaStop2L.cxx:482-491 | one more slot appends its lepton when present and of the flavour, and nothing otherwise |
| Leptons.FirstTwoSnoc | util/SuperflowAnaStop2L.cxx:483-490 | an appended lepton fills the first of the two leading slots that is empty |
| Leptons.TriggerSlots | util/SuperflowAnaStop2L.cxx:482-491 | `el0`/`el1` are the first and second electrons and `mu0`/`mu1` the first and second muons of the list, missing entries passed over and missing slots left null |
| Leptons.DilepFlav | util/makeFlatNtuples.cxx:1048-1058 | `-INT_MAX` exactly with fewer than two leptons; otherwise 0 exactly for electron-muon, 1 for muon-electron, 2 for two electrons, 3 for two muons and 4 exactly when either lepton is neither |
| Leptons.CutsAgreeWithFlavour | util/makeFlatNtuples.cxx:1354-1368 | on electron and muon pairs the SFOS cut is opposite charge with flavour code 2 or 3, the DFOS cut opposite charge with code 0 or 1, and no event passes both |
| FlatNtuples.ToUint | util/makeFlatNtuples.cxx:77-78 | the value stored in an `unsigned int` is below 2^32 and congruent to the value assigned |
| FlatNtuples.Args.constructor | util/makeFlatNtuples.cxx:71-81 | the defaults: no input, `n_events` = -1 stored unsigned, nothing skipped, no suffix, no selection |
| FlatNtuples.Args.Parse | util/makeFlatNtuples.cxx:119-156 | the options and verdict are those of the argument-by-argument reading `ParseFrom` defines |
| FlatNtuples.ParseVerdict | util/makeFlatNtuples.cxx:119-156 | a successful parse has an input name; a failed one has none or met `-h` |
| FlatNtuples.UnknownFlagIgnored | util/makeFlatNtuples.cxx:143-147 | an unrecognised flag changes no option and parsing goes on |
| FlatNtuples.ParseInputOnly | util/makeFlatNtuples.cxx:119-156 | `prog -i <file>` sets the input and succeeds |
| FlatNtuples.NegativeCountWraps | util/makeFlatNtuples.cxx:133-134 | `-n -1` stores 2^32 - 1 events |
| FlatNtuples.DetermineSuffix | util/makeFlatNtuples.cxx:267-276 | the user's suffix, then `_` when it is not empty, then the selection's name, and nothing else |
| FlatNtuples.CutflowsToRun | util/makeFlatNtuples.cxx:165-194 | the parser's `std::out_of_range` ends the program exactly when it is thrown; a failed parse (exactly) returns 1; otherwise each selection runs once exactly when its flag is set and never otherwise, baseline before Z->ll |
| FlatNtuples.SelectionsDisjoint | util/makeFlatNtuples.cxx:395-406 | no event passes both the baseline (DFOS) and the Z->ll (SFOS) lepton cuts |
| FlatNtuples.LeptonIso | util/makeFlatNtuples.cxx:675-729 | empty exactly when lepton i is missing, otherwise its isolation codes over the five working points |
| FlatNtuples.TriggerLeptons | util/makeFlatNtuples.cxx:316-322 | the first and second selected leptons that are present, in that order and no others: one entry per present lepton, the first one first and the second one last |
| FlatNtuples.LeptonShortcuts | util/makeFlatNtuples.cxx:315-341 | the trigger leptons of the first two selected leptons, and the first two electrons and muons among all selected leptons present, missing ones passed over |
| Stop2L.ChooseSelection | util/SuperflowAnaStop2L.cxx:260-287 | failing to read the options or an unknown name exits with 1; a chosen selection carries the name given |
| Stop2L.ChooseSelectionByName | util/SuperflowAnaStop2L.cxx:266-287 | every selection is chosen by its own name, and a name is accepted exactly when some selection has it |
| Stop2L.MuonAntiID | util/SuperflowAnaStop2L.cxx:1290-1313 | an anti-ID muon is exactly a medium muon inside the acceptance that fails FCLoose isolation |
| Stop2L.IsIDLepton | util/SuperflowAnaStop2L.cxx:1314-1321 | true exactly when the lepton is one of the signal leptons (the same object) |
| Stop2L.TwoLepTrigMatched | util/SuperflowAnaStop2L.cxx:1282-1288 | false when either lepton is missing; with both, exactly when the trigger fired and is matched |
| Stop2L.LepIso | util/SuperflowAnaStop2L.cxx:199-216 | empty exactly without a lepton, otherwise its isolation codes over the eight working points |
| Stop2L.ZPair | util/SuperflowAnaStop2L.cxx:414-428 | with three or more leptons, the first pair in visiting order whose distance is smallest and below `FLT_MAX`; -1, -1 when there are fewer leptons or no such pair |
| Stop2L.ZPairChoiceUnique | util/SuperflowAnaStop2L.cxx:414-428 | the search has exactly one answer: two pairs that both meet its specification are the same pair |
| Stop2L.ProbeIndex | util/SuperflowAnaStop2L.cxx:456-459 | the first of 0, 1, 2 that is not in the Z pair |
| Stop2L.ProbeCompletesTriple | util/SuperflowAnaStop2L.cxx:452-463 | with three leptons the Z pair and the probe are the three leptons, each once |
| Stop2L.AntiIDLeptons | util/SuperflowAnaStop2L.cxx:410-412 | exactly the anti-ID baseline leptons, in order |
| Stop2L.CollectAntiID | util/SuperflowAnaStop2L.cxx:410-412 | the loop collects exactly the anti-ID baseline leptons, in order |
| Stop2L.RolesOf | util/SuperflowAnaStop2L.cxx:436-480 | the Z+jets branch fails exactly when no Z pair was found; the trigger leptons are at most two of the signal leptons and are `lep1` then `lep2` whenever there are any; a second probe only comes with a first |
| Stop2L.ZjetsRolesCoverTriple | util/SuperflowAnaStop2L.cxx:452-463 | in the three-lepton region the two Z leptons and the probe are the event's three leptons, each once |
| Stop2L.SetGlobals | util/SuperflowAnaStop2L.cxx:378-491 | fails only in the three-lepton region without a Z pair; otherwise the anti-ID list, and leptons, probes and trigger leptons exactly as the region branches choose them from the Z-pair search's answer (in the three-lepton region the first least-distance pair, its probe and the pair as trigger leptons), and the first two electrons and muons among the trigger leptons |
| FakeFactor.TruthLabel | LexStop2LAnalysis/addFakeFactor.h:36-43 | the label is `Undefined`, `Prompt` or `Fake` exactly for the matching truth status |
| FakeFactor.RecoLabel | LexStop2LAnalysis/addFakeFactor.h:45-53 | the label is `Undefined`, `ID`, `Anti-ID` or `Other` exactly for the matching reconstruction status |
| FakeFactor.LabelsDistinct | LexStop2LAnalysis/addFakeFactor.h:36-53 | no two statuses share a label |
| FakeFactor.Cleared | LexStop2LAnalysis/addFakeFactor.h:77-83 | a cleared lepton is a muon of undefined statuses with -99 in every kinematic field and the charge |
| FakeFactor.ClearedIsInert | LexStop2LAnalysis/addFakeFactor.h:77-83 | a cleared lepton is never handed to the fake tool and never counts as prompt |
| FakeFactor.ToolInput | util/addFakeFactor.cxx:212-218 | the fake-tool input is no longer than the lepton list |
| FakeFactor.ToolInputCounts | util/addFakeFactor.cxx:212-218 | the fake tool gets every ID and anti-ID lepton as often as it occurs, and no other lepton |
| FakeFactor.ToolInputAppend | util/addFakeFactor.cxx:212-218 | the input of two lists joined is the two inputs joined |
| FakeFactor.GetTruthStatus | LexStop2LAnalysis/TreeHelper.h:170-176 | prompt exactly for truth classes 1 and 2, never undefined |
| FakeFactor.PromptIffPromptClass | LexStop2LAnalysis/TreeHelper.h:170-176 | a lepton classified by the truth cascade is prompt exactly when it is a prompt electron or muon |
| FakeFactor.BuildLepton | LexStop2LAnalysis/TreeHelper.h:24-35 | electron exactly for flavour 0, kinematics and charge copied, the status given, truth status undefined exactly for data and otherwise prompt exactly for classes 1 and 2 |
| FakeFactor.Clamp4 | LexStop2LAnalysis/TreeHelper.h:123-166 | the count clamped to 0..4 |
| FakeFactor.IdEntries | LexStop2LAnalysis/TreeHelper.h:123-143 | as many entries as signal leptons, at most four: `lep1` and `lep2` with status ID, then the first probe with the third status, then that same entry again |
| FakeFactor.AntiEntries | LexStop2LAnalysis/TreeHelper.h:145-166 | as many entries as inverted leptons, at most four: the first probe as anti-ID, then the second probe as anti-ID for every further entry |
| FakeFactor.Built | LexStop2LAnalysis/TreeHelper.h:122-167 | all ID-derived entries come before all anti-ID entries |
| FakeFactor.DataHasNoTruth | LexStop2LAnalysis/TreeHelper.h:34 | every built lepton of a data event has an undefined truth status, so it counts as all-prompt only when empty |
| FakeFactor.ToolInputOfBuilt | util/addFakeFactor.cxx:210-218 | the fake tool gets the two ID entries, the third and fourth entries only when their status is ID or anti-ID, and every anti-ID entry |
| FakeFactor.AntiEntriesForTool | util/addFakeFactor.cxx:212-218 | every anti-ID entry reaches the fake tool |
| FakeFactor.ThirdIdEntryCanBeDropped | LexStop2LAnalysis/TreeHelper.h:135-138 | with three signal leptons and an unassigned status that happens to be undefined, one built lepton never reaches the fake tool |
| FakeFactor.IntendedBuilt | LexStop2LAnalysis/TreeHelper.h:122-167 | with every ID-derived entry marked ID, every built lepton reaches the fake tool, and the count is unchanged |
| FakeFactor.TreeHelper.constructor | LexStop2LAnalysis/TreeHelper.h:41 | a new helper has no cached leptons |
| FakeFactor.TreeHelper.GetEntry | util/addFakeFactor.cxx:203 | reading an entry replaces the branch values and leaves the cache alone |
| FakeFactor.TreeHelper.Clear | LexStop2LAnalysis/addFakeFactor.h:113-115 | the cache is emptied and the branch values kept |
| FakeFactor.TreeHelper.BuildLeptons | LexStop2LAnalysis/TreeHelper.h:122-167 | appends the built leptons of the current entry to the cache |
| FakeFactor.TreeHelper.PushIdLeptons | LexStop2LAnalysis/TreeHelper.h:123-143 | appends the ID-derived entries |
| FakeFactor.TreeHelper.PushAntiIdLeptons | LexStop2LAnalysis/TreeHelper.h:145-166 | appends the anti-ID entries |
| FakeFactor.TreeHelper.Leptons | LexStop2LAnalysis/addFakeFactor.h:108-111 | an empty cache is filled by building the entry's leptons; a filled cache is returned unchanged |
| FakeFactor.LeptonsTwice | LexStop2LAnalysis/addFakeFactor.h:108-111 | from an empty cache the first call builds the leptons; a second call returns the same list unless the first built none |
| AddFakeFactor.ApplyArg | util/addFakeFactor.cxx:93-121 | an empty argument throws, an unknown flag stops the parse, a non-flag changes nothing, and the program name is never changed |
| AddFakeFactor.Checked | util/addFakeFactor.cxx:124-140 | the checks pass exactly when the input and fake-factor names are given and accessible; the selection is not checked |
| AddFakeFactor.Args.constructor | util/addFakeFactor.cxx:36-47 | the defaults: empty names, friend tree `fakeFactorInfo`, no test, no debug |
| AddFakeFactor.Args.Parse | util/addFakeFactor.cxx:87-141 | the options and verdict are those of the argument-by-argument reading `ParseFrom` defines |
| AddFakeFactor.Args.ApplyFlag | util/addFakeFactor.cxx:99-121 | a known flag sets what `ApplyArg` says; an unknown one changes nothing and is reported |
| AddFakeFactor.ParseSucceeds | util/addFakeFactor.cxx:87-141 | a parse succeeds exactly when no argument is empty, help or an unknown flag, and the final checks pass |
| AddFakeFactor.UnknownFlagFails | util/addFakeFactor.cxx:116-121 | an unknown flag makes the parse fail |
| AddFakeFactor.SelectionOptional | util/addFakeFactor.cxx:137-140 | an empty selection does not change the verdict |
| AddFakeFactor.SelectForTool | util/addFakeFactor.cxx:211-218 | the loop collects exactly the fake-tool input |
| AddFakeFactor.AllPromptScan | util/addFakeFactor.cxx:322-327 | true exactly when every lepton is prompt, so true for an empty list |
| AddFakeFactor.AdjustWeight | util/addFakeFactor.cxx:232-240 | data weights unchanged; all-prompt simulated events negated, errors kept; other simulated events zeroed with their errors |
| AddFakeFactor.AdjustInvolutive | util/addFakeFactor.cxx:232-240 | adjusting twice restores data and prompt weights and leaves zeroed weights zero |
| AddFakeFactor.EventResults | util/addFakeFactor.cxx:201-254 | one result per event, each that event's row |
| AddFakeFactor.RowsMeaning | util/addFakeFactor.cxx:201-254 | the loop runs to the end exactly when every event succeeds, and the rows filled are the events' weights in order |
| AddFakeFactor.Run | util/addFakeFactor.cxx:149-266 | the step-by-step program ends as `RunSpec` says |
| AddFakeFactor.ProcessEvents | util/addFakeFactor.cxx:201-254 | the rows filled up to the first failing event, and whether there was none |
| AddFakeFactor.ProcessEvent | util/addFakeFactor.cxx:202-240 | one pass of the loop gives the event's row |
| AddFakeFactor.ExitCodes | util/addFakeFactor.cxx:149-266 | an empty argument terminates; otherwise the code is 3 (parse, open or event failure), 1 exactly when the tool does not initialise, 0 exactly when everything succeeds |
| AddFakeFactor.TestModeWritesNothing | util/addFakeFactor.cxx:170-171 | test mode opens read-only and never writes; otherwise the file is written exactly on success |
| AddFakeFactor.SuccessRows | util/addFakeFactor.cxx:201-254 | on success one row per entry: the fake tool's weight for data, negated for all-prompt simulated events, zero for other simulated events |
| PlotKeys.RemoveNumDen | python/fake_factor_plot_looper.py:1002-1008 | stripping the numerator and denominator tags and the underscores never makes a name longer than the name with only the tags deleted |
| PlotKeys.ReplaceShrinks | python/fake_factor_plot_looper.py:1005 | replacing `__` by `_` never lengthens the text |
| PlotKeys.RemoveNumDenPlain | python/fake_factor_plot_looper.py:1002-1008 | a name with no tag, no doubled underscore and no underscore at either end is returned unchanged |
| PlotKeys.RemoveNumDenTagged | python/fake_factor_plot_looper.py:1002-1008 | a sample named `<base>_<tag>` with either channel tag is stored under `<base>` |
| PlotKeys.FakeChannel | python/fake_factor_plot_looper.py:1011-1012 | the denominator tag when the region name holds it, and the numerator tag when it does not |
| PlotKeys.ChannelOfDenRegion | python/fake_factor_plot_looper.py:1011-1012 | any region name containing the denominator tag is a denominator region |
| PlotKeys.WithTag | python/fake_factor_plot_looper.py:1077-1078 | the selected names are the configured names that hold the tag, each as many times as it is configured, and no others |
| PlotKeys.DeleteTag | python/fake_factor_plot_looper.py:1082-1083 | each name, position by position, with every occurrence of the tag deleted |
| PlotKeys.CheckImportGlobals | python/fake_factor_plot_looper.py:1069-1085 | the first assertion fails exactly when some region holds neither tag; the check passes exactly when every region holds a tag and the untagged numerator names are a permutation of the untagged denominator names |
| PlotKeys.Present | python/fake_factor_plot_looper.py:212-225 | the listed keys are exactly the set, non-empty slots |
| PlotKeys.TruthyValues | python/fake_factor_plot_looper.py:227-249 | the listed dictionary values are exactly its non-empty values |
| PlotKeys.FakeFactorInputKeys | python/fake_factor_plot_looper.py:251-254 | the fake-factor inputs are the data keys followed by the present fake and fake composition-systematic totals |
| PlotKeys.PresentAppend | python/fake_factor_plot_looper.py:251-254 | filtering a concatenation of slot lists is concatenating the filtered lists |
| PlotKeys.MembershipTests | python/fake_factor_plot_looper.py:258-279 | each `is_*` test holds exactly when the key is in the list its `get_*_keys` returns, and never for `None` |
| PlotKeys.InSlotsIff | python/fake_factor_plot_looper.py:258-264 | a key is among the slots exactly when it is in their present keys |
| PlotKeys.InFamilyIff | python/fake_factor_plot_looper.py:264-274 | a key belongs to a family exactly when it is among the family's listed keys |
| PlotKeys.FakeFactorOf | python/fake_factor_plot_looper.py:94-120 | a fake-factor lookup succeeds exactly when the histogram key is set and has a recorded fake factor (otherwise it is Python's KeyError) |
| PlotKeys.FakeFactorFound | python/fake_factor_plot_looper.py:94-120 | after a fake-factor key is generated for the histogram a property names, the property returns it; every other histogram's lookup is unchanged |
| PlotKeys.HistRoleOf | python/fake_factor_plot_looper.py:122-140 | the five branches of `generate_hist_key` as an exact case split on the cut's fake and background selections, the composition weight and whether the sample is simulation |
| PlotKeys.CompSysWeight | python/fake_factor_plot_looper.py:345-400 | the numerator expression for the numerator channel, otherwise the denominator expression |
| PlotKeys.HistKeyRecognised | python/fake_factor_plot_looper.py:122-140 | a recorded histogram key passes its role's `is_*` test (raw MC and data only when non-empty); recording leaves the fake factors and, except for data, the data slots alone |
| PlotKeys.StackRoleFirstMatch | python/fake_factor_plot_looper.py:142-155 | the stack is chosen by the first test that holds, in source order |
| PlotKeys.StackKeyRecognised | python/fake_factor_plot_looper.py:142-155 | a recorded stack key is a stack key and a key of its own family |
| PlotKeys.McRoleFirstMatch | python/fake_factor_plot_looper.py:157-178 | the total MC histogram is chosen by the first test that holds, in source order |
| PlotKeys.McTotalRecognised | python/fake_factor_plot_looper.py:157-178 | a recorded total is recognised by its family's test and listed among the total MC keys, and is never turned into a data key |
| PlotKeys.HistGoesToItsTotal | python/fake_factor_plot_looper.py:122-178 | a fake, fake composition-systematic or background histogram goes to its own family's total unless an earlier test already claims its key |
| PlotKeys.SysTestsOnlyMatchNone | python/fake_factor_plot_looper.py:276-279 | the shifted-background tests compare with slots no generator assigns, so they match only `None` and their branches never fire for a key |
| PlotKeys.KeyManager.constructor | python/fake_factor_plot_looper.py:71-91 | a fresh manager has every slot unset and every dictionary empty |
| PlotKeys.KeyManager.GenerateHistKey | python/fake_factor_plot_looper.py:122-140 | returns the role's key for the stripped sample name and records it in that role's dictionary or in the data slot; the fake and background keys then pass their tests |
| PlotKeys.KeyManager.GenerateStackKey | python/fake_factor_plot_looper.py:142-155 | returns the stack key of the histogram's family and records it in that family's stack slot, after which it passes the stack test |
| PlotKeys.KeyManager.GenerateMcHistKey | python/fake_factor_plot_looper.py:157-178 | returns the total key of the histogram's role and records it in that role's slot; nothing else changes |
| PlotKeys.KeyManager.GenerateDataCorrKey | python/fake_factor_plot_looper.py:180-183 | the data key with `_bkgd_subtracted` appended, recorded as the corrected data slot and then a data key |
| PlotKeys.KeyManager.GenerateDataCompSysKey | python/fake_factor_plot_looper.py:185-188 | the data key with `_comp_sys` appended, recorded as the composition-systematic data slot and then a data key |
| PlotKeys.KeyManager.GeneratePromptSysUpKey | python/fake_factor_plot_looper.py:190-196 | `<key>_prompt_sys_up` is recorded for a data histogram, else for a shifted background, else nowhere |
| PlotKeys.KeyManager.GeneratePromptSysDnKey | python/fake_factor_plot_looper.py:198-204 | `<key>_prompt_sys_dn` is recorded for a data histogram, else for a shifted background, else nowhere |
| PlotKeys.KeyManager.GenerateFakeFactorKey | python/fake_factor_plot_looper.py:206-209 | `fake_factor_<key>` is recorded for the histogram and is then found by a lookup of that histogram |

## Left out

- Printing, logging, progress messages and the `TESTING` prints of the `KeyManager`. `check_for_expected_samples.py` prints its lines in the sorted order of the key text; the model gives the reported map and the text of each line (`ExpectedSamples.ReportLine`), not that order. The ranking text of `summarize_condor_job_info.py` is left out too: the `"Ranking for %s"` header, the `'%4d) %10s : %s'` rows and the write to `condor_summary_ranking.txt` (`CondorLog.MakeRanking` gives the ranked rows, not their text).
- Shell-outs and file-system access. `get_cmd_output` (`grep`, `find`, `grep -A 12 | tail`), `glob`, `open` and `os.path` existence tests are inputs to the model: lists of lines and paths, or predicates such as `accessible` (standing for `gSystem->AccessPathName`).
- CondorLog.ParseTime: the year is a parameter rather than `date.today().year`, because the clock is outside the model.
- The floating-point work of `summarize_condor_job_info.py` is not modelled: `extract_looper_rate`, the KB to MB rounding of `determine_mem_usage`, and `print_summary_info` and `write_out_csv` (hours rounding and CSV output). The model keeps durations as whole seconds.
- CondorLog.ExtractTimes: defined only when every retained line is recognised. On an unrecognised line the script reuses a stale tag or raises.
- Kinematics are not modelled: `TLorentzVector` masses, ΔR, MT2, the jigsaw variables, jets, MET and pile-up. Where a rule compares floating-point values (the Z-pair distance, the acceptance cuts), the model uses `real` numbers or the boolean outcome of the comparison, so rounding is not modelled.
- ROOT, Superflow, xAOD and trigger-tool calls: `TChain`/`TTree`/`TFile` I/O, variable registration, `to_iparticle` and `initialize_fakefactor_tool` (its success is a parameter). `getEventWeight` is the parameter `tool`, a function from the selected leptons to an optional weight. Whether the dilepton trigger fired and is matched is a parameter of `Stop2L.TwoLepTrigMatched`.
- The dictionaries `*_stack_hists` of the `KeyManager` are `map`s. Their values are compared as a set, so the order in which Python 2 lists them is not modelled.
- PlotKeys.CompSysWeight: the two composition-weight expressions of `get_comp_sys_weight` are parameters. The model states which of the two is chosen in both cases, not the floating-point numbers inside them.
- FakeFactor.IdEntries: the unassigned `recoStatus` of the third ID entry (an indeterminate value in C++) is a parameter `third`. Every property is stated for any value of it.
- Leptons.TruthClass: the enum values of `MCTruthPartClassifier` come from its standard definition. Its header is not part of this model.
- `get_all_groups` returns the DSID table unchanged, so the table stands for it. `DSID_GROUPS` itself (the constant table) is a parameter.
- FlatNtuples.Args.Parse and AddFakeFactor.Args.Parse: the text printed for `-h` and for errors is not modelled. Only the options and the verdict are.
- `get_stat_error`, `get_syst_error` and the plotting and drawing code of `fake_factor_plot_looper.py` are floating point and ROOT drawing.
- The plotting scripts and the ROOT macro with no bookkeeping logic.
- Concurrency: nothing in the modelled code is concurrent.

## Findings

| source | as written | input that shows it | evidently intended | confidence | as-written member | corrected member |
|---|---|---|---|---|---|---|
| python/check_for_failed_samples.py:73-76 | `files_to_rerun` is bound only inside `if len(get_input_files)`, and line 76 reads it whenever some output is incomplete | one incomplete output that is also empty (a job still running): `not_complete_files == empty_files == ["log_group.data16.p3637_n0306_1.out"]` raises `NameError` at line 76 | report that no output needs a rerun and write an empty rerun list | not executed | RerunList.OutcomeAsWritten, RerunList.AsWrittenFailsWhenAllEmpty | RerunList.RerunOutcome |
| LexStop2LAnalysis/TreeHelper.h:135-138 | the third ID entry (and its copy) never gets a `recoStatus`, unlike the first two (lines 126 and 132) | `nSigLeps == 3` when the indeterminate status reads as `UNDEFINED` (or `OTHER`): the entry is built but never handed to the fake tool (util/addFakeFactor.cxx:212-218) | mark the ID-derived entries `ID`, so that every built lepton reaches the fake tool; the program model (`AddFakeFactor.Event`) takes this status per event, and `ID` there is exactly `FakeFactor.IntendedBuilt` | not executed | FakeFactor.ThirdIdEntryCanBeDropped | FakeFactor.IntendedBuilt |
