# meddrug-agent in Dafny

This project models the deterministic logic of the meddrug-agent drug-discovery web front end. Each part is a Dafny module, and properties of each are proved.

**Molecule utilities** (`MoleculeUtils`):
- the shallow SMILES syntax check;
- the mock molecular weight;
- the Lipinski Rule-of-Five counter.

**Datasets:**
- the naive CSV parser (`DatasetLoader`);
- the per-dataset histograms of the dataset analyser (`DatasetAnalyzer`).

**Jobs:**
- the shared computation-job list and its simulated progress timer (`ComputationContext`);
- the job card's duration text and title (`JobManager`).

**Pages and panels:**
- the catalogue explorer's filter, search and sort (`DrugExplorer`);
- the molecular search panel (`MolecularSearch`);
- the design workbench's target extraction and docking run (`DrugDesignWorkbench`);
- the SMILES input form (`MoleculeInputForm`);
- the analysis page's mock descriptors, drug-likeness label and binding class (`MoleculeAnalysis`, `BindingClass`).

**Chat:** the keyword routers and message lists of the two scripted assistants (`AIAssistant`, `AIChatbot`), built on a shared first-match rule table (`KeywordRules`).

**JavaScript semantics the code depends on** are written out in helper modules:
- the ECMAScript whitespace set, `trim`, `toLowerCase`, `includes`, `split` and `${n}` (`JsText`);
- numbers with `NaN` and `parseFloat` (`JsNumber`);
- `filter`, `slice`, a stable sort and first-occurrence de-duplication (`SeqUtil`);
- `undefined` as `Option` (`Wrappers`).

**How the code's forms become Dafny:**
- **React components become classes.** Each component whose handlers update state becomes a `class` whose fields are the `useState` variables. Each handler is a method with a `modifies` clause.
- **Delayed callbacks become separate methods.** Each `setTimeout` or `setInterval` callback is a method of its own, for example `CompleteSearch`, `DeliverReply` and `ProgressSimulation.Tick`. The caller fires it, so time itself is not modelled.
- **Random values become parameters.** Each `Math.random()` draw is a parameter, constrained to the range the source produces.
- **Clock values become parameters.** So is each id or timestamp derived from the clock.

Where the source writes a loop that mutates state, the model does too, and those methods are proved against specification functions:
- `validateSMILES`;
- the row builder of `parseCSV`;
- the `analyze*` histogram passes.

## Model

| member | source | states |
|---|---|---|
| MoleculeUtils.ValidateSmiles | src/utils/moleculeUtils.ts:6-27 | accepts exactly when the string is not blank, no prefix has more `)` than `(`, the round brackets balance, only allowed characters occur and an upper-case letter occurs |
| MoleculeUtils.DepthCounts | src/utils/moleculeUtils.ts:10-14 | the running depth of a string is its number of `(` minus its number of `)` |
| MoleculeUtils.BlankRejected | src/utils/moleculeUtils.ts:7 | the empty string and whitespace-only strings are rejected |
| MoleculeUtils.NegativeDepthRejected | src/utils/moleculeUtils.ts:10-15 | a prefix that closes more round brackets than it opens makes the string invalid |
| MoleculeUtils.ClosingFirstRejected | src/utils/moleculeUtils.ts:10-15 | a string that starts with `)` is rejected, even when the totals balance |
| MoleculeUtils.RemainingChecks | src/utils/moleculeUtils.ts:16-26 | once blankness and prefix depth are settled, validity is balance, allowed characters and an atom letter |
| MoleculeUtils.SpaceRejected | src/utils/moleculeUtils.ts:19-20 | a string containing a space is never valid |
| MoleculeUtils.UnpairedSquareBracketAccepted | src/utils/moleculeUtils.ts:19-24 | square brackets are not paired: `C[` is accepted |
| MoleculeUtils.CalculateMolecularWeight | src/utils/moleculeUtils.ts:33-37 | the mock weight, ten per character; its additivity and the 50-character limit are stated by `MolecularWeightLimit` |
| MoleculeUtils.MolecularWeightLimit | src/utils/moleculeUtils.ts:33-37 | the weight is additive over concatenation and is at most 500 exactly for strings of at most 50 characters |
| MoleculeUtils.CheckLipinskiRules | src/utils/moleculeUtils.ts:42-65 | `details` are the four thresholds in order; `violations` counts the false ones (0..4); passes iff at most one violation |
| MoleculeUtils.LipinskiPassesIffNoTwoFail | src/utils/moleculeUtils.ts:59-62 | a molecule passes exactly when no two rules fail together |
| DatasetLoader.Fields | src/utils/datasetLoader.ts:25 | one trimmed field per comma-separated piece of the line |
| DatasetLoader.RowOfKeys | src/utils/datasetLoader.ts:28-30 | a row's keys are exactly the header names; extra fields are dropped and missing ones padded |
| DatasetLoader.RowOfValue | src/utils/datasetLoader.ts:28-30 | the value under a header is the field at its last position, or `''` past the end of the line (a later duplicate header wins) |
| DatasetLoader.BuildRow | src/utils/datasetLoader.ts:26-31 | the `forEach` that fills the row object yields the row of the headers and fields |
| DatasetLoader.ParseCsv | src/utils/datasetLoader.ts:16-34 | split on newlines, trimmed headers, blank data lines dropped, one row per kept line; stated by the `ParseCsv*` lemmas below |
| DatasetLoader.ParseCsvSingleLine | src/utils/datasetLoader.ts:17-18 | text without a line break has no rows |
| DatasetLoader.ParseCsvRowCount | src/utils/datasetLoader.ts:22-23 | rows plus blank data lines equal the data lines |
| DatasetLoader.ParseCsvInLineOrder | src/utils/datasetLoader.ts:22-24 | the rows are those of the data lines, in line order |
| DatasetLoader.ParseCsvKeys | src/utils/datasetLoader.ts:20-30 | every row has the trimmed header names as keys |
| DatasetLoader.ParseCsvValue | src/utils/datasetLoader.ts:22-30 | row k comes from a non-blank data line, and its value under a header is that line's trimmed field or `''` |
| ComputationContext.CancelJobs | src/context/ComputationContext.tsx:120-133 | every job with the id becomes failed with progress 0; stated by `UpdateJobs`, `CancelUnknownId`, `CancelIdempotent` and `CancelledNotActive` |
| ComputationContext.UpdateJobs | src/context/ComputationContext.tsx:124-128 | the `map` update changes exactly the jobs with the given id and keeps the length |
| ComputationContext.JobStore.constructor | src/context/ComputationContext.tsx:39 | the job list starts empty |
| ComputationContext.JobStore.SubmitDockingJob | src/context/ComputationContext.tsx:68-92 | appends one queued docking job with progress 0 under id `docking-<now>`, leaves the other jobs unchanged, and starts its timer |
| ComputationContext.JobStore.SubmitDynamicsJob | src/context/ComputationContext.tsx:94-118 | the same for a dynamics job with id `dynamics-<now>` |
| ComputationContext.JobStore.CancelJob | src/context/ComputationContext.tsx:120-133 | every job with that id becomes failed with progress 0; the others are unchanged |
| ComputationContext.CancelUnknownId | src/context/ComputationContext.tsx:124-128 | cancelling an id no job has changes nothing |
| ComputationContext.CancelIdempotent | src/context/ComputationContext.tsx:124-128 | cancelling twice is cancelling once |
| ComputationContext.CancelledNotActive | src/context/ComputationContext.tsx:124-128 | after a cancel, no job with that id is active |
| ComputationContext.ProgressSimulation.constructor | src/context/ComputationContext.tsx:141-142 | the timer starts at progress 0, running |
| ComputationContext.ProgressSimulation.Tick | src/context/ComputationContext.tsx:144-173 | progress grows by the step, clamped at 100; reaching 100 stops the timer and completes the job with its result; otherwise the job is set running with the new progress |
| ComputationContext.NextProgress | src/context/ComputationContext.tsx:145-149 | the progress plus the step, clamped to 100; stated by `NextProgressBounds` |
| ComputationContext.NextProgressBounds | src/context/ComputationContext.tsx:145-149 | progress never falls and never passes 100; it is 100 exactly when the sum reaches 100 |
| ComputationContext.TickOverridesCancel | src/context/ComputationContext.tsx:164-170 | a running tick after a cancel overwrites the failed status, as if no cancel had happened |
| ComputationContext.ActiveJobs | src/context/ComputationContext.tsx:176 | the queued and running jobs in list order; stated by `JobsPartition` |
| ComputationContext.FinishedJobs | src/context/ComputationContext.tsx:177 | the completed and failed jobs in list order; stated by `JobsPartition` |
| ComputationContext.JobsPartition | src/context/ComputationContext.tsx:176-177 | the active and the completed lists partition the jobs, each in original order |
| ComputationContext.SubmittedIsActive | src/context/ComputationContext.tsx:82 | a submitted job joins the end of the active list and not the completed one |
| ComputationContext.GetJobResult | src/context/ComputationContext.tsx:135-138 | the result of the first job with the id, none when absent or unfinished; stated by `FindJob`, `SubmittedHasNoResult` and `ResultAfterCompletion` |
| ComputationContext.FindJob | src/context/ComputationContext.tsx:136 | the position of the first job with that id, or none exactly when no job has it |
| ComputationContext.SubmittedHasNoResult | src/context/ComputationContext.tsx:135-138 | a newly submitted job has no result |
| ComputationContext.ResultAfterCompletion | src/context/ComputationContext.tsx:147-163 | after completion, the job's fixed result is what `getJobResult` returns |
| JobManager.FormatDuration | src/components/JobManager.tsx:7-19 | `Ns` under a minute, `Nm Ks` under an hour, `Nh Km` otherwise; the round trip is `FormatDurationReadsBack` |
| JobManager.FormatDurationReadsBack | src/components/JobManager.tsx:7-19 | the text reads back as the whole seconds under an hour and the whole minutes (in seconds) from an hour on, in the `Ns`, `Nm Ns`, `Nh Nm` forms |
| JobManager.FormatDurationNegative | src/components/JobManager.tsx:9-12 | a negative elapsed time is shown as negative whole seconds (floor division) |
| JobManager.ReadBackSeconds | src/components/JobManager.tsx:12 | `Ns` reads back as N seconds |
| JobManager.ReadBackMinutes | src/components/JobManager.tsx:14-15 | `Nm Ks` reads back as 60N+K seconds |
| JobManager.ReadBackHours | src/components/JobManager.tsx:17-18 | `Nh Km` reads back as 3600N+60K seconds |
| JobManager.Capitalize | src/components/JobManager.tsx:33 | the first character upper-cased, the rest unchanged; stated by `CapitalizeOnlyFirst` |
| JobManager.JobTitle | src/components/JobManager.tsx:33 | the capitalised job type followed by ` Job`; stated by `JobTitles` |
| JobManager.JobTitles | src/components/JobManager.tsx:33 | each job type has a distinct title: the capitalised type followed by ` Job` |
| JobManager.CapitalizeOnlyFirst | src/components/JobManager.tsx:78 | capitalising upper-cases only a lower-case first letter and keeps the rest |
| DatasetAnalyzer.WeightBandRanges | src/components/DatasetAnalyzer.tsx:76-80 | each finite weight lands in the one band whose half-open range contains it |
| DatasetAnalyzer.MissingWeightIsLight | src/components/DatasetAnalyzer.tsx:75 | a missing or empty weight is read as 0 and counted under 200 |
| DatasetAnalyzer.UnparsableWeightIsHeavy | src/components/DatasetAnalyzer.tsx:75-80 | a weight without digits fails every comparison and is counted over 500 |
| DatasetAnalyzer.PubChemCountsAddUp | src/components/DatasetAnalyzer.tsx:74-81 | the five weight bands add up to the row count |
| DatasetAnalyzer.PubChemDistribution | src/components/DatasetAnalyzer.tsx:64-90 | the number of rows in each weight band; stated by `PubChemCountsAddUp` and `AnalyzePubChem` |
| DatasetAnalyzer.AnalyzePubChem | src/components/DatasetAnalyzer.tsx:64-90 | the counting loop yields the summary and the weight histogram |
| DatasetAnalyzer.AffinityBandRanges | src/components/DatasetAnalyzer.tsx:101-104 | strong is below 1, moderate is 1 to 100 inclusive, weak is above 100 or not a number |
| DatasetAnalyzer.BindingDbCountsAddUp | src/components/DatasetAnalyzer.tsx:100-105 | the three affinity bands add up to the row count |
| DatasetAnalyzer.BindingDbDistribution | src/components/DatasetAnalyzer.tsx:92-114 | the number of rows in each affinity band; stated by `BindingDbCountsAddUp` and `AnalyzeBindingDb` |
| DatasetAnalyzer.AnalyzeBindingDb | src/components/DatasetAnalyzer.tsx:92-114 | the counting loop yields the summary and the affinity histogram |
| DatasetAnalyzer.Tally | src/components/DatasetAnalyzer.tsx:118-123 | the family record, keys in order of first assignment; stated by `TallyKeys`, `TallyCounts` and `TallyTotal` |
| DatasetAnalyzer.TallyKeys | src/components/DatasetAnalyzer.tsx:120-123 | the family names counted are those of the rows, once each, in order of first occurrence |
| DatasetAnalyzer.TallyCounts | src/components/DatasetAnalyzer.tsx:120-123 | each family's count is the number of rows of that family |
| DatasetAnalyzer.TallyTotal | src/components/DatasetAnalyzer.tsx:120-123 | the family counts add up to the row count |
| DatasetAnalyzer.DavisDistribution | src/components/DatasetAnalyzer.tsx:116-132 | the family record of the rows; stated by the `Tally*` lemmas and `AnalyzeDavis` |
| DatasetAnalyzer.AnalyzeDavis | src/components/DatasetAnalyzer.tsx:116-132 | the counting loop yields the summary and the family tally, with a missing family counted as `Unknown` |
| DatasetAnalyzer.ScoreBandRanges | src/components/DatasetAnalyzer.tsx:145-148 | the upper bounds 3, 6 and 10 are inclusive; above 10 or not a number is very high |
| DatasetAnalyzer.KibaCountsAddUp | src/components/DatasetAnalyzer.tsx:143-149 | the four score bands add up to the row count |
| DatasetAnalyzer.KibaDistribution | src/components/DatasetAnalyzer.tsx:134-158 | the number of rows in each score band; stated by `KibaCountsAddUp` and `AnalyzeKiba` |
| DatasetAnalyzer.AnalyzeKiba | src/components/DatasetAnalyzer.tsx:134-158 | the counting loop yields the summary and the score histogram |
| DatasetAnalyzer.ClinToxCountsAddUp | src/components/DatasetAnalyzer.tsx:165-168 | failed is the row count minus the rows that are exactly `Yes` |
| DatasetAnalyzer.ClinToxDistribution | src/components/DatasetAnalyzer.tsx:160-180 | approved and failed row counts; stated by `ClinToxCountsAddUp` and `AnalyzeClinTox` |
| DatasetAnalyzer.AnalyzeClinTox | src/components/DatasetAnalyzer.tsx:160-180 | the counting loop yields the summary and the approval counts |
| DatasetAnalyzer.Summarize | src/components/DatasetAnalyzer.tsx:53-58 | the row count and the number of keys of the first row (0 without rows); stated by `AnalyzeDataset` |
| DatasetAnalyzer.AnalyzeDataset | src/components/DatasetAnalyzer.tsx:41-61 | every dataset gets the row and column summary; each known id gets its own histogram, and an unknown id gets none |
| DatasetAnalyzer.ObjectEntriesPermutes | src/components/DatasetAnalyzer.tsx:283 | `Object.entries` lists every entry of the record exactly once |
| DatasetAnalyzer.ObjectEntriesIndexFirst | src/components/DatasetAnalyzer.tsx:283 | the entries with array-index keys (canonical integers below 2^32 - 1) are exactly the first ones listed |
| DatasetAnalyzer.ObjectEntriesOrder | src/components/DatasetAnalyzer.tsx:283 | the index keys are listed in ascending numeric order (`IndexOrderIsValue`), then the other keys in insertion order |
| DatasetAnalyzer.IndexKeyListedFirst | src/components/DatasetAnalyzer.tsx:283 | an index-like family assigned after a named one is listed before it |
| DatasetAnalyzer.TopFamilies | src/components/DatasetAnalyzer.tsx:283-285 | the `Object.entries` listing sorted by descending count, then its first min(10, number of families) entries; stated by `TopFamiliesOrdered` and `TopFamiliesAreTop` |
| DatasetAnalyzer.TopFamiliesOrdered | src/components/DatasetAnalyzer.tsx:283-285 | exactly min(10, number of families) families are shown, by non-increasing count, each one of the tally's entries |
| DatasetAnalyzer.TopFamiliesAreTop | src/components/DatasetAnalyzer.tsx:283-285 | a family left off the chart has no larger count than any family shown |
| DrugExplorer.Explore | src/components/DrugExplorer.tsx:15-47 | the status filter, the case-insensitive name or SMILES search, then the sort; stated by the `Explore*` lemmas |
| DrugExplorer.ExploreSelects | src/components/DrugExplorer.tsx:15-47 | the list is a permutation of the molecules passing both filters; a molecule is shown iff it has the status and matches the query |
| DrugExplorer.ExploreStatus | src/components/DrugExplorer.tsx:19-21 | with a status filter, every molecule shown has that status |
| DrugExplorer.ExploreQuery | src/components/DrugExplorer.tsx:24-29 | with a query, every molecule shown contains it in its name or SMILES, ignoring case |
| DrugExplorer.ExploreOrder | src/components/DrugExplorer.tsx:33-45 | binding affinity sorts ascending for `asc`; every other numeric column sorts the other way round |
| DrugExplorer.ExploreTextColumn | src/components/DrugExplorer.tsx:33-45 | sorting by a text column keeps the filtered order |
| DrugExplorer.NextSort | src/components/DrugExplorer.tsx:50-57 | the same column flips direction, another column becomes the ascending sort column; stated by `HandleSortIcons` |
| DrugExplorer.SortIcon | src/components/DrugExplorer.tsx:59-62 | an arrow on the sort column only, up for ascending; stated by `HandleSortIcons` |
| DrugExplorer.HandleSortIcons | src/components/DrugExplorer.tsx:50-62 | a new column starts at `↑`; clicking the active column flips its icon, and clicking it twice restores the sort; other columns show no icon |
| DrugExplorer.Explorer.constructor | src/components/DrugExplorer.tsx:9-48 | the initial `useState` values (binding affinity ascending, no filters), then the mount effect: the shown list is the whole catalogue sorted by binding affinity |
| DrugExplorer.Explorer.Refresh | src/components/DrugExplorer.tsx:15-48 | the effect sets the shown list to the explored list of the current state |
| DrugExplorer.Explorer.HandleSort | src/components/DrugExplorer.tsx:50-57 | the same column toggles the direction; a new column sorts ascending; the list is refreshed |
| DrugExplorer.Explorer.SetStatusFilter | src/components/DrugExplorer.tsx:81 | changing the status filter refreshes the list with the new filter |
| DrugExplorer.Explorer.SetSearchQuery | src/components/DrugExplorer.tsx:72 | changing the query refreshes the list with the new query |
| MolecularSearch.SearchResults | src/components/MolecularSearch.tsx:31-72 | nothing for a blank query, otherwise the first twenty matching rows; stated by `SearchResultsAreFirstMatches` and `BlankQueryClears` |
| MolecularSearch.SearchResultsAreFirstMatches | src/components/MolecularSearch.tsx:44-72 | the results are the first min(20, number of matches) matching rows in dataset order, unchanged records of the dataset; with at most 20 matches, exactly the matches |
| MolecularSearch.BlankQueryClears | src/components/MolecularSearch.tsx:34-37 | a blank query gives no results |
| MolecularSearch.NameSearchIgnoresCase | src/components/MolecularSearch.tsx:47-49 | the name search does not depend on the query's case |
| MolecularSearch.CommonChars | src/components/MolecularSearch.tsx:62 | the number of common characters is at most the query length |
| MolecularSearch.AllCharsCommon | src/components/MolecularSearch.tsx:62 | when every query character occurs in the SMILES, all of them count |
| MolecularSearch.SmilesMatchIsSimilar | src/components/MolecularSearch.tsx:52-66 | a SMILES substring match is always a similarity match |
| MolecularSearch.NoSmilesNeverSimilar | src/components/MolecularSearch.tsx:60-65 | a record without SMILES is never similar |
| MolecularSearch.SearchPanel.constructor | src/components/MolecularSearch.tsx:9-13 | initial state, with loading set by the load effect |
| MolecularSearch.SearchPanel.MoleculesLoaded | src/components/MolecularSearch.tsx:15-29 | loaded rows replace the molecules; loading ends either way |
| MolecularSearch.SearchPanel.SetQuery | src/components/MolecularSearch.tsx:89-118 | the query and the search type are set, nothing else |
| MolecularSearch.SearchPanel.HandleSearch | src/components/MolecularSearch.tsx:31-43 | a blank query clears the results at once; otherwise loading starts and a search is pending |
| MolecularSearch.SearchPanel.CompleteSearch | src/components/MolecularSearch.tsx:42-74 | the results become the first 20 matches of the pending search, and loading ends |
| BindingClass.Classify | src/components/DrugDesignWorkbench.tsx:139-151 | strong iff below -8, moderate iff in [-8, -6), weak iff at least -6 |
| BindingClass.ClassifyMonotone | src/components/DrugDesignWorkbench.tsx:145-151 | a lower score never gets a weaker class |
| DrugDesignWorkbench.Slug | src/components/DrugDesignWorkbench.tsx:22 | the lower-cased name with each whitespace run replaced by `-`; stated by `SlugIdempotent` and `SlugsCanCollide` |
| DrugDesignWorkbench.CollapseWhitespace | src/components/DrugDesignWorkbench.tsx:22 | replacing whitespace runs leaves no whitespace and never lengthens the text |
| DrugDesignWorkbench.CollapseRun | src/components/DrugDesignWorkbench.tsx:22 | a whole whitespace run becomes a single `-` |
| DrugDesignWorkbench.CollapseKeepsPlain | src/components/DrugDesignWorkbench.tsx:22 | text without whitespace is kept as it is |
| DrugDesignWorkbench.SlugIdempotent | src/components/DrugDesignWorkbench.tsx:22 | an id has no whitespace and no upper-case letter, and is its own id |
| DrugDesignWorkbench.SlugsCanCollide | src/components/DrugDesignWorkbench.tsx:22 | `X Y` and `x-y` get the same id, so ids need not be distinct |
| DrugDesignWorkbench.ExtractTargets | src/components/DrugDesignWorkbench.tsx:19-24 | the distinct non-empty targets with their slugs; stated by `TargetNamesSpec` and the `ExtractTargets*` lemmas |
| DrugDesignWorkbench.TargetNamesSpec | src/components/DrugDesignWorkbench.tsx:19-20 | the distinct non-empty `Target` values: pairwise distinct, a name is present iff some row has it, in first-occurrence order |
| DrugDesignWorkbench.ExtractTargetsIds | src/components/DrugDesignWorkbench.tsx:19-24 | every target has a non-empty name and the slug of that name as its id |
| DrugDesignWorkbench.ExtractTargetsDistinct | src/components/DrugDesignWorkbench.tsx:19-24 | no two targets share a name |
| DrugDesignWorkbench.ExtractTargetsMembers | src/components/DrugDesignWorkbench.tsx:19-24 | a target of a name is listed iff some row has that non-empty `Target` |
| DrugDesignWorkbench.ExtractTargetsOrder | src/components/DrugDesignWorkbench.tsx:19-24 | target names appear in order of first occurrence among the rows |
| DrugDesignWorkbench.DockingScore | src/components/DrugDesignWorkbench.tsx:49-50 | the negated drawn score in tenths; its range and classes are stated by `DockingScoreClass` |
| DrugDesignWorkbench.DockingScoreClass | src/components/DrugDesignWorkbench.tsx:49-51 | the score lies in [-12, -5]; it is strong iff above 8.0 in magnitude and weak iff at most 6.0 |
| DrugDesignWorkbench.Workbench.constructor | src/components/DrugDesignWorkbench.tsx:6-11 | initial state: search tab, nothing selected, no score, not simulating |
| DrugDesignWorkbench.Workbench.TargetsLoaded | src/components/DrugDesignWorkbench.tsx:13-33 | loaded rows give the extracted targets; a failed load leaves them unchanged |
| DrugDesignWorkbench.Workbench.HandleSelectMolecule | src/components/DrugDesignWorkbench.tsx:35-38 | selects the molecule and switches to the design tab |
| DrugDesignWorkbench.Workbench.SelectTarget | src/components/DrugDesignWorkbench.tsx:104 | sets the selected target, nothing else |
| DrugDesignWorkbench.Workbench.HandleRunDocking | src/components/DrugDesignWorkbench.tsx:40-47 | starts iff a molecule and a non-empty target are selected; starting sets simulating and clears the score; otherwise nothing changes |
| DrugDesignWorkbench.Workbench.DockingFinished | src/components/DrugDesignWorkbench.tsx:47-52 | the score is set from the draw and simulating ends |
| MoleculeInputForm.ErrorText | src/components/MoleculeInputForm.tsx:94 | the error line is shown (its text is non-empty) exactly when there is an error |
| MoleculeInputForm.InputForm.constructor | src/components/MoleculeInputForm.tsx:10-12 | empty SMILES, target and error, nothing submitted |
| MoleculeInputForm.InputForm.HandleSmilesChange | src/components/MoleculeInputForm.tsx:30-33 | sets the SMILES and clears the error |
| MoleculeInputForm.InputForm.SetTargetId | src/components/MoleculeInputForm.tsx:110-123 | sets the target id, nothing else |
| MoleculeInputForm.InputForm.HandleSubmit | src/components/MoleculeInputForm.tsx:35-51 | blank sets the required error; invalid sets the format error; valid submits the untrimmed SMILES and target exactly once |
| MoleculeInputForm.SubmitAfterTyping | src/components/MoleculeInputForm.tsx:30-51 | typing then submitting submits exactly when the text is a valid SMILES, and shows an error otherwise |
| MoleculeAnalysis.MockWeights | src/pages/MoleculeAnalysis.tsx:34-39 | both mock weights equal the molecular-weight helper's |
| MoleculeAnalysis.UpperCount | src/pages/MoleculeAnalysis.tsx:40 | the upper-case count is at most the length |
| MoleculeAnalysis.LogP | src/pages/MoleculeAnalysis.tsx:40 | ten times the share of upper-case letters, NaN for the empty string; stated by `LogPRange` |
| MoleculeAnalysis.Descriptors | src/pages/MoleculeAnalysis.tsx:38-45 | the `lipinski` descriptors of the page; stated by `MockWeights`, `LogPRange` and `RuleFlagsAgree` |
| MoleculeAnalysis.LogPRange | src/pages/MoleculeAnalysis.tsx:40 | logP is NaN exactly for empty SMILES, otherwise in [0, 10], and 10 exactly when every character is upper case |
| MoleculeAnalysis.RuleFlags | src/pages/MoleculeAnalysis.tsx:256-274 | the four pass flags of the rule rows; stated by `RuleFlagsAgree` |
| MoleculeAnalysis.RuleFlagsAgree | src/pages/MoleculeAnalysis.tsx:256-274 | the page's four pass flags are the Rule-of-Five details of the descriptors |
| MoleculeAnalysis.LongSmilesFailsWeight | src/pages/MoleculeAnalysis.tsx:256-259 | the weight row fails exactly for SMILES longer than 50 |
| MoleculeAnalysis.DrugLikenessLabel | src/pages/MoleculeAnalysis.tsx:242-246 | Excellent iff 0 violations, Good iff 1, Poor iff 2 or more |
| MoleculeAnalysis.DrugLikenessRange | src/pages/MoleculeAnalysis.tsx:239-246 | with fewer than 3 violations the score is 3..5, and more violations never improve score or label |
| MoleculeAnalysis.LabelIgnoresRuleRows | src/pages/MoleculeAnalysis.tsx:44 | the random violation count is independent of the rule rows: a failing weight row can sit beside an Excellent label |
| MoleculeAnalysis.BindingScore | src/pages/MoleculeAnalysis.tsx:47 | `-(5 + 5 * draw)`; its classes are stated by `BindingScoreClass` |
| MoleculeAnalysis.BindingScoreClass | src/pages/MoleculeAnalysis.tsx:47 | the mock score lies in (-10, -5]; strong iff the draw exceeds 0.6, weak iff at most 0.2 |
| MoleculeAnalysis.AnalysisPage.constructor | src/pages/MoleculeAnalysis.tsx:13-16 | not loading, no results, generate tab, no error |
| MoleculeAnalysis.AnalysisPage.BeginAnalyze | src/pages/MoleculeAnalysis.tsx:19-21 | sets loading and clears error and results |
| MoleculeAnalysis.AnalysisPage.CompleteAnalyze | src/pages/MoleculeAnalysis.tsx:31-95 | sets the mock results of the submission, switches to the generate tab and ends loading |
| MoleculeAnalysis.AnalysisPage.FailAnalyze | src/pages/MoleculeAnalysis.tsx:91-95 | sets the failure message and ends loading |
| KeywordRules.FirstMatch | src/components/AIChatbot.tsx:64-84 | the index of the earliest rule that fires, or none iff no rule fires |
| KeywordRules.RespondPrefix | src/components/AIAssistant.tsx:85-110 | rules that do not fire can be skipped: falling through them gives the rest's reply |
| KeywordRules.MissingChar | src/components/AIChatbot.tsx:64-81 | a word with a character the text lacks is not included |
| AIChatbot.GenerateAIResponse | src/components/AIChatbot.tsx:61-85 | the reply of the first keyword branch that fires on the lower-cased query, else the fallback; stated by `GenerateIsFirstMatch` |
| AIChatbot.GenerateIsFirstMatch | src/components/AIChatbot.tsx:61-85 | the if-chain equals first-match over the five rules on the lower-cased query, with the fallback |
| AIChatbot.ActionGetsMechanismReply | src/components/AIChatbot.tsx:64-77 | a query containing `action` and no letter of the earlier keywords gets the mechanism reply |
| AIChatbot.InteractionGetsMechanismReply | src/components/AIChatbot.tsx:76-77 | "interaction" gets the mechanism reply through `action` |
| AIChatbot.Chatbot.constructor | src/components/AIChatbot.tsx:11-20 | exactly one AI greeting with id `1`, empty input, not typing |
| AIChatbot.Chatbot.SetInputText | src/components/AIChatbot.tsx:19 | sets the input, nothing else |
| AIChatbot.Chatbot.HandleSendMessage | src/components/AIChatbot.tsx:31-47 | blank input changes nothing; otherwise appends one user message with the raw text, clears the input, sets typing and leaves the reply pending |
| AIChatbot.Chatbot.DeliverReply | src/components/AIChatbot.tsx:47-58 | appends one AI message generated from the sent text and ends typing |
| AIChatbot.Chatbot.HandleKeyPress | src/components/AIChatbot.tsx:87-91 | any other key changes nothing; Enter behaves as `HandleSendMessage`: a non-blank input is sent, the input cleared and typing set, a blank input changes nothing |
| AIAssistant.ContextGreeting | src/components/AIAssistant.tsx:38-47 | the greeting of the drug-design page, of the graph-discovery page, or the default one |
| AIAssistant.ContextReply | src/components/AIAssistant.tsx:85-100 | the page-specific reply, none when no page branch fires; stated by `ContextReplyIsFirstMatch` |
| AIAssistant.ContextReplyIsFirstMatch | src/components/AIAssistant.tsx:85-100 | the context-specific chain is first-match over that context's rules |
| AIAssistant.GenericIsFirstMatch | src/components/AIAssistant.tsx:102-110 | the generic chain is first-match over the generic rules with the fallback |
| AIAssistant.GenerateResponse | src/components/AIAssistant.tsx:81-111 | the page rules, then the general rules, then the fallback; stated by `GenerateIsFirstMatch` |
| AIAssistant.GenerateIsFirstMatch | src/components/AIAssistant.tsx:81-111 | the reply is first-match over the context rules followed by the generic rules, on the lower-cased query |
| AIAssistant.BareHiGetsFallback | src/components/AIAssistant.tsx:102 | `hi` without a trailing space does not trigger the greeting |
| AIAssistant.ContextFirst | src/components/AIAssistant.tsx:85-92 | a docking question gets the docking reply in the drug-design context and not in the general one |
| AIAssistant.Assistant.constructor | src/components/AIAssistant.tsx:15-31 | the message list is the context's greeting alone |
| AIAssistant.Assistant.ContextChanged | src/components/AIAssistant.tsx:21-31 | a context change resets the messages to that context's greeting |
| AIAssistant.Assistant.SetInputText | src/components/AIAssistant.tsx:151 | sets the input, nothing else |
| AIAssistant.Assistant.HandleSendMessage | src/components/AIAssistant.tsx:49-67 | blank input changes nothing; otherwise appends one user message with the raw text, clears the input, sets typing and leaves a reply pending in the current context |
| AIAssistant.Assistant.DeliverReply | src/components/AIAssistant.tsx:67-78 | appends one AI message generated from the sent text and its context, and ends typing |

## Left out

- **Network, timers and randomness.** The `fetch` of `loadCSVDataset`, the API services and the job-status polling effect are not modelled. Timer delays are not modelled; each delayed callback is an operation of its own that the caller invokes. Random draws are parameters limited to their source ranges:
  - docking tenths 50..120;
  - violations 0..2;
  - binding draw in [0, 1);
  - progress step in [0, 10).
- **Clock and ids.** `Date.now()` and `new Date()` are parameters, and message ids are parameters as well. Nothing forces ids to be unique.
- **Numbers are exact rationals, not IEEE doubles:**
  - the similarity ratio against 0.3;
  - the progress sums;
  - `parseFloat` results.
  Rounding effects near the thresholds are therefore not captured.
- **`parseFloat` ignores digit-less fractions.** It reads sign, `Infinity`, digits, an optional fraction and an optional exponent. A digit-less fraction such as `.e5` is not treated specially.
- **Text is modelled loosely:**
  - `toLowerCase` and `toUpperCase` map ASCII letters only;
  - string length counts characters, not UTF-16 code units;
  - rows are maps, so `Object.keys` order and inherited keys are not modelled (`columnCount` is the number of distinct keys).
- **`DatasetAnalyzer.Tally` counts every family name from 0.** A family named like a member that plain objects inherit (`constructor`, `toString`, `__proto__` and the like) is not modelled as JavaScript treats it: `kinaseFamilies["constructor"] || 0` reads the inherited function, and assigning to `__proto__` adds no entry. `TallyKeys` and `TopFamilies` share this limit. The key order of `Object.entries` (index-like names first, ascending) is modelled by `ObjectEntries`.
- **`DatasetAnalyzer.TopFamilies` does not prove that its sort is stable.** Families with equal counts keep their `Object.entries` order because the insertion sort is stable, but the lemmas state only the descending counts and the permutation.
- **`DrugExplorer.Explore` sorts a new sequence.** The in-place `Array.sort` is modelled as a stable insertion sort (`SeqUtil.SortByKey`) that returns a new sequence. The order among equal keys is proved only as a permutation, not as stability.
- **Text-column sort assumes NaN is equality.** For a text column, the comparator's NaN is taken as "equal", so the filtered order is kept.
- **`DrugExplorer.ExploreTextColumn` assumes text is not numeric.** Text columns are taken as never holding numeric-looking strings. In JavaScript, subtracting two such strings (`"12" - "3"`) gives a number, which would order the rows.
- **`MolecularSearch.SearchPanel.CompleteSearch` adds no similarity field.** The source's similarity object is discarded by `filter`, so the results carry no similarity field, and the model does the same.
- **`MolecularSearch.SearchPanel.MoleculesLoaded` has no loading step.** The load effect's setting of `isLoading` before the fetch is folded into the constructor.
- **Tabs and dismissal.** Tab clicks and error dismissal (`setActiveTab`, `setError(null)`) that are bound only in JSX are not modelled.
- **Rendering is not modelled:**
  - JSX and CSS classes;
  - `toFixed` formatting;
  - bar widths and pie angles;
  - scrolling and focus.
- **Fixed mock payloads are not modelled:**
  - the analysis page's ADMET and agent panels;
  - its random ADMET flags;
  - the fixed interaction list;
  - the predicted properties of the workbench.
- **Files with no logic of their own are not part of this model:**
  - `DatasetManager`, `MolecularGeneration`, the dashboard and the navigation components;
  - the graph pages;
  - the fixture data files.
- **`ComputationContext.ProgressSimulation.Tick` keeps no intervals.** The interval is modelled by one simulation object per job, and clearing it is its `stopped` flag. A timer whose job was cancelled keeps ticking, as in the source (`TickOverridesCancel`).
