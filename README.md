# Website-fingerprinting dataset bookkeeping, in Dafny

This project models the bookkeeping of a website-fingerprinting SVM
evaluation driver (`easy_WSC.py`) and of its data-preparation script
(`PrepareWSC.py`). It proves properties of that bookkeeping: how per-site
feature files become one merged file, how the merged and scaled lines
become a dictionary of pages with dense page ids plus a background list,
and how these are checked, shuffled, cut, and split into per-fold train and
test files. It also covers the aggregation that folds the per-fold
predictions back into site-level scores.

A feature line is modelled as `Line(classNo, rest)`: the integer in its
first column, and the text after its first space. Relabelling a line keeps
`rest`. The validated command line is one `Config` record. Each fatal stop
of the driver (`raise SystemExit`, or a lookup of the missing reference
page 1 or 2 in the instance limit) is a `Fault` returned in a `Result`.

The driver's module-level loops work in place on `classes` and `background`.
They are methods of the class `Dataset.Dataset`, each proved against a
specification function on the old state:

- the shuffles, against `Shuffle.ShuffledInstances` and
  `Shuffle.SubpageShuffle`;
- the background trim, against `FoldPlan.PlanBackground`;
- the instance limit, against `InstanceLimit.LimitAndCheck`;
- `outputInput`, against `FoldSplit.FoldOutput`;
- quick mode, against `QuickMode.QuickFile`.

The loops that build values become methods with loop invariants. The merge
loop is tied to `Merge.Merged`, the class builder's scan to
`ClassBuilder.Page` and related functions, the aggregation to
`Aggregate.TallyOf`, and the preparation script to `Prepare.SiteBlocks`.

Modules:

- `common.dfy`: lines, configuration, faults, `Result`/`Option`.
- `text.dfy`: `str(int)` and its round trip.
- `arith.dfy`: division facts.
- `prepare.dfy`: `PrepareWSC.py`.
- `merge.dfy`: the feature merger.
- `class_builder.dfy`: the scan into pages.
- `fold_plan.dfy`: the fold-count and background checks.
- `shuffle.dfy`: `random.shuffle` and the subpage windows.
- `instance_limit.dfy`: the instance limit and equality check.
- `scenario.dfy`: the scenario name.
- `fold_split.dfy`: `outputInput`.
- `quick_mode.dfy`: quick mode.
- `aggregate.dfy`: the prediction tally.
- `dataset.dfy`: the in-place state.

Two behaviours of `outputInput` are easy to misread. The model follows the
code in both:

- **The first slot of each site.** The comment "Filter out main pages" at
  `easy_WSC.py:332` guards `if not main: continue`. So the slot is skipped
  only when there are *no* main pages. With main pages, the code writes that
  slot to every fold's train file (`easy_WSC.py:331-334`,
  `FoldSplit.FirstSlotNeverTested`).
- **The size of a fold's test file.** With main pages and no site limit,
  fold f's test file gets `pagesPerFold` pages from *every* site, not
  `pagesPerFold` pages in total (`easy_WSC.py:336-349`,
  `FoldSplit.TestedSlots`). There, f + pagesPerFold never exceeds the
  site's slot count, so the window lies inside the block
  (`FoldSplit.MainWindowInsideBlock`). This agrees with the total
  `sites*instances*pagesPerFold*folds` that the driver prints at
  `easy_WSC.py:463` and `easy_WSC.py:470`. Without main pages, the last
  fold's window runs past the block. That case is the first row under
  "## Findings".

## Model

| member | source | states |
|---|---|---|
| Prepare.PrepareMerged | PrepareWSC.py:35-59 | The merged file is the site blocks (every line of the i-th site file written as `i <rest>`, files and lines in order), followed by the main-page file verbatim exactly when `main`. Its line count is the sum of the site files' line counts, plus the main-page count when `main`. The info list is the site files' base names, in order. |
| Prepare.SiteBlocksLength | PrepareWSC.py:37-50 | The relabel-and-concatenate part has exactly as many lines as the site files together. |
| Prepare.SiteBlocksAt | PrepareWSC.py:37-50 | Line j of the i-th site file sits at offset (lines of files before it) + j, relabelled `i+1`: file order and line order are kept, and all pages of a site collapse onto one label. |
| Merge.MergeInputs | easy_WSC.py:509-540 | The merged lines equal `Merged`: for each included site file its `-1`-relabelled main-page lines (matched by `compare`), then the file, then the background in open world. The foreground list is all site names, or just the current one in separate evaluation. |
| Merge.AppendSiteBlock | easy_WSC.py:520-532 | One site file's turn appends its `-1`-relabelled main-page lines (with main pages), then the site file. |
| Merge.AppendMainLines | easy_WSC.py:522-527 | Appends exactly the main-page lines whose first column equals `compare`, in file order, each relabelled -1. |
| Merge.MainLinesRelabelled | easy_WSC.py:524-526 | Every main-page line placed in the merged file has label -1, and no more lines are placed than the main-page file has. |
| Merge.ForegroundOfOneSite | easy_WSC.py:512-517 | In separate evaluation, the foreground part after n files is the current site's block if current < n, and empty otherwise. |
| Merge.SeparateMergeHoldsOneSite | easy_WSC.py:512-537 | In separate evaluation the merged file is exactly the current site's main-page lines (matched by `currentSite+1`), its site file, and the background. |
| ClassBuilder.BuildClasses | easy_WSC.py:551-594 | The scan fails exactly on a label-0 line in closed world (`ZeroLabelInClosedWorld`), or on more label-0 lines than domain entries in open world (`DomainListExhausted`). Otherwise the largest page id is the number of label changes. A page id is a key exactly when it received a line, with the lines `Page` assigns, and keys lie in 1..maxId. The background is `Background`. The class count is the change count minus 1 in open world, minus `sites` with main pages. |
| ClassBuilder.StorePreservesPages | easy_WSC.py:583-587 | Storing a foreground line under the current page id, appended to that page or starting it, keeps the dictionary equal to the pages of the lines read so far. |
| ClassBuilder.IdStep | easy_WSC.py:562-565 | The page id rises by exactly one when a line's label differs from the previous line's (the first line is compared with 0), and stays the same otherwise. |
| ClassBuilder.SameIdIffNoChange | easy_WSC.py:562-565 | Page ids never decrease along the file. Two lines share an id iff no label change occurs between them. |
| ClassBuilder.GroupedIdsMatchLabels | easy_WSC.py:561-587 | Lines with one id share a label. When each label's lines are contiguous, lines with one label also share an id. |
| ClassBuilder.PageIdRange | easy_WSC.py:583-587 | Every non-empty page has an id in 1..className. |
| ClassBuilder.ForegroundLinesPaged | easy_WSC.py:561-587 | The pages 1..className together hold every line except the label-0 lines. |
| ClassBuilder.BackgroundIsLabelZero | easy_WSC.py:568-578 | Every background line has label 0, and at most one is kept per label-0 line. |
| ClassBuilder.BackgroundWithoutCollisions | easy_WSC.py:568-578 | When no listed domain is a foreground site, the background is every label-0 line, in file order. |
| FoldPlan.PlanFolds | easy_WSC.py:601-616 | The plan succeeds iff the class count is a multiple of sites × folds, and, under a site limit, `perSite` is a multiple of folds. Otherwise it returns the matching fault. On success, `subpages` (less the main slot) × sites = class count, `perSite` is the limit or the page count, and `pagesPerFold` × folds = `perSite`. |
| FoldPlan.PlanSucceedsIffSitesDivide | easy_WSC.py:601-616 | Without a site limit, the plan succeeds iff each site has the same multiple of `folds` pages. |
| FoldPlan.FiveSlotSitesInThreeFolds | easy_WSC.py:601-616 | Two sites of one main page and four subpages cannot be split into three folds. |
| FoldPlan.PlanBackground | easy_WSC.py:643-662 | Without a limit, the size is the largest multiple of folds not above the background length, and the plan always succeeds. With a limit, it succeeds iff the limit fits and divides by folds. `perBgFold` × folds = size. Faults are `BackgroundTooSmall(len)` or `BackgroundNotDivisible`. |
| FoldPlan.NinetySevenOverTenFolds | easy_WSC.py:646-659 | 97 background lines over ten folds are cut to 90, nine per fold. |
| Shuffle.ShuffleList | easy_WSC.py:622 | `random.shuffle` with the draws given: the result is `Shuffled` of the input, and a permutation of it. |
| Shuffle.ShufflePermutes | easy_WSC.py:622 | The shuffled list has the same multiset of elements. |
| Shuffle.ShuffledInstancesPermute | easy_WSC.py:619-622 | Shuffling instances keeps each page's instances as a multiset. |
| Shuffle.WindowSite | easy_WSC.py:627-633 | A slot in site s's window belongs to site s's block, so windows of different sites are disjoint. |
| Shuffle.SubpageShuffleStep | easy_WSC.py:627-641 | Shuffling site n rewrites only site n's window, with that window's shuffled list, and before it that window still holds its original pages. |
| Shuffle.SubpageShuffleFrame | easy_WSC.py:625-641 | A slot in no window keeps its page. |
| Shuffle.ShuffleKeepsMainPages | easy_WSC.py:629-632 | Every main page keeps its slot. |
| Shuffle.SubpageShuffleWindow | easy_WSC.py:635-641 | After the shuffle, site s's window holds its pages in the order `random.shuffle` gave them. |
| Shuffle.SubpageShufflePermutes | easy_WSC.py:625-641 | Each site's window holds the same multiset of pages before and after the shuffle. |
| Shuffle.WindowUntouched | easy_WSC.py:635-637 | The `tmp` list collected for site n equals the original pages of site n's window. |
| Shuffle.SubpageShuffleSite | easy_WSC.py:628-641 | Replacing site n's window, in the shuffle of sites 1..n-1, by that window's original pages shuffled with site n's draws gives the shuffle of sites 1..n. |
| Shuffle.SwapPermutes | easy_WSC.py:622 | One swap of `random.shuffle` keeps the multiset of the elements. |
| InstanceLimit.ReferenceCounts | easy_WSC.py:665-674 | The reference counts are the limits when set, and otherwise the lengths of page 2 and page 1. A missing page 2 or page 1 is `MissingPage(2)` or `MissingPage(1)`, with page 2 checked first. |
| InstanceLimit.Limited | easy_WSC.py:679-694 | A page after the first loop is a prefix of the original page. |
| InstanceLimit.FirstShortMain | easy_WSC.py:679-686 | True exactly when some main page among the keys is shorter than the main-page limit. |
| InstanceLimit.FirstMismatchIff | easy_WSC.py:696-706 | The check passes iff every page has its reference count. Otherwise the reported fault belongs to the first page that does not. |
| InstanceLimit.FirstMismatchStable | easy_WSC.py:696-706 | Once a mismatch is found, later pages do not change the reported fault. |
| InstanceLimit.CheckedPagesEqual | easy_WSC.py:664-706 | After a passing check the keys are unchanged, each page is a prefix of its original, every main page has `instancesMain` lines, and every subpage has `instances` lines. |
| InstanceLimit.ShortSubpageIsFatal | easy_WSC.py:689-706 | Under a subpage limit, a short subpage is only reported by the first loop, but the run still stops. |
| InstanceLimit.ShortMainPageIsFatal | easy_WSC.py:679-686 | Under a main-page limit, a short main page stops the run with `MainPageTooShort`. |
| Text.IntToStringRoundTrip | easy_WSC.py:708-714 | `int(str(i)) == i`, and `str(i)` consists of numeral characters only. |
| Text.IntToStringInjective | easy_WSC.py:708-714 | Different integers have different texts. |
| Text.PeelNumeral | easy_WSC.py:708-714 | A numeral followed by a non-numeral can be split off in only one way. |
| Scenario.PeelTagged | easy_WSC.py:708-714 | A `_<number><tag>` prefix determines its number and what follows. |
| Scenario.ScenarioInjective | easy_WSC.py:708-714 | For fixed flags, two scenario suffixes are equal only when every count written into them agrees: sites (unless separate evaluation), pages per site, instances per subpage, per main page (with main pages), and background size (open world). |
| FoldSplit.SiteCounterIsCeiling | easy_WSC.py:327-331 | With at least two slots per site, the `site` counter after slot k is ⌈k / subpages⌉. |
| FoldSplit.SiteBlock | easy_WSC.py:327-331 | Slot k ≥ 1 is counted in site s with (s-1)·subpages < k ≤ s·subpages. |
| FoldSplit.SlotOfSite | easy_WSC.py:327-331 | Conversely, a slot in site s's block is counted as site s. |
| FoldSplit.PagesPartLabels | easy_WSC.py:339-349 | Every line written for pages is a line of a page that is not skipped, labelled with that page's class number (site or id). |
| FoldSplit.PagesPartConserves | easy_WSC.py:328-349 | Per fold, train plus test page lines are, as a multiset, exactly the relabelled lines of the pages not skipped: none is lost or duplicated. |
| FoldSplit.FirstSlotNeverTested | easy_WSC.py:336-345 | A site's first slot is in no fold's test window, so a main page is training data of every fold. |
| FoldSplit.TestedSlots | easy_WSC.py:336-345 | Fold f tests, from site s, exactly the slots at offsets f+1..f+pagesPerFold of the site's block. |
| FoldSplit.MainWindowInsideBlock | easy_WSC.py:336-337 | With main pages and no site limit, every fold's window f+1..f+pagesPerFold lies inside the site's block of `pagesPerFold * folds + 1` slots. |
| FoldSplit.OnePagePerFoldPartitions | easy_WSC.py:336-345 | With main pages and one page per fold, each subpage is tested in exactly one fold. |
| FoldSplit.OverlappingWindows | easy_WSC.py:336-337 | As written, with seven slots per site and two pages per fold, slot 3 is tested in folds 1 and 2, and slot 7 in none of folds 1..3. |
| FoldSplit.NoMainDropsFirstSubpage | easy_WSC.py:330-337 | Without main pages, one site of two slots in two folds of one page: page 1 is written to no file, fold 1 tests page 2, and fold 2 tests no page. |
| FoldSplit.IntendedPagesPartConserves | easy_WSC.py:328-349 | Under the corrected split, which skips no slot, each fold's train and test page parts together hold, as a multiset, exactly the relabelled lines of all pages. |
| FoldSplit.IntendedNoMainExample | easy_WSC.py:330-349 | On the same input, the corrected split tests page 1 in fold 1 and page 2 in fold 2, and trains on the other page. |
| FoldSplit.IntendedWindowsPartition | easy_WSC.py:336-337 | The intended window (the f-th run of `pagesPerFold` subpages after the main slot) tests each subpage in exactly one fold. |
| FoldSplit.BackgroundTestedOnce | easy_WSC.py:352-360 | Background index i < folds·perBgFold is tested in exactly one fold, i / perBgFold + 1. |
| FoldSplit.BackgroundTestWindow | easy_WSC.py:352-360 | After the first n background lines, fold f's test share is the part of the slice (f-1)·perBgFold..f·perBgFold read so far. |
| FoldSplit.BackgroundTrainWindow | easy_WSC.py:352-360 | After the first n background lines, fold f's train share is every line read so far outside that slice, in order. |
| FoldSplit.BackgroundPartSlices | easy_WSC.py:352-360 | Fold f's background test share is the slice (f-1)·perBgFold..f·perBgFold, and its train share is everything else, in order. |
| FoldSplit.TestSharesCover | easy_WSC.py:352-360 | The test shares of folds 1..m, one after another, are exactly the first m·perBgFold background lines. |
| QuickMode.QuickAgreesWithFolds | easy_WSC.py:724-743 | Without a site limit, quick mode gives every page the label the per-fold files give it (site when `simple`, id otherwise), and writes all pages. |
| QuickMode.QuickSimpleLabelsSites | easy_WSC.py:724-743 | With `simple`, every page is labelled with its site, even under a site limit. |
| QuickMode.QuickDivergesUnderSiteLimit | easy_WSC.py:724-743 | Under a site limit the two labellings can differ on a page both write. With main pages, four slots per site and two pages per site, quick mode leaves out page 4, which the per-fold files write, so page 5 (the second site's main page) is labelled 4 in quick mode and 5 in the folds. |
| QuickMode.SitePagesInvariant | easy_WSC.py:724-736 | Under a site limit, `pageCount` stays within 0..max(perSite, 1), and it bounds the current site's written non-main pages. |
| QuickMode.QuickSiteLimit | easy_WSC.py:724-736 | Under a site limit, at most max(perSite, 1) non-main pages of any site are written. |
| Aggregate.SiteOfLabelIsCeiling | easy_WSC.py:434-441 | The remap sends a page id to s iff (s-1)·subpages < id ≤ s·subpages, so 0 stays 0. |
| Aggregate.SiteOfLabelInvertsFolds | easy_WSC.py:434-441 | The remap of page id k is the site `outputInput` counted k in. |
| Aggregate.TallyTotals | easy_WSC.py:442-455 | correct + wrong = number of predictions. In separate evaluation tp + tn = correct and fp + fn = wrong. Otherwise tp, tn, fp and fn stay 0. |
| Aggregate.CorrectCountsAgreement | easy_WSC.py:442-443 | `correct` is the number of predictions whose remapped labels agree. |
| Aggregate.AggregateFolds | easy_WSC.py:419-458 | The counters are the tally of all folds' predictions in fold order, and the `.result` lines are those predictions remapped. |
| Aggregate.AggregateFold | easy_WSC.py:427-456 | One fold's loop continues the tally and the written lines over that fold's predictions. |
| Dataset.Dataset.constructor | easy_WSC.py:551-594 | The dataset holds the builder's pages and background, with keys in 1..maxId. |
| Dataset.Dataset.ShuffleInstances | easy_WSC.py:619-624 | The pages become `ShuffledInstances` of the old pages, and the background is shuffled exactly in open world. |
| Dataset.ShuffledPages | easy_WSC.py:621-622 | Visiting ids 1..maxId in order and shuffling each page present gives every page shuffled with its own draws, and the same set of ids. |
| Dataset.Dataset.ShuffleSubpages | easy_WSC.py:625-641 | The pages become `SubpageShuffle` of the old pages over all sites, and the background is unchanged. |
| Dataset.Dataset.ShuffleNextSite | easy_WSC.py:627-641 | One iteration of the site loop turns the shuffle of sites 1..s-1 into the shuffle of sites 1..s, keeping the key set and the background. |
| Dataset.Dataset.ShuffleSite | easy_WSC.py:628-641 | One site's iteration computes `lower` and `higher` as the window's ends. Site s's window slots then hold their old pages shuffled with the draws given, and every other slot keeps its page. |
| Dataset.Dataset.ShuffleWindow | easy_WSC.py:635-641 | The window lower..higher holds its old pages shuffled with the draws given, and every other slot keeps its page. |
| Dataset.Dataset.CollectWindow | easy_WSC.py:635-637 | `tmp` holds the window's pages in slot order. |
| Dataset.Dataset.PopWindow | easy_WSC.py:639-641 | After `reverse` and `pop`s, slot j holds element j - lower of the shuffled list, and every other slot is unchanged. |
| Dataset.PoppedInto | easy_WSC.py:639-641 | Popping the reversed list into slots lower..higher, one slot after another, puts element j - lower of the list into slot j and leaves every other slot alone. |
| Dataset.Dataset.TrimBackground | easy_WSC.py:643-662 | The result is `PlanBackground` of the old length. On success the background is its first `bgSize` lines, and the pages are unchanged. |
| Dataset.Dataset.LimitInstances | easy_WSC.py:664-706 | The result fails iff `LimitAndCheck` of the old pages fails, with the same fault. On success the pages and the counts are those it computes. |
| Dataset.Dataset.LimitPass | easy_WSC.py:676-694 | The loop stops iff a main page is short. Otherwise each page becomes `Limited` of itself. |
| Dataset.Dataset.CheckPass | easy_WSC.py:695-706 | Returns the fault of the first page whose length differs from its reference count, or none. |
| Dataset.Dataset.OutputInput | easy_WSC.py:321-365 | One train/test pair per fold, each equal to `FoldOutput` of the current pages and background. |
| Dataset.Dataset.WriteFold | easy_WSC.py:322-363 | One fold's files: the page part in slot order, then the background split by index. |
| Dataset.Dataset.QuickRelabel | easy_WSC.py:718-748 | The quick-mode file equals `QuickFile` of the pages and background. |
| Dataset.AppendRelabelled | easy_WSC.py:345-349 | Appends the page's lines, each relabelled with the class number. |

## Left out

- Command-line and environment parsing (`easy_WSC.py:84-319`) is not modelled. Its outcome is the `Config` parameter, whose limit flags are derived from the `per*` values as lines 311-318 derive them.
- The external programs are not modelled: `svm-scale`, the grid search, `svm-train` and `svm-predict` (`easy_WSC.py:374-417, 543-548, 750-772`). The scaled file and the `.predict` lines are inputs; scaling changes only feature values, not labels. Quick mode's grid-search call and its reading of `c g rate` (lines 750-772) are left out for the same reason. They also involve floating point.
- The per-fold parameter search inside `evaluation` (`easy_WSC.py:374-417`) is not modelled: it is external processes.
- File reading and writing are not modelled: files are sequences of lines. The same goes for the parsing of a `.predict` line into two integers, file deletion, storage policy, progress printing and the printed totals.
- `tldextract` is not modelled: the background domain list is given as domain names. The site names are given too, with the `wsc` prefix removed and lower-cased (`easy_WSC.py:519`). There is no string case folding here.
- `random.shuffle` is not modelled as randomness: its draws are a parameter (`choices[i] <= i` for the swap at position i, from the end down to 1).
- Dictionary iteration (`easy_WSC.py:621, 677, 696, 726`) is modelled as ascending page ids. The keys are inserted in that order and are small integers.
- The selection of websites by index (`easy_WSC.py:498-500`) and the outer per-site loop (`easy_WSC.py:485-500, 787-788`) are not modelled. A run is modelled for one `current` site.
- A division by a slot count of 0 (`% subpages` with `subpages == 0`) is not modelled. Every member that evaluates it requires `subpages >= 1`, where the source would raise `ZeroDivisionError`.
- A missing page in the subpage shuffle window or in `outputInput` is not modelled as an error. It would be a `KeyError` in the source; those members require the page instead. The missing reference pages 1 and 2 are the `MissingPage` fault.
- A line without a space is not modelled. `line.split(' ', 1)[-1]` would keep that whole line after the new label. The model assumes every line has a label column.
- QuickMode.QuickSiteLimit: the bound is `max(perSite, 1)`, not `perSite`. With `perSite == 0` and no main pages, a site's first slot is still written and counted.

## Findings

| source | as written | input that shows it | evidently intended | confidence | as-written member | corrected member |
|---|---|---|---|---|---|---|
| easy_WSC.py:332-334 | Without main pages, `if not main: continue` drops each site's first slot, which is then a subpage, from every file. The comment above it says it filters out main pages. The windows at 336-337 still start at offset f+1, so fold `folds` reaches one slot past the site's block | no main pages, 2 slots per site (`subpages = 2`), 2 folds, `pagesPerFold = 1`: page 1 is never written, and fold 2's test file gets no page | without main pages, every slot is a subpage and is written. Fold f tests the f-th run of `pagesPerFold` slots, so every page is tested in exactly one fold | not executed | FoldSplit.NoMainDropsFirstSubpage | FoldSplit.IntendedPagesPartConserves |
| easy_WSC.py:336-337 | Fold f's test window in a site starts at offset f+1 and spans `pagesPerFold` slots, so consecutive folds' windows are shifted by one slot, not by `pagesPerFold` | main pages, 6 subpages per site (`subpages = 7`), 3 folds, `pagesPerFold = 2`: slot 3 is tested in folds 1 and 2, slot 7 in no fold | fold f tests the f-th run of `pagesPerFold` subpages after the main slot, so every subpage is tested exactly once | not executed | FoldSplit.OverlappingWindows | FoldSplit.IntendedWindowsPartition |

The per-fold writer `Dataset.Dataset.OutputInput` keeps the window as
written, so the modelled fold files are the files the code produces.
`FoldSplit.InIntendedWindow` is the corrected window. Its partition
property is proved in `FoldSplit.IntendedWindowsPartition`, with and without
main pages. `FoldSplit.IntendedPagesPart` is the corrected page split. It
skips no slot, and `FoldSplit.IntendedPagesPartConserves` proves that it
writes every page. `FoldSplit.IntendedNoMainExample` shows both folds of the
example above each testing one page.
