# Notion workflow automation: parser, batching and checklist reconciliation

This project models the local logic of the repository's Notion automation scripts and proves properties of it. Two parts are covered.

- **The markdown-to-block parser and its batching** (`08-automation/scripts/sync-workflows-to-notion.js`).
  - `parseMarkdownToBlocks` splits a workflow file at line feeds and walks the lines once, with three pieces of state: an "inside a fence" flag, the fence language, and the accumulated fenced lines.
  - Outside a fence, each line is classified by the first prefix rule that matches: `# `, `## `, `### `, `- `/`* `, a `\d+\.\s` marker, then any other non-blank line that does not start with `---`.
  - `createNotionPage` sends the first 90 blocks with the page creation request and the rest in append requests of 100.
- **Checklist reconciliation** in three scripts:
  - `update-workflow-checklist.js` and `update-implementation-plan.js` list every block of a page through the cursor loop, then check each unchecked to-do item whose lower-cased text contains a keyword. They send the item's rich text back unchanged and keep summary counters. The implementation-plan script then appends a status callout.
  - `update-notion-checklist.js` first finds the page by title, then reads a single page of blocks. It checks matching items with a request that carries an empty rich-text list, and counts the requests it issued.

Modules:
- `Wrappers` holds `Option`.
- `Text` models ASCII `trim`, `toLowerCase` and `includes`.
- `SyncWorkflows` models the parser and the split.
- `Checklist` holds what the two text-preserving scripts share: the remote page, the cursor loop, the keyword test, the checkbox update and the reconciliation loop with its specification.
- `WorkflowChecklist`, `ImplementationPlan` and `NotionChecklist` hold each script's own keywords and steps.

Modelling choices:
- **The remote page** is `Checklist.RemotePage`, a class whose `blocks` field (a sequence of type, rich-text contents and checked flag) the update methods rewrite in place.
- **Block ids** are positions in that sequence.
- **Which remote calls throw** is decided by the caller:
  - `fails` is the set of positions whose update request throws;
  - a listing is a sequence of responses, each either a page of results with its `has_more` flag, or an error;
  - a search is `None` when it throws.
- **The parser** is specified by a function `Step` for one loop iteration and its fold `RunFrom` over the lines. The imperative `ParseMarkdownToBlocks` is proved equal to that fold.
- **The reconciliation loops** are specified by `Reconciled` / `Overwritten` (the page afterwards) and by counting functions (the summary). Each imperative loop is proved to produce exactly these.

The two copies of `getAllPageBlocks` and `updateCheckboxItem` are textually the same apart from log messages. They are modelled once, in `Checklist`, and cited from `update-workflow-checklist.js`; the copies are at `update-implementation-plan.js:17-66`.

In `update-notion-checklist.js` a comment next to the update payload says the existing text would be preserved. The payload's `rich_text` is in fact an empty list, and the model follows the code: an updated item keeps its checked flag and loses its text (`NotionChecklist.UpdatedItemsLoseTheirText`).

## Model

| member | source | states |
|---|---|---|
| Text.Trim | 08-automation/scripts/sync-workflows-to-notion.js:97 | `trim()` returns the slice of the text that starts after its leading whitespace and has only whitespace after it; the result neither starts nor ends with whitespace, and it is empty exactly for whitespace-only text |
| Text.TrimOfPadded | 08-automation/scripts/sync-workflows-to-notion.js:97 | whitespace, then a text with no whitespace at either end, then whitespace, trims to exactly that text, so the facts of `Trim` determine it |
| Text.Lower | 08-automation/scripts/update-workflow-checklist.js:111 | `toLowerCase()` keeps the length and lower-cases each character on its own |
| Text.ContainsIffOccurs | 08-automation/scripts/update-workflow-checklist.js:112 | the left-to-right `includes` scan succeeds exactly when the keyword occurs at some position of the text |
| Text.MissingCharacterRulesOutContains | 08-automation/scripts/update-workflow-checklist.js:112 | a text lacking one of the keyword's characters does not include the keyword |
| SyncWorkflows.SplitLines | 08-automation/scripts/sync-workflows-to-notion.js:68 | `split('\n')` yields at least one line and no line holds a line feed |
| SyncWorkflows.JoinSplitLines | 08-automation/scripts/sync-workflows-to-notion.js:68 | joining the split lines with line feeds gives back the file |
| SyncWorkflows.SplitJoinLines | 08-automation/scripts/sync-workflows-to-notion.js:88 | splitting the `join('\n')` of feed-free lines gives back those lines |
| SyncWorkflows.JoinLines | 08-automation/scripts/sync-workflows-to-notion.js:88 | `join('\n')`, specified as the inverse of `SplitLines` by `JoinSplitLines` and `SplitJoinLines` |
| SyncWorkflows.NumberedMarkerLength | 08-automation/scripts/sync-workflows-to-notion.js:145 | the result is 0 or the length of the `^\d+\.\s` match, and it is the only length the pattern can match |
| SyncWorkflows.ClassifyLine | 08-automation/scripts/sync-workflows-to-notion.js:108-164 | specified by `ClassifyLineMeaning`: which rule fires for which line prefix, and what text each block keeps |
| SyncWorkflows.MarkersExclusive | 08-automation/scripts/sync-workflows-to-notion.js:108-164 | the prefixes the rules test exclude each other (`- ` and `* ` share a rule), so the order of the rules never decides between two markers |
| SyncWorkflows.ClassifyLineMeaning | 08-automation/scripts/sync-workflows-to-notion.js:108-164 | each heading level holds iff its marker starts the line; a bullet iff `- ` or `* `; a numbered item iff the marker matches. Each text is the line minus its marker, a paragraph's text is the whole line, and no block comes out iff the line is blank or starts with `---` |
| SyncWorkflows.PushClassified | 08-automation/scripts/sync-workflows-to-notion.js:108-164 | the classification branch of the loop pushes exactly the block `ClassifyLine` gives for the line, if any, after the blocks so far |
| SyncWorkflows.Step | 08-automation/scripts/sync-workflows-to-notion.js:75-106 | one iteration emits at most one block; a fence line toggles the fence flag and no other line does; a code block comes out only at a closing fence; a line inside a fence emits nothing |
| SyncWorkflows.ParseIsAppendOnly | 08-automation/scripts/sync-workflows-to-notion.js:69-165 | the blocks of a longer input extend those of its prefix, so blocks come out in line order |
| SyncWorkflows.BlocksNeverExceedLines | 08-automation/scripts/sync-workflows-to-notion.js:75-165 | the pass never yields more blocks than lines |
| SyncWorkflows.RunFromKeepsConsistent | 08-automation/scripts/sync-workflows-to-notion.js:93-98 | outside a fence the accumulator is always empty |
| SyncWorkflows.UnfencedLinesClassifiedInOrder | 08-automation/scripts/sync-workflows-to-notion.js:108-164 | without fence lines, the pass equals classifying every line on its own, in order |
| SyncWorkflows.OneBlockPerContentLine | 08-automation/scripts/sync-workflows-to-notion.js:155 | without fences, there is exactly one block per line that is neither blank nor a `---` rule |
| SyncWorkflows.FenceAccumulates | 08-automation/scripts/sync-workflows-to-notion.js:103-106 | inside a fence, lines not starting with the marker are appended to the accumulator and emit nothing |
| SyncWorkflows.FencedRegionYieldsOneCodeBlock | 08-automation/scripts/sync-workflows-to-notion.js:77-101 | a fence pair gives exactly one code block, in the opening line's language, with the enclosed lines joined by line feeds; an empty pair gives none; any marker line closes |
| SyncWorkflows.CodeBlockKeepsItsLines | 08-automation/scripts/sync-workflows-to-notion.js:88 | a code block's text splits back into exactly the enclosed lines |
| SyncWorkflows.UnterminatedFenceEmitsNothing | 08-automation/scripts/sync-workflows-to-notion.js:103-106 | after an unclosed fence, the lines are accumulated and nothing is emitted |
| SyncWorkflows.UnterminatedFenceIsDropped | 08-automation/scripts/sync-workflows-to-notion.js:165-167 | the result of a file ending in an unclosed fence is the result of the lines before the fence: the fenced lines are lost |
| SyncWorkflows.FenceLanguageIsAnnotation | 08-automation/scripts/sync-workflows-to-notion.js:97 | the language of an opening fence is its annotation with the surrounding whitespace removed (so "```  python  " opens a python block) |
| SyncWorkflows.BareFenceIsPlainText | 08-automation/scripts/sync-workflows-to-notion.js:97 | a fence with nothing but whitespace after the marker opens a "plain text" block |
| SyncWorkflows.FenceLanguage | 08-automation/scripts/sync-workflows-to-notion.js:97 | specified by `FenceLanguageIsAnnotation` and `BareFenceIsPlainText` |
| SyncWorkflows.PythonFenceExample | 08-automation/scripts/sync-workflows-to-notion.js:77-101 | a `python` fence around one line yields exactly one python code block holding that line |
| SyncWorkflows.ParseMarkdownToBlocks | 08-automation/scripts/sync-workflows-to-notion.js:67-168 | the imperative pass returns exactly the fold of `Step` over the lines |
| SyncWorkflows.SplitForUpload | 08-automation/scripts/sync-workflows-to-notion.js:183-216 | the first chunk is the first min(90, n) blocks; the rest go out in non-empty batches of at most 100, all but the last exactly 100, and none exactly when n <= 90; the chunks concatenate to the blocks |
| SyncWorkflows.AppendBatches | 08-automation/scripts/sync-workflows-to-notion.js:205-216 | the `i += 100` loop cuts the remaining blocks into batches that concatenate back to them, each of 1 to 100 blocks and all but the last full; no batch exactly when nothing remains |
| SyncWorkflows.CreateNotionPage | 08-automation/scripts/sync-workflows-to-notion.js:170-224 | no page for an unreadable or empty file; otherwise the creation request carries the first min(90, n) parsed blocks, and the append batches carry the rest in order, each of 1 to 100 blocks and all but the last full, with none exactly when n <= 90 |
| Checklist.Fetched | 08-automation/scripts/update-workflow-checklist.js:59-83 | the cursor loop consumes only successful responses, all but the last with `has_more`, and stops after one without it |
| Checklist.Collected | 08-automation/scripts/update-workflow-checklist.js:59-83 | specified by `CollectedInFetchOrder`: the concatenated results of the responses the cursor loop consumes |
| Checklist.ConcatResults | 08-automation/scripts/update-workflow-checklist.js:59-83 | the page results concatenated in fetch order; `CollectedInFetchOrder` equates it over the consumed responses with `Collected` |
| Checklist.CollectedInFetchOrder | 08-automation/scripts/update-workflow-checklist.js:59-83 | the collected blocks are the results of the consumed responses concatenated in fetch order |
| Checklist.GetAllPageBlocks | 08-automation/scripts/update-workflow-checklist.js:59-83 | the `while (hasMore)` loop returns the concatenation of the fetched pages, keeping those fetched before an error |
| Checklist.MatchesAnyKeyword | 08-automation/scripts/update-workflow-checklist.js:110-113 | true exactly when some keyword is a substring of the lower-cased text |
| Checklist.ItemText | 08-automation/scripts/update-workflow-checklist.js:128 | the first rich-text segment's content, or "" (`EmptyTextNeverMatches` shows such an item never matches) |
| Checklist.NoKeywordFitsLetters | 08-automation/scripts/update-workflow-checklist.js:110-113 | a text whose lower-cased characters lie in a set matches no keyword holding a character outside that set |
| Checklist.Reconciled | 08-automation/scripts/update-workflow-checklist.js:125-142 | only matching unchecked to-do items whose update went through change; they end checked; nothing is unchecked; types and texts are preserved |
| Checklist.CountsBoundedByToDo | 08-automation/scripts/update-workflow-checklist.js:125-138 | successful updates never exceed attempts, and attempts plus already-completed never exceed the to-do items |
| Checklist.Summarize | 08-automation/scripts/update-workflow-checklist.js:161-166 | the counters of a run; `SummaryIsConsistent`, `CountsBoundedByToDo`, `UpdatedEqualsAttemptsIffNoFailure` and `TotalCompletedIsCheckedAfterRun` state what they mean |
| Checklist.SummaryIsConsistent | 08-automation/scripts/update-workflow-checklist.js:161-166 | `totalCompleted = updated + alreadyCompleted <= totalItems` |
| Checklist.UpdatedEqualsAttemptsIffNoFailure | 08-automation/scripts/update-workflow-checklist.js:137-138 | `updated` equals the number of update attempts exactly when none of them failed |
| Checklist.TotalCompletedIsCheckedAfterRun | 08-automation/scripts/update-workflow-checklist.js:132-138 | the reported total equals the number of matching to-do items checked afterwards |
| Checklist.ReconcileTwice | 08-automation/scripts/update-workflow-checklist.js:125-142 | two runs do what one run does with only the failures common to both |
| Checklist.NothingLeftToUpdate | 08-automation/scripts/update-workflow-checklist.js:132-138 | after a run without failures, no item needs an update |
| Checklist.SecondRunIsIdempotent | 08-automation/scripts/update-implementation-plan.js:146-152 | after a run without failures, a second run issues no update, changes nothing, and reports all first-run completions as already completed |
| Checklist.UpdateCheckboxItem | 08-automation/scripts/update-workflow-checklist.js:85-108 | writes only when the block is a to-do whose flag differs from the target, sends the same rich text back, and returns true exactly when it wrote; an error writes nothing and returns false |
| Checklist.ReconcileChecklist | 08-automation/scripts/update-workflow-checklist.js:115-167 | the loop leaves the page as `Reconciled` says and returns the counters `Summarize` defines |
| WorkflowChecklist.ShouldItemBeCompleted | 08-automation/scripts/update-workflow-checklist.js:110-113 | true exactly when some completed keyword is a substring of the lower-cased text |
| WorkflowChecklist.KeywordOccurrenceCompletes | 08-automation/scripts/update-workflow-checklist.js:110-113 | an occurrence of a keyword anywhere in the lower-cased text marks the item completed |
| WorkflowChecklist.CapitalisedKeywordCompletes | 08-automation/scripts/update-workflow-checklist.js:111 | "Git Repository" anywhere in an item marks it completed, so case is ignored |
| WorkflowChecklist.GitRepositoryItemIsChecked | 08-automation/scripts/update-workflow-checklist.js:125-142 | an unchecked to-do item holding "Git Repository" anywhere ends checked unless its update fails |
| WorkflowChecklist.PlanNextSprintStaysUnchecked | 08-automation/scripts/update-workflow-checklist.js:125-142 | "Plan next sprint" holds no completed keyword, and reconciliation leaves such an item exactly as it was |
| WorkflowChecklist.AnalyzeAndUpdateChecklist | 08-automation/scripts/update-workflow-checklist.js:115-167 | the page ends as the reconciliation of the collected blocks, and the summary is the one they define |
| ImplementationPlan.IsSetupTask | 08-automation/scripts/update-implementation-plan.js:91-94 | true exactly when some setup keyword is a substring of the lower-cased text |
| ImplementationPlan.PlanNextSprintStaysUnchecked | 08-automation/scripts/update-implementation-plan.js:139-155 | "Plan next sprint" is no setup task, and reconciliation leaves such an item exactly as it was |
| ImplementationPlan.CalloutIsNeverCounted | 08-automation/scripts/update-implementation-plan.js:99-140 | appending the status callout (`CompletionCallout`) leaves the counters of a later run unchanged, since only to-do blocks count |
| ImplementationPlan.AddCompletionUpdate | 08-automation/scripts/update-implementation-plan.js:96-127 | appends exactly one callout at the end of the page, or nothing if the request fails |
| ImplementationPlan.UpdateImplementationPlan | 08-automation/scripts/update-implementation-plan.js:129-184 | the page ends as the reconciliation of the collected blocks followed by one callout; the summary is the one they define |
| NotionChecklist.FindFirst | 08-automation/scripts/update-notion-checklist.js:40 | `find` returns the first element satisfying the test, or none when no element does |
| NotionChecklist.IsChecklistTitle | 08-automation/scripts/update-notion-checklist.js:43 | specified through `FirstChecklistPage` and `FindChecklistPage`: "checklist" or "configuration" in the lower-cased title |
| NotionChecklist.FirstChecklistPage | 08-automation/scripts/update-notion-checklist.js:40-44 | the position of the first result whose lower-cased title holds "checklist" or "configuration", or none when no result matches |
| NotionChecklist.FindChecklistPage | 08-automation/scripts/update-notion-checklist.js:18-57 | the id of the first result whose title (`PageTitle`: the `title` property, else `Name`, else "") names a checklist; nothing when the search throws or no result matches |
| NotionChecklist.FirstPageOfListing | 08-automation/scripts/update-notion-checklist.js:59-71 | the single request reads a prefix of the full cursor listing: all of it when there is no more, and at most 100 blocks |
| NotionChecklist.UpdateChecklistItem | 08-automation/scripts/update-notion-checklist.js:73-87 | writes the flag with an empty rich-text list without reading the block first; an error is swallowed and writes nothing |
| NotionChecklist.Overwritten | 08-automation/scripts/update-notion-checklist.js:115-127 | only matching unchecked to-do items whose update went through change; they end checked with an empty rich-text list; nothing is unchecked |
| NotionChecklist.OverwrittenAgreesWithReconciled | 08-automation/scripts/update-notion-checklist.js:77-79 | this variant checks the same items as the text-preserving loop and differs only in the updated items' text |
| NotionChecklist.EmptyTextNeverMatches | 08-automation/scripts/update-notion-checklist.js:117-120 | with non-empty keywords, an item without text never matches |
| NotionChecklist.UpdatedItemsLoseTheirText | 08-automation/scripts/update-notion-checklist.js:75-81 | the update writes a to-do with the requested flag and an empty rich-text list, so every updated item had text before and holds no rich-text segment after |
| NotionChecklist.NothingLeftToOverwrite | 08-automation/scripts/update-notion-checklist.js:122 | after a run without failures, a second run issues no update |
| NotionChecklist.AnalyzeAndUpdateChecklist | 08-automation/scripts/update-notion-checklist.js:89-130 | the page ends as `Overwritten` says; the count is the number of update requests issued, failed ones included |
| NotionChecklist.CountedUpdatesCoverSuccessfulOnes | 08-automation/scripts/update-notion-checklist.js:122-125 | the count is at least the number of updates that went through, and equal to it when none failed |
| NotionChecklist.UpdateNotionChecklist | 08-automation/scripts/update-notion-checklist.js:132-148 | with no page id (none, or the empty id), nothing is analysed or changed; otherwise the single-page analysis runs on the found page |

## Left out

- The Notion client calls are not modelled. These are `pages.create/retrieve`, `blocks.children.list/append`, `blocks.retrieve/update` and `search`. Their effects are the page sequence, the failure set and the response sequences above.
- The HTTP API, authentication, `dotenv` and the environment are out of scope.
- Reading workflow files is I/O. The file contents are the `Option<string>` given to `CreateNotionPage`.
- The other steps of `createNotionPage` are not modelled:
  - the page title, icon and parent id it sends;
  - what happens when creation or an append request fails part-way.

  The model is the plan of requests, not their outcome.
- The `setTimeout` rate-limit delays are timing only.
- The `Math.round` completion rates are floating-point display values, so they are not modelled.
- `new Date().toLocaleDateString()` in the callout text is a clock read. The announcement text is the `note` parameter.
- Console output is out of scope, including the `substring` truncation and the "Untitled" display fallback of the search listing.
- The page-access probe in `main` of `update-workflow-checklist.js` and `update-implementation-plan.js` is a remote call whose only effect is an early exit. The model starts at the analysis.
- The search query text and filter in `findChecklistPage` are not modelled. The search results are an input.
- The unused `CHECKLIST_PAGE_ID` constant is not modelled.
- Rich-text annotations, block children and block types other than to-do and callout are out of scope. Other types are one `Other` kind, and only the content strings of a rich-text list are kept.
- Unicode is not modelled. `toLowerCase`, `trim`, `\s` and `\d` are modelled over ASCII: only `A`-`Z` are lower-cased, and whitespace is space, tab, line feed, vertical tab, form feed and carriage return.
- Checklist.Fetched: a listing that runs out of supplied responses while `has_more` is still true is treated like an error. The real cursor loop would keep calling the API.
- Checklist.ReconcileChecklist:
  - It requires the listed blocks to be the first blocks of the page. The model does not capture a page that changes between listing and update.
  - Block ids are positions, so two blocks cannot share an id.
- NotionChecklist.FirstPageOfListing: the bound of 100 holds only under the assumption that the API honours `page_size`.
