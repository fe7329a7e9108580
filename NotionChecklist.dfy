/**
 * The configuration-checklist script that first looks the checklist page up
 * by title, then reads one page of its blocks and checks every to-do item
 * that mentions a completed keyword. Its update request sends an empty
 * rich-text list, so an updated item loses its text.
 */
module NotionChecklist {
  import opened Wrappers
  import opened Text
  import opened Checklist

  // ---------------------------------------------------------------------------
  // Finding the page
  // ---------------------------------------------------------------------------

  /**
   * One page of the search response: its id and the text of its `title` and
   * `Name` title properties, "" where the property or its first segment is
   * missing.
   */
  datatype SearchResult = SearchResult(id: string, titleText: string, nameText: string)

  /** The page's title: the `title` property, else the `Name` property, else "". */
  function PageTitle(p: SearchResult): (t: string)
    ensures p.titleText != "" ==> t == p.titleText
    ensures p.titleText == "" ==> t == p.nameText
  {
    if p.titleText != "" then p.titleText else p.nameText
  }

  /** A title naming a checklist: it holds "checklist" or "configuration", ignoring case. */
  predicate IsChecklistTitle(title: string) {
    Contains(Lower(title), "checklist") || Contains(Lower(title), "configuration")
  }

  /** The position of the first element of `xs` that satisfies `p`, as `Array.prototype.find` scans. */
  function FindFirst<T>(xs: seq<T>, p: T -> bool): (r: Option<nat>)
    ensures r.Some? ==> r.value < |xs| && p(xs[r.value])
    ensures r.Some? ==> forall j :: 0 <= j < r.value ==> !p(xs[j])
    ensures r.None? ==> forall j :: 0 <= j < |xs| ==> !p(xs[j])
  {
    if xs == [] then None
    else if p(xs[0]) then Some(0)
    else match FindFirst(xs[1..], p)
      case None => None
      case Some(j) => Some(j + 1)
  }

  /** The position of the first search result whose title names a checklist (`results.find`). */
  function FirstChecklistPage(results: seq<SearchResult>): (r: Option<nat>)
    ensures r.Some? ==> r.value < |results| && IsChecklistTitle(PageTitle(results[r.value]))
    ensures r.Some? ==> forall j :: 0 <= j < r.value ==> !IsChecklistTitle(PageTitle(results[j]))
    ensures r.None? ==> forall j :: 0 <= j < |results| ==> !IsChecklistTitle(PageTitle(results[j]))
  {
    FindFirst(results, (p: SearchResult) => IsChecklistTitle(PageTitle(p)))
  }

  /**
   * `findChecklistPage`: the id of the first search result whose title names
   * a checklist. `search` is the search response, None when the search threw;
   * a thrown search and a search with no such page both give None.
   */
  function FindChecklistPage(search: Option<seq<SearchResult>>): (pageId: Option<string>)
    ensures search.None? ==> pageId.None?
    ensures search.Some? && pageId.Some? ==>
              exists j :: 0 <= j < |search.value| && search.value[j].id == pageId.value &&
                          IsChecklistTitle(PageTitle(search.value[j])) &&
                          forall k :: 0 <= k < j ==> !IsChecklistTitle(PageTitle(search.value[k]))
    ensures search.Some? && pageId.None? ==>
              forall j :: 0 <= j < |search.value| ==> !IsChecklistTitle(PageTitle(search.value[j]))
  {
    match search
    case None => None
    case Some(results) =>
      match FirstChecklistPage(results)
      case None => None
      case Some(j) => Some(results[j].id)
  }

  // ---------------------------------------------------------------------------
  // Reading the page
  // ---------------------------------------------------------------------------

  /** `getPageBlocks`: a single listing request with no cursor; on an error, no blocks. */
  function GetPageBlocks(response: ListResponse): (blocks: seq<PageBlock>)
    ensures response.ListFailed? ==> blocks == []
    ensures response.Listed? ==> blocks == response.results
  {
    match response
    case ListFailed => []
    case Listed(results, _) => results
  }

  /**
   * The single request reads the first page of the full cursor listing: its
   * blocks are a prefix of what the cursor loop collects, all of it when the
   * page has no more blocks, and at most a page's worth.
   */
  lemma FirstPageOfListing(first: ListResponse, rest: seq<ListResponse>)
    ensures GetPageBlocks(first) <= Collected([first] + rest)
    ensures first.Listed? && !first.hasMore ==> GetPageBlocks(first) == Collected([first] + rest)
    ensures (first.Listed? ==> |first.results| <= PAGE_SIZE) ==> |GetPageBlocks(first)| <= PAGE_SIZE
  {
    var responses := [first] + rest;
    assert responses[0] == first;
    if first.Listed? {
      assert Collected(responses) == first.results + (if first.hasMore then Collected(responses[1..]) else []);
    }
  }

  // ---------------------------------------------------------------------------
  // Updating the page
  // ---------------------------------------------------------------------------

  /** The keywords of the tasks the implementation has completed. */
  const COMPLETED_ITEMS: seq<string> := [
    "directory structure",
    "git repository",
    "github repository",
    "project configuration",
    "environment configuration",
    "documentation",
    "ai agent",
    "workflow",
    "notion integration",
    "notion workspace",
    "database creation",
    "backup system",
    "restore script",
    "automation",
    "scripts",
    "node.js",
    "dependencies"
  ]

  /** What an update request leaves in the block: a to-do with the given flag and no rich text. */
  function WrittenItem(isCompleted: bool): (b: PageBlock)
    ensures b.kind == ToDo && b.checked == isCompleted && ItemText(b) == ""
    ensures b.richText == []
  {
    PageBlock(ToDo, [], isCompleted)
  }

  /**
   * `updateChecklistItem`: send the checked flag with an empty rich-text list,
   * without reading the block first. A thrown error (`fails`, or an id that
   * names no block) is reported and swallowed, and nothing is written.
   */
  method UpdateChecklistItem(page: RemotePage, id: nat, isCompleted: bool, fails: bool)
    modifies page
    ensures !fails && id < |old(page.blocks)| ==> page.blocks == old(page.blocks)[id := WrittenItem(isCompleted)]
    ensures fails || id >= |old(page.blocks)| ==> page.blocks == old(page.blocks)
  {
    if !fails && id < |page.blocks| {
      page.blocks := page.blocks[id := WrittenItem(isCompleted)];
    }
  }

  /** The block after its turn in the loop; `failed` says whether its update request threw. */
  function OverwriteItem(keywords: seq<string>, b: PageBlock, failed: bool): PageBlock
  {
    if NeedsUpdate(keywords, b) && !failed then WrittenItem(true) else b
  }

  /**
   * The listed blocks after one run: matching unchecked to-do items whose
   * update went through are checked and emptied of their text; nothing else
   * changes, and nothing is unchecked.
   */
  function Overwritten(s: seq<PageBlock>, keywords: seq<string>, fails: set<nat>): (r: seq<PageBlock>)
    ensures |r| == |s|
    ensures forall i :: 0 <= i < |s| ==> r[i].kind == s[i].kind
    ensures forall i :: 0 <= i < |s| && s[i].checked ==> r[i].checked
    ensures forall i :: 0 <= i < |s| && r[i] != s[i] ==> NeedsUpdate(keywords, s[i]) && i !in fails
    ensures forall i :: 0 <= i < |s| && NeedsUpdate(keywords, s[i]) && i !in fails ==>
              r[i].checked && r[i].richText == [] && ItemText(r[i]) == ""
  {
    seq(|s|, i requires 0 <= i < |s| => OverwriteItem(keywords, s[i], i in fails))
  }

  /**
   * This script and the text-preserving loop check the same items: the two
   * results agree on every block's type and checked flag, and differ only in
   * the rich text of the items they updated.
   */
  lemma OverwrittenAgreesWithReconciled(s: seq<PageBlock>, keywords: seq<string>, fails: set<nat>)
    ensures var o, r := Overwritten(s, keywords, fails), Reconciled(s, keywords, fails);
            |o| == |r| &&
            forall i :: 0 <= i < |s| ==>
              o[i].kind == r[i].kind && o[i].checked == r[i].checked &&
              (o[i].richText != r[i].richText ==> NeedsUpdate(keywords, s[i]) && i !in fails)
  {
    var o, r := Overwritten(s, keywords, fails), Reconciled(s, keywords, fails);
    forall i | 0 <= i < |s|
      ensures o[i].kind == r[i].kind && o[i].checked == r[i].checked
    {
      assert o[i] == OverwriteItem(keywords, s[i], i in fails);
      assert r[i] == ReconcileItem(keywords, s[i], i in fails);
    }
  }

  /** An item matches only if its text holds a keyword, so a non-empty keyword list never matches "". */
  lemma {:induction false} EmptyTextNeverMatches(keywords: seq<string>)
    requires forall k :: 0 <= k < |keywords| ==> keywords[k] != ""
    ensures !MatchesAnyKeyword(keywords, "")
  {
    forall k | 0 <= k < |keywords|
      ensures !Contains(Lower(""), keywords[k])
    {
      ContainsIffOccurs(Lower(""), keywords[k]);
    }
  }

  /**
   * The text is not preserved: every item the run updates had text (it
   * matched a keyword) and afterwards holds no rich-text segment at all.
   */
  lemma UpdatedItemsLoseTheirText(s: seq<PageBlock>, fails: set<nat>)
    ensures var r := Overwritten(s, COMPLETED_ITEMS, fails);
            forall i :: 0 <= i < |s| && NeedsUpdate(COMPLETED_ITEMS, s[i]) && i !in fails ==>
              ItemText(s[i]) != "" && r[i].richText == [] && ItemText(r[i]) == ""
  {
    EmptyTextNeverMatches(COMPLETED_ITEMS);
  }

  /** After a run whose updates all went through, no item needs an update. */
  lemma {:induction false} NothingLeftToOverwrite(s: seq<PageBlock>, keywords: seq<string>)
    ensures CountAttempts(Overwritten(s, keywords, {}), keywords) == 0
  {
    if s != [] {
      var i := |s| - 1;
      var r := Overwritten(s, keywords, {});
      NothingLeftToOverwrite(s[..i], keywords);
      assert r[..i] == Overwritten(s[..i], keywords, {});
    }
  }

  /** A page whose first blocks are overwritten one by one and whose other blocks are untouched. */
  lemma OverwrittenPrefixOfPage(s: seq<PageBlock>, keywords: seq<string>, fails: set<nat>,
                                before: seq<PageBlock>, after: seq<PageBlock>)
    requires |s| <= |before| == |after|
    requires forall k :: 0 <= k < |s| ==> after[k] == OverwriteItem(keywords, s[k], k in fails)
    requires forall k :: |s| <= k < |after| ==> after[k] == before[k]
    ensures after == Overwritten(s, keywords, fails) + before[|s|..]
  {
  }

  /**
   * `analyzeAndUpdateChecklist` over the blocks `blocks` of one listing, which
   * are the first blocks of the page: issue an update for every matching
   * unchecked to-do item and count the updates issued, whether or not they
   * went through.
   */
  method AnalyzeAndUpdateChecklist(page: RemotePage, blocks: seq<PageBlock>, fails: set<nat>)
    returns (updatedCount: nat)
    requires blocks <= page.blocks
    modifies page
    ensures page.blocks == Overwritten(blocks, COMPLETED_ITEMS, fails) + old(page.blocks)[|blocks|..]
    ensures updatedCount == CountAttempts(blocks, COMPLETED_ITEMS)
  {
    updatedCount := 0;
    var i := 0;
    while i < |blocks|
      invariant 0 <= i <= |blocks|
      invariant |page.blocks| == |old(page.blocks)|
      invariant forall k :: 0 <= k < i ==> page.blocks[k] == OverwriteItem(COMPLETED_ITEMS, blocks[k], k in fails)
      invariant forall k :: i <= k < |page.blocks| ==> page.blocks[k] == old(page.blocks)[k]
      invariant updatedCount == CountAttempts(blocks[..i], COMPLETED_ITEMS)
    {
      var block := blocks[i];
      assert blocks[..i + 1][..i] == blocks[..i];
      if block.kind == ToDo {
        var shouldBeCompleted := MatchesAnyKeyword(COMPLETED_ITEMS, ItemText(block));
        if shouldBeCompleted && !block.checked {
          UpdateChecklistItem(page, i, true, i in fails);
          updatedCount := updatedCount + 1;
        }
      }
      i := i + 1;
    }
    assert blocks[..i] == blocks;
    OverwrittenPrefixOfPage(blocks, COMPLETED_ITEMS, fails, old(page.blocks), page.blocks);
  }

  /** The reported count never falls below the updates that went through, and equals it when none failed. */
  lemma CountedUpdatesCoverSuccessfulOnes(s: seq<PageBlock>, fails: set<nat>)
    ensures CountUpdated(s, COMPLETED_ITEMS, fails) <= CountAttempts(s, COMPLETED_ITEMS)
    ensures NoFailedUpdate(s, COMPLETED_ITEMS, fails) ==>
              CountAttempts(s, COMPLETED_ITEMS) == CountUpdated(s, COMPLETED_ITEMS, fails)
  {
    CountsBoundedByToDo(s, COMPLETED_ITEMS, fails);
    UpdatedEqualsAttemptsIffNoFailure(s, COMPLETED_ITEMS, fails);
  }

  /**
   * `main`: look the page up; when no id comes back (none, or the empty id)
   * stop before touching anything, otherwise read one page of its blocks and
   * update it. `page` is the page the found id names; the result is the
   * count the analysis reports, None when it did not run.
   */
  method UpdateNotionChecklist(page: RemotePage, search: Option<seq<SearchResult>>, response: ListResponse,
                               fails: set<nat>)
    returns (updatedCount: Option<nat>)
    requires GetPageBlocks(response) <= page.blocks
    modifies page
    ensures var pageId := FindChecklistPage(search);
            pageId.None? || pageId.value == "" ==> updatedCount.None? && page.blocks == old(page.blocks)
    ensures var pageId := FindChecklistPage(search);
            pageId.Some? && pageId.value != "" ==>
              var blocks := GetPageBlocks(response);
              updatedCount == Some(CountAttempts(blocks, COMPLETED_ITEMS)) &&
              page.blocks == Overwritten(blocks, COMPLETED_ITEMS, fails) + old(page.blocks)[|blocks|..]
  {
    var pageId := FindChecklistPage(search);
    if pageId.None? || pageId.value == "" {
      return None;
    }
    var blocks := GetPageBlocks(response);
    var count := AnalyzeAndUpdateChecklist(page, blocks, fails);
    updatedCount := Some(count);
  }
}
