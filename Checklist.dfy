/**
 * What the checklist scripts share: the remote page as an in-memory list of
 * blocks, the cursor loop that lists a page's children, the keyword test, the
 * single-item checkbox update, and the reconciliation loop that checks every
 * matching to-do item and keeps the summary counters.
 *
 * A block's id is its position in the page. The remote calls of one run are
 * decided in advance by the caller: `fails` holds the positions whose update
 * request throws, and a listing is a sequence of responses.
 */
module Checklist {
  import opened Text

  datatype BlockKind = ToDo | Callout | Other

  /** A remote block: its type, the contents of its rich-text segments and its checked flag. */
  datatype PageBlock = PageBlock(kind: BlockKind, richText: seq<string>, checked: bool)

  /** The remote page whose blocks the scripts read and update in place. */
  class RemotePage {
    var blocks: seq<PageBlock>

    constructor (blocks: seq<PageBlock>)
      ensures this.blocks == blocks
    {
      this.blocks := blocks;
    }
  }

  /** The text the scripts read from a block: the content of its first rich-text segment, or "". */
  function ItemText(b: PageBlock): string
  {
    if |b.richText| > 0 then b.richText[0] else ""
  }

  // ---------------------------------------------------------------------------
  // Listing a page: the cursor loop
  // ---------------------------------------------------------------------------

  const PAGE_SIZE: nat := 100

  /** One `blocks.children.list` call: a page of results and its has_more flag, or a thrown error. */
  datatype ListResponse = Listed(results: seq<PageBlock>, hasMore: bool) | ListFailed

  /** The results of the given responses, concatenated in order. */
  function ConcatResults(responses: seq<ListResponse>): seq<PageBlock>
    requires forall k :: 0 <= k < |responses| ==> responses[k].Listed?
  {
    if responses == [] then [] else responses[0].results + ConcatResults(responses[1..])
  }

  /**
   * How many responses the cursor loop consumes: it goes on while has_more is
   * true and stops at the first error. Running out of responses counts as an
   * error.
   */
  function Fetched(responses: seq<ListResponse>): (n: nat)
    ensures n <= |responses|
    ensures forall k :: 0 <= k < n ==> responses[k].Listed?
    ensures forall k :: 0 <= k < n - 1 ==> responses[k].hasMore
    ensures n < |responses| && responses[n].Listed? ==> 0 < n && !responses[n - 1].hasMore
  {
    if responses == [] || responses[0].ListFailed? then 0
    else if !responses[0].hasMore then 1
    else 1 + Fetched(responses[1..])
  }

  /** The blocks the cursor loop collects. */
  function Collected(responses: seq<ListResponse>): seq<PageBlock>
  {
    if responses == [] then []
    else match responses[0]
      case ListFailed => []
      case Listed(results, hasMore) => results + (if hasMore then Collected(responses[1..]) else [])
  }

  /** The collected blocks are the results of the consumed responses, in fetch order. */
  lemma {:induction false} CollectedInFetchOrder(responses: seq<ListResponse>)
    ensures Collected(responses) == ConcatResults(responses[..Fetched(responses)])
    decreases |responses|
  {
    var n := Fetched(responses);
    if responses == [] || responses[0].ListFailed? {
      assert responses[..n] == [];
    } else if !responses[0].hasMore {
      assert responses[..1] == [responses[0]];
      assert responses[..1][1..] == [];
    } else {
      var rest := responses[1..];
      var m := Fetched(rest);
      assert n == 1 + m;
      CollectedInFetchOrder(rest);
      assert responses[..n][0] == responses[0];
      assert responses[..n][1..] == rest[..m];
    }
  }

  /** One turn of the cursor loop: a successful response contributes its results, then the rest if it has more. */
  lemma CollectedFrom(responses: seq<ListResponse>, i: nat)
    requires i < |responses| && responses[i].Listed?
    ensures Collected(responses[i..]) ==
            responses[i].results + (if responses[i].hasMore then Collected(responses[i + 1..]) else [])
  {
    assert responses[i..][0] == responses[i];
    assert responses[i..][1..] == responses[i + 1..];
  }

  /** The cursor loop collects nothing from an error or from the end of the responses. */
  lemma CollectedStops(responses: seq<ListResponse>, i: nat)
    requires i <= |responses|
    requires i == |responses| || responses[i].ListFailed?
    ensures Collected(responses[i..]) == []
  {
    if i < |responses| {
      assert responses[i..][0] == responses[i];
    }
  }

  /**
   * `getAllPageBlocks`: list the page 100 blocks at a time, following the
   * cursor while has_more is true; on an error keep what was fetched so far.
   */
  method GetAllPageBlocks(responses: seq<ListResponse>) returns (allBlocks: seq<PageBlock>)
    ensures allBlocks == ConcatResults(responses[..Fetched(responses)])
    ensures allBlocks == Collected(responses)
  {
    ghost var total := Collected(responses);
    allBlocks := [];
    var hasMore := true;
    var i := 0;
    while hasMore
      invariant 0 <= i <= |responses|
      invariant hasMore ==> allBlocks + Collected(responses[i..]) == total
      invariant !hasMore ==> allBlocks == total
      decreases |responses| - i
    {
      if i == |responses| || responses[i].ListFailed? {
        CollectedStops(responses, i);
        assert allBlocks + [] == allBlocks;
        break;
      }
      var response := responses[i];
      CollectedFrom(responses, i);
      ghost var rest := if response.hasMore then Collected(responses[i + 1..]) else [];
      assert allBlocks + response.results + rest == total;
      allBlocks := allBlocks + response.results;
      hasMore := response.hasMore;
      i := i + 1;
      assert !hasMore ==> allBlocks + [] == allBlocks;
    }
    CollectedInFetchOrder(responses);
  }

  // ---------------------------------------------------------------------------
  // The keyword test
  // ---------------------------------------------------------------------------

  /** Some keyword is a substring of the lower-cased text (`keywords.some(k => lower.includes(k))`). */
  function MatchesAnyKeyword(keywords: seq<string>, text: string): (r: bool)
    ensures r <==> exists k :: 0 <= k < |keywords| && Contains(Lower(text), keywords[k])
  {
    if keywords == [] then false
    else
      assert forall k :: 0 < k < |keywords| ==> keywords[k] == keywords[1..][k - 1];
      Contains(Lower(text), keywords[0]) || MatchesAnyKeyword(keywords[1..], text)
  }

  // ---------------------------------------------------------------------------
  // Reconciliation: what one run does to the page and to the counters
  // ---------------------------------------------------------------------------

  /** A to-do item whose text matches a keyword and which is not checked yet: the items a run updates. */
  predicate NeedsUpdate(keywords: seq<string>, b: PageBlock) {
    b.kind == ToDo && MatchesAnyKeyword(keywords, ItemText(b)) && !b.checked
  }

  /** A to-do item whose text matches a keyword and which is already checked. */
  predicate IsCompleted(keywords: seq<string>, b: PageBlock) {
    b.kind == ToDo && MatchesAnyKeyword(keywords, ItemText(b)) && b.checked
  }

  /** The block after its turn in the loop; `failed` says whether its update request threw. */
  function ReconcileItem(keywords: seq<string>, b: PageBlock, failed: bool): PageBlock
  {
    if NeedsUpdate(keywords, b) && !failed then b.(checked := true) else b
  }

  /**
   * The listed blocks after one run: matching unchecked to-do items whose
   * update went through are checked; nothing else changes, nothing is
   * unchecked, and every block keeps its type and its text.
   */
  function Reconciled(s: seq<PageBlock>, keywords: seq<string>, fails: set<nat>): (r: seq<PageBlock>)
    ensures |r| == |s|
    ensures forall i :: 0 <= i < |s| ==> r[i].kind == s[i].kind && r[i].richText == s[i].richText
    ensures forall i :: 0 <= i < |s| && s[i].checked ==> r[i].checked
    ensures forall i :: 0 <= i < |s| && r[i] != s[i] ==> NeedsUpdate(keywords, s[i]) && i !in fails
    ensures forall i :: 0 <= i < |s| && NeedsUpdate(keywords, s[i]) && i !in fails ==> r[i].checked
  {
    seq(|s|, i requires 0 <= i < |s| => ReconcileItem(keywords, s[i], i in fails))
  }

  function CountToDo(s: seq<PageBlock>): nat
  {
    if s == [] then 0
    else CountToDo(s[..|s| - 1]) + (if s[|s| - 1].kind == ToDo then 1 else 0)
  }

  function CountCompleted(s: seq<PageBlock>, keywords: seq<string>): nat
  {
    if s == [] then 0
    else CountCompleted(s[..|s| - 1], keywords) + (if IsCompleted(keywords, s[|s| - 1]) then 1 else 0)
  }

  /** Update requests issued: one per matching unchecked to-do item. */
  function CountAttempts(s: seq<PageBlock>, keywords: seq<string>): nat
  {
    if s == [] then 0
    else CountAttempts(s[..|s| - 1], keywords) + (if NeedsUpdate(keywords, s[|s| - 1]) then 1 else 0)
  }

  /** Update requests that went through. */
  function CountUpdated(s: seq<PageBlock>, keywords: seq<string>, fails: set<nat>): nat
  {
    if s == [] then 0
    else
      var i := |s| - 1;
      CountUpdated(s[..i], keywords, fails) + (if NeedsUpdate(keywords, s[i]) && i !in fails then 1 else 0)
  }

  /** The object the loop returns. */
  datatype Summary = Summary(totalItems: nat, updated: nat, alreadyCompleted: nat, totalCompleted: nat)

  function Summarize(s: seq<PageBlock>, keywords: seq<string>, fails: set<nat>): Summary
  {
    var updated := CountUpdated(s, keywords, fails);
    var alreadyCompleted := CountCompleted(s, keywords);
    Summary(CountToDo(s), updated, alreadyCompleted, updated + alreadyCompleted)
  }

  lemma {:induction false} CountsBoundedByToDo(s: seq<PageBlock>, keywords: seq<string>, fails: set<nat>)
    ensures CountUpdated(s, keywords, fails) <= CountAttempts(s, keywords)
    ensures CountAttempts(s, keywords) + CountCompleted(s, keywords) <= CountToDo(s)
  {
    if s != [] {
      CountsBoundedByToDo(s[..|s| - 1], keywords, fails);
    }
  }

  /** The summary's total is the sum of its two parts and never exceeds the number of to-do items. */
  lemma SummaryIsConsistent(s: seq<PageBlock>, keywords: seq<string>, fails: set<nat>)
    ensures var m := Summarize(s, keywords, fails);
            m.totalCompleted == m.updated + m.alreadyCompleted <= m.totalItems
  {
    CountsBoundedByToDo(s, keywords, fails);
  }

  predicate HasLetterOutside(keyword: string, letters: set<char>) {
    exists j :: 0 <= j < |keyword| && keyword[j] !in letters
  }

  /**
   * A text whose lower-cased characters all lie in `letters` matches no
   * keyword holding a character outside `letters`.
   */
  lemma NoKeywordFitsLetters(keywords: seq<string>, text: string, letters: set<char>)
    requires forall i :: 0 <= i < |text| ==> LowerChar(text[i]) in letters
    requires forall k :: 0 <= k < |keywords| ==> HasLetterOutside(keywords[k], letters)
    ensures !MatchesAnyKeyword(keywords, text)
  {
    var lower := Lower(text);
    forall k | 0 <= k < |keywords|
      ensures !Contains(lower, keywords[k])
    {
      var j :| 0 <= j < |keywords[k]| && keywords[k][j] !in letters;
      MissingCharacterRulesOutContains(lower, keywords[k], keywords[k][j]);
    }
  }

  /** A to-do item whose text holds none of the keywords of either script's keyword list. */
  const PLAN_NEXT_SPRINT: string := "Plan next sprint"

  /** The characters of "Plan next sprint", once lower-cased. */
  const SPRINT_LETTERS: set<char> := {'p', 'l', 'a', 'n', ' ', 'e', 'x', 't', 's', 'r', 'i'}

  lemma SprintLettersCoverPlanNextSprint()
    ensures forall i :: 0 <= i < |PLAN_NEXT_SPRINT| ==> LowerChar(PLAN_NEXT_SPRINT[i]) in SPRINT_LETTERS
  {
  }

  /** No matching unchecked item of `s` is in `fails`: every update request of the run goes through. */
  predicate NoFailedUpdate(s: seq<PageBlock>, keywords: seq<string>, fails: set<nat>) {
    forall i :: 0 <= i < |s| && NeedsUpdate(keywords, s[i]) ==> i !in fails
  }

  lemma NoFailedUpdateSnoc(s: seq<PageBlock>, keywords: seq<string>, fails: set<nat>)
    requires s != []
    ensures var i := |s| - 1;
            NoFailedUpdate(s, keywords, fails) <==>
            NoFailedUpdate(s[..i], keywords, fails) && (NeedsUpdate(keywords, s[i]) ==> i !in fails)
  {
    var i := |s| - 1;
    assert forall j :: 0 <= j < i ==> s[..i][j] == s[j];
  }

  /** Every update request went through exactly when no matching unchecked item is in `fails`. */
  lemma {:induction false} UpdatedEqualsAttemptsIffNoFailure(s: seq<PageBlock>, keywords: seq<string>, fails: set<nat>)
    ensures CountUpdated(s, keywords, fails) == CountAttempts(s, keywords) <==> NoFailedUpdate(s, keywords, fails)
  {
    if s != [] {
      var i := |s| - 1;
      var init := s[..i];
      UpdatedEqualsAttemptsIffNoFailure(init, keywords, fails);
      CountsBoundedByToDo(init, keywords, fails);
      NoFailedUpdateSnoc(s, keywords, fails);
    }
  }

  lemma ReconciledPrefix(s: seq<PageBlock>, keywords: seq<string>, fails: set<nat>, n: nat)
    requires n <= |s|
    ensures Reconciled(s, keywords, fails)[..n] == Reconciled(s[..n], keywords, fails)
  {
  }

  /**
   * The run's total of completed items is the number of matching to-do items
   * that are checked on the page afterwards.
   */
  lemma {:induction false} TotalCompletedIsCheckedAfterRun(s: seq<PageBlock>, keywords: seq<string>, fails: set<nat>)
    ensures Summarize(s, keywords, fails).totalCompleted == CountCompleted(Reconciled(s, keywords, fails), keywords)
  {
    if s != [] {
      var i := |s| - 1;
      var r := Reconciled(s, keywords, fails);
      TotalCompletedIsCheckedAfterRun(s[..i], keywords, fails);
      ReconciledPrefix(s, keywords, fails, i);
      assert ItemText(r[i]) == ItemText(s[i]);
    }
  }

  /** Two runs do what one run does with the failures common to both. */
  lemma ReconcileTwice(s: seq<PageBlock>, keywords: seq<string>, fails1: set<nat>, fails2: set<nat>)
    ensures Reconciled(Reconciled(s, keywords, fails1), keywords, fails2) == Reconciled(s, keywords, fails1 * fails2)
  {
    var r1 := Reconciled(s, keywords, fails1);
    forall i | 0 <= i < |s|
      ensures Reconciled(r1, keywords, fails2)[i] == Reconciled(s, keywords, fails1 * fails2)[i]
    {
      assert ItemText(r1[i]) == ItemText(s[i]);
    }
  }

  /** After a run whose updates all went through, no item needs an update. */
  lemma {:induction false} NothingLeftToUpdate(s: seq<PageBlock>, keywords: seq<string>)
    ensures CountAttempts(Reconciled(s, keywords, {}), keywords) == 0
  {
    if s != [] {
      var i := |s| - 1;
      var r := Reconciled(s, keywords, {});
      NothingLeftToUpdate(s[..i], keywords);
      ReconciledPrefix(s, keywords, {}, i);
      assert ItemText(r[i]) == ItemText(s[i]);
    }
  }

  /**
   * Idempotence: a second run after a run whose updates all went through
   * issues no update request, changes nothing, and reports as already
   * completed what the first run reported as completed.
   */
  lemma SecondRunIsIdempotent(s: seq<PageBlock>, keywords: seq<string>, fails: set<nat>)
    ensures var r := Reconciled(s, keywords, {});
            CountAttempts(r, keywords) == 0 &&
            Reconciled(r, keywords, fails) == r &&
            Summarize(r, keywords, fails).updated == 0 &&
            Summarize(r, keywords, fails).alreadyCompleted == Summarize(s, keywords, {}).totalCompleted
  {
    var r := Reconciled(s, keywords, {});
    NothingLeftToUpdate(s, keywords);
    ReconcileTwice(s, keywords, {}, fails);
    assert {} * fails == {};
    CountsBoundedByToDo(r, keywords, fails);
    TotalCompletedIsCheckedAfterRun(s, keywords, {});
  }

  /** A page whose first blocks are reconciled one by one and whose other blocks are untouched. */
  lemma ReconciledPrefixOfPage(s: seq<PageBlock>, keywords: seq<string>, fails: set<nat>,
                               before: seq<PageBlock>, after: seq<PageBlock>)
    requires |s| <= |before| == |after|
    requires forall k :: 0 <= k < |s| ==> after[k] == ReconcileItem(keywords, s[k], k in fails)
    requires forall k :: |s| <= k < |after| ==> after[k] == before[k]
    ensures after == Reconciled(s, keywords, fails) + before[|s|..]
  {
  }

  // ---------------------------------------------------------------------------
  // The imperative side: the checkbox update and the loop
  // ---------------------------------------------------------------------------

  /**
   * `updateCheckboxItem`: retrieve the block, and write only when it is a
   * to-do whose checked flag differs from the target, sending its existing
   * rich text back. Returns whether it wrote; a thrown error (`fails`, or an
   * id that names no block) writes nothing and returns false.
   */
  method UpdateCheckboxItem(page: RemotePage, id: nat, shouldBeChecked: bool, fails: bool) returns (updated: bool)
    modifies page
    ensures updated == (!fails && id < |old(page.blocks)| && old(page.blocks)[id].kind == ToDo &&
                        old(page.blocks)[id].checked != shouldBeChecked)
    ensures updated ==> page.blocks == old(page.blocks)[id := old(page.blocks)[id].(checked := shouldBeChecked)]
    ensures !updated ==> page.blocks == old(page.blocks)
  {
    if fails || id >= |page.blocks| {
      return false;
    }
    var block := page.blocks[id];
    if block.kind == ToDo && block.checked != shouldBeChecked {
      page.blocks := page.blocks[id := PageBlock(ToDo, block.richText, shouldBeChecked)];
      return true;
    }
    return false;
  }

  /**
   * The loop of `analyzeAndUpdateChecklist` and `updateImplementationPlan`
   * over the listed blocks `allBlocks`, which are the first blocks of the
   * page: count every to-do item, count matching checked ones as already
   * completed, and check matching unchecked ones, counting those whose update
   * went through.
   */
  method ReconcileChecklist(page: RemotePage, keywords: seq<string>, allBlocks: seq<PageBlock>, fails: set<nat>)
    returns (summary: Summary)
    requires allBlocks <= page.blocks
    modifies page
    ensures page.blocks == Reconciled(allBlocks, keywords, fails) + old(page.blocks)[|allBlocks|..]
    ensures summary == Summarize(allBlocks, keywords, fails)
  {
    var checklistItemsFound, itemsUpdated, alreadyCompleted := 0, 0, 0;
    var i := 0;
    while i < |allBlocks|
      invariant 0 <= i <= |allBlocks|
      invariant |page.blocks| == |old(page.blocks)|
      invariant forall k :: 0 <= k < i ==> page.blocks[k] == ReconcileItem(keywords, allBlocks[k], k in fails)
      invariant forall k :: i <= k < |page.blocks| ==> page.blocks[k] == old(page.blocks)[k]
      invariant checklistItemsFound == CountToDo(allBlocks[..i])
      invariant itemsUpdated == CountUpdated(allBlocks[..i], keywords, fails)
      invariant alreadyCompleted == CountCompleted(allBlocks[..i], keywords)
    {
      var block := allBlocks[i];
      assert allBlocks[..i + 1][..i] == allBlocks[..i];
      if block.kind == ToDo {
        checklistItemsFound := checklistItemsFound + 1;
        var text := ItemText(block);
        var currentlyChecked := block.checked;
        var shouldBeChecked := MatchesAnyKeyword(keywords, text);
        if shouldBeChecked {
          if currentlyChecked {
            alreadyCompleted := alreadyCompleted + 1;
          } else {
            var updated := UpdateCheckboxItem(page, i, true, i in fails);
            if updated {
              itemsUpdated := itemsUpdated + 1;
            }
          }
        }
      }
      i := i + 1;
    }
    assert allBlocks[..i] == allBlocks;
    ReconciledPrefixOfPage(allBlocks, keywords, fails, old(page.blocks), page.blocks);
    summary := Summary(checklistItemsFound, itemsUpdated, alreadyCompleted, itemsUpdated + alreadyCompleted);
  }
}
