/**
 * The implementation-plan script: check every to-do item of the plan page that
 * names a finished setup task, then append a callout announcing the end of
 * the setup phase.
 */
module ImplementationPlan {
  import opened Text
  import opened Checklist

  /** Keywords naming setup tasks that are finished. */
  const SETUP_COMPLETED_KEYWORDS: seq<string> := [
    "workspace structure",
    "directory structure",
    "git repository",
    "github repository",
    "project configuration",
    "environment setup",
    "ai agent workflows",
    "workflow templates",
    "orchestration system",
    "notion integration",
    "databases created",
    "sync scripts",
    "backup system",
    "automation scripts",
    "documentation",
    "readme",
    "setup guides",
    "foundation",
    "infrastructure"
  ]

  /** `isSetupTask`: some setup keyword is a substring of the lower-cased text. */
  function IsSetupTask(text: string): (r: bool)
    ensures r <==> exists k :: 0 <= k < |SETUP_COMPLETED_KEYWORDS| && Contains(Lower(text), SETUP_COMPLETED_KEYWORDS[k])
  {
    MatchesAnyKeyword(SETUP_COMPLETED_KEYWORDS, text)
  }

  /**
   * An item reading "Plan next sprint" holds none of the setup keywords,
   * so reconciliation leaves it as it was.
   */
  lemma PlanNextSprintStaysUnchecked(s: seq<PageBlock>, fails: set<nat>, i: nat)
    requires i < |s| && ItemText(s[i]) == PLAN_NEXT_SPRINT
    ensures !IsSetupTask(ItemText(s[i]))
    ensures Reconciled(s, SETUP_COMPLETED_KEYWORDS, fails)[i] == s[i]
  {
    forall k | 0 <= k < |SETUP_COMPLETED_KEYWORDS|
      ensures HasLetterOutside(SETUP_COMPLETED_KEYWORDS[k], SPRINT_LETTERS)
    {
      KeywordOutsideSprintLetters(k);
    }
    SprintLettersCoverPlanNextSprint();
    NoKeywordFitsLetters(SETUP_COMPLETED_KEYWORDS, PLAN_NEXT_SPRINT, SPRINT_LETTERS);
  }

  // Witnesses for the lemma above: for each keyword, one position whose
  // letter "plan next sprint" lacks. Looking up an entry of the long keyword
  // literal is costly for the solver, so the keywords are taken a few at a
  // time, fewer per lemma near the front of the list where lookups cost most.

  /** Each keyword holds a letter that "plan next sprint" lacks. */
  lemma KeywordOutsideSprintLetters(k: nat)
    requires k < |SETUP_COMPLETED_KEYWORDS|
    ensures HasLetterOutside(SETUP_COMPLETED_KEYWORDS[k], SPRINT_LETTERS)
  {
    if k < 5 { KeywordsOutsideSprintLetters0To4(k); }
    else if k < 11 { KeywordsOutsideSprintLetters5To10(k); }
    else { KeywordsOutsideSprintLetters11To18(k); }
  }

  /** Keywords 0 to 4, one letter each. */
  lemma KeywordsOutsideSprintLetters0To4(k: nat)
    requires 0 <= k < 5
    ensures HasLetterOutside(SETUP_COMPLETED_KEYWORDS[k], SPRINT_LETTERS)
  {
    if k == 0 { assert SETUP_COMPLETED_KEYWORDS[k][0] !in SPRINT_LETTERS; }
    else if k == 1 { assert SETUP_COMPLETED_KEYWORDS[k][0] !in SPRINT_LETTERS; }
    else if k == 2 { assert SETUP_COMPLETED_KEYWORDS[k][0] !in SPRINT_LETTERS; }
    else if k == 3 { assert SETUP_COMPLETED_KEYWORDS[k][0] !in SPRINT_LETTERS; }
    else { assert SETUP_COMPLETED_KEYWORDS[k][2] !in SPRINT_LETTERS; }
  }

  /** Keywords 5 to 10, one letter each. */
  lemma KeywordsOutsideSprintLetters5To10(k: nat)
    requires 5 <= k < 11
    ensures HasLetterOutside(SETUP_COMPLETED_KEYWORDS[k], SPRINT_LETTERS)
  {
    if k == 5 { assert SETUP_COMPLETED_KEYWORDS[k][2] !in SPRINT_LETTERS; }
    else if k == 6 { assert SETUP_COMPLETED_KEYWORDS[k][4] !in SPRINT_LETTERS; }
    else if k == 7 { assert SETUP_COMPLETED_KEYWORDS[k][0] !in SPRINT_LETTERS; }
    else if k == 8 { assert SETUP_COMPLETED_KEYWORDS[k][0] !in SPRINT_LETTERS; }
    else if k == 9 { assert SETUP_COMPLETED_KEYWORDS[k][1] !in SPRINT_LETTERS; }
    else { assert SETUP_COMPLETED_KEYWORDS[k][0] !in SPRINT_LETTERS; }
  }

  /** Keywords 11 to 18, one letter each. */
  lemma KeywordsOutsideSprintLetters11To18(k: nat)
    requires 11 <= k < 19
    ensures HasLetterOutside(SETUP_COMPLETED_KEYWORDS[k], SPRINT_LETTERS)
  {
    if k == 11 { assert SETUP_COMPLETED_KEYWORDS[k][1] !in SPRINT_LETTERS; }
    else if k == 12 { assert SETUP_COMPLETED_KEYWORDS[k][0] !in SPRINT_LETTERS; }
    else if k == 13 { assert SETUP_COMPLETED_KEYWORDS[k][1] !in SPRINT_LETTERS; }
    else if k == 14 { assert SETUP_COMPLETED_KEYWORDS[k][0] !in SPRINT_LETTERS; }
    else if k == 15 { assert SETUP_COMPLETED_KEYWORDS[k][3] !in SPRINT_LETTERS; }
    else if k == 16 { assert SETUP_COMPLETED_KEYWORDS[k][3] !in SPRINT_LETTERS; }
    else if k == 17 { assert SETUP_COMPLETED_KEYWORDS[k][0] !in SPRINT_LETTERS; }
    else { assert SETUP_COMPLETED_KEYWORDS[k][2] !in SPRINT_LETTERS; }
  }

  /**
   * The status callout: a callout block whose single rich-text segment is the
   * announcement, which carries the day's date and is therefore a parameter.
   */
  function CompletionCallout(note: string): (b: PageBlock)
    ensures b.kind == Callout && ItemText(b) == note && !b.checked
  {
    PageBlock(Callout, [note], false)
  }

  /** A callout is not a to-do item, so it never enters the counts of a later run. */
  lemma CalloutIsNeverCounted(s: seq<PageBlock>, note: string, keywords: seq<string>, fails: set<nat>)
    ensures Summarize(s + [CompletionCallout(note)], keywords, fails) == Summarize(s, keywords, fails)
  {
    var t := s + [CompletionCallout(note)];
    assert t[..|s|] == s;
  }

  /**
   * `addCompletionUpdate`: append the status callout at the end of the page.
   * A failed request is reported and swallowed, leaving the page as it was.
   */
  method AddCompletionUpdate(page: RemotePage, note: string, fails: bool)
    modifies page
    ensures page.blocks == old(page.blocks) + (if fails then [] else [CompletionCallout(note)])
  {
    if !fails {
      page.blocks := page.blocks + [CompletionCallout(note)];
    }
  }

  /**
   * `updateImplementationPlan`: collect the page's blocks, check the setup
   * tasks among them, then append the status callout whatever the outcome of
   * the updates. The listing is the first blocks of the page, in order.
   */
  method UpdateImplementationPlan(page: RemotePage, responses: seq<ListResponse>, fails: set<nat>,
                                  calloutFails: bool, note: string)
    returns (summary: Summary)
    requires Collected(responses) <= page.blocks
    modifies page
    ensures var listed := Collected(responses);
            page.blocks == Reconciled(listed, SETUP_COMPLETED_KEYWORDS, fails) + old(page.blocks)[|listed|..] +
                           (if calloutFails then [] else [CompletionCallout(note)]) &&
            summary == Summarize(listed, SETUP_COMPLETED_KEYWORDS, fails)
  {
    var allBlocks := GetAllPageBlocks(responses);
    summary := ReconcileChecklist(page, SETUP_COMPLETED_KEYWORDS, allBlocks, fails);
    AddCompletionUpdate(page, note, calloutFails);
  }
}
