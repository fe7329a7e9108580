/**
 * The configuration-checklist script for the workflow templates page: list
 * every block of the page, then check each to-do item whose text mentions
 * one of the completed keywords.
 */
module WorkflowChecklist {
  import opened Text
  import opened Checklist

  /** Keywords naming tasks the implementation has completed. */
  const COMPLETED_KEYWORDS: seq<string> := [
    "directory structure",
    "workspace structure",
    "git repository",
    "github repository",
    "project configuration",
    "environment configuration",
    "environment variables",
    "documentation",
    "readme",
    "ai agent",
    "workflow",
    "code architect",
    "research analyst",
    "content strategist",
    "business analyst",
    "product manager",
    "orchestrator",
    "orchestration",
    "notion integration",
    "notion workspace",
    "notion api",
    "database creation",
    "databases created",
    "backup system",
    "backup script",
    "restore script",
    "automation",
    "scripts",
    "node.js",
    "dependencies",
    "sync",
    "templates",
    "prompts",
    "cross-agent",
    "integration patterns",
    "quality control",
    "performance monitoring",
    "success criteria"
  ]

  /** `shouldItemBeCompleted`: some completed keyword is a substring of the lower-cased text. */
  function ShouldItemBeCompleted(text: string): (r: bool)
    ensures r <==> exists k :: 0 <= k < |COMPLETED_KEYWORDS| && Contains(Lower(text), COMPLETED_KEYWORDS[k])
  {
    MatchesAnyKeyword(COMPLETED_KEYWORDS, text)
  }

  /** Any item whose lower-cased text holds one of the keywords is a completed task. */
  lemma KeywordOccurrenceCompletes(text: string, k: nat, i: nat)
    requires k < |COMPLETED_KEYWORDS| && OccursAt(Lower(text), COMPLETED_KEYWORDS[k], i)
    ensures ShouldItemBeCompleted(text)
  {
    ContainsIffOccurs(Lower(text), COMPLETED_KEYWORDS[k]);
  }

  /** The test ignores case in the item: "Git Repository" anywhere in it marks the item completed. */
  lemma CapitalisedKeywordCompletes(text: string, i: nat)
    requires i + 14 <= |text| && text[i..i + 14] == "Git Repository"
    ensures ShouldItemBeCompleted(text)
  {
    var lower := Lower(text);
    assert lower[i..i + 14] == "git repository" by {
      forall j | 0 <= j < 14
        ensures lower[i + j] == "git repository"[j]
      {
        assert text[i + j] == "Git Repository"[j];
      }
    }
    assert COMPLETED_KEYWORDS[2] == "git repository";
    KeywordOccurrenceCompletes(text, 2, i);
  }

  /** An unchecked to-do item holding "Git Repository" ends checked unless its update fails. */
  lemma GitRepositoryItemIsChecked(s: seq<PageBlock>, fails: set<nat>, i: nat, at: nat)
    requires i < |s| && s[i].kind == ToDo && !s[i].checked && i !in fails
    requires at + 14 <= |ItemText(s[i])| && ItemText(s[i])[at..at + 14] == "Git Repository"
    ensures Reconciled(s, COMPLETED_KEYWORDS, fails)[i].checked
  {
    CapitalisedKeywordCompletes(ItemText(s[i]), at);
  }

  /**
   * An item reading "Plan next sprint" holds none of the completed keywords,
   * so reconciliation leaves it as it was.
   */
  lemma PlanNextSprintStaysUnchecked(s: seq<PageBlock>, fails: set<nat>, i: nat)
    requires i < |s| && ItemText(s[i]) == PLAN_NEXT_SPRINT
    ensures !ShouldItemBeCompleted(ItemText(s[i]))
    ensures Reconciled(s, COMPLETED_KEYWORDS, fails)[i] == s[i]
  {
    forall k | 0 <= k < |COMPLETED_KEYWORDS|
      ensures HasLetterOutside(COMPLETED_KEYWORDS[k], SPRINT_LETTERS)
    {
      KeywordOutsideSprintLetters(k);
    }
    SprintLettersCoverPlanNextSprint();
    NoKeywordFitsLetters(COMPLETED_KEYWORDS, PLAN_NEXT_SPRINT, SPRINT_LETTERS);
  }

  // Witnesses for the lemma above: for each keyword, one position whose
  // letter "plan next sprint" lacks. Looking up an entry of the long keyword
  // literal is costly for the solver, so the keywords are taken a few at a
  // time, fewer per lemma near the front of the list where lookups cost most.

  /** Each keyword holds a letter that "plan next sprint" lacks. */
  lemma KeywordOutsideSprintLetters(k: nat)
    requires k < |COMPLETED_KEYWORDS|
    ensures HasLetterOutside(COMPLETED_KEYWORDS[k], SPRINT_LETTERS)
  {
    if k < 3 { KeywordsOutsideSprintLetters0To2(k); }
    else if k < 6 { KeywordsOutsideSprintLetters3To5(k); }
    else if k < 10 { KeywordsOutsideSprintLetters6To9(k); }
    else if k < 15 { KeywordsOutsideSprintLetters10To14(k); }
    else if k < 22 { KeywordsOutsideSprintLetters15To21(k); }
    else if k < 30 { KeywordsOutsideSprintLetters22To29(k); }
    else { KeywordsOutsideSprintLetters30To37(k); }
  }

  /** Keywords 0 to 2, one letter each. */
  lemma KeywordsOutsideSprintLetters0To2(k: nat)
    requires 0 <= k < 3
    ensures HasLetterOutside(COMPLETED_KEYWORDS[k], SPRINT_LETTERS)
  {
    if k == 0 { assert COMPLETED_KEYWORDS[k][0] !in SPRINT_LETTERS; }
    else if k == 1 { assert COMPLETED_KEYWORDS[k][0] !in SPRINT_LETTERS; }
    else { assert COMPLETED_KEYWORDS[k][0] !in SPRINT_LETTERS; }
  }

  /** Keywords 3 to 5, one letter each. */
  lemma KeywordsOutsideSprintLetters3To5(k: nat)
    requires 3 <= k < 6
    ensures HasLetterOutside(COMPLETED_KEYWORDS[k], SPRINT_LETTERS)
  {
    if k == 3 { assert COMPLETED_KEYWORDS[k][0] !in SPRINT_LETTERS; }
    else if k == 4 { assert COMPLETED_KEYWORDS[k][2] !in SPRINT_LETTERS; }
    else { assert COMPLETED_KEYWORDS[k][2] !in SPRINT_LETTERS; }
  }

  /** Keywords 6 to 9, one letter each. */
  lemma KeywordsOutsideSprintLetters6To9(k: nat)
    requires 6 <= k < 10
    ensures HasLetterOutside(COMPLETED_KEYWORDS[k], SPRINT_LETTERS)
  {
    if k == 6 { assert COMPLETED_KEYWORDS[k][2] !in SPRINT_LETTERS; }
    else if k == 7 { assert COMPLETED_KEYWORDS[k][0] !in SPRINT_LETTERS; }
    else if k == 8 { assert COMPLETED_KEYWORDS[k][3] !in SPRINT_LETTERS; }
    else { assert COMPLETED_KEYWORDS[k][4] !in SPRINT_LETTERS; }
  }

  /** Keywords 10 to 14, one letter each. */
  lemma KeywordsOutsideSprintLetters10To14(k: nat)
    requires 10 <= k < 15
    ensures HasLetterOutside(COMPLETED_KEYWORDS[k], SPRINT_LETTERS)
  {
    if k == 10 { assert COMPLETED_KEYWORDS[k][0] !in SPRINT_LETTERS; }
    else if k == 11 { assert COMPLETED_KEYWORDS[k][0] !in SPRINT_LETTERS; }
    else if k == 12 { assert COMPLETED_KEYWORDS[k][6] !in SPRINT_LETTERS; }
    else if k == 13 { assert COMPLETED_KEYWORDS[k][0] !in SPRINT_LETTERS; }
    else { assert COMPLETED_KEYWORDS[k][0] !in SPRINT_LETTERS; }
  }

  /** Keywords 15 to 21, one letter each. */
  lemma KeywordsOutsideSprintLetters15To21(k: nat)
    requires 15 <= k < 22
    ensures HasLetterOutside(COMPLETED_KEYWORDS[k], SPRINT_LETTERS)
  {
    if k == 15 { assert COMPLETED_KEYWORDS[k][2] !in SPRINT_LETTERS; }
    else if k == 16 { assert COMPLETED_KEYWORDS[k][0] !in SPRINT_LETTERS; }
    else if k == 17 { assert COMPLETED_KEYWORDS[k][0] !in SPRINT_LETTERS; }
    else if k == 18 { assert COMPLETED_KEYWORDS[k][1] !in SPRINT_LETTERS; }
    else if k == 19 { assert COMPLETED_KEYWORDS[k][1] !in SPRINT_LETTERS; }
    else if k == 20 { assert COMPLETED_KEYWORDS[k][1] !in SPRINT_LETTERS; }
    else { assert COMPLETED_KEYWORDS[k][0] !in SPRINT_LETTERS; }
  }

  /** Keywords 22 to 29, one letter each. */
  lemma KeywordsOutsideSprintLetters22To29(k: nat)
    requires 22 <= k < 30
    ensures HasLetterOutside(COMPLETED_KEYWORDS[k], SPRINT_LETTERS)
  {
    if k == 22 { assert COMPLETED_KEYWORDS[k][0] !in SPRINT_LETTERS; }
    else if k == 23 { assert COMPLETED_KEYWORDS[k][0] !in SPRINT_LETTERS; }
    else if k == 24 { assert COMPLETED_KEYWORDS[k][0] !in SPRINT_LETTERS; }
    else if k == 25 { assert COMPLETED_KEYWORDS[k][4] !in SPRINT_LETTERS; }
    else if k == 26 { assert COMPLETED_KEYWORDS[k][1] !in SPRINT_LETTERS; }
    else if k == 27 { assert COMPLETED_KEYWORDS[k][1] !in SPRINT_LETTERS; }
    else if k == 28 { assert COMPLETED_KEYWORDS[k][1] !in SPRINT_LETTERS; }
    else { assert COMPLETED_KEYWORDS[k][0] !in SPRINT_LETTERS; }
  }

  /** Keywords 30 to 37, one letter each. */
  lemma KeywordsOutsideSprintLetters30To37(k: nat)
    requires 30 <= k < 38
    ensures HasLetterOutside(COMPLETED_KEYWORDS[k], SPRINT_LETTERS)
  {
    if k == 30 { assert COMPLETED_KEYWORDS[k][1] !in SPRINT_LETTERS; }
    else if k == 31 { assert COMPLETED_KEYWORDS[k][2] !in SPRINT_LETTERS; }
    else if k == 32 { assert COMPLETED_KEYWORDS[k][2] !in SPRINT_LETTERS; }
    else if k == 33 { assert COMPLETED_KEYWORDS[k][0] !in SPRINT_LETTERS; }
    else if k == 34 { assert COMPLETED_KEYWORDS[k][4] !in SPRINT_LETTERS; }
    else if k == 35 { assert COMPLETED_KEYWORDS[k][0] !in SPRINT_LETTERS; }
    else if k == 36 { assert COMPLETED_KEYWORDS[k][3] !in SPRINT_LETTERS; }
    else { assert COMPLETED_KEYWORDS[k][1] !in SPRINT_LETTERS; }
  }

  /**
   * `analyzeAndUpdateChecklist`: collect the page's blocks with the cursor
   * loop, then run the reconciliation loop over them with the completed
   * keywords. The listing is the first blocks of the page, in order.
   */
  method AnalyzeAndUpdateChecklist(page: RemotePage, responses: seq<ListResponse>, fails: set<nat>)
    returns (summary: Summary)
    requires Collected(responses) <= page.blocks
    modifies page
    ensures var listed := Collected(responses);
            page.blocks == Reconciled(listed, COMPLETED_KEYWORDS, fails) + old(page.blocks)[|listed|..] &&
            summary == Summarize(listed, COMPLETED_KEYWORDS, fails)
  {
    var allBlocks := GetAllPageBlocks(responses);
    summary := ReconcileChecklist(page, COMPLETED_KEYWORDS, allBlocks, fails);
  }
}
