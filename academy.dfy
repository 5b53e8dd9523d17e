/**
 * The academy's two interactive parts: the glossary, searched as the user
 * types, with one entry open at a time, and the quiz, a game of one pass
 * through the questions with three lives.
 */
module Academy {
  import opened Wrappers
  import opened JsBuiltins
  import opened Types
  import opened Constants

  // ------------------------------------------------------------------ glossary search

  /** An entry matches when its term or its definition, lowercased, contains
      the lowercased search text. */
  predicate Matches(item: GlossaryItem, search: string) {
    var q := ToLowerCase(search);
    Includes(ToLowerCase(item.term), q) || Includes(ToLowerCase(item.definition), q)
  }

  function MatchesSearch(search: string): GlossaryItem -> bool {
    item => Matches(item, search)
  }

  /** `filteredTerms`: the matching entries, in table order. */
  function FilteredTerms(items: seq<GlossaryItem>, search: string): (r: seq<GlossaryItem>)
    ensures |r| <= |items|
  {
    Filter(items, MatchesSearch(search))
  }

  /** An entry is listed exactly when it matches, and the list keeps the
      table's order. */
  lemma FilteredTermsMeaning(items: seq<GlossaryItem>, search: string)
    ensures forall x :: x in FilteredTerms(items, search) <==> x in items && Matches(x, search)
    ensures IsSubsequence(FilteredTerms(items, search), items)
  {
    FilterIsSubsequence(items, MatchesSearch(search));
  }

  /** An empty search lists every entry. */
  lemma EmptySearchKeepsAll(items: seq<GlossaryItem>)
    ensures FilteredTerms(items, "") == items
  {
    assert ToLowerCase("") == "";
    forall i | 0 <= i < |items| ensures MatchesSearch("")(items[i]) {
      IncludesEmpty(ToLowerCase(items[i].term));
    }
    FilterAll(items, MatchesSearch(""));
  }

  /** The search ignores the case of its letters. */
  lemma SearchIgnoresCase(items: seq<GlossaryItem>, search: string)
    ensures FilteredTerms(items, ToLowerCase(search)) == FilteredTerms(items, search)
  {
    ToLowerCaseIdempotent(search);
    FilterSame(items, MatchesSearch(ToLowerCase(search)), MatchesSearch(search));
  }

  /** Searching for an entry's own term finds it. */
  lemma FindsOwnTerm(items: seq<GlossaryItem>, k: nat)
    requires k < |items|
    ensures items[k] in FilteredTerms(items, items[k].term)
  {
    var t := ToLowerCase(items[k].term);
    assert t <= t;
    assert Includes(t, t);
    assert Matches(items[k], items[k].term);
  }

  /** Clicking entry `idx` of the list opens it, or closes it when it is the
      open one. */
  function Toggled(openIndex: Option<nat>, idx: nat): (r: Option<nat>)
    ensures r.None? <==> openIndex == Some(idx)
  {
    if openIndex == Some(idx) then None else Some(idx)
  }

  /** A second click on the same entry restores what the first changed
      when that entry or nothing was open. */
  lemma ToggleTwice(openIndex: Option<nat>, idx: nat)
    requires openIndex.None? || openIndex == Some(idx)
    ensures Toggled(Toggled(openIndex, idx), idx) == openIndex
  {
  }

  /** The glossary's state: the search text and the open entry. */
  class GlossarySection {
    const items: seq<GlossaryItem>
    var search: string
    var openIndex: Option<nat>

    /** The entries on screen. */
    function Shown(): seq<GlossaryItem>
      reads this
    {
      FilteredTerms(items, search)
    }

    /** The open entry, if any, is one on screen. */
    predicate Valid()
      reads this
    {
      openIndex.Some? ==> openIndex.value < |Shown()|
    }

    /** An empty search and every entry closed. */
    constructor (items: seq<GlossaryItem>)
      ensures this.items == items && search == "" && openIndex == None
      ensures Shown() == items && Valid()
    {
      this.items := items;
      search := "";
      openIndex := None;
      new;
      EmptySearchKeepsAll(items);
    }

    /** Typing in the search box: the new text, and every entry closed. */
    method SetSearch(text: string)
      modifies this
      ensures search == text && openIndex == None && Valid()
      ensures forall x :: x in Shown() <==> x in items && Matches(x, text)
    {
      search := text;
      openIndex := None;
      FilteredTermsMeaning(items, text);
    }

    /** Clicking entry `idx` of the list on screen. */
    method Toggle(idx: nat)
      requires Valid() && idx < |Shown()|
      modifies this
      ensures search == old(search) && openIndex == Toggled(old(openIndex), idx)
      ensures Valid()
    {
      openIndex := Toggled(openIndex, idx);
    }
  }

  // ------------------------------------------------------------------ quiz

  /** The quiz's state. The game is played over `questions`, which the app
      fills with the quiz table. */
  class QuizSection {
    const questions: seq<QuizQuestion>
    var currentQIndex: nat
    var score: int
    var lives: int
    var showExplanation: bool
    var selectedOption: Option<int>
    var isGameOver: bool
    var isGameWon: bool

    /** What every reachable state satisfies: the index names a question;
        lives stay between 0 and 3; the score counts tens; the game is over
        exactly when it is lost or won, it ends on an answered question, and
        it is won only on the last question with a life left; an option is
        selected exactly while its explanation shows; and every answered
        question was either scored or cost a life. */
    predicate Valid()
      reads this
    {
      && currentQIndex < |questions|
      && 0 <= lives <= 3
      && score >= 0 && score % 10 == 0
      && (isGameOver <==> lives == 0 || isGameWon)
      && (isGameOver ==> showExplanation)
      && (isGameWon ==> currentQIndex == |questions| - 1 && lives > 0)
      && (selectedOption.Some? <==> showExplanation)
      && score / 10 + (3 - lives) == currentQIndex + (if showExplanation then 1 else 0)
    }

    /** The first question, no score, three lives. */
    constructor (questions: seq<QuizQuestion>)
      requires questions != []
      ensures this.questions == questions
      ensures currentQIndex == 0 && score == 0 && lives == 3
      ensures !showExplanation && selectedOption == None && !isGameOver && !isGameWon
      ensures Valid()
    {
      this.questions := questions;
      currentQIndex := 0;
      score := 0;
      lives := 3;
      showExplanation := false;
      selectedOption := None;
      isGameOver := false;
      isGameWon := false;
    }

    /** `handleOptionClick`: ignored while an explanation shows or the game
        is over; otherwise the option is selected and explained, and a right
        answer scores 10 while a wrong one costs a life, the last life
        ending the game. */
    method HandleOptionClick(optionIndex: int)
      requires Valid()
      modifies this
      ensures Valid()
      ensures old(showExplanation || isGameOver) ==>
        score == old(score) && lives == old(lives) && showExplanation == old(showExplanation)
        && selectedOption == old(selectedOption) && isGameOver == old(isGameOver)
      ensures !old(showExplanation || isGameOver) ==>
        selectedOption == Some(optionIndex) && showExplanation
      ensures !old(showExplanation || isGameOver) && optionIndex == questions[currentQIndex].correctAnswer ==>
        score == old(score) + 10 && lives == old(lives) && !isGameOver
      ensures !old(showExplanation || isGameOver) && optionIndex != questions[currentQIndex].correctAnswer ==>
        score == old(score) && lives == old(lives) - 1 && (isGameOver <==> lives == 0)
      ensures currentQIndex == old(currentQIndex) && isGameWon == old(isGameWon)
    {
      if showExplanation || isGameOver {
        return;
      }
      selectedOption := Some(optionIndex);
      showExplanation := true;
      if optionIndex == questions[currentQIndex].correctAnswer {
        score := score + 10;
      } else {
        var newLives := lives - 1;
        lives := newLives;
        if newLives == 0 {
          isGameOver := true;
        }
      }
    }

    /** `handleNext`, offered only under an explanation while the game goes
        on: the next question, or on the last one a won game. */
    method HandleNext()
      requires Valid() && showExplanation && !isGameOver
      modifies this
      ensures Valid()
      ensures old(currentQIndex) < |questions| - 1 ==>
        currentQIndex == old(currentQIndex) + 1 && !showExplanation && selectedOption == None
        && !isGameOver && !isGameWon
      ensures old(currentQIndex) == |questions| - 1 ==>
        currentQIndex == old(currentQIndex) && isGameWon && isGameOver
        && showExplanation && selectedOption == old(selectedOption)
      ensures score == old(score) && lives == old(lives)
    {
      if currentQIndex < |questions| - 1 {
        currentQIndex := currentQIndex + 1;
        showExplanation := false;
        selectedOption := None;
      } else {
        isGameWon := true;
        isGameOver := true;
      }
    }

    /** `resetGame`: back to the first question with no score and three
        lives. */
    method ResetGame()
      modifies this
      ensures currentQIndex == 0 && score == 0 && lives == 3
      ensures !showExplanation && selectedOption == None && !isGameOver && !isGameWon
      ensures questions != [] ==> Valid()
    {
      currentQIndex := 0;
      score := 0;
      lives := 3;
      showExplanation := false;
      selectedOption := None;
      isGameOver := false;
      isGameWon := false;
    }
  }

  /** A won game scored at least all but two questions: each of the at
      most two lives lost cost one question's points. */
  lemma WonScore(quiz: QuizSection)
    requires quiz.Valid() && quiz.isGameWon
    ensures quiz.score >= 10 * (|quiz.questions| - 2)
  {
  }

  /** A lost game is one where exactly three answers were wrong. */
  lemma LostScore(quiz: QuizSection)
    requires quiz.Valid() && quiz.isGameOver && !quiz.isGameWon
    ensures quiz.lives == 0
    ensures quiz.score == 10 * (quiz.currentQIndex + 1 - 3)
  {
  }

  /** The quiz table can be played: it has questions, and on it a won game
      scores at least 80. */
  lemma QuizTablePlayable(quiz: QuizSection)
    requires quiz.questions == QuizQuestions && quiz.Valid() && quiz.isGameWon
    ensures QuizQuestions != []
    ensures quiz.score >= 80
  {
    QuizWellFormed();
    WonScore(quiz);
  }
}
