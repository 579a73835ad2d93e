/**
 * The review screen's session: the cards of one review, which card is shown,
 * the answer given for each card, and the loading and error state. The screen's
 * state hooks are the fields of `ReviewSession`; each handler is a method.
 */
module KanjiReview {
  import opened Wrappers
  import opened Text
  import opened JsonText
  import opened KanjiRecords
  import opened KanjiApi

  /** The route parameters the review screen is opened with; `count` is text. */
  datatype ReviewParams = ReviewParams(mode: string, difficulty: string, count: string)

  datatype Answer = Answer(isCorrect: bool, revealed: bool)

  /** The answer every card starts with. */
  const Unanswered := Answer(false, false)

  /** The route parameters the review screen sends to the results screen. */
  datatype ResultsParams = ResultsParams(
    mode: string,
    difficulty: string,
    correct: string,
    total: string,
    reviewedKanji: Option<string>)   // absent when the results screen is opened without it

  /**
   * `Number(params.count)` as the count the sample is cut to. A count outside
   * the integer grammar is NaN, which `slice` reads as 0.
   */
  function CountArgument(count: string): (n: int)
    ensures count == "" ==> n == 0
    ensures AllDigits(count) && count != "" ==> n == DecimalValue(count)
    ensures forall k :: count == IntText(k) ==> n == k
    ensures (exists i :: 0 <= i < |count| && !IsDigit(count[i]) && count[i] != '-') ==> n == 0
  {
    assert forall k :: count == IntText(k) ==> NumberValue(count) == Some(k) by {
      forall k | count == IntText(k) ensures NumberValue(count) == Some(k) { NumberOfIntText(k); }
    }
    assert (exists i :: 0 <= i < |count| && !IsDigit(count[i]) && count[i] != '-') ==> NumberValue(count).None? by {
      if exists i :: 0 <= i < |count| && !IsDigit(count[i]) && count[i] != '-' {
        var i :| 0 <= i < |count| && !IsDigit(count[i]) && count[i] != '-';
        if i > 0 { assert count[1..][i - 1] == count[i]; }
      }
    }
    match NumberValue(count)
    case Some(n) => n
    case None => 0
  }

  /** `answers.filter((a) => a.isCorrect).length`. */
  function CorrectCount(answers: seq<Answer>): (n: nat)
    ensures n <= |answers|
    ensures n == 0 <==> forall i :: 0 <= i < |answers| ==> !answers[i].isCorrect
    ensures n == |answers| <==> forall i :: 0 <= i < |answers| ==> answers[i].isCorrect
    decreases |answers|
  {
    if answers == [] then 0
    else
      var rest := CorrectCount(answers[1..]);
      assert forall i :: 1 <= i < |answers| ==> answers[i] == answers[1..][i - 1];
      (if answers[0].isCorrect then 1 else 0) + rest
  }

  /** `answers[index]?.isCorrect || false`: a missing slot counts as not correct. */
  function IsCorrectAt(answers: seq<Answer>, index: nat): bool
  {
    if index < |answers| then answers[index].isCorrect else false
  }

  /** `kanjiList.map((kanji, index) => ({ ...kanji, isCorrect: ... }))`. */
  function ReviewedList(cards: seq<Kanji>, answers: seq<Answer>): (rs: seq<Reviewed>)
    ensures |rs| == |cards|
    ensures forall i :: 0 <= i < |cards| ==> rs[i].card == cards[i]
    ensures forall i :: 0 <= i < |cards| ==> rs[i].isCorrect == (i < |answers| && answers[i].isCorrect)
  {
    seq(|cards|, i requires 0 <= i < |cards| => Reviewed(cards[i], IsCorrectAt(answers, i)))
  }

  /** The number of records marked correct. */
  function MarkedCorrect(rs: seq<Reviewed>): nat
    decreases |rs|
  {
    if rs == [] then 0 else (if rs[0].isCorrect then 1 else 0) + MarkedCorrect(rs[1..])
  }

  /** With one answer per card, the records carry exactly the `correct` count of the answers. */
  lemma {:induction false} ReviewedListCountsCorrect(cards: seq<Kanji>, answers: seq<Answer>)
    requires |answers| == |cards|
    ensures MarkedCorrect(ReviewedList(cards, answers)) == CorrectCount(answers)
    decreases |cards|
  {
    if cards != [] {
      ReviewedListCountsCorrect(cards[1..], answers[1..]);
      assert ReviewedList(cards, answers)[1..] == ReviewedList(cards[1..], answers[1..]);
    }
  }

  // ---------------------------------------------------------------------------
  // The card's details

  const ReadingSeparator := "、 "

  /** `On: {ja_on?.join("、 ") || "None"}`. */
  function OnLine(k: Kanji): string
  {
    "On: " + OrElse(Join(k.jaOn, ReadingSeparator), "None")
  }

  /** `Kun: {ja_kun?.join("、 ") || "None"}`. */
  function KunLine(k: Kanji): string
  {
    "Kun: " + OrElse(Join(k.jaKun, ReadingSeparator), "None")
  }

  /** `{meanings.en?.join(", ") || "No meanings available"}`. */
  function MeaningsText(k: Kanji): string
  {
    OrElse(Join(k.meanings, ", "), "No meanings available")
  }

  /**
   * The text of the details shown once a card is revealed: the On and Kun
   * readings and the meanings, each with its fallback for an empty list, and
   * the stroke count.
   */
  function DetailLines(k: Kanji): (lines: seq<string>)
    ensures |lines| == 4
    ensures k.jaOn == [] ==> lines[0] == "On: None"
    ensures k.jaKun == [] ==> lines[1] == "Kun: None"
    ensures k.meanings == [] ==> lines[2] == "No meanings available"
    ensures k.jaOn != [] && (k.jaOn[0] != "" || |k.jaOn| > 1) ==> lines[0] == "On: " + Join(k.jaOn, ReadingSeparator)
    ensures k.jaKun != [] && (k.jaKun[0] != "" || |k.jaKun| > 1) ==> lines[1] == "Kun: " + Join(k.jaKun, ReadingSeparator)
    ensures k.meanings != [] && (k.meanings[0] != "" || |k.meanings| > 1) ==> lines[2] == Join(k.meanings, ", ")
    ensures lines[3] == "Stroke count: " + k.strokeCount
  {
    assert k.jaOn != [] && (k.jaOn[0] != "" || |k.jaOn| > 1) ==> Join(k.jaOn, ReadingSeparator) != "" by {
      if k.jaOn != [] && (k.jaOn[0] != "" || |k.jaOn| > 1) { JoinNonEmpty(k.jaOn, ReadingSeparator); }
    }
    assert k.jaKun != [] && (k.jaKun[0] != "" || |k.jaKun| > 1) ==> Join(k.jaKun, ReadingSeparator) != "" by {
      if k.jaKun != [] && (k.jaKun[0] != "" || |k.jaKun| > 1) { JoinNonEmpty(k.jaKun, ReadingSeparator); }
    }
    assert k.meanings != [] && (k.meanings[0] != "" || |k.meanings| > 1) ==> Join(k.meanings, ", ") != "" by {
      if k.meanings != [] && (k.meanings[0] != "" || |k.meanings| > 1) { JoinNonEmpty(k.meanings, ", "); }
    }
    [OnLine(k), KunLine(k), MeaningsText(k), "Stroke count: " + k.strokeCount]
  }

  // ---------------------------------------------------------------------------
  // What the screen renders

  /** The button under a card. */
  datatype Action = AnswerButtons | NextButton | FinishButton

  datatype Screen =
    | ErrorScreen(message: string)   // the error text and a Retry button
    | Spinner
    | CardScreen(card: Kanji, details: Option<seq<string>>, action: Action, progress: string)

  class ReviewSession {
    const params: ReviewParams
    var currentIndex: nat
    var kanjiList: seq<Kanji>
    var loading: bool
    var error: Option<string>
    var answers: seq<Answer>

    /**
     * One answer slot per card, the index on a card (or 0 with no cards), no
     * cards while loading or after a failed load, and no error while loading.
     */
    ghost predicate Valid()
      reads this
    {
      && |answers| == |kanjiList|
      && (kanjiList == [] ==> currentIndex == 0)
      && (kanjiList != [] ==> currentIndex < |kanjiList|)
      && (error.Some? ==> kanjiList == [])
      && (loading ==> kanjiList == [] && error == None)
    }

    /** Every card before the current one has been answered. */
    ghost predicate GradedBefore()
      reads this
    {
      forall k :: 0 <= k < currentIndex && k < |answers| ==> answers[k].revealed
    }

    /** The first render: loading, with no cards and no error. */
    constructor(params: ReviewParams)
      ensures this.params == params
      ensures currentIndex == 0 && kanjiList == [] && answers == []
      ensures loading && error == None
      ensures Valid() && GradedBefore()
    {
      this.params := params;
      currentIndex := 0;
      kanjiList := [];
      loading := true;
      error := None;
      answers := [];
    }

    /**
     * The synchronous start of `loadKanji`. It runs on the first render and from
     * the Retry button, which is shown only after a failed load; in both states
     * there are no cards.
     */
    method BeginLoad()
      requires Valid()
      requires kanjiList == []
      modifies this
      ensures loading && error == None
      ensures currentIndex == old(currentIndex) && kanjiList == old(kanjiList) && answers == old(answers)
      ensures Valid()
    {
      loading := true;
      error := None;
    }

    /**
     * The rest of `loadKanji`, once `fetchKanjiByMode` has settled: the cards
     * and all-unanswered slots on a non-empty result, the error message
     * otherwise, and `loading` off either way.
     */
    method CompleteLoad(server: string -> Response, choices: seq<nat>)
      requires Valid()
      requires loading
      modifies this
      ensures !loading
      ensures currentIndex == old(currentIndex)
      ensures var fetched := FetchKanjiByMode(params.mode, params.difficulty, CountArgument(params.count), server, choices);
        if fetched.Success? && fetched.value != [] then
          && kanjiList == fetched.value
          && answers == seq(|fetched.value|, _ => Unanswered)
          && error == None
        else
          && kanjiList == old(kanjiList)
          && answers == old(answers)
          && error == Some(if fetched.Failure? then ErrorMessage(fetched.error) else "No kanji data received")
      ensures Valid() && GradedBefore()
    {
      var fetched := FetchKanjiByMode(params.mode, params.difficulty, CountArgument(params.count), server, choices);
      if fetched.Success? && fetched.value != [] {
        kanjiList := fetched.value;
        answers := seq(|fetched.value|, _ => Unanswered);
      } else if fetched.Failure? {
        error := Some(ErrorMessage(fetched.error));
      } else {
        error := Some("No kanji data received");
      }
      loading := false;
    }

    /**
     * `handleAnswer(isCorrect)`: marks the current card answered. Its buttons
     * are shown only on a card, so there is at least one.
     */
    method HandleAnswer(isCorrect: bool)
      requires Valid()
      requires kanjiList != []
      modifies this
      ensures currentIndex == old(currentIndex) && kanjiList == old(kanjiList)
      ensures answers == old(answers)[old(currentIndex) := Answer(isCorrect, true)]
      ensures loading == old(loading) && error == old(error)
      ensures Valid()
      ensures old(GradedBefore()) ==> GradedBefore()
    {
      answers := answers[currentIndex := Answer(isCorrect, true)];
    }

    /** `handleNext`: moves to the next card unless this is the last one. */
    method HandleNext()
      requires Valid()
      modifies this
      ensures currentIndex == if old(currentIndex) + 1 < |kanjiList| then old(currentIndex) + 1 else old(currentIndex)
      ensures kanjiList == old(kanjiList) && answers == old(answers)
      ensures loading == old(loading) && error == old(error)
      ensures Valid()
      ensures old(GradedBefore()) && (currentIndex < |answers| ==> old(answers[currentIndex].revealed)) ==> GradedBefore()
    {
      if currentIndex + 1 < |kanjiList| {
        currentIndex := currentIndex + 1;
      }
    }

    /**
     * `handleFinish`'s parameters: `correct` counts the correct answers,
     * `total` the answers, and `reviewedKanji` is the JSON text of the cards
     * with their flags, from which the cards and flags are read back.
     */
    function HandleFinish(): (r: ResultsParams)
      reads this
      ensures r.mode == params.mode && r.difficulty == params.difficulty
      ensures NumberValue(r.correct) == Some(CorrectCount(answers))
      ensures NumberValue(r.total) == Some(|answers|)
      ensures CorrectCount(answers) <= |answers|
      ensures r.reviewedKanji.Some?
      ensures Parse(r.reviewedKanji.value).Some?
      ensures DecodeReviewedList(Parse(r.reviewedKanji.value).value) == Some(ReviewedList(kanjiList, answers))
    {
      var reviewed := ReviewedList(kanjiList, answers);
      ParseStringify(ReviewedListJson(reviewed));
      DecodeReviewedListJson(reviewed);
      NumberOfNatText(CorrectCount(answers));
      NumberOfNatText(|answers|);
      ResultsParams(
        params.mode,
        params.difficulty,
        NatText(CorrectCount(answers)),
        NatText(|answers|),
        Some(Stringify(ReviewedListJson(reviewed))))
    }

    /**
     * What the screen shows: a non-empty error first, then the spinner while
     * loading or without cards, otherwise the current card with its details once
     * answered and the button that fits.
     */
    function View(): (s: Screen)
      reads this
      requires Valid()
      ensures s.ErrorScreen? <==> error.Some? && error.value != ""
      ensures s.Spinner? <==> !(error.Some? && error.value != "") && (loading || kanjiList == [])
      ensures s.CardScreen? ==> s.card == kanjiList[currentIndex]
      ensures s.CardScreen? ==> (s.details.Some? <==> answers[currentIndex].revealed)
      ensures s.CardScreen? ==> (s.action == AnswerButtons <==> !answers[currentIndex].revealed)
      ensures s.CardScreen? ==> (s.action == FinishButton <==> answers[currentIndex].revealed && currentIndex == |kanjiList| - 1)
      ensures s.CardScreen? ==> (s.action == NextButton <==> answers[currentIndex].revealed && currentIndex < |kanjiList| - 1)
    {
      if error.Some? && error.value != "" then ErrorScreen(error.value)
      else if loading || kanjiList == [] then Spinner
      else
        var card := kanjiList[currentIndex];
        var answer := answers[currentIndex];
        var action :=
          if !answer.revealed then AnswerButtons
          else if currentIndex == |kanjiList| - 1 then FinishButton
          else NextButton;
        CardScreen(card, if answer.revealed then Some(DetailLines(card)) else None, action,
                   NatText(currentIndex + 1) + " / " + params.count)
    }
  }

  /**
   * When the screen offers Finish in a session where each earlier card was
   * answered before moving on, every card has been answered.
   */
  lemma FinishAfterEveryCard(s: ReviewSession)
    requires s.Valid() && s.GradedBefore()
    requires s.View().CardScreen? && s.View().action == FinishButton
    ensures forall k :: 0 <= k < |s.answers| ==> s.answers[k].revealed
    ensures |s.answers| > 0
  {
    forall k | 0 <= k < |s.answers| ensures s.answers[k].revealed {
      if k < s.currentIndex {
      } else {
        assert k == s.currentIndex;
      }
    }
  }
}
