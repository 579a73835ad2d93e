/**
 * The results screen: the percentage score, reading the `reviewedKanji`
 * parameter back with its fallback to an empty list, the detail lines of a
 * selected card, and the parameters of "Review Again".
 */
module Results {
  import opened Wrappers
  import opened Text
  import opened JsonText
  import opened KanjiRecords
  import opened KanjiReview

  // ---------------------------------------------------------------------------
  // Score

  /**
   * `Math.round((correct / total) * 100)` in exact arithmetic: the nearest
   * integer to 100 * correct / total, halves rounding up.
   */
  function Score(correct: int, total: int): (r: int)
    requires total > 0
    ensures 2 * total * r <= 200 * correct + total < 2 * total * (r + 1)
  {
    var r := (200 * correct + total) / (2 * total);
    DivisionBounds(200 * correct + total, 2 * total);
    r
  }

  lemma DivisionBounds(a: int, b: int)
    requires b > 0
    ensures b * (a / b) <= a < b * (a / b + 1)
  {
    assert a == b * (a / b) + a % b;
  }

  lemma MulMonotone(a: int, b: int, c: int)
    requires a > 0 && b <= c
    ensures a * b <= a * c
  {
    var d := c - b;
    assert a * c == a * b + a * d;
  }

  /** The score never exceeds 100 when no more answers are correct than there are cards. */
  lemma ScoreAtMost100(correct: int, total: int)
    requires total > 0 && correct <= total
    ensures Score(correct, total) <= 100
  {
    var r := Score(correct, total);
    if r >= 101 {
      MulMonotone(2 * total, 101, r);
    }
  }

  /** The score is never negative when the correct count is not. */
  lemma ScoreAtLeast0(correct: int, total: int)
    requires total > 0 && correct >= 0
    ensures Score(correct, total) >= 0
  {
    var r := Score(correct, total);
    if r < 0 {
      MulMonotone(2 * total, r + 1, 0);
    }
  }

  /** The score of a valid count lies between 0 and 100. */
  lemma ScoreInRange(correct: int, total: int)
    requires total > 0
    ensures 0 <= correct <= total ==> 0 <= Score(correct, total) <= 100
  {
    if 0 <= correct <= total {
      ScoreAtMost100(correct, total);
      ScoreAtLeast0(correct, total);
    }
  }

  /** The score is 100 exactly when the misses are at most a two-hundredth of the total. */
  lemma ScoreFull(correct: int, total: int)
    requires 0 <= correct <= total
    requires total > 0
    ensures Score(correct, total) == 100 <==> 200 * (total - correct) <= total
  {
    var r := Score(correct, total);
    ScoreAtMost100(correct, total);
    if r <= 99 {
      MulMonotone(2 * total, r + 1, 100);
    }
  }

  /** The score is 0 exactly when the correct answers are under a two-hundredth of the total. */
  lemma ScoreZero(correct: int, total: int)
    requires 0 <= correct <= total
    requires total > 0
    ensures Score(correct, total) == 0 <==> 200 * correct < total
  {
    var r := Score(correct, total);
    ScoreAtLeast0(correct, total);
    if r >= 1 {
      MulMonotone(2 * total, 1, r);
    }
  }

  /** Below 200 cards, 100 means every answer was correct. */
  lemma ScoreFullMeansAllCorrect(correct: int, total: int)
    requires 0 <= correct <= total
    requires 0 < total < 200
    ensures Score(correct, total) == 100 <==> correct == total
  {
    ScoreFull(correct, total);
  }

  /** Up to 200 cards, 0 means no answer was correct. */
  lemma ScoreZeroMeansNoneCorrect(correct: int, total: int)
    requires 0 <= correct <= total
    requires 0 < total <= 200
    ensures Score(correct, total) == 0 <==> correct == 0
  {
    ScoreZero(correct, total);
  }

  /** Past those sizes the rounding hides a miss or a hit: 199 of 200 shows 100, 1 of 201 shows 0. */
  lemma ScoreRoundsToExtremes()
    ensures Score(199, 200) == 100
    ensures Score(1, 201) == 0
  {
    ScoreFull(199, 200);
    ScoreZero(1, 201);
  }

  /** 23 of 40 is exactly 57.5 percent, which rounds half up to 58. */
  lemma ScoreExactHalf()
    ensures Score(23, 40) == 58
  {
  }

  /** The score the screen shows for its parameters, `Number(correct)` and `Number(total)`. */
  function ParamsScore(p: ResultsParams): (r: int)
    requires NumberValue(p.correct).Some? && NumberValue(p.total).Some?
    requires NumberValue(p.total).value > 0
    ensures 0 <= NumberValue(p.correct).value <= NumberValue(p.total).value ==> 0 <= r <= 100
  {
    var c := NumberValue(p.correct).value;
    var t := NumberValue(p.total).value;
    ScoreInRange(c, t);
    Score(c, t)
  }

  // ---------------------------------------------------------------------------
  // The reviewedKanji parameter

  /** `params.reviewedKanji || "[]"`: an absent or empty parameter reads as an empty list. */
  function PayloadText(param: Option<string>): string
  {
    match param
    case None => "[]"
    case Some(text) => OrElse(text, "[]")
  }

  /** The `useMemo` block: `JSON.parse` of the payload, or `[]` when parsing throws. */
  function ParseReviewedKanji(param: Option<string>): (r: Json)
    ensures param.None? ==> r == JArray([])
    ensures param == Some("") ==> r == JArray([])
    ensures param.Some? && param.value != "" && Parse(param.value).None? ==> r == JArray([])
    ensures param.Some? && param.value != "" && Parse(param.value).Some? ==> r == Parse(param.value).value
  {
    EmptyListText();
    match Parse(PayloadText(param))
    case Some(v) => v
    case None => JArray([])
  }

  /** `[]` is the JSON text of the empty list. */
  lemma EmptyListText()
    ensures Parse("[]") == Some(JArray([]))
  {
    assert Stringify(JArray([])) == "[]";
    ParseStringify(JArray([]));
  }

  /** What the review screen sends arrives as its cards, flags included, in review order. */
  lemma FinishedSessionReachesResults(s: ReviewSession)
    ensures DecodeReviewedList(ParseReviewedKanji(s.HandleFinish().reviewedKanji)) == Some(ReviewedList(s.kanjiList, s.answers))
  {
    var text := s.HandleFinish().reviewedKanji.value;
    assert text != "" by {
      assert Parse(text).Some?;
      assert Parse("") == None;
    }
  }

  // ---------------------------------------------------------------------------
  // The selected card's details, read from the parsed record

  /** `value.key` for a parsed value: absent (`undefined`) on anything but an object with that key. */
  function Property(value: Json, key: string): Option<Json>
  {
    if value.JObject? then Lookup(value.members, key) else None
  }

  /**
   * `list?.join(sep) || fallback`. Absent and `null` give the fallback, an
   * array of strings its join. Any other value is outside this model (None).
   */
  function ListLine(list: Option<Json>, sep: string, fallback: string): Option<string>
  {
    match list
    case None => Some(fallback)
    case Some(JNull) => Some(fallback)
    case Some(JArray(items)) =>
      (match AsStrings(items)
       case Some(parts) => Some(OrElse(Join(parts, sep), fallback))
       case None => None)
    case Some(_) => None
  }

  /**
   * `selectedKanji.meanings.en?.join(", ") || "No meanings available"`; None
   * where the read throws (`meanings` absent or `null`) or leaves this model.
   */
  function MeaningsLine(record: Json): Option<string>
  {
    match Property(record, "meanings")
    case None => None
    case Some(JNull) => None
    case Some(meanings) => ListLine(Property(meanings, "en"), ", ", "No meanings available")
  }

  /** `selectedKanji.readings.<key>?.join("、 ") || "None"` behind its caption. */
  function ReadingLine(record: Json, key: string, caption: string): Option<string>
  {
    match Property(record, "readings")
    case None => None
    case Some(JNull) => None
    case Some(readings) =>
      (match ListLine(Property(readings, key), ReadingSeparator, "None")
       case Some(line) => Some(caption + line)
       case None => None)
  }

  /** An encoded list of strings is shown as the review screen shows it. */
  lemma ListLineOfStrings(xs: seq<string>, sep: string, fallback: string)
    ensures ListLine(Some(StringsJson(xs)), sep, fallback) == Some(OrElse(Join(xs, sep), fallback))
  {
    AsStringsOfStrings(xs);
  }

  /** On a record the review screen encoded, the modal's meanings are the revealed card's. */
  lemma ModalMeaningsMatchCard(r: Reviewed)
    ensures MeaningsLine(ReviewedJson(r)) == Some(MeaningsText(r.card))
  {
    ReviewedField(r, 6);
    LookupDistinct([Member("en", StringsJson(r.card.meanings))], 0);
    ListLineOfStrings(r.card.meanings, ", ", "No meanings available");
  }

  /** The readings of an encoded card, read back by key. */
  lemma ReadingsOfCard(r: Reviewed)
    ensures Property(ReviewedJson(r), "readings") == Some(ReadingsJson(r.card.jaOn, r.card.jaKun))
    ensures Property(ReadingsJson(r.card.jaOn, r.card.jaKun), "ja_on") == Some(StringsJson(r.card.jaOn))
    ensures Property(ReadingsJson(r.card.jaOn, r.card.jaKun), "ja_kun") == Some(StringsJson(r.card.jaKun))
  {
    ReviewedField(r, 7);
    var readings := [Member("ja_on", StringsJson(r.card.jaOn)), Member("ja_kun", StringsJson(r.card.jaKun))];
    assert DistinctKeys(readings);
    LookupDistinct(readings, 0);
    LookupDistinct(readings, 1);
  }

  /** On a record the review screen encoded, the modal's reading lines are the revealed card's. */
  lemma ModalReadingsMatchCard(r: Reviewed)
    ensures ReadingLine(ReviewedJson(r), "ja_on", "On: ") == Some(OnLine(r.card))
    ensures ReadingLine(ReviewedJson(r), "ja_kun", "Kun: ") == Some(KunLine(r.card))
  {
    ReadingsOfCard(r);
    ListLineOfStrings(r.card.jaOn, ReadingSeparator, "None");
    ListLineOfStrings(r.card.jaKun, ReadingSeparator, "None");
  }

  // ---------------------------------------------------------------------------
  // The record type the results screen declares

  /** `KanjiDetails` as declared: `meanings` is a list of strings. */
  datatype KanjiDetails = KanjiDetails(
    kanji: string,
    meanings: seq<string>,
    jaOn: seq<string>,
    jaKun: seq<string>,
    strokeCount: string,
    isCorrect: bool)

  /** A parsed record read with the declared `KanjiDetails` shape. */
  function DecodeDetailsAsDeclared(j: Json): Option<KanjiDetails>
  {
    if !j.JObject? then None
    else
      var ms := j.members;
      match (StringField(ms, "kanji"), StringsField(ms, "meanings"), ReadingsField(ms),
             StringField(ms, "stroke_count"), BoolField(ms, "isCorrect"))
      case (Some(kanji), Some(meanings), Some((on, kun)), Some(strokes), Some(b)) =>
        Some(KanjiDetails(kanji, meanings, on, kun, strokes, b))
      case _ => None
  }

  /** No record the review screen sends has the declared shape: its `meanings` is an object. */
  lemma DeclaredShapeRejectsPayload(r: Reviewed)
    ensures DecodeDetailsAsDeclared(ReviewedJson(r)) == None
  {
    ReviewedField(r, 6);
  }

  /**
   * A record that did have the declared shape would never show its meanings:
   * `.en` of a list is undefined, so the fallback shows whatever the list holds.
   */
  lemma DeclaredShapeHidesMeanings(ms: seq<Member>, meanings: seq<string>)
    requires Lookup(ms, "meanings") == Some(StringsJson(meanings))
    ensures MeaningsLine(JObject(ms)) == Some("No meanings available")
  {
  }

  lemma DeclaredShapeHidesWater()
    ensures MeaningsLine(JObject([Member("meanings", StringsJson(["water"]))])) == Some("No meanings available")
  {
    LookupDistinct([Member("meanings", StringsJson(["water"]))], 0);
    DeclaredShapeHidesMeanings([Member("meanings", StringsJson(["water"]))], ["water"]);
  }

  // ---------------------------------------------------------------------------
  // Review again

  /** `handleReviewAgain`'s parameters: the same mode and difficulty, and `count = total`. */
  function ReviewAgain(p: ResultsParams): (q: ReviewParams)
    ensures q.mode == p.mode && q.difficulty == p.difficulty
    ensures CountArgument(q.count) == CountArgument(p.total)
  {
    ReviewParams(p.mode, p.difficulty, p.total)
  }

  /**
   * From a finished session: the score lies in 0..100, and "Review Again"
   * requests as many cards as the session showed, in the same mode and
   * difficulty.
   */
  lemma FinishToResults(s: ReviewSession)
    requires s.Valid()
    requires s.View().CardScreen? && s.View().action == FinishButton
    ensures var p := s.HandleFinish();
      && NumberValue(p.correct).Some? && NumberValue(p.total).Some? && NumberValue(p.total).value > 0
      && 0 <= ParamsScore(p) <= 100
      && ReviewAgain(p) == ReviewParams(s.params.mode, s.params.difficulty, p.total)
      && CountArgument(ReviewAgain(p).count) == |s.kanjiList|
  {
    var p := s.HandleFinish();
    ScoreInRange(CorrectCount(s.answers), |s.answers|);
  }
}
