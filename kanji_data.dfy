/**
 * The kanji record the lookup service returns (`KanjiData`), the record the
 * review screen sends to the results screen (the kanji plus `isCorrect`), and
 * their JSON form.
 */
module KanjiRecords {
  import opened Wrappers
  import opened JsonText
  import opened Seqs

  /**
   * One kanji's study data. `freq` is the numeric value `Number(freq)` the
   * frequency filter compares; the other scalar fields are text, as declared.
   */
  datatype Kanji = Kanji(
    kanji: string,
    unicode: string,
    grade: string,
    strokeCount: string,
    freq: int,
    jlpt: string,
    meanings: seq<string>,   // meanings.en
    jaOn: seq<string>,       // readings.ja_on
    jaKun: seq<string>)      // readings.ja_kun

  /** `{ ...kanji, isCorrect }`: a reviewed card as the results screen receives it. */
  datatype Reviewed = Reviewed(card: Kanji, isCorrect: bool)

  // ---------------------------------------------------------------------------
  // Encoding

  function StringsJson(xs: seq<string>): (j: Json)
    ensures j.JArray? && |j.items| == |xs|
    ensures forall i :: 0 <= i < |xs| ==> j.items[i] == JString(xs[i])
  {
    JArray(seq(|xs|, i requires 0 <= i < |xs| => JString(xs[i])))
  }

  /**
   * The spread `{ ...kanji, isCorrect }`: the members of the kanji object, in
   * the order the service declares them, then `isCorrect`.
   */
  function ReviewedJson(r: Reviewed): Json
  {
    var k := r.card;
    JObject([ Member("kanji", JString(k.kanji)),
              Member("unicode", JString(k.unicode)),
              Member("grade", JString(k.grade)),
              Member("stroke_count", JString(k.strokeCount)),
              Member("freq", JInt(k.freq)),
              Member("jlpt", JString(k.jlpt)),
              Member("meanings", MeaningsJson(k.meanings)),
              Member("readings", ReadingsJson(k.jaOn, k.jaKun)),
              Member("isCorrect", JBool(r.isCorrect)) ])
  }

  function MeaningsJson(en: seq<string>): Json
  {
    JObject([Member("en", StringsJson(en))])
  }

  function ReadingsJson(on: seq<string>, kun: seq<string>): Json
  {
    JObject([Member("ja_on", StringsJson(on)), Member("ja_kun", StringsJson(kun))])
  }

  function ReviewedListJson(rs: seq<Reviewed>): (j: Json)
    ensures j.JArray? && |j.items| == |rs|
    ensures forall i :: 0 <= i < |rs| ==> j.items[i] == ReviewedJson(rs[i])
  {
    JArray(seq(|rs|, i requires 0 <= i < |rs| => ReviewedJson(rs[i])))
  }

  // ---------------------------------------------------------------------------
  // Decoding: the reads the results screen makes of a parsed record

  function AsStrings(items: seq<Json>): (r: Option<seq<string>>)
    ensures r.Some? ==> |r.value| == |items| && forall i :: 0 <= i < |items| ==> items[i] == JString(r.value[i])
    decreases |items|
  {
    if items == [] then Some([])
    else if !items[0].JString? then None
    else
      match AsStrings(items[1..])
      case None => None
      case Some(rest) => Some([items[0].s] + rest)
  }

  function StringField(ms: seq<Member>, key: string): Option<string>
  {
    match Lookup(ms, key)
    case Some(JString(s)) => Some(s)
    case _ => None
  }

  function StringsField(ms: seq<Member>, key: string): Option<seq<string>>
  {
    match Lookup(ms, key)
    case Some(JArray(items)) => AsStrings(items)
    case _ => None
  }

  function ObjectField(ms: seq<Member>, key: string): Option<seq<Member>>
  {
    match Lookup(ms, key)
    case Some(JObject(inner)) => Some(inner)
    case _ => None
  }

  function IntField(ms: seq<Member>, key: string): Option<int>
  {
    match Lookup(ms, key)
    case Some(JInt(n)) => Some(n)
    case _ => None
  }

  function BoolField(ms: seq<Member>, key: string): Option<bool>
  {
    match Lookup(ms, key)
    case Some(JBool(b)) => Some(b)
    case _ => None
  }

  /** `meanings.en` of a parsed kanji object. */
  function MeaningsField(ms: seq<Member>): Option<seq<string>>
  {
    match ObjectField(ms, "meanings")
    case Some(inner) => StringsField(inner, "en")
    case None => None
  }

  /** `readings.ja_on` and `readings.ja_kun` of a parsed kanji object. */
  function ReadingsField(ms: seq<Member>): Option<(seq<string>, seq<string>)>
  {
    match ObjectField(ms, "readings")
    case Some(inner) =>
      var on := StringsField(inner, "ja_on");
      var kun := StringsField(inner, "ja_kun");
      if on.Some? && kun.Some? then Some((on.value, kun.value)) else None
    case None => None
  }

  /** The members of a parsed object read as a kanji of the `KanjiData` shape. */
  function DecodeKanji(ms: seq<Member>): Option<Kanji>
  {
    var kanji := StringField(ms, "kanji");
    var unicode := StringField(ms, "unicode");
    var grade := StringField(ms, "grade");
    var strokes := StringField(ms, "stroke_count");
    var freq := IntField(ms, "freq");
    var jlpt := StringField(ms, "jlpt");
    var en := MeaningsField(ms);
    var readings := ReadingsField(ms);
    if kanji.Some? && unicode.Some? && grade.Some? && strokes.Some? && freq.Some? && jlpt.Some? && en.Some? && readings.Some? then
      Some(Kanji(kanji.value, unicode.value, grade.value, strokes.value, freq.value, jlpt.value,
                 en.value, readings.value.0, readings.value.1))
    else None
  }

  /** A parsed object read as a reviewed card: a kanji of the `KanjiData` shape plus `isCorrect`. */
  function DecodeReviewed(j: Json): Option<Reviewed>
  {
    if !j.JObject? then None
    else
      var k := DecodeKanji(j.members);
      var b := BoolField(j.members, "isCorrect");
      if k.Some? && b.Some? then Some(Reviewed(k.value, b.value)) else None
  }

  function DecodeReviewedItems(items: seq<Json>): (r: Option<seq<Reviewed>>)
    ensures r.Some? ==> |r.value| == |items|
    decreases |items|
  {
    if items == [] then Some([])
    else
      match (DecodeReviewed(items[0]), DecodeReviewedItems(items[1..]))
      case (Some(x), Some(rest)) => Some([x] + rest)
      case _ => None
  }

  /** The parsed `reviewedKanji` parameter read as a list of reviewed cards. */
  function DecodeReviewedList(j: Json): Option<seq<Reviewed>>
  {
    if j.JArray? then DecodeReviewedItems(j.items) else None
  }

  // ---------------------------------------------------------------------------
  // Round trip

  lemma {:induction false} AsStringsOfStrings(xs: seq<string>)
    ensures AsStrings(StringsJson(xs).items) == Some(xs)
    decreases |xs|
  {
    var items := StringsJson(xs).items;
    if xs != [] {
      assert items[1..] == StringsJson(xs[1..]).items;
      AsStringsOfStrings(xs[1..]);
      HeadTail(xs);
    }
  }

  predicate DistinctKeys(ms: seq<Member>)
  {
    forall i, j :: 0 <= i < j < |ms| ==> ms[i].key != ms[j].key
  }

  /** With distinct keys, reading a key gives the value stored under it. */
  lemma LookupDistinct(ms: seq<Member>, i: nat)
    requires DistinctKeys(ms)
    requires i < |ms|
    ensures Lookup(ms, ms[i].key) == Some(ms[i].value)
  {
    var r := Lookup(ms, ms[i].key);
    var j :| 0 <= j < |ms| && ms[j].key == ms[i].key && ms[j].value == r.value;
    assert j == i;
  }

  lemma ReviewedKeysDistinct(r: Reviewed)
    ensures DistinctKeys(ReviewedJson(r).members)
  {
    var ms := ReviewedJson(r).members;
    var keys := ["kanji", "unicode", "grade", "stroke_count", "freq", "jlpt", "meanings", "readings", "isCorrect"];
    assert |ms| == |keys|;
    assert forall i :: 0 <= i < |ms| ==> ms[i].key == keys[i];
  }

  /** Reading a top-level key of an encoded card gives the member stored under it. */
  lemma ReviewedField(r: Reviewed, i: nat)
    requires i < 9
    ensures Lookup(ReviewedJson(r).members, ReviewedJson(r).members[i].key) == Some(ReviewedJson(r).members[i].value)
  {
    ReviewedKeysDistinct(r);
    LookupDistinct(ReviewedJson(r).members, i);
  }

  lemma DecodeReviewedJson(r: Reviewed)
    ensures DecodeReviewed(ReviewedJson(r)) == Some(r)
  {
    var ms := ReviewedJson(r).members;
    ReviewedKeysDistinct(r);
    DecodeEncodedMembers(ms, r);
  }

  /** The members of an encoded card, read back one key at a time. */
  lemma DecodeEncodedMembers(ms: seq<Member>, r: Reviewed)
    requires DistinctKeys(ms) && |ms| == 9
    requires ms[0] == Member("kanji", JString(r.card.kanji))
    requires ms[1] == Member("unicode", JString(r.card.unicode))
    requires ms[2] == Member("grade", JString(r.card.grade))
    requires ms[3] == Member("stroke_count", JString(r.card.strokeCount))
    requires ms[4] == Member("freq", JInt(r.card.freq))
    requires ms[5] == Member("jlpt", JString(r.card.jlpt))
    requires ms[6] == Member("meanings", MeaningsJson(r.card.meanings))
    requires ms[7] == Member("readings", ReadingsJson(r.card.jaOn, r.card.jaKun))
    requires ms[8] == Member("isCorrect", JBool(r.isCorrect))
    ensures DecodeReviewed(JObject(ms)) == Some(r)
  {
    EncodedScalars(ms, r.card);
    EncodedNested(ms, r);
    DecodeFields(ms, r);
  }

  lemma EncodedScalars(ms: seq<Member>, k: Kanji)
    requires DistinctKeys(ms) && |ms| == 9
    requires ms[0] == Member("kanji", JString(k.kanji))
    requires ms[1] == Member("unicode", JString(k.unicode))
    requires ms[2] == Member("grade", JString(k.grade))
    requires ms[3] == Member("stroke_count", JString(k.strokeCount))
    requires ms[4] == Member("freq", JInt(k.freq))
    requires ms[5] == Member("jlpt", JString(k.jlpt))
    ensures StringField(ms, "kanji") == Some(k.kanji)
    ensures StringField(ms, "unicode") == Some(k.unicode)
    ensures StringField(ms, "grade") == Some(k.grade)
    ensures StringField(ms, "stroke_count") == Some(k.strokeCount)
    ensures IntField(ms, "freq") == Some(k.freq)
    ensures StringField(ms, "jlpt") == Some(k.jlpt)
  {
    TextAt(ms, 0, k.kanji);
    TextAt(ms, 1, k.unicode);
    TextAt(ms, 2, k.grade);
    TextAt(ms, 3, k.strokeCount);
    LookupDistinct(ms, 4);
    TextAt(ms, 5, k.jlpt);
  }

  lemma EncodedNested(ms: seq<Member>, r: Reviewed)
    requires DistinctKeys(ms) && |ms| == 9
    requires ms[6] == Member("meanings", MeaningsJson(r.card.meanings))
    requires ms[7] == Member("readings", ReadingsJson(r.card.jaOn, r.card.jaKun))
    requires ms[8] == Member("isCorrect", JBool(r.isCorrect))
    ensures MeaningsField(ms) == Some(r.card.meanings)
    ensures ReadingsField(ms) == Some((r.card.jaOn, r.card.jaKun))
    ensures BoolField(ms, "isCorrect") == Some(r.isCorrect)
  {
    LookupDistinct(ms, 6);
    LookupDistinct(ms, 7);
    LookupDistinct(ms, 8);
    MeaningsOfEncoded(r.card, ms);
    ReadingsOfEncoded(r.card, ms);
  }

  /** Once every field reads back, the whole card does. */
  lemma DecodeFields(ms: seq<Member>, r: Reviewed)
    requires StringField(ms, "kanji") == Some(r.card.kanji)
    requires StringField(ms, "unicode") == Some(r.card.unicode)
    requires StringField(ms, "grade") == Some(r.card.grade)
    requires StringField(ms, "stroke_count") == Some(r.card.strokeCount)
    requires IntField(ms, "freq") == Some(r.card.freq)
    requires StringField(ms, "jlpt") == Some(r.card.jlpt)
    requires MeaningsField(ms) == Some(r.card.meanings)
    requires ReadingsField(ms) == Some((r.card.jaOn, r.card.jaKun))
    requires BoolField(ms, "isCorrect") == Some(r.isCorrect)
    ensures DecodeReviewed(JObject(ms)) == Some(r)
  {
  }

  /** A text member of an object with distinct keys is read back as that text. */
  lemma TextAt(ms: seq<Member>, i: nat, s: string)
    requires DistinctKeys(ms) && i < |ms|
    requires ms[i].value == JString(s)
    ensures StringField(ms, ms[i].key) == Some(s)
  {
    LookupDistinct(ms, i);
  }

  lemma MeaningsOfEncoded(k: Kanji, ms: seq<Member>)
    requires Lookup(ms, "meanings") == Some(MeaningsJson(k.meanings))
    ensures MeaningsField(ms) == Some(k.meanings)
  {
    LookupDistinct([Member("en", StringsJson(k.meanings))], 0);
    AsStringsOfStrings(k.meanings);
  }

  lemma ReadingsOfEncoded(k: Kanji, ms: seq<Member>)
    requires Lookup(ms, "readings") == Some(ReadingsJson(k.jaOn, k.jaKun))
    ensures ReadingsField(ms) == Some((k.jaOn, k.jaKun))
  {
    var inner := ReadingsJson(k.jaOn, k.jaKun).members;
    assert DistinctKeys(inner);
    StringsAt(inner, 0, k.jaOn);
    StringsAt(inner, 1, k.jaKun);
  }

  /** A list-of-text member of an object with distinct keys is read back as that list. */
  lemma StringsAt(ms: seq<Member>, i: nat, xs: seq<string>)
    requires DistinctKeys(ms) && i < |ms|
    requires ms[i].value == StringsJson(xs)
    ensures StringsField(ms, ms[i].key) == Some(xs)
  {
    LookupDistinct(ms, i);
    AsStringsOfStrings(xs);
  }

  /** Decoding the encoded list gives back every card, field by field, in order. */
  lemma {:induction false} DecodeReviewedListJson(rs: seq<Reviewed>)
    ensures DecodeReviewedList(ReviewedListJson(rs)) == Some(rs)
    decreases |rs|
  {
    var items := ReviewedListJson(rs).items;
    if rs != [] {
      DecodeReviewedJson(rs[0]);
      assert items[1..] == ReviewedListJson(rs[1..]).items;
      DecodeReviewedListJson(rs[1..]);
      HeadTail(rs);
    }
  }
}
