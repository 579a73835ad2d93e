/**
 * `fetchKanjiByMode`: which list of the kanji lookup service a (mode,
 * difficulty) request reads, and how the returned list becomes the cards of a
 * session (frequency filter, empty check, shuffle, truncation). The network is
 * an abstract `server` from endpoint path to response; the random shuffle is an
 * arbitrary permutation, chosen by `choices`.
 */
module KanjiApi {
  import opened Wrappers
  import opened Text
  import opened KanjiRecords
  import opened FreqSort
  import opened Seqs

  /** The errors `fetchKanjiByMode` throws. */
  datatype FetchError =
    | UnsupportedMode(mode: string)   // unknown mode, thrown before any request
    | RequestFailed(message: string)  // `fetch` or `response.json()` rejected
    | HttpError(status: int)          // a response that is not ok
    | NoKanjiData                     // the list to sample from is empty

  /** `error.message` of each thrown error. */
  function ErrorMessage(e: FetchError): string
  {
    match e
    case UnsupportedMode(mode) => "Unsupported mode: " + mode
    case RequestFailed(message) => message
    case HttpError(status) => "HTTP error! status: " + IntText(status)
    case NoKanjiData => "No kanji data received"
  }

  /** The service's answer to one GET request. */
  datatype Response =
    | Unreachable(message: string)                         // the request or the body read failed
    | Answered(status: int, kanjis: Option<seq<Kanji>>)    // `kanjis` is absent from some bodies

  const JouyouPath := "/api/list/jouyou/"
  const JlptPath := "/api/list/jlpt/"

  /** The difficulty tokens the selection screen offers for each mode. */
  function DifficultyOptions(mode: string): seq<string>
  {
    if mode == "jouyou" then ["grade-1", "grade-2", "grade-3", "grade-4", "grade-5", "grade-6", "secondary"]
    else if mode == "jlpt" then ["n5", "n4", "n3", "n2", "n1"]
    else if mode == "frequency" then ["top-100", "top-500"]
    else []
  }

  predicate KnownMode(mode: string)
  {
    mode == "jouyou" || mode == "jlpt" || mode == "frequency"
  }

  // ---------------------------------------------------------------------------
  // Endpoint selection

  /** `${difficulty.split("-")[1]}` as written: with no `-` the template renders `undefined`. */
  function GradeSegmentAsWritten(difficulty: string): string
  {
    match SecondField(difficulty, '-')
    case Some(grade) => grade
    case None => "undefined"
  }

  /** The grade segment as intended: `grade-<n>` gives `<n>`, a token without `-` is passed through. */
  function GradeSegment(difficulty: string): string
  {
    match SecondField(difficulty, '-')
    case Some(grade) => grade
    case None => difficulty
  }

  /** The JLPT level: N5 is not served and is read as level 4; otherwise the first `N` is dropped. */
  function JlptLevel(difficulty: string): string
  {
    var upper := ToUpper(difficulty);
    if upper == "N5" then "4" else RemoveFirst(upper, 'N')
  }

  /** The endpoint `fetchKanjiByMode` requests, as the code is written. */
  function EndpointAsWritten(mode: string, difficulty: string): (r: Result<string, FetchError>)
    ensures r.Failure? <==> !KnownMode(mode)
    ensures r.Failure? ==> r.error == UnsupportedMode(mode)
  {
    if mode == "jouyou" then Success(JouyouPath + GradeSegmentAsWritten(difficulty))
    else if mode == "jlpt" then Success(JlptPath + JlptLevel(difficulty))
    else if mode == "frequency" then Success(JouyouPath)
    else Failure(UnsupportedMode(mode))
  }

  /** The endpoint with the grade segment as intended; the rest of the model requests this one. */
  function Endpoint(mode: string, difficulty: string): (r: Result<string, FetchError>)
    ensures r.Failure? <==> !KnownMode(mode)
    ensures r.Failure? ==> r.error == UnsupportedMode(mode)
    ensures mode != "jouyou" ==> r == EndpointAsWritten(mode, difficulty)
  {
    if mode == "jouyou" then Success(JouyouPath + GradeSegment(difficulty))
    else EndpointAsWritten(mode, difficulty)
  }

  /** The two grade segments differ only on tokens without `-`. */
  lemma GradeSegmentsAgree(difficulty: string)
    requires '-' in difficulty
    ensures GradeSegment(difficulty) == GradeSegmentAsWritten(difficulty)
    ensures Endpoint("jouyou", difficulty) == EndpointAsWritten("jouyou", difficulty)
  {
    var i := FirstIndex(difficulty, '-');
    assert difficulty == difficulty[..i] + ['-'] + difficulty[i + 1..];
    SecondFieldAfterFirst(difficulty[..i], '-', difficulty[i + 1..]);
  }

  /** The segment after the first `-`, up to the next one. */
  lemma GradeSegmentAfterDash(p: string, q: string)
    requires '-' !in p
    ensures GradeSegmentAsWritten(p + "-" + q) == Split(q, '-')[0]
    ensures GradeSegment(p + "-" + q) == Split(q, '-')[0]
  {
    assert p + "-" + q == p + ['-'] + q;
    SecondFieldAfterFirst(p, '-', q);
  }

  /** Jouyou mode reads the text between the first `-` and the next one (or the end). */
  lemma JouyouEndpointAfterDash(p: string, q: string)
    requires '-' !in p
    ensures EndpointAsWritten("jouyou", p + "-" + q) == Success(JouyouPath + Split(q, '-')[0])
    ensures Endpoint("jouyou", p + "-" + q) == Success(JouyouPath + Split(q, '-')[0])
    ensures '-' !in q ==> Endpoint("jouyou", p + "-" + q) == Success(JouyouPath + q)
  {
    GradeSegmentAfterDash(p, q);
    if '-' !in q {
      SplitNoSeparator(q, '-');
    }
  }

  /** A jouyou token without `-` has no segment: the code requests `.../undefined`. */
  lemma JouyouEndpointNoDash(d: string)
    requires '-' !in d
    ensures EndpointAsWritten("jouyou", d) == Success(JouyouPath + "undefined")
    ensures Endpoint("jouyou", d) == Success(JouyouPath + d)
  {
    SecondFieldAbsent(d, '-');
  }

  /** `secondary` reads `undefined` as written and `secondary` as intended. */
  lemma SecondaryEndpoint()
    ensures EndpointAsWritten("jouyou", "secondary") == Success(JouyouPath + "undefined")
    ensures Endpoint("jouyou", "secondary") == Success(JouyouPath + "secondary")
  {
    var d := "secondary";
    assert forall i :: 0 <= i < |d| ==> d[i] != '-';
    JouyouEndpointNoDash(d);
  }

  /** The level of a two-character JLPT token in either case. */
  lemma JlptLevelTwoChars(n: char, x: char)
    requires n == 'n' || n == 'N'
    requires IsDigit(x)
    ensures JlptLevel([n, x]) == if x == '5' then "4" else [x]
  {
    var upper := ToUpper([n, x]);
    assert upper[0] == 'N' && upper[1] == x;
    assert upper == ['N'] + [x];
    if x != '5' {
      assert upper[1] != "N5"[1];
      RemoveFirstAtFront('N', [x]);
    } else {
      assert upper == "N5";
    }
  }

  /** A two-character JLPT token in either case: `n5` is level 4, any other `nX` is level X. */
  lemma JlptEndpointTwoChars(n: char, x: char)
    requires n == 'n' || n == 'N'
    requires IsDigit(x)
    ensures Endpoint("jlpt", [n, x]) == Success(JlptPath + (if x == '5' then "4" else [x]))
  {
    JlptLevelTwoChars(n, x);
  }

  /** Frequency mode reads the whole jouyou list, whatever the difficulty. */
  lemma FrequencyEndpoint(difficulty: string)
    ensures Endpoint("frequency", difficulty) == Success(JouyouPath)
  {
  }

  /**
   * Every token the selection screen offers resolves to an endpoint, and the
   * switch as written and the corrected one request the same path for every
   * token but `secondary`.
   */
  lemma OfferedTokensResolve(mode: string, difficulty: string)
    requires difficulty in DifficultyOptions(mode)
    ensures KnownMode(mode)
    ensures EndpointAsWritten(mode, difficulty).Success? && Endpoint(mode, difficulty).Success?
    ensures difficulty != "secondary" ==> EndpointAsWritten(mode, difficulty) == Endpoint(mode, difficulty)
    ensures mode == "jlpt" ==> EndpointAsWritten(mode, difficulty) == Success(JlptPath + (if difficulty == "n5" then "4" else difficulty[1..]))
    ensures mode == "jouyou" && difficulty != "secondary" ==> EndpointAsWritten(mode, difficulty) == Success(JouyouPath + difficulty[6..])
    ensures mode == "jouyou" && difficulty == "secondary" ==> EndpointAsWritten(mode, difficulty) == Success(JouyouPath + "undefined")
  {
    if mode == "jlpt" {
      JlptEndpointTwoChars(difficulty[0], difficulty[1]);
      assert difficulty == [difficulty[0], difficulty[1]];
    } else if mode == "jouyou" && difficulty != "secondary" {
      JouyouEndpointAfterDash("grade", difficulty[6..]);
      assert difficulty == "grade" + "-" + difficulty[6..];
    } else if mode == "jouyou" {
      SecondaryEndpoint();
    }
  }

  // ---------------------------------------------------------------------------
  // Frequency filter

  function Min(a: int, b: int): int { if a <= b then a else b }

  /** `top-100` keeps 100 kanji; every other token keeps 500. */
  function FrequencyLimit(difficulty: string): nat
  {
    if difficulty == "top-100" then 100 else 500
  }

  /** Cutting a sorted list keeps elements no larger than any it drops. */
  lemma SortedPrefixLowest(sorted: seq<Kanji>, n: nat)
    requires SortedByFreq(sorted)
    requires n <= |sorted|
    ensures forall x, y :: x in sorted[..n] && y in multiset(sorted) - multiset(sorted[..n]) ==> x.freq <= y.freq
  {
    var band, dropped := sorted[..n], sorted[n..];
    SuffixIsRemainder(sorted, n);
    forall x, y | x in band && y in multiset(sorted) - multiset(band) ensures x.freq <= y.freq {
      assert y in dropped;
      var i := IndexIn(band, x);
      var j := IndexIn(dropped, y);
      assert sorted[i] == x && sorted[n + j] == y;
    }
  }

  /**
   * The frequency band: the list sorted by `freq`, cut to the band's size.
   * Every kept kanji is at least as frequent as every dropped one.
   */
  function FrequencyBand(kanjis: seq<Kanji>, difficulty: string): (band: seq<Kanji>)
    ensures SortedByFreq(band)
    ensures |band| == Min(|kanjis|, FrequencyLimit(difficulty))
    ensures multiset(band) <= multiset(kanjis)
    ensures forall x, y :: x in band && y in multiset(kanjis) - multiset(band) ==> x.freq <= y.freq
  {
    var sorted := SortByFreq(kanjis);
    SortByFreqSortsAndPermutes(kanjis);
    var n := Min(|kanjis|, FrequencyLimit(difficulty));
    assert sorted == sorted[..n] + sorted[n..];
    assert multiset(sorted[..n]) <= multiset(sorted);
    SortedPrefixLowest(sorted, n);
    sorted[..n]
  }

  /** The list the session samples from: the frequency band in frequency mode, the whole list otherwise. */
  function CandidatePool(mode: string, difficulty: string, kanjis: seq<Kanji>): seq<Kanji>
  {
    if mode == "frequency" then FrequencyBand(kanjis, difficulty) else kanjis
  }

  // ---------------------------------------------------------------------------
  // Shuffle and truncation

  /**
   * A permutation of `pool` picked one element at a time: `choices` says which
   * of the elements left comes next (an index out of range picks the first).
   * It stands for the random shuffle; every permutation is reachable
   * (ShuffleReachesEveryPermutation).
   */
  function Shuffle<T>(pool: seq<T>, choices: seq<nat>): (r: seq<T>)
    ensures multiset(r) == multiset(pool)
    ensures |r| == |pool|
    decreases |pool|
  {
    if pool == [] then []
    else
      var k := if choices != [] && choices[0] < |pool| then choices[0] else 0;
      var left := pool[..k] + pool[k + 1..];
      assert pool == pool[..k] + [pool[k]] + pool[k + 1..];
      [pool[k]] + Shuffle(left, if choices == [] then [] else choices[1..])
  }

  /** A choice that is in range picks exactly that element. */
  lemma ShuffleStep<T>(pool: seq<T>, k: nat, rest: seq<nat>)
    requires k < |pool|
    ensures Shuffle(pool, [k] + rest) == [pool[k]] + Shuffle(pool[..k] + pool[k + 1..], rest)
  {
    var c := [k] + rest;
    assert c != [] && c[0] == k && c[1..] == rest;
  }

  /** After the first element is matched, the rest of `q` is a reordering of what is left of the pool. */
  lemma TailMultiset<T>(pool: seq<T>, q: seq<T>, k: nat)
    requires multiset(q) == multiset(pool)
    requires k < |pool| && 0 < |q| && pool[k] == q[0]
    ensures multiset(q[1..]) == multiset(pool[..k] + pool[k + 1..])
  {
    RemoveAtMultiset(pool, k);
    DropFirstMultiset(q);
  }

  /** Any reordering of the pool is what some choices produce. */
  lemma {:induction false} ShuffleReachesEveryPermutation<T>(pool: seq<T>, q: seq<T>) returns (choices: seq<nat>)
    requires multiset(q) == multiset(pool)
    ensures Shuffle(pool, choices) == q
    decreases |pool|
  {
    SameLength(q, pool);
    if |pool| == 0 {
      choices := [];
    } else {
      assert q[0] in multiset(pool) by { assert q[0] in q; }
      var k := IndexIn(pool, q[0]);
      TailMultiset(pool, q, k);
      var rest := ShuffleReachesEveryPermutation(pool[..k] + pool[k + 1..], q[1..]);
      choices := [k] + rest;
      ShuffleStep(pool, k, rest);
      HeadTail(q);
    }
  }

  /** `arr.slice(0, end)`'s length for an integer `end`: a negative end counts from the back. */
  function SliceEnd(len: nat, end: int): (e: nat)
    ensures e <= len
    ensures end >= 0 ==> e == Min(end, len)
    ensures end < 0 ==> e == if len + end < 0 then 0 else len + end
  {
    if end < 0 then (if len + end < 0 then 0 else len + end)
    else if end < len then end
    else len
  }

  ghost predicate PrefixOfPermutation(r: seq<Kanji>, pool: seq<Kanji>)
  {
    exists p: seq<Kanji> :: multiset(p) == multiset(pool) && |r| <= |p| && r == p[..|r|]
  }

  /** `pool.sort(() => Math.random() - 0.5).slice(0, count)` for the shuffle picked by `choices`. */
  function Sample(pool: seq<Kanji>, choices: seq<nat>, count: int): (r: seq<Kanji>)
    ensures |r| == SliceEnd(|pool|, count)
    ensures count >= 0 ==> |r| == Min(count, |pool|)
    ensures multiset(r) <= multiset(pool)
    ensures PrefixOfPermutation(r, pool)
  {
    var shuffled := Shuffle(pool, choices);
    var n := SliceEnd(|pool|, count);
    assert shuffled == shuffled[..n] + shuffled[n..];
    shuffled[..n]
  }

  ghost predicate DistinctCharacters(s: seq<Kanji>)
  {
    forall i, j :: 0 <= i < j < |s| ==> s[i].kanji != s[j].kanji
  }

  /** Removing one element keeps the rest free of repeats, and none of them repeats the removed one. */
  lemma RemoveAtKeepsDistinct(pool: seq<Kanji>, k: nat)
    requires DistinctCharacters(pool)
    requires k < |pool|
    ensures DistinctCharacters(pool[..k] + pool[k + 1..])
    ensures forall y :: y in multiset(pool[..k] + pool[k + 1..]) ==> y.kanji != pool[k].kanji
  {
    var left := pool[..k] + pool[k + 1..];
    forall a | 0 <= a < |left| ensures left[a] == pool[if a < k then a else a + 1] {
    }
    forall a, b | 0 <= a < b < |left| ensures left[a].kanji != left[b].kanji {
      assert left[a] == pool[if a < k then a else a + 1];
      assert left[b] == pool[if b < k then b else b + 1];
    }
    forall y | y in multiset(left) ensures y.kanji != pool[k].kanji {
      var a :| 0 <= a < |left| && left[a] == y;
      assert left[a] == pool[if a < k then a else a + 1];
    }
  }

  /** A head that no element of the tail repeats, on a tail without repeats. */
  lemma ConsKeepsDistinct(x: Kanji, tail: seq<Kanji>)
    requires DistinctCharacters(tail)
    requires forall y :: y in multiset(tail) ==> y.kanji != x.kanji
    ensures DistinctCharacters([x] + tail)
  {
    var r := [x] + tail;
    forall i, j | 0 <= i < j < |r| ensures r[i].kanji != r[j].kanji {
      assert r[j] == tail[j - 1];
      if i > 0 { assert r[i] == tail[i - 1]; }
      else { assert tail[j - 1] in multiset(tail); }
    }
  }

  lemma {:induction false} ShuffleKeepsDistinct(pool: seq<Kanji>, choices: seq<nat>)
    requires DistinctCharacters(pool)
    ensures DistinctCharacters(Shuffle(pool, choices))
    decreases |pool|
  {
    if pool != [] {
      var k := if choices != [] && choices[0] < |pool| then choices[0] else 0;
      var left := pool[..k] + pool[k + 1..];
      var rest := if choices == [] then [] else choices[1..];
      RemoveAtKeepsDistinct(pool, k);
      ShuffleKeepsDistinct(left, rest);
      var tail := Shuffle(left, rest);
      assert Shuffle(pool, choices) == [pool[k]] + tail;
      assert multiset(tail) == multiset(left);
      ConsKeepsDistinct(pool[k], tail);
    }
  }

  /** A pool without repeated characters gives a sample without repeated characters. */
  lemma SampleKeepsDistinct(pool: seq<Kanji>, choices: seq<nat>, count: int)
    requires DistinctCharacters(pool)
    ensures DistinctCharacters(Sample(pool, choices, count))
  {
    ShuffleKeepsDistinct(pool, choices);
  }

  // ---------------------------------------------------------------------------
  // fetchKanjiByMode

  /** `data?.kanjis || []`: an absent list reads as empty. */
  function KanjiArray(kanjis: Option<seq<Kanji>>): seq<Kanji>
  {
    match kanjis
    case Some(list) => list
    case None => []
  }

  /** The list an answered request carries; nothing otherwise. */
  function Payload(response: Response): seq<Kanji>
  {
    match response
    case Answered(_, kanjis) => KanjiArray(kanjis)
    case Unreachable(_) => []
  }

  /** The response to the request `fetchKanjiByMode` sends for a known mode. */
  function Requested(mode: string, difficulty: string, server: string -> Response): Response
    requires KnownMode(mode)
  {
    server(EndpointAsWritten(mode, difficulty).value)
  }

  /** `response.ok`: a status in 200..299. */
  predicate Ok(status: int) { 200 <= status <= 299 }

  /**
   * Everything up to the shuffle: endpoint (as written), request, status
   * check, the frequency filter and the empty check.
   */
  function FetchPool(mode: string, difficulty: string, server: string -> Response): (r: Result<seq<Kanji>, FetchError>)
    ensures r.Failure? && r.error.UnsupportedMode? <==> !KnownMode(mode)
    ensures !KnownMode(mode) ==> r == Failure(UnsupportedMode(mode))
    ensures KnownMode(mode) ==> var response := Requested(mode, difficulty, server);
      && (response.Unreachable? ==> r == Failure(RequestFailed(response.message)))
      && (response.Answered? && !Ok(response.status) ==> r == Failure(HttpError(response.status)))
      && (response.Answered? && Ok(response.status) && CandidatePool(mode, difficulty, KanjiArray(response.kanjis)) == [] ==> r == Failure(NoKanjiData))
      && (r.Success? ==> response.Answered? && Ok(response.status) && r.value == CandidatePool(mode, difficulty, KanjiArray(response.kanjis)))
    ensures r.Success? ==> r.value != []
    ensures r.Success? && mode == "frequency" ==> r.value == FrequencyBand(Payload(server(JouyouPath)), difficulty)
    ensures r.Success? && mode == "frequency" ==> SortedByFreq(r.value) && |r.value| <= FrequencyLimit(difficulty)
  {
    match EndpointAsWritten(mode, difficulty)
    case Failure(e) => Failure(e)
    case Success(path) =>
      match server(path)
      case Unreachable(message) => Failure(RequestFailed(message))
      case Answered(status, kanjis) =>
        if !Ok(status) then Failure(HttpError(status))
        else
          var pool := CandidatePool(mode, difficulty, KanjiArray(kanjis));
          if pool == [] then Failure(NoKanjiData) else Success(pool)
  }

  /** `fetchKanjiByMode(mode, difficulty, count)` with the server and the shuffle as inputs. */
  function FetchKanjiByMode(mode: string, difficulty: string, count: int, server: string -> Response, choices: seq<nat>): (r: Result<seq<Kanji>, FetchError>)
    ensures r.Failure? <==> FetchPool(mode, difficulty, server).Failure?
    ensures r.Failure? ==> r.error == FetchPool(mode, difficulty, server).error
    ensures r.Success? ==> var pool := FetchPool(mode, difficulty, server).value;
      && |r.value| == SliceEnd(|pool|, count)
      && (count >= 0 ==> |r.value| == Min(count, |pool|))
      && multiset(r.value) <= multiset(pool)
      && PrefixOfPermutation(r.value, pool)
  {
    match FetchPool(mode, difficulty, server)
    case Failure(e) => Failure(e)
    case Success(pool) => Success(Sample(pool, choices, count))
  }

  /** Outside frequency mode the pool is the fetched list itself, unfiltered. */
  lemma NoFilterOutsideFrequency(mode: string, difficulty: string, server: string -> Response)
    requires mode == "jouyou" || mode == "jlpt"
    requires Requested(mode, difficulty, server).Answered?
    requires Ok(Requested(mode, difficulty, server).status)
    requires KanjiArray(Requested(mode, difficulty, server).kanjis) != []
    ensures FetchPool(mode, difficulty, server) == Success(KanjiArray(Requested(mode, difficulty, server).kanjis))
  {
  }

  /** A successful fetch with a positive count never yields an empty list. */
  lemma FetchNonEmpty(mode: string, difficulty: string, count: int, server: string -> Response, choices: seq<nat>)
    requires count > 0
    requires FetchKanjiByMode(mode, difficulty, count, server, choices).Success?
    ensures FetchKanjiByMode(mode, difficulty, count, server, choices).value != []
  {
  }
}
