# Kanji review: a verified model of the session logic

The app is a React Native flash-card trainer for kanji. The user picks a
mode and a difficulty. The app fetches a list of kanji from a lookup
service and shows the cards one at a time. At the end it shows a
percentage score and the reviewed cards, and "Review Again" starts a new
session with the same settings. This project models the logic
underneath that UI, in Dafny, and proves what it promises:

- **`fetchKanjiByMode`** (module `KanjiApi`, with the sort in
  `FreqSort`):
  - maps (mode, difficulty) to an endpoint path, or to an "Unsupported
    mode" error;
  - requests the path from an abstract server;
  - checks the HTTP status;
  - treats a missing `kanjis` list as empty;
  - in frequency mode, sorts by `freq` and keeps the first 100 or 500;
  - rejects an empty result;
  - shuffles and cuts the list to `count`.

  The result of the stable `Array.prototype.sort` is specified by an
  insertion sort on sequences. That sort is proved ascending, a
  permutation and stable: kanji of equal `freq` keep their input order.
  An in-place insertion sort on an `array` is proved to leave exactly
  that result. The library's own algorithm is not modelled.
- **The review screen's state** (module `KanjiReview`): class
  `ReviewSession` has the screen's hooks as fields (`currentIndex`,
  `kanjiList`, `loading`, `error`, `answers`) and one method per
  handler. Loading has two steps: a synchronous start and the completion
  after the fetch settles. `HandleFinish` builds the parameters passed to
  the results screen. `View` says which screen is rendered: the error,
  the spinner, or a card with its details and its button.
- **The results screen** (module `Results`):
  - the rounded percentage;
  - reading `reviewedKanji` back, with its fallback to an empty list;
  - the detail lines of a selected card;
  - the parameters of "Review Again".
- **Support modules**:
  - `Text`: the JavaScript string operations the code relies on
    (`split`, ASCII `toUpperCase`, `replace` of a first occurrence,
    `join`, integer `toString` and `Number`).
  - `JsonText`: `JSON.stringify` and `JSON.parse` for the values a
    reviewed-card list contains, with `Parse(Stringify(v)) == Some(v)`.
  - `KanjiRecords`: the `KanjiData` record, its JSON form, and the reads
    the results screen makes of it.
  - `Seqs`: small sequence facts.
  - `Wrappers`: `Option` and `Result`.

How the model treats its inputs:
- **Network.** The network is the parameter `server: string -> Response`.
  Given an endpoint path, it returns either a failure (`fetch` or
  `response.json()` rejected) or a status and an optional `kanjis` list.
- **Shuffle.** The random shuffle is the parameter `choices: seq<nat>`.
  It picks the next element among those left. Every permutation is
  reachable (`KanjiApi.ShuffleReachesEveryPermutation`), so the model
  says nothing about the random comparator.
- **Numbers.** `freq`, `correct`, `total` and `count` are integers.

The code and the intended behaviour differ in two places. See
"## Findings". The fetch pipeline (`FetchPool`, `FetchKanjiByMode`,
`ReviewSession.CompleteLoad`) requests the endpoint as written, so
`secondary` reads `/api/list/jouyou/undefined` there. The corrected switch
`Endpoint` is proved beside it, and it agrees with the code for every
offered token except `secondary`. The results screen reads the payload as
the `KanjiData` shape it really has, not as the declared `KanjiDetails`.

## Model

| member | source | states |
|---|---|---|
| KanjiApi.EndpointAsWritten | app/services/kanjiApi.ts:26-44 | The endpoint switch as written: it fails exactly for a mode other than jouyou, jlpt and frequency, and the error is `Unsupported mode: <mode>`. |
| KanjiApi.Endpoint | app/services/kanjiApi.ts:26-44 | The corrected switch. It fails exactly for an unknown mode, with the same error, and agrees with the as-written switch for every mode other than jouyou. |
| KanjiApi.GradeSegmentsAgree | app/services/kanjiApi.ts:28 | For every token containing `-`, the corrected and the as-written grade segments and jouyou endpoints are equal. |
| KanjiApi.GradeSegmentAfterDash | app/services/kanjiApi.ts:28 | `difficulty.split("-")[1]` is the text between the first `-` and the next `-` (or the end). |
| KanjiApi.JouyouEndpointAfterDash | app/services/kanjiApi.ts:27-29 | For `p-q` with no `-` in `p`, jouyou requests `/api/list/jouyou/` plus the first `-`-field of `q`, which is `q` itself when `q` has no `-` (so `grade-3` gives `3`). |
| KanjiApi.JouyouEndpointNoDash | app/services/kanjiApi.ts:27-29 | A jouyou token without `-` gives `/api/list/jouyou/undefined` as written, and the token itself as the corrected segment. |
| KanjiApi.SecondaryEndpoint | app/services/kanjiApi.ts:28-29 | `secondary` requests `/api/list/jouyou/undefined` as written, and `/api/list/jouyou/secondary` when corrected. |
| KanjiApi.JlptLevelTwoChars | app/services/kanjiApi.ts:33-36 | For a token `n`/`N` followed by a digit, the level is `4` when the digit is 5, and the digit itself otherwise. |
| KanjiApi.JlptEndpointTwoChars | app/services/kanjiApi.ts:31-37 | The JLPT endpoint of such a token is `/api/list/jlpt/` plus that level. |
| KanjiApi.FrequencyEndpoint | app/services/kanjiApi.ts:39-40 | Frequency mode requests `/api/list/jouyou/` whatever the difficulty. |
| KanjiApi.OfferedTokensResolve | app/screens/KanjiSelectionScreen.tsx:12-33 | Every token the selection table offers is in a known mode and resolves under both switches, and the two agree on every token but `secondary`. As written, `n5` goes to level 4, `nX` to level X, `grade-N` to segment N and `secondary` to `undefined`. |
| KanjiApi.SortedPrefixLowest | app/services/kanjiApi.ts:67-69 | Cutting a list sorted by `freq` keeps elements whose `freq` is no larger than that of any element dropped. |
| KanjiApi.FrequencyBand | app/services/kanjiApi.ts:66-69 | The frequency band satisfies all of the following: it is sorted ascending by `freq`; its length is `min(\|list\|, 100)` for `top-100` and `min(\|list\|, 500)` for any other token; it is a sub-multiset of the fetched list; no kept kanji has a larger `freq` than a dropped one. |
| KanjiApi.Shuffle | app/services/kanjiApi.ts:77 | The shuffle returns a reordering of its input (same multiset, same length). |
| KanjiApi.ShuffleReachesEveryPermutation | app/services/kanjiApi.ts:77 | Every reordering of the pool is the shuffle for some choices, so the shuffle stands for an arbitrary permutation. |
| KanjiApi.SliceEnd | app/services/kanjiApi.ts:78 | `slice(0, count)` keeps `min(count, len)` elements for `count >= 0`. A negative count counts from the back, down to 0. |
| KanjiApi.Sample | app/services/kanjiApi.ts:76-78 | The shuffled and cut list has `slice`'s length (`min(count, \|pool\|)` for `count >= 0`). It is a sub-multiset of the pool and a prefix of a permutation of the pool. |
| KanjiApi.ShuffleKeepsDistinct | app/services/kanjiApi.ts:77 | A pool without repeated characters shuffles to a list without repeated characters. |
| KanjiApi.SampleKeepsDistinct | app/services/kanjiApi.ts:76-78 | The returned cards repeat no character when the pool repeats none: no element is taken twice. |
| KanjiApi.FetchPool | app/services/kanjiApi.ts:26-74 | For an unknown mode, the result is `UnsupportedMode(mode)` and no request is made. For a known mode, the request goes to the endpoint as written, and the outcome depends on the response. An unreachable server gives `RequestFailed` with its message. A status outside 200..299 gives `HttpError(status)`. An ok status whose candidate list is empty gives `NoKanjiData`. Otherwise the result is that candidate list, never empty. In frequency mode the list is the frequency band of the response: sorted, within the limit, and holding the lowest `freq`. |
| KanjiApi.FetchKanjiByMode | app/services/kanjiApi.ts:19-85 | It fails exactly when the pool fails, with the same error. On success it returns `slice`'s number of cards, all from the pool and none repeated: a prefix of a permutation of the pool. |
| KanjiApi.NoFilterOutsideFrequency | app/services/kanjiApi.ts:65-70 | In jouyou and jlpt modes, an ok, non-empty response is sampled whole: no filter applies. |
| KanjiApi.FetchNonEmpty | app/services/kanjiApi.ts:72-78 | A successful fetch with a positive count returns at least one card. |
| FreqSort.InsertByFreqSorted | app/services/kanjiApi.ts:68 | Inserting into a list sorted by `freq` keeps it sorted. |
| FreqSort.InsertByFreqMultiset | app/services/kanjiApi.ts:68 | Inserting adds exactly the new element. |
| FreqSort.SortByFreqSortsAndPermutes | app/services/kanjiApi.ts:68 | The `freq` sort's result is ascending by `freq` and a permutation of its input. |
| FreqSort.InsertByFreqStable | app/services/kanjiApi.ts:68 | The insertion step puts the new element after every element of the same `freq`, and the other elements keep their order. |
| FreqSort.SortByFreqStable | app/services/kanjiApi.ts:68 | The sort is stable: for every `freq` value, the kanji with that `freq` come out in their input order. |
| FreqSort.InsertByFreqAt | app/services/kanjiApi.ts:68 | The insertion step places `x` right after the elements up to the first position where every element after is larger. |
| FreqSort.InsertInPlace | app/services/kanjiApi.ts:68 | On the array, moving `a[i]` down past the larger elements before it returns a position `j`. `a[..i+1]` becomes the old prefix with `a[i]` inserted at `j`, and the rest of the array is unchanged. |
| FreqSort.SortByFreqInPlace | app/services/kanjiApi.ts:68 | Sorting the array in place leaves exactly the stable sort of its old contents. |
| KanjiRecords.DecodeReviewedJson | app/services/kanjiApi.ts:3-17 | Reading the keys of the `KanjiData` shape (plus `isCorrect`) from an encoded card gives back the card, every field included. |
| KanjiRecords.DecodeReviewedListJson | app/screens/ResultsScreen.tsx:35 | Decoding the JSON form of a reviewed list gives back every card and flag, in order. |
| JsonText.ParseStringify | app/screens/KanjiReviewScreen.tsx:81 | `JSON.parse(JSON.stringify(v))` gives `v` back, for every value of the restricted JSON model. |
| Text.Split | app/services/kanjiApi.ts:28 | `split` returns at least one field, no field contains the separator, and joining the fields with the separator gives back the input. |
| Text.RemoveFirst | app/services/kanjiApi.ts:36 | `replace("N", "")` leaves a string without `N` unchanged. Otherwise it deletes the first `N` and keeps everything else in order: the text before that `N`, which has no `N`, then the text after it. |
| Text.NumberValue | app/screens/KanjiReviewScreen.tsx:37 | `Number` of the empty string is 0, and of a digit string is its decimal value. |
| Text.NumberOfNatText | app/screens/KanjiReviewScreen.tsx:79-80 | `Number(n.toString()) == n` for every natural number. |
| Text.NumberOfIntText | app/screens/KanjiReviewScreen.tsx:37 | `Number(n.toString()) == n` for every integer, negative ones included. |
| KanjiReview.CountArgument | app/screens/KanjiReviewScreen.tsx:37 | `Number(params.count)` as the cut length. The empty text gives 0, and a digit string gives its decimal value. The text of any integer `k` gives `k` back. Text with a character other than a digit or `-` gives 0, which is how `slice` reads NaN. |
| KanjiReview.CorrectCount | app/screens/KanjiReviewScreen.tsx:79 | The correct count is at most the number of answers. It is 0 exactly when no answer is correct, and the total exactly when every answer is. |
| KanjiReview.ReviewedList | app/screens/KanjiReviewScreen.tsx:69-72 | `reviewedKanji` has the cards' length and order. Each record carries its card and `isCorrect = answers[i].isCorrect`, or false when the slot is absent. |
| KanjiReview.ReviewedListCountsCorrect | app/screens/KanjiReviewScreen.tsx:69-79 | With one answer per card, the records marked correct number exactly the `correct` parameter. |
| KanjiReview.DetailLines | app/screens/KanjiReviewScreen.tsx:127-143 | A revealed card shows four lines. The first three are the On readings, the Kun readings and the meanings. Each shows its fallback (`On: None`, `Kun: None`, `No meanings available`) for an empty list, and the join for a list that joins to text. The fourth line is `Stroke count: ` with the stroke count. |
| KanjiReview.ReviewSession.constructor | app/screens/KanjiReviewScreen.tsx:19-24 | The first render: index 0, no cards, no answers, loading, no error. |
| KanjiReview.ReviewSession.BeginLoad | app/screens/KanjiReviewScreen.tsx:30-32 | The start of `loadKanji` turns `loading` on and clears the error. Cards, answers and index are unchanged. |
| KanjiReview.ReviewSession.CompleteLoad | app/screens/KanjiReviewScreen.tsx:33-51 | A non-empty fetch result sets the list and one unrevealed, incorrect answer per card. A failure or an empty list sets the error (the thrown message or `No kanji data received`) and leaves the list and answers untouched. `loading` ends off either way, and the invariant holds. |
| KanjiReview.ReviewSession.HandleAnswer | app/screens/KanjiReviewScreen.tsx:54-60 | Replaces the current slot with `{isCorrect, revealed: true}`. Every other slot, the length, the index and the cards are unchanged. |
| KanjiReview.ReviewSession.HandleNext | app/screens/KanjiReviewScreen.tsx:62-66 | The index advances by one exactly when it is below the last card, and never otherwise, so it stays in `[0, length-1]`. Nothing else changes. |
| KanjiReview.ReviewSession.HandleFinish | app/screens/KanjiReviewScreen.tsx:68-84 | The finish parameters keep mode and difficulty. `correct` reads back as the number of correct answers and `total` as the number of answers, with `correct <= total`. `reviewedKanji` parses and decodes back to the cards with their flags. |
| KanjiReview.ReviewSession.View | app/screens/KanjiReviewScreen.tsx:86-186 | A non-empty error shows the error screen. Otherwise loading, or no cards, shows the spinner. Otherwise the current card is shown with details exactly when it is revealed: answer buttons when unrevealed, Finish when revealed at the last index, Next when revealed before it. |
| KanjiReview.FinishAfterEveryCard | app/screens/KanjiReviewScreen.tsx:173-181 | When Finish is offered in a session that answered each card before moving on, every card has been answered. |
| Results.Score | app/screens/ResultsScreen.tsx:27-29 | The score `r` is the rounding of `100·correct/total` with halves up: `2·t·r <= 200·c + t < 2·t·(r+1)`. |
| Results.ScoreInRange | app/screens/ResultsScreen.tsx:27-29 | With `0 <= correct <= total` and `total > 0` the score lies in `[0, 100]`. |
| Results.ScoreFull | app/screens/ResultsScreen.tsx:27-29 | The score is 100 exactly when `200·(total − correct) <= total`. |
| Results.ScoreZero | app/screens/ResultsScreen.tsx:27-29 | The score is 0 exactly when `200·correct < total`. |
| Results.ScoreFullMeansAllCorrect | app/screens/ResultsScreen.tsx:27-29 | With fewer than 200 cards, 100 means every answer was correct, and conversely. |
| Results.ScoreZeroMeansNoneCorrect | app/screens/ResultsScreen.tsx:27-29 | With at most 200 cards, 0 means no answer was correct, and conversely. |
| Results.ScoreRoundsToExtremes | app/screens/ResultsScreen.tsx:27-29 | Beyond those sizes rounding hides a miss or a hit: 199 of 200 shows 100, and 1 of 201 shows 0. |
| Results.ScoreExactHalf | app/screens/ResultsScreen.tsx:27-29 | 23 of 40 is exactly 57.5 percent, and the model rounds it up to 58. |
| Results.ParamsScore | app/screens/ResultsScreen.tsx:27-29 | The score from the text parameters lies in `[0, 100]` whenever the numbers satisfy `0 <= correct <= total`. |
| Results.ParseReviewedKanji | app/screens/ResultsScreen.tsx:33-40 | A missing or empty parameter gives `[]`. A payload that does not parse gives `[]` instead of an error. A payload that parses gives its value. |
| Results.EmptyListText | app/screens/ResultsScreen.tsx:35 | The fallback text `"[]"` parses as the empty list. |
| Results.FinishedSessionReachesResults | app/screens/ResultsScreen.tsx:33-40 | What the review screen sends is received as its cards, flags included, in review order. |
| Results.ListLineOfStrings | app/screens/ResultsScreen.tsx:133-141 | A line over an encoded list of strings shows the join, or the fallback when the join is empty. |
| Results.ModalMeaningsMatchCard | app/screens/ResultsScreen.tsx:138-141 | On an encoded card, the modal's meanings line is the one the review screen showed. |
| Results.ReadingsOfCard | app/screens/ResultsScreen.tsx:132-137 | An encoded card's `readings.ja_on` and `readings.ja_kun` read back as its lists. |
| Results.ModalReadingsMatchCard | app/screens/ResultsScreen.tsx:132-137 | On an encoded card, the modal's On and Kun lines are the ones the review screen showed. |
| Results.DeclaredShapeRejectsPayload | app/screens/ResultsScreen.tsx:14-23 | No record the review screen sends has the declared `KanjiDetails` shape, because its `meanings` is an object. |
| Results.DeclaredShapeHidesMeanings | app/screens/ResultsScreen.tsx:139-140 | A record that did have the declared shape would always show `No meanings available`. |
| Results.DeclaredShapeHidesWater | app/screens/ResultsScreen.tsx:139-140 | A concrete case: a declared-shape record with meanings `["water"]` shows `No meanings available`. |
| Results.ReviewAgain | app/screens/ResultsScreen.tsx:42-51 | "Review Again" passes mode and difficulty through unchanged, and its count reads as the received total. |
| Results.FinishToResults | app/screens/ResultsScreen.tsx:42-51 | After a finished session the score lies in `[0, 100]`. "Review Again" requests the same mode and difficulty, and as many cards as the session had. |

## Left out

- The network. `fetch`, `response.ok` and `response.json()` are the
  abstract `server`, and `BASE_URL` is not modelled. A body that is not
  JSON is a `RequestFailed` response, like a rejected request.
- `Math.random()` and the comparator shuffle. The bias of a random
  comparator is not stated. The shuffle is an arbitrary permutation
  chosen by `choices`.
- Floating point. `Number(...)`, the division and `Math.round` are exact
  integer arithmetic. `Results.Score` is exact rounding, which can differ
  from the screen where the exact quotient is a half.
  - An example within the app's counts: `23/40*100` evaluates in IEEE
    doubles to 57.49999999999999. `Math.round` gives 57, while the exact
    model gives 58 (`Results.ScoreExactHalf`).
  - A fractional or infinite `count` is outside `Text.NumberValue`.
  - Any non-numeral reads as 0, as NaN does in `slice`.
- `Text.NumberValue`: covers the empty string, digits, and a minus sign
  with digits. It ignores leading and trailing whitespace, fractions,
  exponents, hexadecimal and `Infinity`. For such text it returns None,
  where JavaScript gives a number.
- `Text.ToUpper`: only ASCII letters are mapped. Unicode case mapping,
  such as of full-width letters, is not modelled.
- `freq` is declared `string`. The model keeps `Number(freq)` as an
  integer field. The text itself is not kept, and a non-numeric `freq`
  (NaN in the comparator) is not modelled.
- Extra keys in the service's records. The model's kanji carries exactly
  the declared fields, so a record is sent with exactly those keys.
- JSON: numbers are integers only, and a `\u` escape naming a UTF-16
  surrogate is rejected by the parser. A general JSON value is outside the
  model; only shapes whose round trip is proved are covered.
- `KanjiReview.ReviewSession.HandleAnswer`: requires a non-empty card
  list. Its buttons are rendered only on a card. On an empty list the
  JavaScript assignment would grow `answers` to length 1, and that is not
  modelled.
- `Results.ListLine`: gives None (outside the model) for a list holding
  non-strings, and for any value other than an array, absent or `null`.
  JavaScript would call `join` on it or throw.
- `Results.MeaningsLine`: gives None where the property read throws
  (`meanings` absent or `null`). The UI's crash is not modelled.
- React hooks, `useEffect` scheduling, async/await and stale responses.
  The code has no guard against these, so the model has none. A load is
  the two steps `BeginLoad` and `CompleteLoad`.
- Rendering beyond which screen, texts and button are shown, and styles.
  Also left out: the `Portal`/`Modal`, the selected-card state of the
  results screen, navigation (`router.push`), and `console` output.
- `Results.ReviewAgain`: the results screen's "Return Home" button,
  `WelcomeScreen`, `_layout` and the selection screen's sliders are pure
  UI. Only the difficulty table is used, as the set of offered tokens.

## Findings

| source | as written | input that shows it | evidently intended | confidence | as-written member | corrected member |
|---|---|---|---|---|---|---|
| app/services/kanjiApi.ts:28-29 | The jouyou segment is `difficulty.split("-")[1]`. For the offered token `secondary` this is `undefined`, and the template renders it as text. | mode `jouyou`, difficulty `secondary` requests `/api/list/jouyou/undefined` | A request for the secondary-school list. The corrected segment passes a token without `-` through, requesting `/api/list/jouyou/secondary`. The service's actual path for that list is not part of this model. | not executed | KanjiApi.EndpointAsWritten (shown by KanjiApi.SecondaryEndpoint and KanjiApi.JouyouEndpointNoDash) | KanjiApi.Endpoint (KanjiApi.GradeSegmentsAgree, KanjiApi.OfferedTokensResolve) |
| app/screens/ResultsScreen.tsx:14-23 | `KanjiDetails` declares `meanings: string[]`, but the modal reads `meanings.en` (line 139). The screen works only because the payload really has the `KanjiData` shape. A record of the declared shape would show `No meanings available`. | any card sent by the review screen, e.g. one with meanings `["water"]`: its `meanings` is `{"en": ["water"]}`, not a list | `meanings: { en: string[] }`, as in `KanjiData` | not executed | Results.DecodeDetailsAsDeclared (shown by Results.DeclaredShapeRejectsPayload and Results.DeclaredShapeHidesWater) | KanjiRecords.DecodeReviewed (Results.ModalMeaningsMatchCard, KanjiRecords.DecodeReviewedJson) |
