# QuoteStream page model

QuoteStream is a single client-side React page, `app/page.tsx`. It looks up a
fixed table of inspirational quotes by topic ("life", "love", "success") and
shows them with a numbered label and a copy button. This project models the
page's logic in Dafny and proves properties of the model:

- `AsciiText`: the two string methods the page calls, `toLowerCase` (the
  lookup key) and `trim` (the blank-topic guard), restricted to ASCII.
- `QuoteStore`: the quote table and the lookup `quotes[topic.toLowerCase()]`
  with its fallback message, and the lookup as written on a plain
  JavaScript object, which also finds inherited members (see Findings).
- `QuoteLabel`: the label `QT-` followed by the one-based position padded
  to three digits, with decimal printing and reading.
- `QuotePage`: the component as a class `Page` with its five state fields
  (`topic`, `results`, `isLoading`, `selectedCategory`, `copiedIndex`). It
  has one method per step a handler takes. A handler that waits on a timer
  or a promise is split into the step it takes at once and the step the
  timer takes later, and the later step is a method of its own. Ghost
  fields record which deferred steps are still owed: pending submits under
  tickets, category timers, and copy timers. A deferred step can only run
  after the step that scheduled it. `handleSubmit` reads `topic` from the
  closure of the render that created it. So the step that begins a submit
  takes the topic that closure saw, and the finishing step looks up that
  same snapshot.
- `PageScenarios`: short runs from a fresh page. They pin down the
  behaviours that follow from stale closures and unguarded timers. One of
  them, `OlderSubmitFinishesLast`, runs an order of deferred steps that the
  model allows but the page's equal waits never produce.

The model follows the code, including where it behaves in ways a user of
the page would not expect:

- The copy timer clears `copiedIndex` unconditionally (`app/page.tsx:61`).
  It does so even when a newer copy chose another index.
- Picking a category searches the topic from before the click
  (`app/page.tsx:52-55`), not the category's key. From the initial blank
  topic it searches nothing.
- `copiedIndex` is not kept within the bounds of `results`. A new submit
  empties the results and leaves the mark in place.
- `isLoading` becomes false when any submit finishes, even while another
  submit is still pending. The Enter key begins a submit even while the
  button is disabled.

## Model

| member | source | states |
|---|---|---|
| AsciiText.ToLower | app/page.tsx:47 | lowering keeps the length and lowers each character in place (ASCII letters only) |
| AsciiText.ToLowerHasNoUpper | app/page.tsx:47 | a lowered string has no upper-case letter |
| AsciiText.ToLowerOfLower | app/page.tsx:47 | lowering a string without upper-case letters returns it unchanged |
| AsciiText.ToLowerIdempotent | app/page.tsx:47 | lowering twice equals lowering once |
| AsciiText.TrimStart | app/page.tsx:39 | the result is a suffix of the input, every dropped character is white space, and the result does not start with white space |
| AsciiText.TrimEnd | app/page.tsx:39 | the result is a prefix of the input, every dropped character is white space, and the result does not end with white space |
| AsciiText.Trim | app/page.tsx:39 | the trimmed string is the part of the input between a blank prefix (exactly the white space `TrimStart` drops) and a blank suffix, and neither of its ends is white space |
| AsciiText.TrimEmptyIffBlank | app/page.tsx:39 | `trim()` gives the empty string exactly when every character is white space |
| AsciiText.NonSpaceIsNotBlank | app/page.tsx:39 | helper for the scenarios: one non-space character makes a topic non-blank |
| QuoteStore.Lookup | app/page.tsx:47-48 | the lookup of the table's own keys: it answers with the one-line fallback exactly when the lowered topic is not a key, and has 3 entries for a key and 1 otherwise |
| QuoteStore.LookupAnswers | app/page.tsx:47-48 | a lookup answers with one of the three lists or with the one-line fallback |
| QuoteStore.LookupMatchesIgnoringCase | app/page.tsx:7-48 | for each key, a topic gets exactly that key's three quotes, in order, if and only if it spells the key in any mix of cases |
| QuoteStore.UnknownTopicFallsBack | app/page.tsx:47-48 | a topic that spells no key in any case gets exactly the fallback message |
| QuoteStore.LookupIgnoresCase | app/page.tsx:47 | lowering the topic before the lookup changes nothing |
| QuoteStore.LookupDoesNotTrim | app/page.tsx:47-48 | a topic that starts or ends with white space always falls back, because the lookup does not trim |
| QuoteStore.LookupOfKey | app/page.tsx:7-23 | helper for the scenarios, a special case of `LookupMatchesIgnoringCase`: each key looked up verbatim finds its own quotes |
| QuoteStore.CategoriesHaveQuotes | app/page.tsx:25-29 | every category shortcut key is a key of the table with three quotes |
| QuoteStore.LookupCaseExamples | app/page.tsx:47-48 | "LIFE" finds the life quotes and "Success" finds the success quotes |
| QuoteStore.LookupFallbackExamples | app/page.tsx:47-48 | " life", "love " and "" fall back |
| QuoteStore.LookupAsWritten | app/page.tsx:47-48 | the lookup as written on a plain object: whenever it yields a list, that list is the table lookup's answer; otherwise it yields the inherited `Object.prototype` member named by the lowered topic |
| QuoteStore.AsWrittenDepartsOnlyOnInherited | app/page.tsx:47-48 | indexing the plain object differs from the table lookup exactly when the lowered topic is "constructor" or "__proto__" |
| QuoteStore.AsWrittenConstructorCounterexample | app/page.tsx:47-48 | as written, "Constructor" finds the inherited `constructor`, where the table lookup gives the fallback |
| QuoteLabel.DecimalString | app/page.tsx:190 | `String(n)` is one or more digits with no leading zero unless it is "0" |
| QuoteLabel.PadStart | app/page.tsx:190 | `padStart` keeps the string whole at the end, puts only pad characters before it, and reaches the width without ever truncating |
| QuoteLabel.QuoteId | app/page.tsx:190 | the label is "QT-" followed by at least three digits that end with the decimal of idx+1 |
| QuoteLabel.DecimalRoundTrip | app/page.tsx:190 | reading the decimal string of n gives back n |
| QuoteLabel.DecimalLength | app/page.tsx:190 | n has at most k digits exactly when n < 10^k |
| QuoteLabel.QuoteIdRoundTrip | app/page.tsx:190 | the digits after "QT-" read back as idx+1 |
| QuoteLabel.QuoteIdInjective | app/page.tsx:190 | different results never share a label |
| QuoteLabel.QuoteIdLength | app/page.tsx:190 | the label has length 6 exactly when idx+1 <= 999; otherwise it has 3 + the number of digits of idx+1 |
| QuoteLabel.QuoteIdExamples | app/page.tsx:190 | index 0 gives "QT-001", index 11 gives "QT-012", and index 999 gives "QT-1000" |
| QuotePage.Page.constructor | app/page.tsx:32-36 | the initial state: empty topic and results, not loading, no category, no copied index, nothing pending |
| QuotePage.Page.SearchDisabledIffTrimEmpty | app/page.tsx:114 | the search button is disabled exactly when loading or when the trimmed topic is empty |
| QuotePage.Page.EditTopic | app/page.tsx:106 | typing stores the text verbatim and changes nothing else |
| QuotePage.Page.BeginSubmit | app/page.tsx:38-45 | a blank captured topic changes no state; otherwise loading starts, results are emptied, and the captured topic is pending under a fresh ticket; topic, category and copy mark are untouched |
| QuotePage.Page.FinishSubmit | app/page.tsx:45-49 | results become the table lookup (`Lookup`) of the topic captured at the start of that submit, loading stops, and the submit is no longer pending |
| QuotePage.Page.ClickSearch | app/page.tsx:112-114 | a click, possible only while enabled, begins a submit of the current topic |
| QuotePage.Page.KeyPress | app/page.tsx:64-67 | Enter with a non-blank topic begins a submit of the current topic, with no regard for loading; any other key changes nothing |
| QuotePage.Page.SelectCategory | app/page.tsx:52-55 | topic and selected category become the key at once; the timer set up captures the previous topic |
| QuotePage.Page.FireCategoryTimer | app/page.tsx:55 | the deferred submit begins with the topic its closure saw, not the picked key |
| QuotePage.Page.CopyQuote | app/page.tsx:58-61 | the copy button exists only for a shown result (index within `results`); the copied index becomes that index and a clear timer is owed |
| QuotePage.Page.ClearCopied | app/page.tsx:61 | the copy timer clears the copied index whatever it holds |
| PageScenarios.CategoryOnFreshPage | app/page.tsx:52-55 | picking a category on a fresh page sets topic and selection but shows no results and does not load |
| PageScenarios.CategorySearchesPreviousTopic | app/page.tsx:52-55 | after typing "love" and picking "life", the page shows the love quotes under the topic "life" |
| PageScenarios.SubmitUsesTopicAtStart | app/page.tsx:38-49 | a submit finishes with the topic it began with, though the field was edited meanwhile |
| PageScenarios.SearchLoveFromStart | app/page.tsx:38-49 | a blank submit changes nothing; a "love" submit empties results and loads, then shows the love quotes and stops loading |
| PageScenarios.EnterWhileLoading | app/page.tsx:64-67 | Enter begins a second submit while the button is disabled by loading |
| PageScenarios.TwoPendingSubmits | app/page.tsx:64-67 | two Enter presses with different topics leave two distinct submits pending, each with its own captured topic |
| PageScenarios.OverlappingSubmits | app/page.tsx:47-49 | the first submit to finish stops loading and shows its answer while the other is still pending |
| PageScenarios.OlderSubmitFinishesLast | app/page.tsx:38-49 | in an order the model allows because it leaves scheduling open, an older submit finishing last overwrites the newer answer (life quotes under the topic "love"); the page never runs this order, since equal 600 ms waits make submits finish in the order they began, so there the later-begun submit's answer stays |
| PageScenarios.CopyTimerClearsNewerCopy | app/page.tsx:58-61 | after a search shows results, the first copy's timer clears the mark that a later copy set |
| PageScenarios.CopiedIndexOutlivesResults | app/page.tsx:58-61 | a new submit empties the results and leaves the copied mark on an index they no longer have |

## Left out

- JSX markup, CSS classes, icons, and the `capitalize` display of the topic. These are presentation only.
- The empty-state panel and the "Quote copied" banner. These are renders of the modelled state.
- The Share button. It has no handler.
- `navigator.clipboard.writeText`. It is a browser API and its result is ignored, so copying is modelled as a state update only.
- The durations of the timers and of the awaited promise (600, 100 and 2000 ms). A deferred step is a method the caller invokes in any order the ghost bookkeeping allows; no claim is made about which orders the scheduler produces. In particular the model does not capture that submits, which all wait the same 600 ms, finish in the order they began.
- React's batching and re-rendering, beyond the topic snapshot a stale closure sees.
- ToLower: lowers only 'A'..'Z', not the full Unicode mapping of `toLowerCase`.
- Trim: drops only the ASCII white-space characters (tab to carriage return and space), not all of Unicode white space and line terminators.
- Page.FinishSubmit: uses the table lookup `Lookup`, not the lookup as written. For a topic that lowers to "constructor", the source passes the function `Object` to `setResults`; React calls a function as an updater, `Object(previous)` returns the previous value, so `results` stays as it was (normally the empty list from the submit's start). For "__proto__" it stores `Object.prototype`, which is not a list. The page model shows the fallback for both; `LookupAsWritten` records only which inherited member is returned.
- DecimalString: is `String(n)` only for the integers JavaScript prints in plain decimal (below 10^21 and exact below 2^53). The page never comes near this, since a result index is below 3, but `QuoteIdLength` and `QuoteIdExamples` are stated for every index.

## Findings

| source | as written | input that shows it | evidently intended | confidence | as-written member | corrected member |
|---|---|---|---|---|---|---|
| app/page.tsx:47-48 | `quotes[topic.toLowerCase()]` indexes a plain object, so an inherited `Object.prototype` member is found and is truthy, replacing the fallback; `setResults(Object)` then runs `Object` as a state updater and keeps the previous results, and "__proto__" stores `Object.prototype` | the topic "constructor" or "Constructor" (also "__proto__") | only the table's own keys are found; every other topic gets the fallback message | not executed | QuoteStore.AsWrittenConstructorCounterexample | QuoteStore.UnknownTopicFallsBack |
