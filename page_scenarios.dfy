/** Short runs of the page from its initial state, each ending in what the
    user would see. They pin down the behaviours that follow from the
    handlers' stale closures and unguarded timers. */
module PageScenarios {
  import opened AsciiText
  import opened QuoteStore
  import opened QuotePage

  /** A category picked on a fresh page changes the topic and the selection
      but shows nothing: the deferred submit sees the blank initial topic. */
  method CategoryOnFreshPage(key: string)
    returns (topic: string, selected: Option<string>, results: seq<string>, loading: bool)
    ensures topic == key && selected == Some(key)
    ensures results == [] && !loading
  {
    var page := new Page();
    var closureTopic := page.SelectCategory(key);
    var snapshot;
    ghost var ticket;
    snapshot, ticket := page.FireCategoryTimer(closureTopic);
    topic, selected, results, loading := page.topic, page.selectedCategory, page.results, page.isLoading;
  }

  /** After typing "love" and picking the "life" category, the page shows the
      love quotes under the topic "life". */
  method CategorySearchesPreviousTopic()
    returns (topic: string, selected: Option<string>, results: seq<string>)
    ensures topic == "life" && selected == Some("life")
    ensures results == LoveQuotes
  {
    var page := new Page();
    page.EditTopic("love");
    NonSpaceIsNotBlank("love", 0);
    var closureTopic := page.SelectCategory("life");
    var snapshot;
    ghost var ticket;
    snapshot, ticket := page.FireCategoryTimer(closureTopic);
    page.FinishSubmit("love", ticket);
    LookupOfKey("love");
    topic, selected, results := page.topic, page.selectedCategory, page.results;
  }

  /** A submit finishes with the topic it began with, even when the field
      was edited while it was loading. */
  method SubmitUsesTopicAtStart() returns (topic: string, results: seq<string>)
    ensures topic == "love" && results == LifeQuotes
  {
    var page := new Page();
    page.EditTopic("life");
    NonSpaceIsNotBlank("life", 0);
    var snapshot;
    ghost var ticket;
    snapshot, ticket := page.ClickSearch();
    page.EditTopic("love");
    page.FinishSubmit("life", ticket);
    LookupOfKey("life");
    topic, results := page.topic, page.results;
  }

  /** From the initial page: a blank submit changes nothing; after typing
      "love", a submit clears the results and starts loading, and when it
      finishes the love quotes are shown and loading has stopped. */
  method SearchLoveFromStart()
    returns (blankSubmit: Option<string>, loadingBefore: bool, resultsBefore: seq<string>,
             loadingDuring: bool, resultsDuring: seq<string>,
             loadingAfter: bool, resultsAfter: seq<string>)
    ensures blankSubmit == None && !loadingBefore && resultsBefore == []
    ensures loadingDuring && resultsDuring == []
    ensures !loadingAfter && resultsAfter == LoveQuotes
  {
    var page := new Page();
    ghost var ticket;
    blankSubmit, ticket := page.KeyPress("Enter");
    loadingBefore, resultsBefore := page.isLoading, page.results;
    page.EditTopic("love");
    NonSpaceIsNotBlank("love", 0);
    var snapshot;
    snapshot, ticket := page.KeyPress("Enter");
    loadingDuring, resultsDuring := page.isLoading, page.results;
    page.FinishSubmit("love", ticket);
    LookupOfKey("love");
    loadingAfter, resultsAfter := page.isLoading, page.results;
  }

  /** Enter begins a second submit while the first is loading, though the
      search button is disabled at that moment. */
  method EnterWhileLoading() returns (disabled: bool, second: Option<string>, loading: bool)
    ensures disabled && second == Some("life") && loading
  {
    var page := new Page();
    page.EditTopic("life");
    NonSpaceIsNotBlank("life", 0);
    var first;
    ghost var firstTicket, secondTicket;
    first, firstTicket := page.KeyPress("Enter");
    disabled := page.SearchDisabled();
    second, secondTicket := page.KeyPress("Enter");
    loading := page.isLoading;
  }

  /** Types "life" and presses Enter, then types "love" and presses Enter
      again: two submits are pending at once. */
  method TwoPendingSubmits() returns (page: Page, ghost first: nat, ghost second: nat)
    ensures fresh(page) && page.Valid()
    ensures page.topic == "love" && page.isLoading
    ensures first in page.pending && page.pending[first] == "life"
    ensures second in page.pending && page.pending[second] == "love"
    ensures first != second
  {
    page := new Page();
    page.EditTopic("life");
    NonSpaceIsNotBlank("life", 0);
    var snapshot;
    snapshot, first := page.KeyPress("Enter");
    page.EditTopic("love");
    NonSpaceIsNotBlank("love", 0);
    snapshot, second := page.KeyPress("Enter");
  }

  /** Two overlapping submits: the first to finish stops loading and shows
      its answer although the other is still pending. */
  method OverlappingSubmits() returns (loadingBetween: bool, resultsBetween: seq<string>)
    ensures !loadingBetween && resultsBetween == LifeQuotes
  {
    var page;
    ghost var first, second;
    page, first, second := TwoPendingSubmits();
    page.FinishSubmit("life", first);
    // loading has stopped, yet the "love" submit is still pending
    assert second in page.pending;
    loadingBetween, resultsBetween := page.isLoading, page.results;
    LookupOfKey("life");
  }

  /** The model leaves the order of deferred steps open, and in it an older
      submit that finishes after a newer one replaces the newer answer: the
      life quotes end up under the topic "love". The page itself never runs
      this order, since every submit waits the same 600 ms and so submits
      finish in the order they began. */
  method OlderSubmitFinishesLast() returns (topic: string, results: seq<string>)
    ensures topic == "love" && results == LifeQuotes
  {
    var page;
    ghost var first, second;
    page, first, second := TwoPendingSubmits();
    page.FinishSubmit("love", second);
    page.FinishSubmit("life", first);
    LookupOfKey("life");
    topic, results := page.topic, page.results;
  }

  /** The first copy's timer clears the mark set by a later copy. */
  method CopyTimerClearsNewerCopy() returns (afterSecondCopy: Option<int>, afterFirstTimer: Option<int>)
    ensures afterSecondCopy == Some(1)
    ensures afterFirstTimer == None
  {
    var page := new Page();
    page.EditTopic("love");
    NonSpaceIsNotBlank("love", 0);
    var snapshot;
    ghost var ticket;
    snapshot, ticket := page.ClickSearch();
    page.FinishSubmit("love", ticket);
    LookupOfKey("love");
    page.CopyQuote(LoveQuotes[0], 0);
    page.CopyQuote(LoveQuotes[1], 1);
    afterSecondCopy := page.copiedIndex;
    page.ClearCopied();
    afterFirstTimer := page.copiedIndex;
  }

  /** The copied mark is not tied to the results: a new submit empties the
      results and leaves the mark on an index they no longer have. */
  method CopiedIndexOutlivesResults() returns (copied: Option<int>, results: seq<string>)
    ensures copied == Some(2) && results == []
  {
    var page := new Page();
    page.EditTopic("life");
    NonSpaceIsNotBlank("life", 0);
    var first, second;
    ghost var firstTicket, secondTicket;
    first, firstTicket := page.ClickSearch();
    page.FinishSubmit("life", firstTicket);
    LookupOfKey("life");
    page.CopyQuote(LifeQuotes[2], 2);
    second, secondTicket := page.ClickSearch();
    copied, results := page.copiedIndex, page.results;
  }
}
