/** The page component: its five pieces of state and the handlers that change
    them. Each handler that waits on a timer is split into the step it takes
    at once and the step the timer takes later; the timer steps are methods
    of their own, called by whoever drives the model. */
module QuotePage {
  import opened AsciiText
  import opened QuoteStore

  datatype Option<T> = None | Some(value: T)

  class Page {
    var topic: string
    var results: seq<string>
    var isLoading: bool
    var selectedCategory: Option<string>
    var copiedIndex: Option<int>

    /** The submits that have begun and not yet finished, each under its own
        ticket, with the topic its closure captured. */
    ghost var pending: map<nat, string>
    /** How many tickets have been handed out. */
    ghost var issued: nat
    /** The topics captured by category timers that have not yet fired. */
    ghost var categoryTimers: multiset<string>
    /** How many copy timers have not yet fired. */
    ghost var copyTimers: nat
    /** The topic captured by the submit whose answer is shown, if any. */
    ghost var answered: Option<string>

    /** While loading, nothing is shown and some submit is still pending;
        whatever is shown is the whole lookup answer for a captured topic. */
    ghost predicate Valid()
      reads this
    {
      && (forall t :: t in pending ==> t < issued)
      && (isLoading ==> answered == None && pending != map[])
      && results == (if answered.Some? then Lookup(answered.value) else [])
    }

    /** The state React starts the component with. */
    constructor ()
      ensures Valid()
      ensures topic == "" && results == [] && !isLoading
      ensures selectedCategory == None && copiedIndex == None
      ensures pending == map[] && issued == 0 && answered == None
      ensures categoryTimers == multiset{} && copyTimers == 0
    {
      topic := "";
      results := [];
      isLoading := false;
      selectedCategory := None;
      copiedIndex := None;
      pending := map[];
      issued := 0;
      categoryTimers := multiset{};
      copyTimers := 0;
      answered := None;
    }

    /** The search button is disabled while loading or while the trimmed
        topic is empty. */
    predicate SearchDisabled()
      reads this
    {
      isLoading || IsBlank(topic)
    }

    /** The guard is `isLoading || !topic.trim()`: the trimmed topic is empty
        exactly when the topic is blank. */
    lemma SearchDisabledIffTrimEmpty()
      ensures SearchDisabled() <==> isLoading || Trim(topic) == []
    {
      TrimEmptyIffBlank(topic);
    }

    /** Typing in the topic field stores the text verbatim. */
    method EditTopic(text: string)
      requires Valid()
      modifies this`topic
      ensures Valid() && topic == text
    {
      topic := text;
    }

    /** The part of `handleSubmit` before its await, run by a handler whose
        closure saw `closureTopic`. A blank topic changes nothing; otherwise
        loading starts, the results are cleared and the captured topic is
        what the finishing step will search, under a fresh ticket. */
    method BeginSubmit(closureTopic: string) returns (snapshot: Option<string>, ghost ticket: nat)
      requires Valid()
      modifies this`results, this`isLoading, this`pending, this`issued, this`answered
      ensures Valid()
      ensures IsBlank(closureTopic) ==> snapshot == None
      ensures !IsBlank(closureTopic) ==> snapshot == Some(closureTopic)
      ensures snapshot == None ==>
        && results == old(results) && isLoading == old(isLoading) && answered == old(answered)
        && pending == old(pending) && issued == old(issued)
      ensures snapshot != None ==>
        && isLoading && results == [] && answered == None
        && ticket == old(issued) && issued == old(issued) + 1
        && pending == old(pending)[ticket := closureTopic]
    {
      if IsBlank(closureTopic) {
        return None, 0;
      }
      isLoading := true;
      results := [];
      answered := None;
      ticket := issued;
      pending := pending[ticket := closureTopic];
      assert ticket in pending;
      issued := issued + 1;
      snapshot := Some(closureTopic);
    }

    /** The part of `handleSubmit` after its await: the results become the
        lookup of the topic captured when that submit began, whatever the
        topic field holds now, and loading stops even if another submit is
        still pending. */
    method FinishSubmit(snapshot: string, ghost ticket: nat)
      requires Valid() && ticket in pending && pending[ticket] == snapshot
      modifies this`results, this`isLoading, this`pending, this`answered
      ensures Valid()
      ensures results == Lookup(snapshot) && !isLoading
      ensures pending == old(pending) - {ticket} && answered == Some(snapshot)
    {
      results := Lookup(snapshot);
      isLoading := false;
      pending := pending - {ticket};
      answered := Some(snapshot);
    }

    /** A click on the search button, which can only happen while it is enabled. */
    method ClickSearch() returns (snapshot: Option<string>, ghost ticket: nat)
      requires Valid() && !SearchDisabled()
      modifies this`results, this`isLoading, this`pending, this`issued, this`answered
      ensures Valid()
      ensures snapshot == Some(topic) && isLoading && results == [] && answered == None
      ensures ticket == old(issued) && issued == old(issued) + 1
      ensures pending == old(pending)[ticket := topic]
    {
      snapshot, ticket := BeginSubmit(topic);
    }

    /** A key press in the topic field: Enter submits the current topic with
        no regard for the button being disabled, so it may begin a second
        submit while one is loading; any other key changes nothing. */
    method KeyPress(key: string) returns (snapshot: Option<string>, ghost ticket: nat)
      requires Valid()
      modifies this`results, this`isLoading, this`pending, this`issued, this`answered
      ensures Valid()
      ensures snapshot == (if key == "Enter" && !IsBlank(topic) then Some(topic) else None)
      ensures snapshot == None ==>
        && results == old(results) && isLoading == old(isLoading) && answered == old(answered)
        && pending == old(pending) && issued == old(issued)
      ensures snapshot != None ==>
        && isLoading && results == [] && answered == None
        && ticket == old(issued) && issued == old(issued) + 1
        && pending == old(pending)[ticket := topic]
    {
      if key == "Enter" {
        snapshot, ticket := BeginSubmit(topic);
      } else {
        snapshot, ticket := None, 0;
      }
    }

    /** A click on a category: the topic and the selected category become the
        key at once, and a timer is set to call the `handleSubmit` of the
        render the click came from, which still sees the previous topic. That
        previous topic is returned. */
    method SelectCategory(key: string) returns (closureTopic: string)
      requires Valid()
      modifies this`topic, this`selectedCategory, this`categoryTimers
      ensures Valid()
      ensures topic == key && selectedCategory == Some(key)
      ensures closureTopic == old(topic)
      ensures categoryTimers == old(categoryTimers) + multiset{closureTopic}
    {
      closureTopic := topic;
      topic := key;
      selectedCategory := Some(key);
      categoryTimers := categoryTimers + multiset{closureTopic};
    }

    /** The category timer fires: a submit begins with the topic its closure
        saw, not the category just picked. */
    method FireCategoryTimer(closureTopic: string) returns (snapshot: Option<string>, ghost ticket: nat)
      requires Valid() && closureTopic in categoryTimers
      modifies this`results, this`isLoading, this`pending, this`issued, this`answered
      modifies this`categoryTimers
      ensures Valid()
      ensures categoryTimers == old(categoryTimers) - multiset{closureTopic}
      ensures IsBlank(closureTopic) ==> snapshot == None
      ensures !IsBlank(closureTopic) ==> snapshot == Some(closureTopic)
      ensures snapshot == None ==>
        && results == old(results) && isLoading == old(isLoading) && answered == old(answered)
        && pending == old(pending) && issued == old(issued)
      ensures snapshot != None ==>
        && isLoading && results == [] && answered == None
        && ticket == old(issued) && issued == old(issued) + 1
        && pending == old(pending)[ticket := closureTopic]
    {
      categoryTimers := categoryTimers - multiset{closureTopic};
      snapshot, ticket := BeginSubmit(closureTopic);
    }

    /** A click on a result's copy button marks that index as copied and sets
        a timer to clear the mark. A copy button is drawn only for a result
        that is shown, so the index is one of the results'. The clipboard
        write is not modelled. */
    method CopyQuote(text: string, index: int)
      requires Valid() && 0 <= index < |results|
      modifies this`copiedIndex, this`copyTimers
      ensures Valid()
      ensures copiedIndex == Some(index) && copyTimers == old(copyTimers) + 1
    {
      copiedIndex := Some(index);
      copyTimers := copyTimers + 1;
    }

    /** A copy timer fires and clears the mark, whichever index it now holds. */
    method ClearCopied()
      requires Valid() && copyTimers > 0
      modifies this`copiedIndex, this`copyTimers
      ensures Valid()
      ensures copiedIndex == None && copyTimers == old(copyTimers) - 1
    {
      copiedIndex := None;
      copyTimers := copyTimers - 1;
    }
  }
}
