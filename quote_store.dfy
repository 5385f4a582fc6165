/** The page's fixed table of quotes and the lookup behind a search. */
module QuoteStore {
  import opened AsciiText

  const FallbackMessage: string :=
    "No quotes found for this topic. Try 'life', 'love', or 'success'."

  const LifeQuotes: seq<string> := [
    "Life is what happens when you're busy making other plans.",
    "Live in the sunshine, swim in the sea, drink the wild air.",
    "Life itself is the most wonderful fairy tale."
  ]

  const LoveQuotes: seq<string> := [
    "Love is composed of a single soul inhabiting two bodies.",
    "To love and be loved is to feel the sun from both sides.",
    "The best thing to hold onto in life is each other."
  ]

  const SuccessQuotes: seq<string> := [
    "Success is not final, failure is not fatal.",
    "The road to success and the road to failure are almost exactly the same.",
    "Don't be afraid to give up the good to go for the great."
  ]

  /** The table's own entries: three lower-case keys, three quotes each. */
  const Quotes: map<string, seq<string>> :=
    map["life" := LifeQuotes, "love" := LoveQuotes, "success" := SuccessQuotes]

  /** The keys of the three category shortcuts, in the order they are shown. */
  const CategoryKeys: seq<string> := ["life", "love", "success"]

  /** `quotes[topic.toLowerCase()] || [fallback]`, reading only the table's own
      entries: the topic is lowered but not trimmed. */
  function Lookup(topic: string): (r: seq<string>)
    ensures r == [FallbackMessage] <==> ToLower(topic) !in Quotes
    ensures |r| == if ToLower(topic) in Quotes then 3 else 1
  {
    var key := ToLower(topic);
    if key in Quotes then Quotes[key] else [FallbackMessage]
  }

  /** The lists a lookup can answer with. */
  predicate IsLookupAnswer(r: seq<string>) {
    r == LifeQuotes || r == LoveQuotes || r == SuccessQuotes || r == [FallbackMessage]
  }

  /** `topic` equals `key` once each of its characters is lowered. */
  predicate MatchesIgnoringCase(topic: string, key: string) {
    |topic| == |key| && forall i :: 0 <= i < |topic| ==> LowerChar(topic[i]) == key[i]
  }

  /** Every lookup answers with one of the table's lists or with the fallback. */
  lemma LookupAnswers(topic: string)
    ensures IsLookupAnswer(Lookup(topic))
  {
  }

  /** A topic gets the quotes listed under `key`, in their order, exactly when
      it spells `key` in any mix of cases: "LIFE" and "life" alike. */
  lemma {:induction false} LookupMatchesIgnoringCase(topic: string, key: string)
    requires key in Quotes
    ensures Lookup(topic) == Quotes[key] <==> MatchesIgnoringCase(topic, key)
  {
    if MatchesIgnoringCase(topic, key) {
      assert ToLower(topic) == key;
    }
  }

  /** A topic that spells no key in any case gets exactly the one-line fallback. */
  lemma {:induction false} UnknownTopicFallsBack(topic: string)
    requires forall key :: key in Quotes ==> !MatchesIgnoringCase(topic, key)
    ensures Lookup(topic) == [FallbackMessage]
  {
    var key := ToLower(topic);
    if key in Quotes {
      assert MatchesIgnoringCase(topic, key);
    }
  }

  /** Lowering the topic first changes nothing. */
  lemma LookupIgnoresCase(topic: string)
    ensures Lookup(ToLower(topic)) == Lookup(topic)
  {
    ToLowerIdempotent(topic);
  }

  /** White space around a topic is not trimmed, so a topic that starts or
      ends with white space always falls back: " life" finds nothing. */
  lemma LookupDoesNotTrim(topic: string)
    requires topic != [] && (IsSpace(topic[0]) || IsSpace(topic[|topic| - 1]))
    ensures Lookup(topic) == [FallbackMessage]
  {
    var key := ToLower(topic);
    assert IsSpace(key[0]) || IsSpace(key[|key| - 1]);
  }

  /** A key of the table, looked up as it is, finds its own quotes: the keys
      are already lower case. */
  lemma LookupOfKey(key: string)
    requires key in Quotes
    ensures Lookup(key) == Quotes[key]
  {
    if key == "life" {
      ToLowerOfLower("life");
    } else if key == "love" {
      ToLowerOfLower("love");
    } else {
      ToLowerOfLower("success");
    }
  }

  /** Each category shortcut is a key of the table with three quotes. */
  lemma CategoriesHaveQuotes()
    ensures forall k :: k in CategoryKeys ==> k in Quotes && |Quotes[k]| == 3
  {
  }

  /** A key typed in capitals or with a capital first letter is still found. */
  lemma LookupCaseExamples()
    ensures Lookup("LIFE") == LifeQuotes
    ensures Lookup("Success") == SuccessQuotes
  {
    assert MatchesIgnoringCase("LIFE", "life");
    LookupMatchesIgnoringCase("LIFE", "life");
    assert MatchesIgnoringCase("Success", "success");
    LookupMatchesIgnoringCase("Success", "success");
  }

  /** A key with a space before or after it, and the empty topic, fall back. */
  lemma LookupFallbackExamples()
    ensures Lookup(" life") == [FallbackMessage]
    ensures Lookup("love ") == [FallbackMessage]
    ensures Lookup("") == [FallbackMessage]
  {
    LookupDoesNotTrim(" life");
    LookupDoesNotTrim("love ");
  }

  // As written, the lookup indexes a plain JavaScript object, so a key the
  // table does not define can still find a member that every object inherits
  // from Object.prototype. Such a member is truthy, so it is used in place of
  // the fallback list.

  /** Property names every plain JavaScript object inherits from Object.prototype. */
  const ObjectPrototypeMembers: set<string> := {
    "constructor", "__proto__", "hasOwnProperty", "isPrototypeOf",
    "propertyIsEnumerable", "toString", "toLocaleString", "valueOf",
    "__defineGetter__", "__defineSetter__", "__lookupGetter__", "__lookupSetter__"
  }

  /** What `quotes[key] || [fallback]` yields: a list of quotes, or an
      inherited member of Object.prototype that is not a list at all. */
  datatype IndexedValue = QuoteList(quotes: seq<string>) | Inherited(name: string)

  /** The lookup as the page writes it. */
  function LookupAsWritten(topic: string): (r: IndexedValue)
    ensures r.QuoteList? ==> r.quotes == Lookup(topic)
    ensures r.Inherited? ==> r.name == ToLower(topic) && r.name in ObjectPrototypeMembers
  {
    var key := ToLower(topic);
    if key in Quotes then QuoteList(Quotes[key])
    else if key in ObjectPrototypeMembers then Inherited(key)
    else QuoteList([FallbackMessage])
  }

  /** The written lookup departs from `Lookup` for exactly two lowered topics:
      every other inherited name has an upper-case letter, which a lowered
      topic never has. */
  lemma {:induction false} AsWrittenDepartsOnlyOnInherited(topic: string)
    ensures LookupAsWritten(topic) != QuoteList(Lookup(topic))
        <==> ToLower(topic) in {"constructor", "__proto__"}
  {
    var key := ToLower(topic);
    ToLowerHasNoUpper(topic);
    DiffersFromUpper(key, "hasOwnProperty", 3);
    DiffersFromUpper(key, "isPrototypeOf", 2);
    DiffersFromUpper(key, "propertyIsEnumerable", 8);
    DiffersFromUpper(key, "toString", 2);
    DiffersFromUpper(key, "toLocaleString", 2);
    DiffersFromUpper(key, "valueOf", 5);
    DiffersFromUpper(key, "__defineGetter__", 8);
    DiffersFromUpper(key, "__defineSetter__", 8);
    DiffersFromUpper(key, "__lookupGetter__", 8);
    DiffersFromUpper(key, "__lookupSetter__", 8);
  }

  /** A string without upper-case letters differs from one that has one. */
  lemma DiffersFromUpper(key: string, name: string, i: nat)
    requires forall j :: 0 <= j < |key| ==> !IsUpper(key[j])
    requires i < |name| && IsUpper(name[i])
    ensures key != name
  {
  }

  /** The topic "Constructor" gets the inherited constructor instead of the
      fallback message that `Lookup` gives it. */
  lemma AsWrittenConstructorCounterexample()
    ensures LookupAsWritten("Constructor") == Inherited("constructor")
    ensures Lookup("Constructor") == [FallbackMessage]
  {
    LowersToConstructor();
    assert "constructor" !in Quotes;
    assert "constructor" in ObjectPrototypeMembers;
  }

  lemma LowersToConstructor()
    ensures ToLower("Constructor") == "constructor"
  {
    assert MatchesIgnoringCase("Constructor", "constructor");
  }
}
