/**
 * Free-text search over the listing (src/viewmodel/handling/viewCars/useCarSearch.ts):
 * the query is trimmed, lower-cased and split on whitespace, and a car is kept
 * when every term occurs in its lower-cased text
 * `${brand} ${model} ${gearbox} ${makeYear} ${color}`.
 */
module CarSearch {

  import opened CarEntity
  import opened JsText
  import Seqs

  /** The hook's one state cell, `searchQuery`, initially empty. */
  class SearchState {
    var searchQuery: string

    constructor ()
      ensures searchQuery == ""
    {
      searchQuery := "";
    }

    /** `setSearchQuery` */
    method SetSearchQuery(query: string)
      modifies this
      ensures searchQuery == query
    {
      searchQuery := query;
    }
  }

  /** `searchQuery.trim().toLowerCase().split(/\s+/)` */
  function SearchTerms(query: string): seq<string>
  {
    SplitOnWhitespace(ToLower(Trim(query)))
  }

  /** The text a car is searched in. */
  function CarText(c: Car): string
  {
    ToLower(c.brand + " " + c.model + " " + GearboxName(c.gearbox) + " " + IntToString(c.makeYear) + " " + c.color)
  }

  /** `terms.every(term => text.includes(term))` */
  predicate IncludesAll(text: string, terms: seq<string>)
  {
    terms == [] || (Includes(text, terms[0]) && IncludesAll(text, terms[1..]))
  }

  lemma {:induction false} IncludesAllIff(text: string, terms: seq<string>)
    ensures IncludesAll(text, terms) <==> forall t :: t in terms ==> Includes(text, t)
  {
    if terms != [] {
      IncludesAllIff(text, terms[1..]);
      assert terms[0] in terms;
      assert forall t :: t in terms[1..] ==> t in terms;
      assert forall t :: t in terms ==> t == terms[0] || t in terms[1..];
    }
  }

  function MatchesTerms(terms: seq<string>): Car -> bool
  {
    (c: Car) => IncludesAll(CarText(c), terms)
  }

  /** The cars whose text contains every term, in their order. */
  function SearchByTerms(cars: seq<Car>, terms: seq<string>): seq<Car>
  {
    Seqs.Filter(cars, MatchesTerms(terms))
  }

  /** `searchedCars` */
  function SearchedCars(cars: seq<Car>, query: string): (r: seq<Car>)
    ensures forall c :: c in r <==> c in cars && IncludesAll(CarText(c), SearchTerms(query))
  {
    SearchByTerms(cars, SearchTerms(query))
  }

  /** Every copy of a matching car is found, and no copy of any other. */
  lemma SearchedCarsCount(cars: seq<Car>, query: string, c: Car)
    ensures multiset(SearchedCars(cars, query))[c] == if IncludesAll(CarText(c), SearchTerms(query)) then multiset(cars)[c] else 0
  {
    Seqs.FilterCount(cars, MatchesTerms(SearchTerms(query)), c);
  }

  /** The search keeps the listing's order and drops only cars. */
  lemma SearchKeepsOrder(cars: seq<Car>, query: string)
    ensures Seqs.IsSubsequence(SearchedCars(cars, query), cars)
  {
    Seqs.FilterIsSubsequence(cars, MatchesTerms(SearchTerms(query)));
  }

  /** An empty or blank query keeps every car: it gives the single term "",
      which every text includes. */
  lemma BlankQueryKeepsAll(cars: seq<Car>, query: string)
    requires AllWhitespace(query)
    ensures SearchedCars(cars, query) == cars
  {
    TrimAllWhitespace(query);
    assert ToLower("") == "";
    assert SearchTerms(query) == [""] by { SplitTrimmedPieces(""); }
    forall c | c in cars ensures MatchesTerms([""])(c) {
      IncludesEmpty(CarText(c));
      IncludesAllIff(CarText(c), [""]);
    }
    Seqs.FilterAll(cars, MatchesTerms([""]));
  }

  /** The search ignores the case of the query. */
  lemma SearchIgnoresQueryCase(cars: seq<Car>, q1: string, q2: string)
    requires ToLower(q1) == ToLower(q2)
    ensures SearchedCars(cars, q1) == SearchedCars(cars, q2)
  {
    TrimToLower(q1);
    TrimToLower(q2);
  }

  /** Every further term can only narrow the result. */
  lemma MoreTermsNarrow(cars: seq<Car>, terms: seq<string>, more: seq<string>)
    ensures Seqs.IsSubsequence(SearchByTerms(cars, terms + more), SearchByTerms(cars, terms))
  {
    forall c | c in cars && MatchesTerms(terms + more)(c) ensures MatchesTerms(terms)(c) {
      IncludesAllIff(CarText(c), terms + more);
      IncludesAllIff(CarText(c), terms);
    }
    Seqs.FilterStronger(cars, MatchesTerms(terms + more), MatchesTerms(terms));
  }

  /** Only which terms there are matters, not their order or repetition. */
  lemma TermOrderIrrelevant(cars: seq<Car>, t1: seq<string>, t2: seq<string>)
    requires forall t :: t in t1 <==> t in t2
    ensures SearchByTerms(cars, t1) == SearchByTerms(cars, t2)
  {
    forall c | c in cars ensures MatchesTerms(t1)(c) == MatchesTerms(t2)(c) {
      IncludesAllIff(CarText(c), t1);
      IncludesAllIff(CarText(c), t2);
    }
    Seqs.FilterSame(cars, MatchesTerms(t1), MatchesTerms(t2));
  }

  /** The five values a car is searched by. */
  function CarWords(c: Car): seq<string>
  {
    [c.brand, c.model, GearboxName(c.gearbox), IntToString(c.makeYear), c.color]
  }

  lemma CarTextIsJoinedWords(c: Car)
    ensures CarText(c) == JoinWords(LowerWords(CarWords(c)))
  {
    var ws := CarWords(c);
    assert JoinWords(ws) == c.brand + " " + c.model + " " + GearboxName(c.gearbox) + " " + IntToString(c.makeYear) + " " + c.color by {
      assert JoinWords(ws[4..]) == c.color;
      assert JoinWords(ws[3..]) == IntToString(c.makeYear) + " " + c.color;
      assert JoinWords(ws[2..]) == GearboxName(c.gearbox) + " " + IntToString(c.makeYear) + " " + c.color;
      assert JoinWords(ws[1..]) == c.model + " " + GearboxName(c.gearbox) + " " + IntToString(c.makeYear) + " " + c.color;
    }
    ToLowerJoinWords(ws);
  }

  /** Every term occurs in (the lower-cased form of) one of the car's values. */
  predicate TermsInValues(c: Car, terms: seq<string>)
  {
    forall t :: t in terms ==> exists k :: 0 <= k < 5 && Includes(ToLower(CarWords(c)[k]), t)
  }

  function InValues(terms: seq<string>): Car -> bool
  {
    (c: Car) => TermsInValues(c, terms)
  }

  /** A query of words joined by single spaces has those words, lower-cased,
      as its terms. */
  lemma WordQueryTerms(words: seq<string>)
    requires |words| >= 1 && forall k :: 0 <= k < |words| ==> IsWord(words[k])
    ensures SearchTerms(JoinWords(words)) == LowerWords(words)
    ensures forall k :: 0 <= k < |words| ==> IsWord(LowerWords(words)[k])
  {
    TrimJoinWords(words);
    ToLowerJoinWords(words);
    LowerWordsAreWords(words);
    SplitJoinWords(LowerWords(words));
  }

  /** A term without whitespace occurs in a car's text exactly when it
      occurs in one of its values. */
  lemma MatchesIffInValues(c: Car, terms: seq<string>)
    requires forall k :: 0 <= k < |terms| ==> IsWord(terms[k])
    ensures MatchesTerms(terms)(c) == InValues(terms)(c)
  {
    CarTextIsJoinedWords(c);
    IncludesAllIff(CarText(c), terms);
    forall t | t in terms
      ensures Includes(CarText(c), t) <==> exists k :: 0 <= k < 5 && Includes(ToLower(CarWords(c)[k]), t)
    {
      var k :| 0 <= k < |terms| && terms[k] == t;
      IncludesJoinWords(LowerWords(CarWords(c)), t);
    }
  }

  /** A query of words separated by single spaces keeps exactly the cars
      where each word, in lower case, occurs inside one of the car's brand,
      model, gearbox, year or color. A term never matches across two values,
      since it contains no space. */
  lemma SearchByWords(cars: seq<Car>, words: seq<string>)
    requires |words| >= 1 && forall k :: 0 <= k < |words| ==> IsWord(words[k])
    ensures SearchedCars(cars, JoinWords(words)) == Seqs.Filter(cars, InValues(LowerWords(words)))
  {
    var terms := LowerWords(words);
    WordQueryTerms(words);
    forall c | c in cars ensures MatchesTerms(terms)(c) == InValues(terms)(c) {
      MatchesIffInValues(c, terms);
    }
    Seqs.FilterSame(cars, MatchesTerms(terms), InValues(terms));
  }
}
