/** The search box: typing, focus, autocomplete suggestions, and committing a search to the URL. */
module AutocompleteSearch {
  import opened Wrappers
  import opened Text
  import opened Seqs
  import opened QueryParams
  import opened Doctors

  /** The most suggestions ever shown. */
  const MaxSuggestions: nat := 3

  /**
   * The suggestion effect: while the box is focused and the trimmed term is
   * not empty, the first three doctors whose name contains the (untrimmed)
   * term, ignoring case, in dataset order; otherwise none.
   */
  function Suggestions(doctors: seq<Doctor>, searchTerm: string, isFocused: bool): (r: seq<Doctor>)
    ensures |r| <= MaxSuggestions
    ensures forall d :: d in r ==> d in doctors && NameMatches(d, searchTerm)
    ensures IsSubsequence(r, doctors)
    ensures !isFocused || IsBlank(searchTerm) ==> r == []
    ensures isFocused && !IsBlank(searchTerm) ==>
              r <= Filter(doctors, NameTest(searchTerm)) &&
              |r| == if |Filter(doctors, NameTest(searchTerm))| < MaxSuggestions
                     then |Filter(doctors, NameTest(searchTerm))| else MaxSuggestions
  {
    TrimEmptyIffBlank(searchTerm);
    if |Trim(searchTerm)| > 0 && isFocused then
      TakeOfFilter(doctors, NameTest(searchTerm), MaxSuggestions);
      Take(Filter(doctors, NameTest(searchTerm)), MaxSuggestions)
    else
      []
  }

  /** The parameters `updateSearchQuery(newSearchTerm)` pushes: `search` is set to a non-empty term and deleted for the empty one. */
  function SearchQuery(current: Params, newSearchTerm: string): (pushed: Params)
    ensures SameExcept(current, pushed, "search")
    ensures "search" in pushed <==> newSearchTerm != ""
    ensures newSearchTerm != "" ==> pushed["search"] == newSearchTerm
  {
    Assign(current, "search", if newSearchTerm != "" then Some(newSearchTerm) else None)
  }

  /** Committing a term and reading it back (`get('search') || ''`) gives the term. */
  lemma SearchRoundTrip(current: Params, term: string)
    ensures GetOr(SearchQuery(current, term), "search", "") == term
  {
  }

  /**
   * No matching doctor is skipped: every match that comes before the last
   * suggestion in the dataset's matching order is itself a suggestion.
   */
  lemma SuggestionsAreFirstMatches(doctors: seq<Doctor>, searchTerm: string, i: nat)
    requires !IsBlank(searchTerm)
    requires i < |Filter(doctors, NameTest(searchTerm))| && i < MaxSuggestions
    ensures i < |Suggestions(doctors, searchTerm, true)|
    ensures Suggestions(doctors, searchTerm, true)[i] == Filter(doctors, NameTest(searchTerm))[i]
  {
  }

  /**
   * The search box state. `params` is not a field: the URL is read through
   * the parameter of each handler and a write returns the pushed parameters.
   */
  class SearchBox {
    const doctors: seq<Doctor>
    var searchTerm: string
    var suggestions: seq<Doctor>
    var isFocused: bool
    /** Blur timeouts scheduled and not yet fired. */
    var pendingBlurs: nat

    /** The list on screen never exceeds three entries taken from the dataset. */
    ghost predicate Valid()
      reads this
    {
      |suggestions| <= MaxSuggestions && forall d :: d in suggestions ==> d in doctors
    }

    /** The suggestion effect has run for the current term and focus. */
    ghost predicate Settled()
      reads this
    {
      suggestions == Suggestions(doctors, searchTerm, isFocused)
    }

    /** The initial state: the term from the URL, no suggestions, not focused. */
    constructor (doctors: seq<Doctor>, params: Params)
      ensures Valid()
      ensures this.doctors == doctors
      ensures searchTerm == GetOr(params, "search", "")
      ensures suggestions == [] && !isFocused && pendingBlurs == 0
    {
      this.doctors := doctors;
      searchTerm := GetOr(params, "search", "");
      suggestions := [];
      isFocused := false;
      pendingBlurs := 0;
    }

    method UpdateSearchQuery(current: Params, newSearchTerm: string) returns (pushed: Params)
      ensures pushed == SearchQuery(current, newSearchTerm)
    {
      var params := new SearchParams(current);
      if newSearchTerm != "" {
        params.Set("search", newSearchTerm);
      } else {
        params.Delete("search");
      }
      pushed := params.entries;
    }

    /** The suggestion effect, run after `searchTerm` or `isFocused` changes. */
    method RefreshSuggestions()
      requires Valid()
      modifies this`suggestions
      ensures Valid()
      ensures suggestions == Suggestions(doctors, searchTerm, isFocused)
    {
      suggestions := Suggestions(doctors, searchTerm, isFocused);
    }

    /** The effect that re-reads the term from the URL on navigation. */
    method SyncFromUrl(params: Params)
      requires Valid()
      modifies this`searchTerm
      ensures Valid()
      ensures searchTerm == GetOr(params, "search", "")
    {
      searchTerm := GetOr(params, "search", "");
    }

    /** Typing changes the term and nothing else. */
    method HandleInputChange(value: string)
      requires Valid()
      modifies this`searchTerm
      ensures Valid()
      ensures searchTerm == value
    {
      searchTerm := value;
    }

    /** Clicking a suggestion takes its name as the term, closes the list and commits the name. */
    method HandleSuggestionClick(current: Params, doctorName: string) returns (pushed: Params)
      requires Valid()
      modifies this`searchTerm, this`suggestions, this`isFocused
      ensures Valid()
      ensures searchTerm == doctorName && suggestions == [] && !isFocused
      ensures pushed == SearchQuery(current, doctorName)
    {
      searchTerm := doctorName;
      suggestions := [];
      isFocused := false;
      pushed := UpdateSearchQuery(current, doctorName);
    }

    /**
     * Enter closes the list, unfocuses and commits the current term; any other
     * key changes nothing and writes nothing (`None`).
     */
    method HandleKeyDown(current: Params, key: string) returns (pushed: Option<Params>)
      requires Valid()
      modifies this`suggestions, this`isFocused
      ensures Valid()
      ensures key == "Enter" ==> suggestions == [] && !isFocused
      ensures key == "Enter" ==> pushed == Some(SearchQuery(current, searchTerm))
      ensures key != "Enter" ==> pushed == None && unchanged(this)
    {
      if key == "Enter" {
        suggestions := [];
        isFocused := false;
        var p := UpdateSearchQuery(current, searchTerm);
        pushed := Some(p);
      } else {
        pushed := None;
      }
    }

    method HandleFocus()
      requires Valid()
      modifies this`isFocused
      ensures Valid()
      ensures isFocused
    {
      isFocused := true;
    }

    /** Blur does not unfocus at once: it schedules a timeout so that a click on a suggestion still lands. */
    method HandleBlur()
      requires Valid()
      modifies this`pendingBlurs
      ensures Valid()
      ensures pendingBlurs == old(pendingBlurs) + 1
    {
      pendingBlurs := pendingBlurs + 1;
    }

    /** A scheduled blur timeout fires (150 ms after the blur) and unfocuses. */
    method BlurTimeoutFired()
      requires Valid() && pendingBlurs > 0
      modifies this`isFocused, this`pendingBlurs
      ensures Valid()
      ensures !isFocused && pendingBlurs == old(pendingBlurs) - 1
    {
      isFocused := false;
      pendingBlurs := pendingBlurs - 1;
    }
  }

  /**
   * A blur followed by a click on a suggestion before the timeout fires. The
   * blur alone leaves the list on screen, so the clicked entry is still there
   * when the click lands (`clickable`); the click commits its name, and the
   * late timeout only unfocuses an already unfocused box.
   */
  method BlurThenClick(box: SearchBox, current: Params, d: Doctor) returns (pushed: Params, clickable: bool)
    requires box.Valid() && box.isFocused
    requires d in box.suggestions && d.name != ""
    modifies box
    ensures clickable
    ensures box.Valid()
    ensures "search" in pushed && pushed["search"] == d.name
    ensures box.searchTerm == d.name && box.suggestions == [] && !box.isFocused
  {
    box.HandleBlur();
    clickable := box.isFocused && d in box.suggestions;
    pushed := box.HandleSuggestionClick(current, d.name);
    box.BlurTimeoutFired();
    box.RefreshSuggestions();
  }

  /**
   * The contrasting order: when the blur timeout fires and the suggestion
   * effect runs before any click, the list is gone and nothing is left to click.
   */
  method BlurThenTimeout(box: SearchBox) returns (clickable: bool)
    requires box.Valid() && box.Settled() && box.isFocused
    modifies box
    ensures !clickable
    ensures box.Valid()
    ensures !box.isFocused && box.suggestions == []
  {
    box.HandleBlur();
    box.BlurTimeoutFired();
    box.RefreshSuggestions();
    clickable := box.suggestions != [];
  }

  lemma AliMatches(d: Doctor)
    requires d.name == "Alice" || d.name == "Alicia"
    ensures NameMatches(d, "ali")
  {
    assert Lower("ali") == "ali";
    assert d.name == "Alice" ==> Lower(d.name) == "alice";
    assert d.name == "Alicia" ==> Lower(d.name) == "alicia";
  }

  lemma AliSkipsBob(d: Doctor)
    requires d.name == "Bob"
    ensures !NameMatches(d, "ali")
  {
    assert Lower("ali") == "ali";
    assert Lower("Bob") == "bob";
    assert "bob"[1..] == "ob" && "ob"[1..] == "b" && "b"[1..] == "";
    assert !Contains("", "ali");
    assert !Contains("b", "ali");
    assert !Contains("ob", "ali");
    assert !("ali" <= "bob") by { assert "bob"[0] != "ali"[0]; }
  }

  /** Of Alice, Alicia and Bob, the names containing "ali" are Alice's and Alicia's, in that order. */
  lemma AliFilterExample(alice: Doctor, alicia: Doctor, bob: Doctor)
    requires alice.name == "Alice" && alicia.name == "Alicia" && bob.name == "Bob"
    ensures Filter([alice, alicia, bob], NameTest("ali")) == [alice, alicia]
  {
    var test := NameTest("ali");
    AliMatches(alice);
    AliMatches(alicia);
    AliSkipsBob(bob);
    FilterCons(bob, [], test);
    assert Filter([bob], test) == [] by { assert [bob] == [bob] + []; }
    FilterCons(alicia, [bob], test);
    assert Filter([alicia, bob], test) == [alicia] by { assert [alicia, bob] == [alicia] + [bob]; }
    FilterCons(alice, [alicia, bob], test);
    assert [alice, alicia, bob] == [alice] + [alicia, bob];
  }

  /** The example of the suggestion rule: "ali" suggests Alice and Alicia, in that order, and not Bob. */
  lemma SuggestionsExample(alice: Doctor, alicia: Doctor, bob: Doctor)
    requires alice.name == "Alice" && alicia.name == "Alicia" && bob.name == "Bob"
    ensures Suggestions([alice, alicia, bob], "ali", true) == [alice, alicia]
  {
    AliFilterExample(alice, alicia, bob);
    assert !IsBlank("ali") by { assert !IsSpace("ali"[0]); }
    var r := Suggestions([alice, alicia, bob], "ali", true);
    assert r <= [alice, alicia] && |r| == 2;
  }
}
