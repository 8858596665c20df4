/**
 * The search bar: a text input with a suggestion dropdown driven by the
 * keyboard, and a Search button. The debounced geocoding request is not
 * modelled; what it gives is passed to `LookUpSuggestions` as a `Lookup`.
 */
module Search {
  import opened Wrappers
  import opened Types
  import opened Text

  /** Queries shorter than this (raw length, not trimmed) get no geocoding lookup. */
  const MinLookupLength: nat := 3

  /** What the geocoding request gave: the parsed array, or a failure (transport or parse). */
  datatype Lookup = Found(data: seq<CitySuggestion>) | LookupFailed

  /** Whether a `state` value is truthy: present and not the empty string. */
  predicate HasState(s: CitySuggestion) {
    s.state.Some? && s.state.value != ""
  }

  /**
   * The text of a suggestion, shown in the dropdown and searched when it is chosen:
   * "name, state, country" when the state is truthy, otherwise "name, country".
   */
  function Label(s: CitySuggestion): (r: string)
    ensures |r| == |s.name| + 2 + |s.country| + (if HasState(s) then |s.state.value| + 2 else 0)
    ensures r[..|s.name|] == s.name && r[|s.name|..|s.name| + 2] == ", "
    ensures r[|r| - |s.country|..] == s.country
    ensures HasState(s) ==> r[|s.name| + 2..|s.name| + 2 + |s.state.value|] == s.state.value
    ensures HasState(s) ==> r[|s.name| + 2 + |s.state.value|..|s.name| + 4 + |s.state.value|] == ", "
  {
    if HasState(s) then s.name + ", " + s.state.value + ", " + s.country
    else s.name + ", " + s.country
  }

  /** An empty `state` is treated exactly like a missing one. */
  lemma EmptyStateIsNoState(s: CitySuggestion)
    ensures Label(s.(state := Some(""))) == Label(s.(state := None))
  {
  }

  /** A label is never blank, so choosing a suggestion always searches something. */
  lemma LabelNotBlank(s: CitySuggestion)
    ensures Trim(Label(s)) != []
  {
    var r := Label(s);
    assert r[|s.name|] == ',';
    assert !AllWhitespace(r);
  }

  /** The highlighted index after ArrowDown: one further, but not past the last suggestion. */
  function ArrowDownIndex(prev: int, count: nat): (r: int)
    ensures r <= prev + 1 && r <= count - 1
    ensures r == prev + 1 || r == count - 1
  {
    if prev + 1 < count - 1 then prev + 1 else count - 1
  }

  /** The highlighted index after ArrowUp: one back, but not before -1 (nothing highlighted). */
  function ArrowUpIndex(prev: int): (r: int)
    ensures r >= prev - 1 && r >= -1
    ensures r == prev - 1 || r == -1
  {
    if prev - 1 > -1 then prev - 1 else -1
  }

  /**
   * The arrow keys keep the highlighted index among -1 (nothing) and the
   * suggestions' indices; with no suggestions it stays -1.
   */
  lemma ArrowKeysStayInRange(prev: int, count: nat)
    requires -1 <= prev < count
    ensures -1 <= ArrowDownIndex(prev, count) < count
    ensures -1 <= ArrowUpIndex(prev) < count
    ensures count == 0 ==> ArrowDownIndex(prev, count) == -1 && ArrowUpIndex(prev) == -1
  {
  }

  /** The search bar component and its state hooks. */
  class SearchBar {
    var query: string
    var suggestions: seq<CitySuggestion>
    var showSuggestions: bool
    var selectedIndex: int

    /** The highlighted index is -1 or an index of a suggestion. */
    predicate IndexInRange()
      reads this
    {
      -1 <= selectedIndex < |suggestions|
    }

    /** An empty query, no suggestions, dropdown hidden, nothing highlighted. */
    constructor ()
      ensures query == "" && suggestions == [] && !showSuggestions && selectedIndex == -1
      ensures IndexInRange()
    {
      query := "";
      suggestions := [];
      showSuggestions := false;
      selectedIndex := -1;
    }

    /** The input's `onChange`: take the new text, show the dropdown, highlight nothing. */
    method Edit(value: string)
      modifies this
      ensures query == value && showSuggestions && selectedIndex == -1
      ensures suggestions == old(suggestions)
      ensures IndexInRange()
    {
      query := value;
      showSuggestions := true;
      selectedIndex := -1;
    }

    /** The input's `onFocus`: show the dropdown. */
    method Focus()
      modifies this
      ensures showSuggestions
      ensures query == old(query) && suggestions == old(suggestions) && selectedIndex == old(selectedIndex)
    {
      showSuggestions := true;
    }

    /**
     * The debounced suggestion lookup for the current query. A query shorter
     * than three characters clears the suggestions and sends no request
     * (`requested` is false); otherwise the request's array becomes the
     * suggestions, and a failed request clears them. The highlighted index is
     * left as it is, so it may point past a shorter list afterwards.
     */
    method LookUpSuggestions(lookup: Lookup) returns (requested: bool)
      modifies this
      ensures requested <==> |query| >= MinLookupLength
      ensures !requested ==> suggestions == []
      ensures requested ==> suggestions == (if lookup.Found? then lookup.data else [])
      ensures query == old(query) && showSuggestions == old(showSuggestions) && selectedIndex == old(selectedIndex)
    {
      if |query| < MinLookupLength {
        suggestions := [];
        requested := false;
        return;
      }
      requested := true;
      match lookup
      case Found(data) => suggestions := data;
      case LookupFailed => suggestions := [];
    }

    /** `handleSearch`: pass the query to the app's fetch, hide the dropdown, highlight nothing. */
    method HandleSearch(searchQuery: string) returns (searched: string)
      modifies this
      ensures searched == searchQuery
      ensures !showSuggestions && selectedIndex == -1
      ensures query == old(query) && suggestions == old(suggestions)
      ensures IndexInRange()
    {
      searched := searchQuery;
      showSuggestions := false;
      selectedIndex := -1;
    }

    /** `handleSelectCity`: put the suggestion's label in the input and search it. */
    method HandleSelectCity(suggestion: CitySuggestion) returns (searched: string)
      modifies this
      ensures searched == Label(suggestion) && query == Label(suggestion)
      ensures !showSuggestions && selectedIndex == -1
      ensures suggestions == old(suggestions)
      ensures Trim(searched) != []
    {
      var cityName := Label(suggestion);
      query := cityName;
      showSuggestions := false;
      searched := HandleSearch(cityName);
      LabelNotBlank(suggestion);
    }

    /**
     * The input's `onKeyDown`. ArrowDown and ArrowUp move the highlight;
     * Enter searches the highlighted suggestion's label when one is
     * highlighted, otherwise the trimmed query when it is not blank, and
     * otherwise does nothing. Other keys change nothing. `searched` is what
     * was passed to the app's fetch, if anything.
     */
    method HandleKeyPress(key: string) returns (searched: Option<string>)
      modifies this
      ensures key == "ArrowDown" ==>
        && selectedIndex == ArrowDownIndex(old(selectedIndex), |suggestions|)
        && searched == None && query == old(query) && showSuggestions == old(showSuggestions)
      ensures key == "ArrowUp" ==>
        && selectedIndex == ArrowUpIndex(old(selectedIndex))
        && searched == None && query == old(query) && showSuggestions == old(showSuggestions)
      ensures key == "Enter" && 0 <= old(selectedIndex) < |old(suggestions)| ==>
        && searched == Some(Label(old(suggestions)[old(selectedIndex)]))
        && query == Label(old(suggestions)[old(selectedIndex)])
        && !showSuggestions && selectedIndex == -1
      ensures key == "Enter" && !(0 <= old(selectedIndex) < |old(suggestions)|) && Trim(old(query)) != [] ==>
        && searched == Some(Trim(old(query))) && query == old(query)
        && !showSuggestions && selectedIndex == -1
      ensures key == "Enter" && !(0 <= old(selectedIndex) < |old(suggestions)|) && Trim(old(query)) == [] ==>
        && searched == None && query == old(query)
        && showSuggestions == old(showSuggestions) && selectedIndex == old(selectedIndex)
      ensures key != "ArrowDown" && key != "ArrowUp" && key != "Enter" ==>
        && searched == None && query == old(query)
        && showSuggestions == old(showSuggestions) && selectedIndex == old(selectedIndex)
      ensures searched.Some? ==> Trim(searched.value) != []
      ensures suggestions == old(suggestions)
      ensures old(IndexInRange()) ==> IndexInRange()
    {
      searched := None;
      if key == "ArrowDown" {
        selectedIndex := ArrowDownIndex(selectedIndex, |suggestions|);
      } else if key == "ArrowUp" {
        selectedIndex := ArrowUpIndex(selectedIndex);
      } else if key == "Enter" {
        if selectedIndex >= 0 && selectedIndex < |suggestions| {
          var city := HandleSelectCity(suggestions[selectedIndex]);
          searched := Some(city);
        } else if Trim(query) != [] {
          var city := HandleSearch(Trim(query));
          TrimIdempotent(query);
          searched := Some(city);
        }
      }
    }

    /**
     * The Search button: disabled while a fetch is loading or while the query
     * is blank; otherwise it searches the trimmed query.
     */
    method ClickSearch(isLoading: bool) returns (searched: Option<string>)
      modifies this
      ensures !isLoading && Trim(old(query)) != [] ==>
        && searched == Some(Trim(old(query)))
        && !showSuggestions && selectedIndex == -1
      ensures isLoading || Trim(old(query)) == [] ==>
        && searched == None
        && showSuggestions == old(showSuggestions) && selectedIndex == old(selectedIndex)
      ensures query == old(query) && suggestions == old(suggestions)
    {
      searched := None;
      if !isLoading && Trim(query) != [] {
        var city := HandleSearch(Trim(query));
        searched := Some(city);
      }
    }
  }
}
