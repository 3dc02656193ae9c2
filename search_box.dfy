/** The search box with its suggestion dropdown (`SearchSuggestions` component): the
    query, whether the dropdown is open, and the highlighted suggestion, changed by the
    input, keyboard and click handlers. Navigation and the `onSearch` callback are
    returned as effects. */
module SearchBox {
  import opened Wrappers
  import opened Strings
  import opened SearchSuggestions

  datatype Key = ArrowDown | ArrowUp | Enter | Escape | OtherKey

  /** What a handler asks of the page. */
  datatype Effect = NoEffect | Navigate(path: string) | SearchFor(query: string)

  /** Where a suggestion leads. */
  function SuggestionPath(s: Suggestion): (path: string)
    ensures s.DoctorSuggestion? ==> path == "/doctor/" + s.id
    ensures s.HospitalSuggestion? ==> path == "/hospital/" + s.id
  {
    match s
    case DoctorSuggestion(id, _, _, _, _) => "/doctor/" + id
    case HospitalSuggestion(id, _, _, _) => "/hospital/" + id
  }

  /** The highlighted index after an arrow key over `n > 0` suggestions. */
  function Step(key: Key, prev: int, n: nat): int
    requires n > 0 && (key == ArrowDown || key == ArrowUp)
  {
    if key == ArrowDown then (if prev < n - 1 then prev + 1 else 0)
    else (if prev > 0 then prev - 1 else n - 1)
  }

  /** From any index in `-1 .. n-1` an arrow key lands in `0 .. n-1`; down from the last
      wraps to the first and up from the first or from none wraps to the last. */
  lemma StepStaysInRange(key: Key, prev: int, n: nat)
    requires n > 0 && (key == ArrowDown || key == ArrowUp) && -1 <= prev < n
    ensures 0 <= Step(key, prev, n) < n
    ensures key == ArrowDown && prev == n - 1 ==> Step(key, prev, n) == 0
    ensures key == ArrowUp && prev <= 0 ==> Step(key, prev, n) == n - 1
  {
  }

  /** Down then up comes back to an index that was highlighted, unless it wrapped. */
  lemma DownThenUp(prev: int, n: nat)
    requires n > 0 && 0 <= prev < n - 1
    ensures Step(ArrowUp, Step(ArrowDown, prev, n), n) == prev
  {
  }

  class SearchBoxState {
    var query: string
    var isOpen: bool
    var selectedIndex: int
    /** The hook's current suggestions. */
    var suggestions: seq<Suggestion>

    /** The highlighted index is none (-1) or one of the suggestions. */
    predicate Valid()
      reads this
    {
      -1 <= selectedIndex < |suggestions|
    }

    constructor ()
      ensures Valid() && query == "" && !isOpen && selectedIndex == -1 && suggestions == []
    {
      query, isOpen, selectedIndex, suggestions := "", false, -1, [];
    }

    /** The effect that resets the highlight whenever the suggestions change. */
    method SuggestionsChanged(s: seq<Suggestion>)
      modifies this`suggestions, this`selectedIndex
      ensures Valid() && suggestions == s && selectedIndex == -1
    {
      suggestions, selectedIndex := s, -1;
    }

    /** `handleInputChange`: the dropdown is open iff the trimmed text has at least two
        characters. */
    method HandleInputChange(value: string)
      modifies this`query, this`isOpen
      ensures query == value && (isOpen <==> |Trim(value)| >= 2)
    {
      query, isOpen := value, |Trim(value)| >= 2;
    }

    /** Focusing the input reopens the dropdown when the trimmed text has at least two
        characters, and otherwise leaves it as it is. */
    method HandleFocus()
      modifies this`isOpen
      ensures |Trim(query)| >= 2 ==> isOpen
      ensures |Trim(query)| < 2 ==> isOpen == old(isOpen)
    {
      if |Trim(query)| >= 2 {
        isOpen := true;
      }
    }

    /** `handleSuggestionClick`: closes the dropdown, clears the query and opens the
        suggestion's page. */
    method HandleSuggestionClick(s: Suggestion) returns (effect: Effect)
      modifies this`query, this`isOpen
      ensures !isOpen && query == "" && effect == Navigate(SuggestionPath(s))
    {
      isOpen, query := false, "";
      effect := Navigate(SuggestionPath(s));
    }

    /** Hovering a listed suggestion highlights it. */
    method HandleMouseEnter(index: nat)
      requires index < |suggestions|
      modifies this`selectedIndex
      ensures Valid() && selectedIndex == index
    {
      selectedIndex := index;
    }

    /** `handleKeyDown`; `hasOnSearch` says whether the page passed an `onSearch`. */
    method HandleKeyDown(key: Key, hasOnSearch: bool) returns (effect: Effect)
      requires Valid()
      modifies this`query, this`isOpen, this`selectedIndex
      ensures Valid()
      ensures !old(isOpen) || suggestions == [] ==> effect == NoEffect && query == old(query) && isOpen == old(isOpen) && selectedIndex == old(selectedIndex)
      ensures old(isOpen) && suggestions != [] && (key == ArrowDown || key == ArrowUp) ==>
        selectedIndex == Step(key, old(selectedIndex), |suggestions|) && 0 <= selectedIndex < |suggestions| && isOpen && effect == NoEffect
      ensures old(isOpen) && suggestions != [] && key == Enter && 0 <= old(selectedIndex) ==>
        effect == Navigate(SuggestionPath(suggestions[old(selectedIndex)])) && !isOpen && query == ""
      ensures old(isOpen) && suggestions != [] && key == Enter && old(selectedIndex) < 0 && hasOnSearch ==>
        effect == SearchFor(old(query)) && !isOpen && query == old(query)
      ensures old(isOpen) && suggestions != [] && key == Enter && old(selectedIndex) < 0 && !hasOnSearch ==>
        effect == NoEffect && isOpen && query == old(query)
      ensures old(isOpen) && suggestions != [] && key == Escape ==> !isOpen && effect == NoEffect && query == old(query)
      ensures key == OtherKey ==> effect == NoEffect && isOpen == old(isOpen) && query == old(query) && selectedIndex == old(selectedIndex)
      ensures key != ArrowDown && key != ArrowUp ==> selectedIndex == old(selectedIndex)
    {
      effect := NoEffect;
      if !isOpen || |suggestions| == 0 {
        return;
      }
      match key
      case ArrowDown =>
        selectedIndex := Step(key, selectedIndex, |suggestions|);
      case ArrowUp =>
        selectedIndex := Step(key, selectedIndex, |suggestions|);
      case Enter =>
        if 0 <= selectedIndex < |suggestions| {
          effect := HandleSuggestionClick(suggestions[selectedIndex]);
        } else if hasOnSearch {
          effect := SearchFor(query);
          isOpen := false;
        }
      case Escape =>
        isOpen := false;
      case OtherKey =>
    }

    /** `handleClear`. */
    method HandleClear()
      modifies this`query, this`isOpen
      ensures query == "" && !isOpen
    {
      query, isOpen := "", false;
    }

    /** A mouse press outside the box closes the dropdown. */
    method HandleClickOutside()
      modifies this`isOpen
      ensures !isOpen
    {
      isOpen := false;
    }

    /** `handleSearchSubmit`: nothing for a blank query; otherwise the trimmed query goes
        to `onSearch`, or to the search page (`encode` standing for
        `encodeURIComponent`), and the dropdown closes. */
    method HandleSearchSubmit(hasOnSearch: bool, encode: string -> string) returns (effect: Effect)
      modifies this`isOpen
      ensures Trim(query) == "" ==> effect == NoEffect && isOpen == old(isOpen)
      ensures Trim(query) != "" && hasOnSearch ==> effect == SearchFor(Trim(query)) && !isOpen
      ensures Trim(query) != "" && !hasOnSearch ==> effect == Navigate("/search?q=" + encode(Trim(query))) && !isOpen
    {
      var t := Trim(query);
      effect := NoEffect;
      if t != "" && hasOnSearch {
        effect := SearchFor(t);
        isOpen := false;
      } else if t != "" {
        effect := Navigate("/search?q=" + encode(t));
        isOpen := false;
      }
    }

    /** `showDropdown`. */
    function ShowDropdown(isLoading: bool, isEmpty: bool): (shown: bool)
      reads this
      ensures shown ==> isOpen
      ensures isOpen ==> (shown <==> isLoading || isEmpty || suggestions != [])
    {
      isOpen && (isLoading || isEmpty || |suggestions| > 0)
    }
  }
}
