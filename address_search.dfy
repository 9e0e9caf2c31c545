// The address box: a text field with a dropdown of suggestions, the keyboard
// selection in that dropdown, and what a chosen suggestion writes back.
module AddressSearch {
  import opened Basics

  datatype Coordinates = Coordinates(longitude: real, latitude: real)

  /** One suggestion of the search service. */
  datatype Suggestion = Suggestion(
    id: string,
    name: string,
    placeFormatted: string,
    fullAddress: string,
    coordinates: Coordinates)

  /** What the box hands to its `onSelect` callback. */
  datatype Selection = Selection(address: string, lat: real, lng: real)

  /** The body of a suggestion request's answer: its `suggestions` member, when there is one. */
  datatype FetchAnswer = Answered(suggestions: Option<seq<Suggestion>>) | RequestFailed

  /**
   * How resolving a chosen suggestion ended: the retrieve service found it, the
   * geocode fallback found it, or neither did (including a request that threw).
   * The texts are the services' address fields, "" when absent.
   */
  datatype RetrieveOutcome =
    | Retrieved(fullAddress: string, lng: real, lat: real)
    | Geocoded(placeName: string, lng: real, lat: real)
    | Unresolved

  datatype Key = ArrowDown | ArrowUp | Enter | Escape | OtherKey(name: string)

  /**
   * The box's state. `value` is the text the box last reported through
   * `onChange`, which its owner passes back in as the `value` property.
   */
  datatype SearchState = SearchState(
    value: string,
    suggestions: seq<Suggestion>,
    isOpen: bool,
    isLoading: bool,
    selectedIndex: int)

  /** The box as first rendered with the owner's text: nothing suggested, closed, nothing highlighted. */
  function Initial(value: string): SearchState {
    SearchState(value, [], false, false, -1)
  }

  /** The events the box reacts to. */
  datatype Event =
    | InputChange(newValue: string)
    | FetchIssued(query: string)
    | FetchCompleted(answer: FetchAnswer)
    | KeyDown(key: Key)
    | Clear
    | Focus
    | MouseDown(insideBox: bool)
    | RetrieveCompleted(chosen: Suggestion, outcome: RetrieveOutcome)

  /** The shortest query that is sent to the search service. */
  const MinQueryLength: nat := 3

  /** A query is sent only when its JavaScript `length`, in UTF-16 code units, is at least three. */
  predicate SendsRequest(query: string) {
    Utf16Length(query) >= MinQueryLength
  }

  /** A character above U+FFFF counts twice: "a😀" and "😀😀" are sent, "ab" is not. */
  lemma AstralCharactersCountTwice()
    ensures SendsRequest("a\U{1F600}") && SendsRequest("\U{1F600}\U{1F600}")
    ensures !SendsRequest("ab")
  {
    assert "a\U{1F600}"[1..] == "\U{1F600}";
    assert "\U{1F600}\U{1F600}"[1..] == "\U{1F600}";
    assert "ab"[1..] == "b";
  }

  /** `full_address`, or "name, place" when that is empty. */
  function AddressText(s: Suggestion): string {
    if s.fullAddress != "" then s.fullAddress else s.name + ", " + s.placeFormatted
  }

  /** The highlighted row after a key: ArrowDown stops at the last row, ArrowUp stops at -1 (none). */
  function NextIndex(key: Key, prev: int, n: nat): int {
    match key
    case ArrowDown => if prev < n - 1 then prev + 1 else prev
    case ArrowUp => if prev > 0 then prev - 1 else -1
    case _ => prev
  }

  /** Keys do anything only while the dropdown is open and has rows. */
  predicate KeysActive(s: SearchState) {
    s.isOpen && |s.suggestions| > 0
  }

  /** The suggestion Enter chooses: the highlighted one, when the index points at a row. */
  function KeyPick(s: SearchState, key: Key): Option<Suggestion> {
    if KeysActive(s) && key == Enter && 0 <= s.selectedIndex < |s.suggestions|
    then Some(s.suggestions[s.selectedIndex])
    else None
  }

  /** The address a resolved suggestion reports: the service's text, falling back on the suggestion's own. */
  function ResolvedAddress(chosen: Suggestion, outcome: RetrieveOutcome): string {
    match outcome
    case Retrieved(a, _, _) => if a != "" then a else AddressText(chosen)
    case Geocoded(a, _, _) => if a != "" then a else AddressText(chosen)
    case Unresolved => AddressText(chosen)
  }

  /** What `onSelect` receives: nothing when neither service found the address. */
  function SelectionOf(chosen: Suggestion, outcome: RetrieveOutcome): Option<Selection> {
    match outcome
    case Retrieved(_, lng, lat) => Some(Selection(ResolvedAddress(chosen, outcome), lat, lng))
    case Geocoded(_, lng, lat) => Some(Selection(ResolvedAddress(chosen, outcome), lat, lng))
    case Unresolved => None
  }

  /** The state after one event. */
  function Apply(s: SearchState, e: Event): SearchState {
    match e
    case InputChange(v) => s.(value := v, selectedIndex := -1)
    case FetchIssued(q) => if SendsRequest(q) then s.(isLoading := true) else s.(suggestions := [])
    case FetchCompleted(answer) =>
      if answer.Answered? && answer.suggestions.Some?
      then s.(suggestions := answer.suggestions.value, isOpen := true, isLoading := false)
      else s.(isLoading := false)
    case KeyDown(key) =>
      if !KeysActive(s) then s
      else if key == ArrowDown || key == ArrowUp
      then s.(selectedIndex := NextIndex(key, s.selectedIndex, |s.suggestions|))
      else if key == Escape then s.(isOpen := false)
      else s
    case Clear => s.(value := "", suggestions := [], isOpen := false)
    case Focus => if |s.suggestions| > 0 then s.(isOpen := true) else s
    case MouseDown(inside) => if inside then s else s.(isOpen := false)
    case RetrieveCompleted(chosen, outcome) =>
      s.(value := ResolvedAddress(chosen, outcome), isOpen := false, suggestions := [])
  }

  function ApplyAll(s: SearchState, es: seq<Event>): SearchState
    decreases |es|
  {
    if es == [] then s else ApplyAll(Apply(s, es[0]), es[1..])
  }

  // ---------------------------------------------------------------------------
  // Properties
  // ---------------------------------------------------------------------------

  /** From a row or from "none", the arrow keys keep the index between -1 and the last row. */
  lemma NextIndexInRange(key: Key, prev: int, n: nat)
    requires -1 <= prev < n
    ensures -1 <= NextIndex(key, prev, n) < n
  {
  }

  /** The index never drops below -1, whatever it was and however many rows there are. */
  lemma NextIndexFloor(key: Key, prev: int, n: nat)
    requires prev >= -1
    ensures NextIndex(key, prev, n) >= -1
  {
  }

  /** ArrowDown moves one row down until the last row, and then stays. */
  lemma ArrowDownStopsAtLast(prev: int, n: nat)
    ensures prev < n - 1 ==> NextIndex(ArrowDown, prev, n) == prev + 1
    ensures prev >= n - 1 ==> NextIndex(ArrowDown, prev, n) == prev
    ensures prev <= n - 1 ==> NextIndex(ArrowDown, prev, n) <= n - 1
  {
  }

  /** ArrowUp moves one row up; from the first row (or above it) it clears the highlight. */
  lemma ArrowUpStopsAtNone(prev: int, n: nat)
    ensures prev > 0 ==> NextIndex(ArrowUp, prev, n) == prev - 1
    ensures prev <= 0 ==> NextIndex(ArrowUp, prev, n) == -1
  {
  }

  /** ArrowUp undoes ArrowDown everywhere but on the last row. */
  lemma UpUndoesDown(prev: int, n: nat)
    requires -1 <= prev < n - 1
    ensures NextIndex(ArrowUp, NextIndex(ArrowDown, prev, n), n) == prev
  {
  }

  /** ArrowDown undoes ArrowUp on every row. */
  lemma DownUndoesUp(prev: int, n: nat)
    requires 0 <= prev < n
    ensures NextIndex(ArrowDown, NextIndex(ArrowUp, prev, n), n) == prev
  {
  }

  /** The index after pressing a key `k` times in a row, with the dropdown unchanged. */
  function Presses(key: Key, k: nat, prev: int, n: nat): int
    decreases k
  {
    if k == 0 then prev else Presses(key, k - 1, NextIndex(key, prev, n), n)
  }

  /** Pressing ArrowDown `k` times from a valid index lands `k` rows down, but no further than the last row. */
  lemma {:induction false} RepeatedDown(k: nat, prev: int, n: nat)
    requires -1 <= prev <= n - 1
    ensures Presses(ArrowDown, k, prev, n) == if prev + k <= n - 1 then prev + k else n - 1
    decreases k
  {
    if k > 0 {
      RepeatedDown(k - 1, NextIndex(ArrowDown, prev, n), n);
    }
  }

  /** Pressing ArrowUp `k` times lands `k` rows up, but no further than -1. */
  lemma {:induction false} RepeatedUp(k: nat, prev: int, n: nat)
    requires prev >= -1
    ensures Presses(ArrowUp, k, prev, n) == if prev - k >= -1 then prev - k else -1
    decreases k
  {
    if k > 0 {
      RepeatedUp(k - 1, NextIndex(ArrowUp, prev, n), n);
    }
  }

  /** With the dropdown closed or empty, a key changes nothing and chooses nothing. */
  lemma KeysIgnoredWhenInactive(s: SearchState, key: Key)
    requires !s.isOpen || s.suggestions == []
    ensures Apply(s, KeyDown(key)) == s
    ensures KeyPick(s, key) == None
  {
  }

  /** Escape closes the dropdown and keeps the highlight and the rows. */
  lemma EscapeCloses(s: SearchState)
    requires KeysActive(s)
    ensures Apply(s, KeyDown(Escape)) == s.(isOpen := false)
  {
  }

  /** Enter chooses a suggestion only with an open dropdown and an index at an existing row, and then exactly that row. */
  lemma EnterChoosesHighlighted(s: SearchState, key: Key)
    ensures KeyPick(s, key).Some? <==>
              key == Enter && s.isOpen && 0 <= s.selectedIndex < |s.suggestions|
    ensures KeyPick(s, key).Some? ==>
              KeyPick(s, key).value == s.suggestions[s.selectedIndex] && KeyPick(s, key).value in s.suggestions
    ensures key == Enter ==> Apply(s, KeyDown(key)) == s
  {
  }

  /** Typing resets the highlight and changes nothing else but the text. */
  lemma InputChangeResets(s: SearchState, v: string)
    ensures Apply(s, InputChange(v)) == s.(value := v, selectedIndex := -1)
    ensures KeyPick(Apply(s, InputChange(v)), Enter) == None
  {
  }

  /** A query shorter than three UTF-16 code units sends nothing, empties the rows, and so disables the keys. */
  lemma ShortQueryClears(s: SearchState, q: string)
    requires Utf16Length(q) < 3
    ensures !SendsRequest(q)
    ensures Apply(s, FetchIssued(q)) == s.(suggestions := [])
    ensures !KeysActive(Apply(s, FetchIssued(q)))
  {
  }

  /** A query of three characters or more is sent (its UTF-16 length is no smaller) and only marks the box as loading. */
  lemma LongQueryLoads(s: SearchState, q: string)
    requires |q| >= 3
    ensures SendsRequest(q)
    ensures Apply(s, FetchIssued(q)) == s.(isLoading := true)
  {
  }

  /** An answer with a suggestion list shows it and opens the dropdown; any other ending keeps the rows; both stop loading. */
  lemma FetchCompletion(s: SearchState, answer: FetchAnswer)
    ensures !Apply(s, FetchCompleted(answer)).isLoading
    ensures answer.Answered? && answer.suggestions.Some? ==>
              Apply(s, FetchCompleted(answer)).suggestions == answer.suggestions.value
              && Apply(s, FetchCompleted(answer)).isOpen
    ensures !(answer.Answered? && answer.suggestions.Some?) ==>
              Apply(s, FetchCompleted(answer)) == s.(isLoading := false)
    ensures Apply(s, FetchCompleted(answer)).selectedIndex == s.selectedIndex
  {
  }

  /** Clearing empties the text and the rows and closes the dropdown; no key does anything afterwards. */
  lemma ClearEmpties(s: SearchState, key: Key)
    ensures Apply(s, Clear) == s.(value := "", suggestions := [], isOpen := false)
    ensures Apply(Apply(s, Clear), KeyDown(key)) == Apply(s, Clear)
    ensures KeyPick(Apply(s, Clear), key) == None
  {
  }

  /** Focus reopens the dropdown exactly when there are rows to show. */
  lemma FocusReopens(s: SearchState)
    ensures Apply(s, Focus).isOpen <==> s.isOpen || |s.suggestions| > 0
    ensures Apply(s, Focus).suggestions == s.suggestions
  {
  }

  /** A press outside the box closes the dropdown; one inside changes nothing. */
  lemma ClickOutsideCloses(s: SearchState, inside: bool)
    ensures inside ==> Apply(s, MouseDown(inside)) == s
    ensures !inside ==> Apply(s, MouseDown(inside)) == s.(isOpen := false)
  {
  }

  /** The fallback address text is never empty: it is the full address, or it contains the ", " separator. */
  lemma AddressTextNonEmpty(s: Suggestion)
    ensures AddressText(s) != ""
    ensures s.fullAddress != "" ==> AddressText(s) == s.fullAddress
    ensures s.fullAddress == "" ==> StartsWith(AddressText(s), s.name)
  {
    if s.fullAddress == "" {
      assert AddressText(s)[..|s.name|] == s.name;
    }
  }

  /** A resolved suggestion always writes a non-empty address, reports it to `onSelect` exactly when a service found it, and closes and empties the dropdown. */
  lemma RetrieveWritesAddress(s: SearchState, chosen: Suggestion, outcome: RetrieveOutcome)
    ensures ResolvedAddress(chosen, outcome) != ""
    ensures SelectionOf(chosen, outcome).Some? <==> !outcome.Unresolved?
    ensures SelectionOf(chosen, outcome).Some? ==>
              SelectionOf(chosen, outcome).value.address == ResolvedAddress(chosen, outcome)
              && SelectionOf(chosen, outcome).value.lat == outcome.lat
              && SelectionOf(chosen, outcome).value.lng == outcome.lng
    ensures outcome.Unresolved? ==> ResolvedAddress(chosen, outcome) == AddressText(chosen)
    ensures var t := Apply(s, RetrieveCompleted(chosen, outcome));
              t.value == ResolvedAddress(chosen, outcome) && !t.isOpen && t.suggestions == []
              && t.selectedIndex == s.selectedIndex
  {
    AddressTextNonEmpty(chosen);
  }

  /** No event takes the index below -1. */
  lemma ApplyKeepsFloor(s: SearchState, e: Event)
    requires s.selectedIndex >= -1
    ensures Apply(s, e).selectedIndex >= -1
  {
    if e.KeyDown? {
      NextIndexFloor(e.key, s.selectedIndex, |s.suggestions|);
    }
  }

  /** From the initial state, the index stays at -1 or above through any run of events. */
  lemma {:induction false} ApplyAllKeepsFloor(s: SearchState, es: seq<Event>)
    requires s.selectedIndex >= -1
    ensures ApplyAll(s, es).selectedIndex >= -1
    decreases |es|
  {
    if es != [] {
      ApplyKeepsFloor(s, es[0]);
      ApplyAllKeepsFloor(Apply(s, es[0]), es[1..]);
    }
  }

  /** Key presses keep a valid index valid. */
  lemma KeyKeepsInRange(s: SearchState, key: Key)
    requires -1 <= s.selectedIndex < |s.suggestions|
    ensures var t := Apply(s, KeyDown(key));
              -1 <= t.selectedIndex < |t.suggestions| && t.suggestions == s.suggestions
  {
    if KeysActive(s) {
      NextIndexInRange(key, s.selectedIndex, |s.suggestions|);
    }
  }

  /**
   * The index is not reset when a new answer arrives, so it can point past the
   * last row: three rows, two ArrowDowns, then an answer with one row. Enter
   * then chooses nothing, which is why it checks that the row exists.
   */
  lemma StaleIndexAfterRefetch(a: Suggestion, b: Suggestion, c: Suggestion, v: string)
    ensures var s := ApplyAll(Initial(v), [FetchCompleted(Answered(Some([a, b, c]))),
                                           KeyDown(ArrowDown), KeyDown(ArrowDown),
                                           FetchCompleted(Answered(Some([a])))]);
              s.selectedIndex == 1 && |s.suggestions| == 1 && KeysActive(s) && KeyPick(s, Enter) == None
  {
    var s0 := Initial(v);
    var s1 := Apply(s0, FetchCompleted(Answered(Some([a, b, c]))));
    var s2 := Apply(s1, KeyDown(ArrowDown));
    var s3 := Apply(s2, KeyDown(ArrowDown));
    var s4 := Apply(s3, FetchCompleted(Answered(Some([a]))));
    assert s2.selectedIndex == 0;
    assert s3.selectedIndex == 1;
    var es := [FetchCompleted(Answered(Some([a, b, c]))), KeyDown(ArrowDown), KeyDown(ArrowDown),
               FetchCompleted(Answered(Some([a])))];
    assert es[1..][1..] == es[2..] && es[2..][1..] == es[3..] && es[3..][1..] == [];
    assert ApplyAll(s4, []) == s4;
    assert ApplyAll(s3, es[3..]) == s4;
    assert ApplyAll(s2, es[2..]) == s4;
    assert ApplyAll(s1, es[1..]) == s4;
    assert ApplyAll(s0, es) == s4;
  }

  // ---------------------------------------------------------------------------
  // The box object
  // ---------------------------------------------------------------------------

  class AddressSearchBox {
    var value: string
    var suggestions: seq<Suggestion>
    var isOpen: bool
    var isLoading: bool
    var selectedIndex: int

    function State(): SearchState
      reads this
    {
      SearchState(value, suggestions, isOpen, isLoading, selectedIndex)
    }

    constructor (initialValue: string)
      ensures State() == Initial(initialValue)
    {
      value, suggestions, isOpen, isLoading, selectedIndex := initialValue, [], false, false, -1;
    }

    /** `handleInputChange`: report the text and reset the highlight; the caller issues the query when its timer fires. */
    method HandleInputChange(newValue: string)
      modifies this
      ensures State() == Apply(old(State()), InputChange(newValue))
    {
      value := newValue;
      selectedIndex := -1;
    }

    /** `fetchSuggestions`: clears the rows for a short query, otherwise starts loading; `sent` says whether a request goes out. */
    method FetchSuggestions(query: string) returns (sent: bool)
      modifies this
      ensures sent <==> Utf16Length(query) >= 3
      ensures State() == Apply(old(State()), FetchIssued(query))
    {
      if Utf16Length(query) < 3 {
        suggestions := [];
        return false;
      }
      isLoading := true;
      return true;
    }

    /** The end of a suggestion request. */
    method FetchCompleted(answer: FetchAnswer)
      modifies this
      ensures State() == Apply(old(State()), Event.FetchCompleted(answer))
    {
      if answer.Answered? && answer.suggestions.Some? {
        suggestions := answer.suggestions.value;
        isOpen := true;
      }
      isLoading := false;
    }

    /** `handleKeyDown`: moves the highlight, closes the dropdown, or returns the suggestion Enter chose. */
    method HandleKeyDown(key: Key) returns (chosen: Option<Suggestion>)
      modifies this
      ensures chosen == KeyPick(old(State()), key)
      ensures State() == Apply(old(State()), KeyDown(key))
    {
      chosen := None;
      if !isOpen || |suggestions| == 0 {
        return;
      }
      match key {
        case ArrowDown =>
          selectedIndex := if selectedIndex < |suggestions| - 1 then selectedIndex + 1 else selectedIndex;
        case ArrowUp =>
          selectedIndex := if selectedIndex > 0 then selectedIndex - 1 else -1;
        case Enter =>
          if selectedIndex >= 0 && selectedIndex < |suggestions| {
            chosen := Some(suggestions[selectedIndex]);
          }
        case Escape =>
          isOpen := false;
        case OtherKey(_) =>
      }
    }

    /** `handleClear`. */
    method HandleClear()
      modifies this
      ensures State() == Apply(old(State()), Clear)
    {
      value := "";
      suggestions := [];
      isOpen := false;
    }

    /** The input's focus handler. */
    method HandleFocus()
      modifies this
      ensures State() == Apply(old(State()), Focus)
    {
      if |suggestions| > 0 {
        isOpen := true;
      }
    }

    /** The document's mouse-down listener. */
    method HandleMouseDown(insideBox: bool)
      modifies this
      ensures State() == Apply(old(State()), MouseDown(insideBox))
    {
      if !insideBox {
        isOpen := false;
      }
    }

    /** The end of `retrieveAddress`: writes the address, closes and empties the dropdown, and returns what `onSelect` receives. */
    method CompleteRetrieve(chosen: Suggestion, outcome: RetrieveOutcome) returns (selected: Option<Selection>)
      modifies this
      ensures selected == SelectionOf(chosen, outcome)
      ensures State() == Apply(old(State()), RetrieveCompleted(chosen, outcome))
    {
      var addressText := if chosen.fullAddress != "" then chosen.fullAddress else chosen.name + ", " + chosen.placeFormatted;
      match outcome {
        case Retrieved(fullAddress, lng, lat) =>
          var address := if fullAddress != "" then fullAddress else addressText;
          value := address;
          selected := Some(Selection(address, lat, lng));
        case Geocoded(placeName, lng, lat) =>
          var address := if placeName != "" then placeName else addressText;
          value := address;
          selected := Some(Selection(address, lat, lng));
        case Unresolved =>
          value := addressText;
          selected := None;
      }
      isOpen := false;
      suggestions := [];
    }
  }
}
