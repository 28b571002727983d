/**
 * The search bar: a text field whose `city` belongs to the page, a dropdown
 * flag, a submit guard on the trimmed text, and suggestion clicks.
 */
module SearchBar {
  import opened Wrappers
  import opened WeatherTypes

  /** What `String.prototype.trim` strips: white space and line terminators. */
  const JsWhitespace: set<char> := {
    '\t', '\n', '\U{000B}', '\U{000C}', '\r', ' ', '\U{00A0}', '\U{1680}',
    '\U{2000}', '\U{2001}', '\U{2002}', '\U{2003}', '\U{2004}', '\U{2005}',
    '\U{2006}', '\U{2007}', '\U{2008}', '\U{2009}', '\U{200A}',
    '\U{2028}', '\U{2029}', '\U{202F}', '\U{205F}', '\U{3000}', '\U{FEFF}'}

  predicate IsSpace(c: char)
  {
    c in JsWhitespace
  }

  /** Leading white space removed. */
  function TrimStart(s: string): (r: string)
    ensures |r| <= |s| && r == s[|s| - |r|..]
    ensures forall i :: 0 <= i < |s| - |r| ==> IsSpace(s[i])
    ensures r == [] || !IsSpace(r[0])
  {
    if s != [] && IsSpace(s[0]) then TrimStart(s[1..]) else s
  }

  /** Trailing white space removed. */
  function TrimEnd(s: string): (r: string)
    ensures |r| <= |s| && r == s[..|r|]
    ensures forall i :: |r| <= i < |s| ==> IsSpace(s[i])
    ensures r == [] || !IsSpace(r[|r| - 1])
  {
    if s != [] && IsSpace(s[|s| - 1]) then TrimEnd(s[..|s| - 1]) else s
  }

  /** `s.trim()`. */
  function Trim(s: string): string
  {
    TrimEnd(TrimStart(s))
  }

  /** The trimmed text is empty exactly when the text is all white space. */
  lemma TrimEmptyIff(s: string)
    ensures Trim(s) == "" <==> forall i :: 0 <= i < |s| ==> IsSpace(s[i])
  {
    var t := TrimStart(s);
    var start := |s| - |t|;
    assert forall j :: 0 <= j < |t| ==> t[j] == s[start + j];
    if exists k :: 0 <= k < |s| && !IsSpace(s[k]) {
      var k :| 0 <= k < |s| && !IsSpace(s[k]);
      assert start <= k && !IsSpace(t[k - start]);
      assert k - start < |TrimEnd(t)|;
    }
  }

  /** Text with something other than white space survives trimming with its ends intact. */
  lemma TrimKeepsContent(s: string)
    requires Trim(s) != ""
    ensures !IsSpace(Trim(s)[0]) && !IsSpace(Trim(s)[|Trim(s)| - 1])
  {
    var t := TrimStart(s);
    var u := TrimEnd(t);
    assert u[0] == t[0];
  }

  /** Input this long or longer opens the dropdown. */
  const DropdownThreshold := 2

  /** The search bar component. */
  class Component {
    /** The `city` prop; `SetCity` stands for the `setCity` callback. */
    var city: string
    var showDropdown: bool

    constructor (city: string)
      ensures this.city == city && !showDropdown
    {
      this.city := city;
      showDropdown := false;
    }

    /** The input's `onChange`. */
    method SetCity(text: string)
      modifies this
      ensures city == text && showDropdown == old(showDropdown)
    {
      city := text;
    }

    /** The effect that runs whenever `city` changes. */
    method SyncDropdown()
      modifies this
      ensures city == old(city)
      ensures showDropdown <==> |city| >= DropdownThreshold
      ensures forall suggestions :: ListShown(suggestions) <==> |city| >= DropdownThreshold && suggestions != []
    {
      if |city| >= DropdownThreshold {
        showDropdown := true;
      } else {
        showDropdown := false;
      }
    }

    /** Whether the submit button is disabled (`!city.trim()`). */
    function SubmitDisabled(): (disabled: bool)
      reads this
      ensures disabled <==> forall i :: 0 <= i < |city| ==> IsSpace(city[i])
    {
      TrimEmptyIff(city);
      Trim(city) == ""
    }

    /** Whether the suggestion list is rendered. */
    function ListShown(suggestions: seq<Suggestion>): bool
      reads this
    {
      showDropdown && |suggestions| > 0
    }

    /**
     * `handleSubmit`: returns the text passed to `onSearch` (the untrimmed
     * `city`), or None when the trimmed text is empty and nothing happens.
     */
    method HandleSubmit() returns (searched: Option<string>)
      modifies this
      ensures city == old(city)
      ensures searched.Some? <==> !SubmitDisabled()
      ensures searched.Some? ==> searched.value == city && !showDropdown
      ensures searched.Some? ==> forall suggestions :: !ListShown(suggestions)
      ensures searched.None? ==> showDropdown == old(showDropdown)
    {
      if Trim(city) != "" {
        searched := Some(city);
        showDropdown := false;
      } else {
        searched := None;
      }
    }

    /**
     * `handleSuggestionClick`: the text becomes the suggestion's name, the
     * suggestion is passed to `onSuggestionSelect` (returned here), the dropdown closes.
     */
    method HandleSuggestionClick(suggestion: Suggestion) returns (selected: Suggestion)
      modifies this
      ensures city == suggestion.name && selected == suggestion && !showDropdown
      ensures forall suggestions :: !ListShown(suggestions)
    {
      city := suggestion.name;
      selected := suggestion;
      showDropdown := false;
    }
  }
}
