/** The multi-select dropdown: toggling an option in the selection, and the text
    the closed control shows. */
module MultiSelect {
  import opened Text

  /** `selected.filter(s => s !== option)`. */
  function Without(selected: seq<string>, option: string): seq<string> {
    if selected == [] then []
    else Without(selected[..|selected| - 1], option)
         + (if selected[|selected| - 1] == option then [] else [selected[|selected| - 1]])
  }

  /** Removing an option drops every occurrence of it and keeps the rest: the
      multiset loses exactly that option, and the order is kept piecewise. */
  lemma {:induction false} WithoutEffect(selected: seq<string>, option: string)
    ensures option !in Without(selected, option)
    ensures multiset(Without(selected, option)) == multiset(selected)[option := 0]
  {
    if selected != [] {
      var init, last := selected[..|selected| - 1], selected[|selected| - 1];
      WithoutEffect(init, option);
      assert selected == init + [last];
    }
  }

  lemma {:induction false} WithoutAppend(a: seq<string>, b: seq<string>, option: string)
    ensures Without(a + b, option) == Without(a, option) + Without(b, option)
    decreases |b|
  {
    if b == [] {
      assert a + b == a;
    } else {
      var b0 := b[..|b| - 1];
      assert (a + b)[..|a + b| - 1] == a + b0;
      assert (a + b)[|a + b| - 1] == b[|b| - 1];
      WithoutAppend(a, b0, option);
    }
  }

  /** Removing an absent option returns the list unchanged. */
  lemma {:induction false} WithoutAbsent(selected: seq<string>, option: string)
    requires option !in selected
    ensures Without(selected, option) == selected
  {
    if selected != [] {
      var init := selected[..|selected| - 1];
      assert selected == init + [selected[|selected| - 1]];
      WithoutAbsent(init, option);
    }
  }

  /** `toggleOption`: a selected option is removed everywhere, another one is
      appended at the end. */
  function ToggleOption(selected: seq<string>, option: string): seq<string> {
    if option in selected then Without(selected, option) else selected + [option]
  }

  /** After a toggle the option is selected exactly when it was not before; every
      other option keeps its number of occurrences. */
  lemma ToggleFlips(selected: seq<string>, option: string)
    ensures option in ToggleOption(selected, option) <==> option !in selected
    ensures forall x :: x != option ==>
      multiset(ToggleOption(selected, option))[x] == multiset(selected)[x]
  {
    WithoutEffect(selected, option);
  }

  /** Toggling an option that was not selected, twice, gives back the selection. */
  lemma ToggleTwice(selected: seq<string>, option: string)
    requires option !in selected
    ensures ToggleOption(ToggleOption(selected, option), option) == selected
  {
    WithoutAppend(selected, [option], option);
    WithoutAbsent(selected, option);
    assert Without([option], option) == [] by {
      assert [option][..0] == [];
    }
  }

  /** `displayText`: the placeholder, the one selected item, or "<n> selected". */
  function DisplayText(selected: seq<string>, placeholder: string): (t: string)
    ensures |selected| == 0 ==> t == placeholder
    ensures |selected| == 1 ==> t == selected[0]
    ensures |selected| >= 2 ==> exists digits :: && t == digits + " selected"
                                                  && AllDigits(digits) && DigitsValue(digits) == |selected|
                                                  && |digits| > 0 && digits[0] != '0'
  {
    if |selected| == 0 then placeholder
    else if |selected| == 1 then selected[0]
    else
      NatToStringRoundTrip(|selected|);
      NatToString(|selected|) + " selected"
  }
}
