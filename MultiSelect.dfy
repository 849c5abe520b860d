/** The multi-select input (`components/custom/MultiSelect.tsx`) used by the registration
    form for categories and languages. The selection belongs to the form; the component
    computes the next selection and keeps only its own open/closed flag. */
module MultiSelect {
  import opened Seqs

  function Without(option: string): string -> bool
  {
    item => item != option
  }

  /** `removeOption`: `selected.filter(item => item !== option)`. */
  function Remove(selected: seq<string>, option: string): (r: seq<string>)
    ensures forall y :: y in r <==> y in selected && y != option
    ensures IsSubsequence(r, selected)
    ensures multiset(r) == multiset(selected)[option := 0]
  {
    FilterIsSubsequence(selected, Without(option));
    forall y ensures multiset(Filter(selected, Without(option)))[y] == multiset(selected)[option := 0][y] {
      FilterMultiplicity(selected, Without(option), y);
    }
    forall y ensures y in Filter(selected, Without(option)) <==> y in selected && y != option {
      FilterMembership(selected, Without(option), y);
    }
    Filter(selected, Without(option))
  }

  /** `handleOptionToggle`: drop the option if it is selected, otherwise append it.
      Neither this nor `Remove` looks at the list of options offered. */
  function Toggle(selected: seq<string>, option: string): (r: seq<string>)
    ensures option in r <==> option !in selected
    ensures forall y :: y != option ==> (y in r <==> y in selected)
    ensures option !in selected ==> r == selected + [option]
    ensures option in selected ==> IsSubsequence(r, selected)
    ensures multiset(r) == if option in selected then multiset(selected)[option := 0]
                           else multiset(selected) + multiset{option}
  {
    if option in selected then Remove(selected, option) else selected + [option]
  }

  /** Removing an option that is not selected changes nothing. */
  lemma RemoveAbsent(selected: seq<string>, option: string)
    requires option !in selected
    ensures Remove(selected, option) == selected
  {
    FilterAllPass(selected, Without(option));
  }

  /** Removing twice is removing once. */
  lemma RemoveIdempotent(selected: seq<string>, option: string)
    ensures Remove(Remove(selected, option), option) == Remove(selected, option)
  {
    RemoveAbsent(Remove(selected, option), option);
  }

  /** Toggling keeps a duplicate-free selection duplicate-free. */
  lemma ToggleKeepsNoDup(selected: seq<string>, option: string)
    requires NoDup(selected)
    ensures NoDup(Toggle(selected, option))
  {
    if option in selected {
      FilterNoDup(selected, Without(option));
    } else {
      var r := selected + [option];
      forall i, j | 0 <= i < j < |r| ensures r[i] != r[j] {
        if j == |selected| {
          assert r[i] == selected[i];
        } else {
          assert r[i] == selected[i] && r[j] == selected[j];
        }
      }
    }
  }

  /** Removing keeps a duplicate-free selection duplicate-free. */
  lemma RemoveKeepsNoDup(selected: seq<string>, option: string)
    requires NoDup(selected)
    ensures NoDup(Remove(selected, option))
  {
    FilterNoDup(selected, Without(option));
  }

  /** Toggling an unselected option twice restores the selection. */
  lemma ToggleTwiceAbsent(selected: seq<string>, option: string)
    requires option !in selected
    ensures Toggle(Toggle(selected, option), option) == selected
  {
    FilterConcat(selected, [option], Without(option));
    FilterAllPass(selected, Without(option));
    assert Filter([option], Without(option)) == [];
  }

  /** Toggling a selected option twice gives the selection without it, followed by it. */
  lemma ToggleTwicePresent(selected: seq<string>, option: string)
    requires option in selected
    ensures Toggle(Toggle(selected, option), option) == Remove(selected, option) + [option]
  {
  }

  /** An option that is already last comes back in the same place, so toggling it twice
      restores the selection. */
  lemma ToggleTwiceLast(rest: seq<string>, option: string)
    requires option !in rest
    ensures Toggle(Toggle(rest + [option], option), option) == rest + [option]
  {
    ToggleTwicePresent(rest + [option], option);
    FilterConcat(rest, [option], Without(option));
    FilterAllPass(rest, Without(option));
    assert Filter([option], Without(option)) == [];
  }

  /** So toggle is not its own inverse: ["English", "Hindi"] toggled at "English" twice
      reads ["Hindi", "English"]. */
  lemma ToggleIsNotAnInvolution()
    ensures Toggle(Toggle(["English", "Hindi"], "English"), "English") == ["Hindi", "English"]
  {
    var s := ["English", "Hindi"];
    ToggleTwicePresent(s, "English");
    assert s[1..] == ["Hindi"] && ["Hindi"][1..] == [];
    assert Without("English")("Hindi") && !Without("English")("English");
    assert Filter(["Hindi"], Without("English")) == ["Hindi"];
  }

  /** The worked case: removing "Hindi" by toggling, then adding "Tamil". */
  lemma ToggleScenario()
    ensures Toggle(["English", "Hindi"], "Hindi") == ["English"]
    ensures Toggle(["English"], "Tamil") == ["English", "Tamil"]
  {
    var s := ["English", "Hindi"];
    assert s[1..] == ["Hindi"] && ["Hindi"][1..] == [];
    assert Without("Hindi")("English") && !Without("Hindi")("Hindi");
    assert Filter(["Hindi"], Without("Hindi")) == [];
  }

  /** The widget: the option list it renders, the selection passed back through
      `onChange`, and whether the dropdown is open. */
  class View {
    const options: seq<string>
    var selected: seq<string>
    var isOpen: bool

    /** The form starts every selection empty and the dropdown closed. */
    constructor (options: seq<string>)
      ensures this.options == options && selected == [] && !isOpen
      ensures Valid()
    {
      this.options := options;
      selected := [];
      isOpen := false;
    }

    /** Every selection the widget produces is duplicate-free. */
    predicate Valid()
      reads this
    {
      NoDup(selected)
    }

    /** `checked={selected.includes(option)}`. */
    function Checked(option: string): bool
      reads this
    {
      option in selected
    }

    /** A checkbox's onCheckedChange. */
    method HandleOptionToggle(option: string)
      requires Valid()
      modifies this
      ensures Valid()
      ensures selected == Toggle(old(selected), option) && isOpen == old(isOpen)
      ensures Checked(option) == !old(Checked(option))
    {
      ToggleKeepsNoDup(selected, option);
      selected := Toggle(selected, option);
    }

    /** The cross on a badge. */
    method RemoveOption(option: string)
      requires Valid()
      modifies this
      ensures Valid()
      ensures selected == Remove(old(selected), option) && isOpen == old(isOpen)
      ensures !Checked(option)
    {
      RemoveKeepsNoDup(selected, option);
      selected := Remove(selected, option);
    }

    /** A click on the selected-items display opens or closes the dropdown. */
    method ClickDisplay()
      modifies this
      ensures isOpen == !old(isOpen) && selected == old(selected)
    {
      isOpen := !isOpen;
    }
  }
}
