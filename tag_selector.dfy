/** components/TagSelector.tsx: a tag list edited as an insertion-ordered set.
    Clicking a tag toggles it; a free-text tag can be added once; the selected tags
    that are not among the offered options are shown as extra chips. */
module TagSelector {
  import opened Types

  /** `s.filter(t => t !== tag)`: every occurrence of `tag` goes, the rest keep
      their order. */
  function RemoveAll(s: seq<string>, tag: string): (r: seq<string>)
    ensures tag !in r
    ensures forall x :: x in r <==> x in s && x != tag
    ensures |r| <= |s|
    ensures tag !in s ==> r == s
  {
    if s == [] then []
    else
      var rest := RemoveAll(s[1..], tag);
      assert forall x | x in s :: x == s[0] || x in s[1..];
      if s[0] == tag then rest else [s[0]] + rest
  }

  /** The rest keep their order and their repetitions: filtering a list with one
      more tag appended filters the earlier tags and then keeps that tag unless it
      is the one removed. */
  lemma {:induction false} RemoveAllSnoc(s: seq<string>, x: string, tag: string)
    ensures RemoveAll(s + [x], tag) == RemoveAll(s, tag) + (if x == tag then [] else [x])
  {
    if s == [] {
      assert [] + [x] == [x];
      assert [x][1..] == [];
    } else {
      assert (s + [x])[1..] == s[1..] + [x];
      RemoveAllSnoc(s[1..], x, tag);
    }
  }

  /** Removing a tag from a list without repetitions leaves one without repetitions. */
  lemma {:induction false} RemoveAllKeepsNoDup(s: seq<string>, tag: string)
    requires NoDup(s)
    ensures NoDup(RemoveAll(s, tag))
  {
    if s != [] {
      assert NoDup(s[1..]);
      RemoveAllKeepsNoDup(s[1..], tag);
      assert s[0] !in s[1..];
    }
  }

  /** `toggleTag(tag)`: a selected tag is removed everywhere it occurs; any other
      tag is appended at the end. */
  function Toggle(selected: seq<string>, tag: string): (r: seq<string>)
    ensures tag in selected ==> tag !in r && (forall x :: x in r <==> x in selected && x != tag)
    ensures tag in selected ==> r == RemoveAll(selected, tag)
    ensures tag !in selected ==> r == selected + [tag]
  {
    if tag in selected then RemoveAll(selected, tag) else selected + [tag]
  }

  /** Toggling keeps a list free of repetitions. */
  lemma ToggleKeepsNoDup(selected: seq<string>, tag: string)
    requires NoDup(selected)
    ensures NoDup(Toggle(selected, tag))
  {
    if tag in selected {
      RemoveAllKeepsNoDup(selected, tag);
    }
  }

  /** Toggling an unselected tag twice gives back the original list; toggling a
      selected tag twice moves it to the end. */
  lemma ToggleTwice(selected: seq<string>, tag: string)
    ensures tag !in selected ==> Toggle(Toggle(selected, tag), tag) == selected
    ensures tag in selected ==> Toggle(Toggle(selected, tag), tag) == RemoveAll(selected, tag) + [tag]
  {
    if tag !in selected {
      RemoveAllAppended(selected, tag);
    }
  }

  /** Removing a tag that was just appended to a list without it restores the list. */
  lemma {:induction false} RemoveAllAppended(s: seq<string>, tag: string)
    requires tag !in s
    ensures RemoveAll(s + [tag], tag) == s
  {
    if s == [] {
      assert [] + [tag] == [tag];
    } else {
      assert (s + [tag])[1..] == s[1..] + [tag];
      RemoveAllAppended(s[1..], tag);
    }
  }

  /** `selected.filter(s => !options.includes(s))`: the chips shown for custom tags. */
  function CustomChips(selected: seq<string>, options: seq<string>): (r: seq<string>)
    ensures forall x :: x in r <==> x in selected && x !in options
    ensures |r| <= |selected|
  {
    if selected == [] then []
    else
      var rest := CustomChips(selected[1..], options);
      assert forall x | x in selected :: x == selected[0] || x in selected[1..];
      if selected[0] !in options then [selected[0]] + rest else rest
  }

  /** Every selected tag is visible: as a highlighted option or as a custom chip. */
  lemma EverySelectedTagShown(selected: seq<string>, options: seq<string>, x: string)
    requires x in selected
    ensures x in options || x in CustomChips(selected, options)
  {
  }

  /** Custom chips keep the order of the selection: the chips of a list with one
      more tag appended are the earlier chips, followed by that tag when it is not
      an option. */
  lemma {:induction false} CustomChipsAppend(selected: seq<string>, options: seq<string>, tag: string)
    ensures CustomChips(selected + [tag], options)
      == CustomChips(selected, options) + (if tag in options then [] else [tag])
  {
    if selected == [] {
      assert [] + [tag] == [tag];
      assert [tag][1..] == [];
    } else {
      assert (selected + [tag])[1..] == selected[1..] + [tag];
      CustomChipsAppend(selected[1..], options, tag);
    }
  }

  /** The free-text entry of one tag selector. */
  class TagInput {
    var customInput: string

    constructor()
      ensures customInput == ""
    {
      customInput := "";
    }

    /** `addCustom()`: a non-empty entry that is not selected yet is appended and the
        entry is cleared; otherwise nothing is emitted and the entry is kept. */
    method AddCustom(selected: seq<string>) returns (emitted: Option<seq<string>>)
      modifies this
      ensures emitted.Some? <==> old(customInput) != "" && old(customInput) !in selected
      ensures emitted.Some? ==> emitted.value == selected + [old(customInput)] && customInput == ""
      ensures emitted.None? ==> customInput == old(customInput)
    {
      if customInput != "" && customInput !in selected {
        emitted := Some(selected + [customInput]);
        customInput := "";
      } else {
        emitted := None;
      }
    }
  }

  /** Appending a tag that is not selected keeps a list free of repetitions; this is
      what `addCustom` emits. */
  lemma AppendFreshKeepsNoDup(selected: seq<string>, tag: string)
    requires NoDup(selected) && tag !in selected
    ensures NoDup(selected + [tag])
  {
  }
}
