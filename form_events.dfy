/**
 * What the profile forms' `handleChange` handlers share: the input event they read,
 * the `name.split(sep)[k]` keys, and the checkbox lists, where ticking a box appends its
 * item (`[...list, item]`), clearing it removes every copy (`list.filter(x => x !== item)`),
 * and a box shows as ticked when `list.includes(item)`.
 */
module FormEvents {
  import opened Strings
  import opened ListView

  /** What a handler reads from `e.target`; `files` are the chosen files, by name. */
  datatype InputEvent = InputEvent(name: string, value: string, isCheckbox: bool, checked: bool, files: seq<string>)

  /**
   * `s.split(sep)[k]` used as a key; a missing piece is `undefined`, which becomes
   * the key "undefined".
   */
  function Segment(s: string, sep: char, k: nat): string {
    var parts := Split(s, sep);
    if k < |parts| then parts[k] else "undefined"
  }

  /** The key after the first `.` of a name with no other `.`: `socialLinks.instagram` gives `instagram`. */
  lemma SegmentAfterDot(prefix: string, key: string)
    requires '.' !in prefix && '.' !in key
    ensures Segment(prefix + "." + key, '.', 1) == key
  {
    assert prefix + "." + key == prefix + ['.'] + key;
    SplitAtSep(prefix, '.', key);
    SplitNoSep(key, '.');
  }

  function IsNot(item: string): string -> bool {
    (x: string) => x != item
  }

  /** One change of a checkbox whose item is `item`. */
  function Toggle(list: seq<string>, item: string, checked: bool): (r: seq<string>)
    ensures item in r <==> checked
    ensures forall x :: x != item ==> multiset(r)[x] == multiset(list)[x]
    ensures checked ==> |r| == |list| + 1 && r[..|list|] == list && r[|list|] == item
  {
    if checked then list + [item]
    else
      FilterContents(list, IsNot(item));
      Filter(list, IsNot(item))
  }

  /** Clearing keeps the other items in their order. */
  lemma ToggleOffKeepsOrder(list: seq<string>, item: string)
    ensures IsSubsequence(Toggle(list, item, false), list)
  {
    FilterIsSubsequence(list, IsNot(item));
  }

  /** An item the list does not hold: ticking then clearing its box gives the list back. */
  lemma {:induction false} ToggleOnOff(list: seq<string>, item: string)
    requires item !in list
    ensures Toggle(Toggle(list, item, true), item, false) == list
  {
    FilterConcat(list, [item], IsNot(item));
    FilterAll(list, IsNot(item));
    assert Filter([item], IsNot(item)) == [] by {
      assert [item][1..] == [];
    }
  }

  /** Clearing a box twice is clearing it once. */
  lemma ToggleOffTwice(list: seq<string>, item: string)
    ensures Toggle(Toggle(list, item, false), item, false) == Toggle(list, item, false)
  {
    var once := Toggle(list, item, false);
    FilterAll(once, IsNot(item));
  }
}
