/** The tag editor of a transaction (`TagInput`): the tag list belongs to
    the caller, which receives every new list through `onChange`; the editor
    itself holds only the text being typed. */
module TagInput {
  import opened Common
  import opened Text

  const DefaultMaxTags := 5

  const DefaultSuggestions: seq<string> :=
    ["ضروری", "تفریحی", "اولویت بالا", "قسط", "یکبار مصرف", "خانواده", "کار", "شخصی"]

  /** `addTag(tag)`: the trimmed tag joins the end of the list when it is
      not empty, not already there, and the list is not full. */
  function AddTag(tags: seq<string>, tag: string, maxTags: int): (r: seq<string>)
    ensures r == tags || r == tags + [Trim(tag)]
    ensures r != tags <==> Trim(tag) != "" && Trim(tag) !in tags && |tags| < maxTags
  {
    var trimmed := Trim(tag);
    if trimmed != "" && trimmed !in tags && |tags| < maxTags then tags + [trimmed] else tags
  }

  /** A list without duplicates and within the maximum stays so. */
  lemma AddTagKeepsValid(tags: seq<string>, tag: string, maxTags: int)
    requires NoDuplicates(tags) && |tags| <= maxTags
    ensures var r := AddTag(tags, tag, maxTags); NoDuplicates(r) && |r| <= maxTags
  {
  }

  /** Adding the same tag a second time changes nothing. */
  lemma AddTagIdempotent(tags: seq<string>, tag: string, maxTags: int)
    ensures AddTag(AddTag(tags, tag, maxTags), tag, maxTags) == AddTag(tags, tag, maxTags)
  {
    var r := AddTag(tags, tag, maxTags);
    if r != tags {
      assert Trim(tag) in r by {
        assert r[|tags|] == Trim(tag);
      }
    }
  }

  /** `removeTag(tag)`: every occurrence goes, the other tags stay in order. */
  function RemoveTag(tags: seq<string>, tag: string): (r: seq<string>)
    ensures tag !in r
    ensures forall x :: x != tag ==> multiset(r)[x] == multiset(tags)[x]
  {
    FilterMultiset(tags, (x: string) => x != tag);
    Filter(tags, (x: string) => x != tag)
  }

  /** Removing a tag that is not there gives back the list. */
  lemma RemoveAbsentTag(tags: seq<string>, tag: string)
    requires tag !in tags
    ensures RemoveTag(tags, tag) == tags
  {
    FilterAll(tags, (x: string) => x != tag);
  }

  /** The editor after an event: the list handed to `onChange` (the old one
      when there was no call) and the text in the input box. */
  datatype TagEdit = TagEdit(tags: seq<string>, input: string)

  datatype Key = Enter | Backspace | OtherKey

  /** `handleKeyDown`: Enter adds the typed text, clearing the box when it
      was added; Backspace in an empty box removes the last tag. */
  function KeyDown(tags: seq<string>, input: string, key: Key, maxTags: int): (r: TagEdit)
    ensures key == Enter ==>
      r.tags == AddTag(tags, input, maxTags) && r.input == (if r.tags != tags then "" else input)
    ensures key == Backspace && input == "" && tags != [] ==>
      r == TagEdit(RemoveTag(tags, tags[|tags| - 1]), input)
    ensures key == OtherKey || (key == Backspace && (input != "" || tags == [])) ==> r == TagEdit(tags, input)
  {
    match key
    case Enter =>
      var added := AddTag(tags, input, maxTags);
      TagEdit(added, if added != tags then "" else input)
    case Backspace =>
      if input == "" && |tags| > 0 then TagEdit(RemoveTag(tags, tags[|tags| - 1]), input)
      else TagEdit(tags, input)
    case OtherKey => TagEdit(tags, input)
  }

  /** Backspace on an empty box removes the last tag, and with it the
      earlier copies of that tag if the list held any. */
  lemma BackspaceDropsLast(tags: seq<string>, maxTags: int)
    requires tags != [] && NoDuplicates(tags)
    ensures KeyDown(tags, "", Backspace, maxTags).tags == tags[..|tags| - 1]
  {
    var last := tags[|tags| - 1];
    assert tags == tags[..|tags| - 1] + [last];
    FilterConcat(tags[..|tags| - 1], [last], (x: string) => x != last);
    FilterAll(tags[..|tags| - 1], (x: string) => x != last);
  }

  /** `filteredSuggestions`: the suggestions not yet in the list whose text
      contains the typed text, ignoring case. */
  function FilteredSuggestions(suggestions: seq<string>, tags: seq<string>, input: string): (r: seq<string>)
    ensures forall s :: s in r ==> s in suggestions && s !in tags && ContainsIgnoringCase(s, input)
    ensures forall s :: s in suggestions && s !in tags && ContainsIgnoringCase(s, input) ==> s in r
  {
    Filter(suggestions, (s: string) => s !in tags && ContainsIgnoringCase(s, input))
  }

  /** The dropdown shows the first five of them, in order. */
  function ShownSuggestions(suggestions: seq<string>, tags: seq<string>, input: string): (r: seq<string>)
    ensures var offered := FilteredSuggestions(suggestions, tags, input);
      && |r| == (if |offered| < 5 then |offered| else 5)
      && r == offered[..|r|]
    ensures forall s :: s in r ==> s in FilteredSuggestions(suggestions, tags, input)
  {
    Prefix(FilteredSuggestions(suggestions, tags, input), 5)
  }

  /** With nothing typed, every suggestion not yet used is offered. */
  lemma EmptyInputOffersAll(suggestions: seq<string>, tags: seq<string>)
    ensures forall s :: s in FilteredSuggestions(suggestions, tags, "") <==> s in suggestions && s !in tags
  {
    forall s | s in suggestions
      ensures ContainsIgnoringCase(s, "")
    {
      ContainsSelf(ToLower(s));
    }
  }

  /** The input box is shown only while the list has room. */
  predicate InputShown(tags: seq<string>, maxTags: int)
  {
    |tags| < maxTags
  }

  /** The add button is disabled when the typed text is blank. */
  predicate AddDisabled(input: string)
  {
    Trim(input) == ""
  }

  /** When the add button is enabled, a click adds the tag unless it is
      already in the list or the list is full. */
  lemma EnabledAddAdds(tags: seq<string>, input: string, maxTags: int)
    requires !AddDisabled(input) && InputShown(tags, maxTags) && Trim(input) !in tags
    ensures AddTag(tags, input, maxTags) == tags + [Trim(input)]
  {
  }
}
