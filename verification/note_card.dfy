/** What a note card derives from its note: a short content preview, the
    tag line and the pin icon's colour. */
module NoteCardView {
  import opened Notes

  const PREVIEW_LENGTH := 60

  /** `content?.slice(0, 60)`: the first sixty characters of the content,
      all of it when shorter, nothing when there is no content. */
  function Preview(content: Option<string>): (preview: Option<string>)
    ensures content.None? <==> preview.None?
    ensures content.Some? ==>
      |preview.value| <= PREVIEW_LENGTH && preview.value <= content.value
      && (|content.value| <= PREVIEW_LENGTH ==> preview.value == content.value)
      && (|content.value| > PREVIEW_LENGTH ==> |preview.value| == PREVIEW_LENGTH)
  {
    match content
    case None => None
    case Some(text) => Some(if |text| <= PREVIEW_LENGTH then text else text[..PREVIEW_LENGTH])
  }

  /** `"#" + tag + " "` for one tag. */
  function TagText(tag: string): string
  {
    "#" + tag + " "
  }

  /** The tag line: each tag's text, in order, concatenated. */
  function TagLabel(tags: seq<string>): string
  {
    if tags == [] then "" else TagText(tags[0]) + TagLabel(tags[1..])
  }

  /** Labelling a concatenation labels each part, in order. */
  lemma {:induction false} TagLabelAppend(a: seq<string>, b: seq<string>)
    ensures TagLabel(a + b) == TagLabel(a) + TagLabel(b)
    decreases |a|
  {
    if a == [] {
      assert a + b == b;
    } else {
      assert (a + b)[1..] == a[1..] + b;
      TagLabelAppend(a[1..], b);
    }
  }

  /** The text of tag `i` sits right after the labels of the tags before
      it; an empty tag list gives an empty label. */
  lemma TagLabelAt(tags: seq<string>, i: nat)
    requires i < |tags|
    ensures TagLabel([]) == ""
    ensures
      var start := |TagLabel(tags[..i])|;
      start + |tags[i]| + 2 <= |TagLabel(tags)|
      && TagLabel(tags)[start..start + |tags[i]| + 2] == TagText(tags[i])
  {
    assert tags == tags[..i] + ([tags[i]] + tags[i + 1..]);
    TagLabelAppend(tags[..i], [tags[i]] + tags[i + 1..]);
    TagLabelAppend([tags[i]], tags[i + 1..]);
    assert TagLabel([tags[i]]) == TagText(tags[i]) by {
      assert [tags[i]][1..] == [];
    }
  }

  const PIN_HIGHLIGHT := "text-[#2B85FF] "
  const PIN_PLAIN := "text-slate-300 dark:text-gray-400"

  /** The pin icon is highlighted exactly when the note is pinned. */
  function PinColour(isPinned: bool): (colour: string)
    ensures colour == PIN_HIGHLIGHT <==> isPinned
    ensures colour == PIN_PLAIN <==> !isPinned
  {
    if isPinned then PIN_HIGHLIGHT else PIN_PLAIN
  }
}
