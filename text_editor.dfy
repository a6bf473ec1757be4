/**
 * The text buffer of the Command sample (AdvancedTextEditor): a content string and a
 * selection (start, length). Out-of-range arguments are clamped, never rejected; the
 * three text mutations leave the selection alone, so it can go stale.
 */
module TextEditing {
  import opened Optional

  /** The .NET exceptions the buffer's operations can raise. */
  datatype Fault = ArgumentOutOfRange | ArgumentNull

  /** The change types carried by TextChanged notifications. */
  datatype ChangeKind = ContentChanged | Insert | Delete | Replace

  /** One TextChanged notification: old text, new text, change type. */
  datatype TextChange = TextChange(oldText: string, newText: string, kind: ChangeKind)

  function Min(a: int, b: int): int { if a <= b then a else b }
  function Max(a: int, b: int): int { if a >= b then a else b }

  /** Math.Max(0, Math.Min(x, hi)). */
  function Clamp(x: int, hi: nat): (r: nat)
    ensures r <= hi
    ensures 0 <= x <= hi ==> r == x
    ensures x < 0 ==> r == 0
    ensures x > hi ==> r == hi
  {
    Max(0, Min(x, hi))
  }

  /** The notifications one mutation raises: the Content setter's, when the text really
      changed, followed by the mutation's own. */
  function Notifications(before: string, after: string, kind: ChangeKind): seq<TextChange>
  {
    (if before != after then [TextChange(before, after, ContentChanged)] else [])
    + [TextChange(before, after, kind)]
  }

  /** The state of an AdvancedTextEditor. */
  datatype Doc = Doc(content: string, selectionStart: nat, selectionLength: nat)
  {
    /** The selection lies inside the content (SelectedText cannot throw). */
    predicate SelectionInRange() {
      selectionStart + selectionLength <= |content|
    }

    /** SelectedText: the selected substring, "" for an empty selection, and None where
        Substring throws because the selection is stale. */
    function SelectedText(): (r: Option<string>)
      ensures r.Some? <==> selectionLength == 0 || SelectionInRange()
      ensures r.Some? ==> |r.value| == selectionLength
      ensures r.Some? && selectionLength > 0 ==>
        content == content[..selectionStart] + r.value + content[selectionStart + selectionLength..]
    {
      if selectionLength > 0 then
        if selectionStart + selectionLength <= |content| then
          Some(content[selectionStart..selectionStart + selectionLength])
        else
          None
      else
        Some("")
    }

    /** Select: both values are clamped into range, never rejected. */
    function Select(start: int, length: int): (r: Doc)
      ensures r.content == content
      ensures r.SelectionInRange()
      ensures 0 <= start && 0 <= length && start + length <= |content| ==>
        r.selectionStart == start && r.selectionLength == length
      ensures start >= |content| ==> r.selectionStart == |content| && r.selectionLength == 0
    {
      var s := Clamp(start, |content|);
      Doc(content, s, Clamp(length, |content| - s))
    }

    /** InsertText: a no-op for empty text, otherwise splices at the clamped position. */
    function Insert(text: string, position: int): (r: Doc)
      ensures r.selectionStart == selectionStart && r.selectionLength == selectionLength
      ensures |r.content| == |content| + |text|
      ensures text == "" ==> r == this
      ensures text != "" ==> r.content != content
    {
      if text == "" then this
      else
        var p := Clamp(position, |content|);
        assert content == content[..p] + content[p..];
        this.(content := content[..p] + text + content[p..])
    }

    /** The number of characters DeleteText(start, length) removes. */
    function DeletedCount(start: int, length: int): (n: nat)
      ensures n <= |content| - Clamp(start, |content|)
      ensures length <= 0 ==> n == 0
      ensures 0 < length && 0 <= start && start + length <= |content| ==> n == length
    {
      if length <= 0 then 0 else Min(length, |content| - Clamp(start, |content|))
    }

    /** DeleteText: a no-op for length <= 0, otherwise removes the clamped range. */
    function Delete(start: int, length: int): (r: Doc)
      ensures r.selectionStart == selectionStart && r.selectionLength == selectionLength
      ensures |r.content| == |content| - DeletedCount(start, length)
      ensures length <= 0 ==> r == this
    {
      if length <= 0 then this
      else
        var s := Clamp(start, |content|);
        var n := Min(length, |content| - s);
        this.(content := content[..s] + content[s + n..])
    }

    /** ReplaceText: start is clamped, length only from above, so a negative length
        makes Remove throw (None). */
    function Replace(text: string, start: int, length: int): (r: Option<Doc>)
      ensures r.None? <==> length < 0
      ensures r.Some? ==> r.value.selectionStart == selectionStart && r.value.selectionLength == selectionLength
      ensures r.Some? && 0 <= start && start + length <= |content| ==>
        |r.value.content| == |content| - length + |text|
    {
      var s := Clamp(start, |content|);
      var n := Min(length, |content| - s);
      if n < 0 then None
      else Some(this.(content := content[..s] + text + content[s + n..]))
    }
  }

  /** An AdvancedTextEditor: content and selection updated in place, with a log of the
      TextChanged notifications it has raised. */
  class TextEditor {
    var content: string
    var selectionStart: nat
    var selectionLength: nat
    ghost var changes: seq<TextChange>

    constructor ()
      ensures State() == Doc("", 0, 0) && changes == []
    {
      content := "";
      selectionStart := 0;
      selectionLength := 0;
      changes := [];
    }

    function State(): Doc
      reads this
    {
      Doc(content, selectionStart, selectionLength)
    }

    function SelectedText(): Option<string>
      reads this
    {
      State().SelectedText()
    }

    /** The private Content setter: notifies ContentChanged only when the value differs. */
    method SetContent(value: string)
      modifies this
      ensures State() == old(State()).(content := value)
      ensures changes == old(changes) +
        (if old(content) != value then [TextChange(old(content), value, ContentChanged)] else [])
    {
      if content != value {
        var oldText := content;
        content := value;
        changes := changes + [TextChange(oldText, value, ContentChanged)];
      }
    }

    method Select(start: int, length: int)
      modifies this
      ensures State() == old(State()).Select(start, length)
      ensures changes == old(changes)
    {
      selectionStart := Max(0, Min(start, |content|));
      selectionLength := Max(0, Min(length, |content| - selectionStart));
    }

    method InsertText(text: string, position: int)
      modifies this
      ensures State() == old(State()).Insert(text, position)
      ensures changes == old(changes) +
        (if text == "" then [] else Notifications(old(content), content, Insert))
    {
      if text == "" {
        return;
      }
      var p := Max(0, Min(position, |content|));
      var oldContent := content;
      SetContent(content[..p] + text + content[p..]);
      changes := changes + [TextChange(oldContent, content, Insert)];
    }

    method DeleteText(start: int, length: int)
      modifies this
      ensures State() == old(State()).Delete(start, length)
      ensures changes == old(changes) +
        (if length <= 0 then [] else Notifications(old(content), content, Delete))
    {
      if length <= 0 {
        return;
      }
      var s := Max(0, Min(start, |content|));
      var n := Min(length, |content| - s);
      var oldContent := content;
      SetContent(content[..s] + content[s + n..]);
      changes := changes + [TextChange(oldContent, content, Delete)];
    }

    /** Returns the exception ReplaceText throws, if any; nothing changes then. */
    method ReplaceText(text: string, start: int, length: int) returns (thrown: Option<Fault>)
      modifies this
      ensures thrown.Some? <==> old(State()).Replace(text, start, length).None?
      ensures thrown.Some? ==> thrown.value == ArgumentOutOfRange && State() == old(State()) && changes == old(changes)
      ensures thrown.None? ==> State() == old(State()).Replace(text, start, length).value
      ensures thrown.None? ==> changes == old(changes) + Notifications(old(content), content, Replace)
    {
      var s := Max(0, Min(start, |content|));
      var n := Min(length, |content| - s);
      if n < 0 {
        return Some(ArgumentOutOfRange);
      }
      var oldContent := content;
      SetContent(content[..s] + text + content[s + n..]);
      changes := changes + [TextChange(oldContent, content, Replace)];
      thrown := None;
    }
  }
}
