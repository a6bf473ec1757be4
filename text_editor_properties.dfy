/** Properties of the AdvancedTextEditor operations, stated on Doc values. */
module TextEditingProperties {
  import opened Optional
  import opened TextEditing

  /** Deleting the inserted text at the clamped insertion point gives back the document. */
  lemma InsertThenDelete(d: Doc, text: string, position: int)
    ensures d.Insert(text, position).Delete(Clamp(position, |d.content|), |text|) == d
  {
    if text != "" {
      var p := Clamp(position, |d.content|);
      var c := d.content[..p] + text + d.content[p..];
      assert d.Insert(text, position).content == c;
      assert c[..p] == d.content[..p];
      assert c[p + |text|..] == d.content[p..];
      assert d.content[..p] + d.content[p..] == d.content;
    }
  }

  /** Deleting a range and inserting the removed characters at its start restores the
      document. */
  lemma DeleteThenInsert(d: Doc, start: int, length: int)
    ensures var s := Clamp(start, |d.content|);
      d.Delete(start, length).Insert(d.content[s..s + d.DeletedCount(start, length)], s) == d
  {
    var s := Clamp(start, |d.content|);
    var n := d.DeletedCount(start, length);
    var removed := d.content[s..s + n];
    var e := d.Delete(start, length);
    assert e.content == d.content[..s] + d.content[s + n..];
    if removed == "" {
      assert e.content == d.content by {
        assert d.content[..s] + d.content[s..] == d.content;
      }
    } else {
      assert Clamp(s, |e.content|) == s;
      var f := e.Insert(removed, s);
      assert f.content == e.content[..s] + removed + e.content[s..];
      assert e.content[..s] == d.content[..s];
      assert e.content[s..] == d.content[s + n..];
      assert d.content[..s] + removed + d.content[s + n..] == d.content by {
        assert d.content[..s] + removed == d.content[..s + n];
        assert d.content[..s + n] + d.content[s + n..] == d.content;
      }
    }
  }

  /** ReplaceText with a non-negative length is DeleteText followed by InsertText at the
      clamped start. */
  lemma ReplaceIsDeleteThenInsert(d: Doc, text: string, start: int, length: int)
    requires length >= 0
    ensures d.Replace(text, start, length) == Some(d.Delete(start, length).Insert(text, Clamp(start, |d.content|)))
  {
    var s := Clamp(start, |d.content|);
    var n := Min(length, |d.content| - s);
    var e := d.Delete(start, length);
    if length == 0 {
      assert d.content[..s] + d.content[s..] == d.content;
    }
    assert e.content == d.content[..s] + d.content[s + n..];
    if text == "" {
      assert d.content[..s] + text + d.content[s + n..] == e.content;
    } else {
      assert Clamp(s, |e.content|) == s;
      assert e.content[..s] == d.content[..s];
      assert e.content[s..] == d.content[s + n..];
    }
  }

  /** Replacing the whole content (what Cut and Paste undo do) leaves exactly the new text,
      whatever was there before. */
  lemma ReplaceWholeContent(d: Doc, text: string)
    ensures d.Replace(text, 0, |d.content|).Some?
    ensures d.Replace(text, 0, |d.content|).value.content == text
  {
    assert d.content[|d.content|..] == [];
    assert d.content[..0] + text + [] == text;
  }

  /** After DeleteText removes a non-empty in-range selection, the selection (which
      DeleteText does not move) is stale, and SelectedText throws, exactly when the
      selection reaches past the shortened content. */
  lemma SelectionStaleAfterDelete(d: Doc)
    requires d.selectionLength > 0 && d.SelectionInRange()
    ensures var e := d.Delete(d.selectionStart, d.selectionLength);
      e.SelectedText().None? <==> d.selectionStart + 2 * d.selectionLength > |d.content|
  {
    var e := d.Delete(d.selectionStart, d.selectionLength);
    assert |e.content| == |d.content| - d.selectionLength;
  }
}
