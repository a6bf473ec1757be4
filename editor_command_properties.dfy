/**
 * Properties of the Command sample, proved about the value-level specification in
 * EditorCommands (which the command classes are proved to follow).
 */
module EditorCommandProperties {
  import opened Optional
  import opened TextEditing
  import opened TextEditingProperties
  import opened EditorCommands

  // ==================== the bounded history ====================

  /** The newest k entries of t, oldest first. */
  function Newest<T>(t: seq<T>, k: nat): seq<T>
  {
    t[|t| - Min(|t|, k)..]
  }

  lemma NewestOfNewest<T>(t: seq<T>, u: seq<T>, k: nat)
    ensures Newest(Newest(t, k) + u, k) == Newest(t + u, k)
  {
    var a := Newest(t, k) + u;
    var n := Min(|t + u|, k);
    assert Min(|a|, k) == n;
    assert a == (t + u)[|t + u| - |a|..];
    assert a[|a| - n..] == (t + u)[|t + u| - n..];
  }

  /** CommandHistory.Push keeps the newest max(maxSize, 1) commands. */
  lemma PushKeepsNewest<T>(s: seq<T>, c: T, maxSize: int)
    requires |s| <= Max(maxSize, 1)
    ensures Pushed(s, c, maxSize) == Newest(s + [c], Max(maxSize, 1))
  {
    if |s| >= maxSize && s != [] {
      assert s[1..] + [c] == (s + [c])[1..];
    }
  }

  /** Pushing any sequence of commands onto a history that respects its bound leaves the
      newest max(maxSize, 1) of all of them, oldest first: the history never grows past
      its bound and evicts oldest-first. */
  lemma {:induction false} PushAllKeepsNewest<T>(s: seq<T>, xs: seq<T>, maxSize: int)
    requires |s| <= Max(maxSize, 1)
    ensures PushedAll(s, xs, maxSize) == Newest(s + xs, Max(maxSize, 1))
    decreases |xs|
  {
    var k := Max(maxSize, 1);
    if xs == [] {
      assert s + xs == s;
    } else {
      PushKeepsNewest(s, xs[0], maxSize);
      var s1 := Pushed(s, xs[0], maxSize);
      PushAllKeepsNewest(s1, xs[1..], maxSize);
      NewestOfNewest(s + [xs[0]], xs[1..], k);
      assert s + [xs[0]] + xs[1..] == s + xs;
    }
  }

  // ==================== undo only touches the document ====================

  /** UndoAsync of any command, a macro included, changes nothing but the document. */
  lemma {:induction false} ReversalChangesOnlyDoc(st: Structure, c: Command, w: World)
    requires WellFounded(st)
    ensures Reversal(st, c, w).after == w.(doc := Reversal(st, c, w).after.doc)
    decreases c.depth, 1
  {
    if c.variant == Macro {
      ReversalFromChangesOnlyDoc(st, c, |SubsOf(st, c)|, w);
    }
  }

  lemma {:induction false} ReversalFromChangesOnlyDoc(st: Structure, m: Command, k: nat, w: World)
    requires WellFounded(st) && k <= |SubsOf(st, m)|
    ensures ReversalFrom(st, m, k, w).after == w.(doc := ReversalFrom(st, m, k, w).after.doc)
    decreases m.depth, 0, k
  {
    if k > 0 {
      var c := SubsOf(st, m)[k - 1];
      if !Undoable(st, c, w) {
        ReversalFromChangesOnlyDoc(st, m, k - 1, w);
      } else {
        ReversalChangesOnlyDoc(st, c, w);
        var e := Reversal(st, c, w);
        if e.outcome == Completed(true) {
          ReversalFromChangesOnlyDoc(st, m, k - 1, e.after);
        }
      }
    }
  }

  /** UndoCommand.ExecuteAsync pops the newest entry whether or not it can be undone,
      and otherwise changes only the document. */
  lemma UndoCommandPops(st: Structure, u: Command, w: World)
    requires WellFounded(st) && u.variant == Undo
    ensures var e := Execution(st, u, w);
      if w.history == [] then e == Effect(Completed(false), w)
      else
        && e.after == w.(history := w.history[..|w.history| - 1], doc := e.after.doc)
        && (!Undoable(st, w.history[|w.history| - 1], w) ==> e.outcome == Completed(false) && e.after.doc == w.doc)
  {
    if w.history != [] {
      var last := w.history[|w.history| - 1];
      var popped := w.(history := w.history[..|w.history| - 1]);
      ReversalChangesOnlyDoc(st, last, popped);
      UndoableDependsOnBackups(st, last, w, popped);
    }
  }

  /** CanUndo looks only at backups. */
  lemma {:induction false} UndoableDependsOnBackups(st: Structure, c: Command, w1: World, w2: World)
    requires WellFounded(st) && w1.backups == w2.backups
    ensures Undoable(st, c, w1) == Undoable(st, c, w2)
    decreases c.depth
  {
    if c.variant == Macro {
      forall i | 0 <= i < |SubsOf(st, c)|
        ensures Undoable(st, SubsOf(st, c)[i], w1) == Undoable(st, SubsOf(st, c)[i], w2)
      {
        UndoableDependsOnBackups(st, SubsOf(st, c)[i], w1, w2);
      }
    }
  }

  // ==================== Cut and Paste ====================

  /** The document a Cut or Paste undo leaves depends only on the backup, not on what
      the document became in between. */
  lemma RestoredIgnoresDoc(d: Doc, b: string, start: nat, length: nat)
    ensures Restored(d, b, start, length) == Doc(b, 0, 0).Select(start, length)
  {
    ReplaceWholeContent(d, b);
  }

  /** Copy and Cut with nothing selected, and Paste with an empty clipboard, return false
      and change nothing. */
  lemma NothingToMove(st: Structure, c: Command, w: World)
    requires WellFounded(st)
    ensures (c.variant == Copy || c.variant == Cut) && w.doc.selectionLength == 0 ==>
      Execution(st, c, w) == Effect(Completed(false), w)
    ensures c.variant == Paste && w.clipboard == "" ==> Execution(st, c, w) == Effect(Completed(false), w)
  {
  }

  /** UndoCommand can execute exactly when the history is not empty, and can itself be
      neither undone nor asked to undo successfully. */
  lemma UndoCommandGates(st: Structure, u: Command, w: World)
    requires WellFounded(st) && u.variant == Undo
    ensures Executable(st, u, w) == Completed(w.history != [])
    ensures !Undoable(st, u, w)
    ensures Reversal(st, u, w) == Effect(Completed(false), w)
  {
  }

  /** Cut moves the selected text to the clipboard and removes it; undoing it then
      restores the document exactly, however it was edited in between, as long as the
      command's backup was not overwritten. */
  lemma CutThenUndo(st: Structure, c: Command, w: World, later: World)
    requires WellFounded(st) && c.variant == Cut
    requires w.doc.selectionLength > 0 && w.doc.SelectionInRange()
    ensures var e := Execution(st, c, w);
      var d := w.doc;
      && e.outcome == Completed(true)
      && e.after.clipboard == d.content[d.selectionStart..d.selectionStart + d.selectionLength]
      && e.after.doc == d.(content := d.content[..d.selectionStart] + d.content[d.selectionStart + d.selectionLength..])
      && Undoable(st, c, e.after)
    ensures BackupOf(later, c) == BackupOf(Execution(st, c, w).after, c) ==>
      Reversal(st, c, later) == Effect(Completed(true), later.(doc := w.doc))
  {
    var d := w.doc;
    RestoredIgnoresDoc(later.doc, d.content, d.selectionStart, d.selectionLength);
  }

  /** Paste replaces a non-empty selection by the clipboard text, or inserts it at the
      caret; it can be undone only when the document was not empty, because CanUndo
      rejects an empty backup. */
  lemma PasteEffect(st: Structure, c: Command, w: World)
    requires WellFounded(st) && c.variant == Paste && w.clipboard != ""
    ensures var e := Execution(st, c, w);
      var d := w.doc;
      && e.outcome == Completed(true)
      && e.after.clipboard == w.clipboard
      && (d.selectionLength > 0 && d.SelectionInRange() ==>
            e.after.doc.content == d.content[..d.selectionStart] + w.clipboard + d.content[d.selectionStart + d.selectionLength..])
      && (d.selectionLength == 0 ==> e.after.doc == d.Insert(w.clipboard, d.selectionStart))
      && (Undoable(st, c, e.after) <==> d.content != "")
  {
    var d := w.doc;
    if d.selectionLength > 0 && d.SelectionInRange() {
      assert Min(d.selectionLength, |d.content| - d.selectionStart) == d.selectionLength;
    }
  }

  /** Undoing a paste, while its backup is intact, restores the content, and the selection
      exactly when it was in range. */
  lemma PasteThenUndo(st: Structure, c: Command, w: World, later: World)
    requires WellFounded(st) && c.variant == Paste && w.clipboard != ""
    requires BackupOf(later, c) == BackupOf(Execution(st, c, w).after, c)
    ensures var r := Reversal(st, c, later);
      && r.outcome == Completed(true)
      && r.after.doc.content == w.doc.content
      && (r.after.doc == w.doc <==> w.doc.SelectionInRange())
  {
    var d := w.doc;
    RestoredIgnoresDoc(later.doc, d.content, d.selectionStart, d.selectionLength);
  }

  // ==================== macros ====================

  /** Every sub-command of m is a Cut or a Paste. */
  ghost predicate EditingLeaves(st: Structure, m: Command)
  {
    forall i :: 0 <= i < |SubsOf(st, m)| ==> SubsOf(st, m)[i].variant in {Cut, Paste}
  }

  function SnapshotOf(d: Doc): Snapshot
  {
    Snapshot(Some(d.content), d.selectionStart, d.selectionLength)
  }

  /** Executing the macro from sub-command i on leaves alone the backup of every command
      that is not among the remaining sub-commands. */
  lemma {:induction false} ExecutionFromKeepsOtherBackups(st: Structure, m: Command, i: nat, v: World, x: Command)
    requires WellFounded(st) && EditingLeaves(st, m)
    requires forall j :: i <= j < |SubsOf(st, m)| ==> SubsOf(st, m)[j] != x
    ensures BackupOf(ExecutionFrom(st, m, i, v).after, x) == BackupOf(v, x)
    decreases |SubsOf(st, m)| - i
  {
    if i < |SubsOf(st, m)| {
      var e := Execution(st, SubsOf(st, m)[i], v);
      assert BackupOf(e.after, x) == BackupOf(v, x);
      if e.outcome == Completed(true) {
        ExecutionFromKeepsOtherBackups(st, m, i + 1, e.after, x);
      }
    }
  }

  /** After a fully successful run, the first sub-command holds the snapshot of the
      document the macro started from. */
  lemma FirstBackupIsStart(st: Structure, m: Command, v: World)
    requires WellFounded(st) && EditingLeaves(st, m) && |SubsOf(st, m)| > 0
    requires SubsOf(st, m)[0] !in SubsOf(st, m)[1..]
    requires ExecutionFrom(st, m, 0, v).outcome == Completed(true)
    ensures BackupOf(ExecutionFrom(st, m, 0, v).after, SubsOf(st, m)[0]) == SnapshotOf(v.doc)
  {
    var xs := SubsOf(st, m);
    var e := Execution(st, xs[0], v);
    assert e.outcome == Completed(true);
    assert BackupOf(e.after, xs[0]) == SnapshotOf(v.doc);
    forall j | 1 <= j < |xs|
      ensures xs[j] != xs[0]
    {
      assert xs[j] == xs[1..][j - 1];
    }
    ExecutionFromKeepsOtherBackups(st, m, 1, e.after, xs[0]);
  }

  /** Undoing sub-commands k-1 down to 0 of a macro of Cuts and Pastes, when the first can
      be undone, ends with the document restored from the first one's backup. */
  lemma {:induction false} ReversalFromEndsWithFirst(st: Structure, m: Command, k: nat, v: World)
    requires WellFounded(st) && EditingLeaves(st, m) && 1 <= k <= |SubsOf(st, m)|
    requires Undoable(st, SubsOf(st, m)[0], v)
    ensures var b := BackupOf(v, SubsOf(st, m)[0]);
      ReversalFrom(st, m, k, v) ==
        Effect(Completed(true), v.(doc := Doc(b.content.value, 0, 0).Select(b.selectionStart, b.selectionLength)))
    decreases k
  {
    var xs := SubsOf(st, m);
    var b := BackupOf(v, xs[0]);
    var c := xs[k - 1];
    if k == 1 {
      RestoredIgnoresDoc(v.doc, b.content.value, b.selectionStart, b.selectionLength);
    } else if !Undoable(st, c, v) {
      ReversalFromEndsWithFirst(st, m, k - 1, v);
    } else {
      var e := Reversal(st, c, v);
      assert e.outcome == Completed(true) && e.after.backups == v.backups;
      ReversalFromEndsWithFirst(st, m, k - 1, e.after);
    }
  }

  /** A macro of Cuts and Pastes whose first sub-command does not recur, run to success
      on a non-empty document, is undone by MacroCommand.UndoAsync back to that document's
      content and, when it was in range, its selection. */
  lemma MacroUndoRestores(st: Structure, m: Command, w: World)
    requires WellFounded(st) && m.variant == Macro && EditingLeaves(st, m) && |SubsOf(st, m)| > 0
    requires SubsOf(st, m)[0] !in SubsOf(st, m)[1..]
    requires w.doc.content != ""
    requires Execution(st, m, w).outcome == Completed(true)
    ensures var r := Reversal(st, m, Execution(st, m, w).after);
      && r.outcome == Completed(true)
      && r.after.doc.content == w.doc.content
      && (r.after.doc == w.doc <==> w.doc.SelectionInRange())
  {
    var start := Saved(w, m);
    var after := Execution(st, m, w).after;
    FirstBackupIsStart(st, m, start);
    assert Undoable(st, SubsOf(st, m)[0], after);
    ReversalFromEndsWithFirst(st, m, |SubsOf(st, m)|, after);
  }

  /** The same command object twice in a macro shares one backup, so undoing the macro
      does not get back to the start: cutting the selection "ab" of "abcd" twice (the
      second cut removes "cd", because DeleteText leaves the selection where it was) and
      undoing the macro leaves "cd". */
  lemma MacroWithRepeatedCutDoesNotRestore(st: Structure, m: Command, c: Command, w: World)
    requires m.variant == Macro && c.variant == Cut && c.depth < m.depth
    requires st == map[m := [c, c]]
    requires w.doc == Doc("abcd", 0, 2)
    ensures WellFounded(st)
    ensures Execution(st, m, w).outcome == Completed(true)
    ensures Reversal(st, m, Execution(st, m, w).after).after.doc == Doc("cd", 0, 2)
  {
    assert SubsOf(st, m) == [c, c];
    var w0 := Saved(w, m);
    CutThenUndo(st, c, w0, w0);
    var w1 := Execution(st, c, w0).after;
    assert w0.doc.content[..0] + w0.doc.content[2..] == "cd";
    assert w1.doc == Doc("cd", 0, 2);
    CutThenUndo(st, c, w1, w1);
    var w2 := Execution(st, c, w1).after;
    assert BackupOf(w2, c) == Snapshot(Some("cd"), 0, 2);
    assert ExecutionFrom(st, m, 0, w0) == ExecutionFrom(st, m, 1, w1);
    assert ExecutionFrom(st, m, 1, w1) == ExecutionFrom(st, m, 2, w2);
    assert Execution(st, m, w).after == w2;
    ReversalFromEndsWithFirst(st, m, 2, w2);
  }

  /** CanExecute and CanUndo of a macro are conjunctions over its sub-commands, so an
      empty macro can execute and undo; running it only records its backup, and undoing it
      changes nothing. */
  lemma EmptyMacro(st: Structure, m: Command, w: World)
    requires WellFounded(st) && m.variant == Macro && SubsOf(st, m) == []
    ensures Executable(st, m, w) == Completed(true) && Undoable(st, m, w)
    ensures Execution(st, m, w) == Effect(Completed(true), Saved(w, m))
    ensures Reversal(st, m, w) == Effect(Completed(true), w)
  {
  }

  // ==================== running commands by name ====================

  /** ExecuteCommandAsync: an unknown name, or a command whose CanExecute is not true,
      changes nothing and raises nothing; otherwise, unless the execution throws, exactly
      one CommandExecuted is raised, and the command is pushed exactly when it succeeded
      and its name is neither "undo" nor "copy". */
  lemma DispatchRules(st: Structure, table: map<string, Command>, name: string, w: World, maxSize: int)
    requires WellFounded(st)
    ensures name !in table ==> Dispatch(st, table, name, w, maxSize) == Dispatched(Completed(false), w, [])
    ensures name in table && Executable(st, table[name], w) != Completed(true) ==>
      Dispatch(st, table, name, w, maxSize) == Dispatched(Executable(st, table[name], w), w, [])
    ensures name in table && Executable(st, table[name], w) == Completed(true) ==>
      var c := table[name];
      var e := Execution(st, c, w);
      var d := Dispatch(st, table, name, w, maxSize);
      && d.outcome == e.outcome
      && (e.outcome.Faulted? ==> d.after == e.after && d.events == [])
      && (e.outcome.Completed? ==> d.events == [CommandExecuted(c, e.outcome.success)])
      && (e.outcome == Completed(true) && name != "undo" && name != "copy" ==>
            d.after == e.after.(history := Pushed(e.after.history, c, maxSize)))
      && (e.outcome != Completed(true) || name == "undo" || name == "copy" ==> d.after == e.after)
  {
  }

  // ==================== the demo session ====================

  /** The session of the sample program: type "Hello, World!", select "World", copy, cut,
      paste. The cut leaves the selection (7, 5) behind on "Hello, !", so the paste
      replaces only "!" and the text ends as "Hello, World"; the history holds the cut and
      the paste. An undo then pops the paste and restores "Hello, !" with the selection
      clamped to (7, 1). */
  lemma DemoSession(st: Structure, table: map<string, Command>, backups: map<Command, Snapshot>)
    requires WellFounded(st)
    requires "copy" in table && table["copy"].variant == Copy
    requires "cut" in table && table["cut"].variant == Cut
    requires "paste" in table && table["paste"].variant == Paste
    requires "undo" in table && table["undo"].variant == Undo
    ensures var w0 := World(Doc("", 0, 0).Insert("Hello, World!", 0).Select(7, 5), "", [], backups);
      var d1 := Dispatch(st, table, "copy", w0, 100);
      var d2 := Dispatch(st, table, "cut", d1.after, 100);
      var d3 := Dispatch(st, table, "paste", d2.after, 100);
      var d4 := Dispatch(st, table, "undo", d3.after, 100);
      && d1.outcome == Completed(true) && d2.outcome == Completed(true) && d3.outcome == Completed(true)
      && d1.after.clipboard == "World"
      && d2.after.doc == Doc("Hello, !", 7, 5)
      && d3.after.doc == Doc("Hello, World", 7, 5)
      && d3.after.history == [table["cut"], table["paste"]]
      && d4.outcome == Completed(true)
      && d4.after.doc == Doc("Hello, !", 7, 1)
      && d4.after.history == [table["cut"]]
  {
    var copy, cut, paste := table["copy"], table["cut"], table["paste"];
    var w0 := World(Doc("", 0, 0).Insert("Hello, World!", 0).Select(7, 5), "", [], backups);
    assert w0.doc == Doc("Hello, World!", 7, 5);
    var w1 := DemoCopy(st, table, w0);
    var w2 := DemoCut(st, table, w1);
    var w3 := DemoPaste(st, table, w2);
    DemoUndo(st, table, w3);
  }

  lemma DemoCopy(st: Structure, table: map<string, Command>, w0: World) returns (w1: World)
    requires WellFounded(st) && "copy" in table && table["copy"].variant == Copy
    requires w0.doc == Doc("Hello, World!", 7, 5) && w0.history == []
    ensures Dispatch(st, table, "copy", w0, 100) == Dispatched(Completed(true), w1, [CommandExecuted(table["copy"], true)])
    ensures w1 == w0.(clipboard := "World")
  {
    assert w0.doc.content[7..12] == "World";
    w1 := w0.(clipboard := "World");
  }

  lemma DemoCut(st: Structure, table: map<string, Command>, w1: World) returns (w2: World)
    requires WellFounded(st) && "cut" in table && table["cut"].variant == Cut
    requires w1.doc == Doc("Hello, World!", 7, 5) && w1.history == []
    ensures Dispatch(st, table, "cut", w1, 100) == Dispatched(Completed(true), w2, [CommandExecuted(table["cut"], true)])
    ensures w2 == Saved(w1, table["cut"]).(clipboard := "World", doc := Doc("Hello, !", 7, 5), history := [table["cut"]])
  {
    assert w1.doc.content[7..12] == "World";
    assert w1.doc.content[..7] + w1.doc.content[12..] == "Hello, !";
    w2 := Saved(w1, table["cut"]).(clipboard := "World", doc := Doc("Hello, !", 7, 5), history := [table["cut"]]);
  }

  lemma DemoPaste(st: Structure, table: map<string, Command>, w2: World) returns (w3: World)
    requires WellFounded(st) && "paste" in table && table["paste"].variant == Paste
    requires w2.doc == Doc("Hello, !", 7, 5) && w2.clipboard == "World" && |w2.history| == 1
    ensures Dispatch(st, table, "paste", w2, 100) == Dispatched(Completed(true), w3, [CommandExecuted(table["paste"], true)])
    ensures w3 == Saved(w2, table["paste"]).(doc := Doc("Hello, World", 7, 5), history := w2.history + [table["paste"]])
  {
    assert w2.doc.content[..7] + "World" + w2.doc.content[8..] == "Hello, World";
    w3 := Saved(w2, table["paste"]).(doc := Doc("Hello, World", 7, 5), history := w2.history + [table["paste"]]);
  }

  lemma DemoUndo(st: Structure, table: map<string, Command>, w3: World)
    requires WellFounded(st) && "undo" in table && table["undo"].variant == Undo
    requires "paste" in table && table["paste"].variant == Paste
    requires |w3.history| == 2 && w3.history[1] == table["paste"]
    requires BackupOf(w3, table["paste"]) == Snapshot(Some("Hello, !"), 7, 5)
    ensures var d4 := Dispatch(st, table, "undo", w3, 100);
      && d4.outcome == Completed(true)
      && d4.after == w3.(doc := Doc("Hello, !", 7, 1), history := w3.history[..1])
  {
    RestoredIgnoresDoc(w3.doc, "Hello, !", 7, 5);
  }
}
