/**
 * The Command sample: Copy, Cut, Paste, Undo and Macro commands over one text editor,
 * a clipboard, a bounded command history, and the application that runs commands by
 * name.
 *
 * The behaviour is specified twice: once on values (World, Structure and the functions
 * Executable, Undoable, Execution, Reversal, Dispatch), and once by the classes, whose
 * methods change the heap step by step as the C# code does and are proved to agree with
 * the value-level functions. Properties of the behaviour are proved about the functions
 * in module EditorCommandProperties.
 */
module EditorCommands {
  import opened Optional
  import opened TextEditing

  // ==================== values ====================

  /** The concrete command classes (CopyCommand, CutCommand, ...). */
  datatype Variant = Copy | Cut | Paste | Undo | Macro

  /** What awaiting ExecuteAsync, UndoAsync or CanExecute yields: a boolean, or an
      exception that propagates to the caller. */
  datatype Outcome = Completed(success: bool) | Faulted(fault: Fault)

  /** The EditorCommand backup fields: BackupContent (null until the first SaveBackup),
      BackupSelectionStart, BackupSelectionLength. */
  datatype Snapshot = Snapshot(content: Option<string>, selectionStart: nat, selectionLength: nat)

  const NoBackup := Snapshot(None, 0, 0)

  /** Everything a command can read or change: the editor's document, the clipboard,
      the history stack (oldest entry first) and every command's backup. */
  datatype World = World(doc: Doc, clipboard: string, history: seq<Command>, backups: map<Command, Snapshot>)

  /** The sub-command list of every macro. */
  type Structure = map<Command, seq<Command>>

  /** An execution or undo: its outcome and the world afterwards. */
  datatype Effect = Effect(outcome: Outcome, after: World)

  /** One CommandExecuted notification (the elapsed time is not modelled). */
  datatype CommandExecuted = CommandExecuted(command: Command, success: bool)

  /** What running a command by name yields: its outcome, the world afterwards and the
      notifications raised. */
  datatype Dispatched = Dispatched(outcome: Outcome, after: World, events: seq<CommandExecuted>)

  // ==================== bounded stack helpers ====================

  /** The elements of s, last first. */
  function Reverse<T>(s: seq<T>): (r: seq<T>)
    ensures |r| == |s|
  {
    if s == [] then [] else [s[|s| - 1]] + Reverse(s[..|s| - 1])
  }

  /** A stack (oldest first) without its oldest entry; an empty stack stays empty. */
  function Evicted<T>(s: seq<T>): (r: seq<T>)
    ensures |r| == if s == [] then 0 else |s| - 1
  {
    if s == [] then [] else s[1..]
  }

  /** CommandHistory.Push on the stack: at capacity evict the oldest entry, then append. */
  function Pushed<T>(s: seq<T>, c: T, maxSize: int): seq<T>
  {
    (if |s| >= maxSize then Evicted(s) else s) + [c]
  }

  lemma PushedElements<T>(s: seq<T>, c: T, maxSize: int)
    ensures forall x :: x in Pushed(s, c, maxSize) ==> x in s || x == c
  {
  }

  /** Pushes every element of xs in order. */
  function PushedAll<T>(s: seq<T>, xs: seq<T>, maxSize: int): seq<T>
    decreases |xs|
  {
    if xs == [] then s else PushedAll(Pushed(s, xs[0], maxSize), xs[1..], maxSize)
  }

  /** The eviction loop of CommandHistory.Push: move every entry but the bottom one to
      a temporary stack, clear, and move them back. Stacks are sequences with the top at
      the end. */
  method DropOldest<T>(stack: seq<T>) returns (rest: seq<T>)
    ensures rest == Evicted(stack)
  {
    var history := stack;
    var temp: seq<T> := [];
    while |history| > 1
      invariant history + Reverse(temp) == stack
      invariant stack != [] ==> |history| >= 1
      decreases |history|
    {
      temp := temp + [history[|history| - 1]];
      assert Reverse(temp) == [history[|history| - 1]] + Reverse(temp[..|temp| - 1]);
      assert temp[..|temp| - 1] + [history[|history| - 1]] == temp;
      history := history[..|history| - 1];
    }
    assert Reverse(temp) == Evicted(stack) by {
      if stack != [] {
        assert stack == [history[0]] + Reverse(temp);
      }
    }
    history := [];
    while |temp| > 0
      invariant history + Reverse(temp) == Evicted(stack)
      decreases |temp|
    {
      history := history + [temp[|temp| - 1]];
      temp := temp[..|temp| - 1];
    }
    rest := history;
  }

  // ==================== value-level specification ====================

  function SubsOf(st: Structure, c: Command): seq<Command>
  {
    if c in st then st[c] else []
  }

  /** Every sub-command is strictly shallower than its macro, so macro nesting is acyclic. */
  ghost predicate WellFounded(st: Structure)
  {
    forall c, i :: c in st && 0 <= i < |st[c]| ==> st[c][i].depth < c.depth
  }

  function BackupOf(w: World, c: Command): Snapshot
  {
    if c in w.backups then w.backups[c] else NoBackup
  }

  /** SaveBackup: c records the current content and selection. */
  function Saved(w: World, c: Command): World
  {
    w.(backups := w.backups[c := Snapshot(Some(w.doc.content), w.doc.selectionStart, w.doc.selectionLength)])
  }

  /** CanUndo: never for Copy and Undo; for Cut and Paste when the backup is neither null
      nor empty; for a macro when every sub-command can undo. */
  ghost predicate Undoable(st: Structure, c: Command, w: World)
    requires WellFounded(st)
    decreases c.depth
  {
    match c.variant
    case Copy => false
    case Undo => false
    case Cut => BackupOf(w, c).content.Some? && BackupOf(w, c).content.value != ""
    case Paste => BackupOf(w, c).content.Some? && BackupOf(w, c).content.value != ""
    case Macro =>
      forall i :: 0 <= i < |SubsOf(st, c)| ==> Undoable(st, SubsOf(st, c)[i], w)
  }

  /** CanExecute: Copy asks for a non-empty selection (reading SelectedText, which throws
      on a stale selection); Undo for a non-empty history; Cut and Paste always agree; a
      macro asks its sub-commands in order and stops at the first false. */
  ghost function Executable(st: Structure, c: Command, w: World): Outcome
    requires WellFounded(st)
    decreases c.depth, 1
  {
    match c.variant
    case Copy =>
      (match w.doc.SelectedText()
       case None => Faulted(ArgumentOutOfRange)
       case Some(t) => Completed(t != ""))
    case Cut => Completed(true)
    case Paste => Completed(true)
    case Undo => Completed(|w.history| > 0)
    case Macro => ExecutableFrom(st, c, 0, w)
  }

  ghost function ExecutableFrom(st: Structure, m: Command, i: nat, w: World): Outcome
    requires WellFounded(st)
    decreases m.depth, 0, |SubsOf(st, m)| - i
  {
    if i >= |SubsOf(st, m)| then Completed(true)
    else
      var o := Executable(st, SubsOf(st, m)[i], w);
      if o == Completed(true) then ExecutableFrom(st, m, i + 1, w) else o
  }

  /** ExecuteAsync. */
  ghost function Execution(st: Structure, c: Command, w: World): Effect
    requires WellFounded(st)
    decreases 1, c.depth, 1
  {
    match c.variant
    case Copy => CopyExecution(w)
    case Cut => CutExecution(c, w)
    case Paste => PasteExecution(c, w)
    case Undo => UndoExecution(st, w)
    case Macro => ExecutionFrom(st, c, 0, Saved(w, c))
  }

  /** CopyCommand.ExecuteAsync: the selected text goes to the clipboard. */
  function CopyExecution(w: World): Effect
  {
    match w.doc.SelectedText()
    case None => Effect(Faulted(ArgumentOutOfRange), w)
    case Some(t) =>
      if t == "" then Effect(Completed(false), w)
      else Effect(Completed(true), w.(clipboard := t))
  }

  /** CutCommand.ExecuteAsync: back up, copy the selection to the clipboard, delete it. */
  function CutExecution(c: Command, w: World): Effect
  {
    match w.doc.SelectedText()
    case None => Effect(Faulted(ArgumentOutOfRange), w)
    case Some(t) =>
      if t == "" then Effect(Completed(false), w)
      else
        Effect(Completed(true), Saved(w, c).(clipboard := t,
          doc := w.doc.Delete(w.doc.selectionStart, w.doc.selectionLength)))
  }

  /** PasteCommand.ExecuteAsync: back up, then replace the selection by the clipboard
      text, or insert it at the caret when nothing is selected. */
  function PasteExecution(c: Command, w: World): Effect
  {
    if w.clipboard == "" then Effect(Completed(false), w)
    else
      var d := w.doc;
      Effect(Completed(true), Saved(w, c).(doc :=
        if d.selectionLength > 0 then d.Replace(w.clipboard, d.selectionStart, d.selectionLength).value
        else d.Insert(w.clipboard, d.selectionStart)))
  }

  /** UndoCommand.ExecuteAsync: pop the newest history entry and undo it if it can. */
  ghost function UndoExecution(st: Structure, w: World): Effect
    requires WellFounded(st)
    decreases 1, 0, 0
  {
    if |w.history| == 0 then Effect(Completed(false), w)
    else
      var last := w.history[|w.history| - 1];
      var popped := w.(history := w.history[..|w.history| - 1]);
      if Undoable(st, last, popped) then Reversal(st, last, popped)
      else Effect(Completed(false), popped)
  }

  /** The macro's loop from sub-command i on: stop at the first outcome other than
      Completed(true). */
  ghost function ExecutionFrom(st: Structure, m: Command, i: nat, w: World): Effect
    requires WellFounded(st)
    decreases 1, m.depth, 0, |SubsOf(st, m)| - i
  {
    if i >= |SubsOf(st, m)| then Effect(Completed(true), w)
    else
      var e := Execution(st, SubsOf(st, m)[i], w);
      if e.outcome == Completed(true) then ExecutionFrom(st, m, i + 1, e.after) else e
  }

  /** The document a Cut or Paste undo produces from a backup: the whole content
      replaced by the backup, then the backup selection selected again. */
  function Restored(d: Doc, b: string, start: nat, length: nat): Doc
  {
    d.Replace(b, 0, |d.content|).value.Select(start, length)
  }

  /** UndoAsync. Only the document can change. */
  ghost function Reversal(st: Structure, c: Command, w: World): Effect
    requires WellFounded(st)
    decreases 0, c.depth, 1
  {
    match c.variant
    case Copy => Effect(Completed(true), w)
    case Undo => Effect(Completed(false), w)
    case Cut => RestoreBackup(c, w)
    case Paste => RestoreBackup(c, w)
    case Macro => ReversalFrom(st, c, |SubsOf(st, c)|, w)
  }

  function RestoreBackup(c: Command, w: World): Effect
  {
    var b := BackupOf(w, c);
    match b.content
    case None => Effect(Faulted(ArgumentNull), w)
    case Some(text) => Effect(Completed(true), w.(doc := Restored(w.doc, text, b.selectionStart, b.selectionLength)))
  }

  /** The macro's undo loop over sub-commands k-1 down to 0: skip those that cannot undo,
      stop at the first undo that does not complete with true. */
  ghost function ReversalFrom(st: Structure, m: Command, k: nat, w: World): Effect
    requires WellFounded(st)
    requires k <= |SubsOf(st, m)|
    decreases 0, m.depth, 0, k
  {
    if k == 0 then Effect(Completed(true), w)
    else
      var c := SubsOf(st, m)[k - 1];
      if !Undoable(st, c, w) then ReversalFrom(st, m, k - 1, w)
      else
        var e := Reversal(st, c, w);
        if e.outcome == Completed(true) then ReversalFrom(st, m, k - 1, e.after) else e
  }

  /** The history entries whose CanUndo holds, oldest first. */
  ghost function UndoableEntries(st: Structure, w: World, entries: seq<Command>): seq<Command>
    requires WellFounded(st)
  {
    if entries == [] then []
    else
      var last := entries[|entries| - 1];
      UndoableEntries(st, w, entries[..|entries| - 1]) + (if Undoable(st, last, w) then [last] else [])
  }

  /** ExecuteCommandAsync: look the name up, ask CanExecute, execute, push on success
      unless the name is "undo" or "copy", and raise CommandExecuted. An exception skips
      both the push and the notification. */
  ghost function Dispatch(st: Structure, table: map<string, Command>, name: string, w: World, maxSize: int): Dispatched
    requires WellFounded(st)
  {
    if name !in table then Dispatched(Completed(false), w, [])
    else Ran(st, table[name], name, w, maxSize)
  }

  /** Running the command c registered under name: ask CanExecute, then execute. */
  ghost function Ran(st: Structure, c: Command, name: string, w: World, maxSize: int): Dispatched
    requires WellFounded(st)
  {
    var can := Executable(st, c, w);
    if can != Completed(true) then Dispatched(can, w, [])
    else Concluded(c, name, Execution(st, c, w), maxSize)
  }

  /** After the execution e of c: push c unless it failed or is named "undo" or "copy",
      and raise CommandExecuted unless the execution threw. */
  function Concluded(c: Command, name: string, e: Effect, maxSize: int): Dispatched
  {
    if e.outcome.Faulted? then Dispatched(e.outcome, e.after, [])
    else
      var pushed := e.outcome.success && name != "undo" && name != "copy";
      Dispatched(e.outcome,
        if pushed then e.after.(history := Pushed(e.after.history, c, maxSize)) else e.after,
        [CommandExecuted(c, e.outcome.success)])
  }

  // ==================== heap objects ====================

  /** ClipboardService: one string slot, empty by default. */
  class Clipboard {
    var text: string

    constructor ()
      ensures text == ""
    {
      text := "";
    }

    method GetText() returns (t: string)
      ensures t == text
    {
      t := text;
    }

    method SetText(t: string)
      modifies this
      ensures text == t
    {
      text := t;
    }
  }

  /** CommandHistory: a stack of commands (oldest first, newest last), bounded by
      maxSize, with a redo stack that is only ever cleared. */
  class CommandHistory {
    var stack: seq<Command>
    var redoStack: seq<Command>
    const maxSize: int

    ghost predicate Valid()
      reads this`redoStack
    {
      redoStack == []
    }

    constructor (maxSize: int)
      ensures Valid() && stack == [] && this.maxSize == maxSize
    {
      stack := [];
      redoStack := [];
      this.maxSize := maxSize;
    }

    function Count(): nat
      reads this
    {
      |stack|
    }

    method Push(c: Command)
      requires Valid()
      modifies this
      ensures Valid()
      ensures stack == Pushed(old(stack), c, maxSize)
    {
      if |stack| >= maxSize {
        stack := DropOldest(stack);
      }
      stack := stack + [c];
      redoStack := [];
    }

    method Pop() returns (r: Option<Command>)
      requires Valid()
      modifies this
      ensures Valid()
      ensures old(stack) == [] ==> r == None && stack == []
      ensures old(stack) != [] ==> r == Some(old(stack)[|old(stack)| - 1]) && stack == old(stack)[..|old(stack)| - 1]
    {
      if |stack| > 0 {
        r := Some(stack[|stack| - 1]);
        stack := stack[..|stack| - 1];
      } else {
        r := None;
      }
    }

    method Peek() returns (r: Option<Command>)
      ensures stack == [] ==> r == None
      ensures stack != [] ==> r == Some(stack[|stack| - 1])
    {
      r := if |stack| > 0 then Some(stack[|stack| - 1]) else None;
    }

    method Clear()
      modifies this
      ensures Valid() && stack == []
    {
      stack := [];
      redoStack := [];
    }

    /** Stack.ToArray: newest first. */
    function ToArray(): seq<Command>
      reads this
    {
      Reverse(stack)
    }

    /** GetHistory: ToArray reversed, i.e. oldest first. */
    function GetHistory(): (r: seq<Command>)
      reads this
      ensures r == stack
    {
      ReverseInvolutive(stack);
      Reverse(ToArray())
    }

    /** GetUndoableCommands: the history entries whose CanUndo currently holds. */
    method GetUndoableCommands(ghost env: Env) returns (r: seq<Command>)
      requires env.Valid() && env.history == this
      ensures r == UndoableEntries(env.Structure(), env.Now(), stack)
    {
      var entries := GetHistory();
      ghost var st, w := env.Structure(), env.Now();
      r := [];
      var i := 0;
      while i < |entries|
        invariant 0 <= i <= |entries|
        invariant r == UndoableEntries(st, w, entries[..i])
      {
        assert entries[..i + 1][..i] == entries[..i];
        var can := entries[i].CanUndo(env);
        if can {
          r := r + [entries[i]];
        }
        i := i + 1;
      }
      assert entries[..i] == entries;
    }
  }

  lemma ReverseInvolutive<T>(s: seq<T>)
    ensures Reverse(Reverse(s)) == s
  {
    if s != [] {
      ReverseInvolutive(s[..|s| - 1]);
      ReverseAppend([s[|s| - 1]], Reverse(s[..|s| - 1]));
      assert Reverse([s[|s| - 1]]) == [s[|s| - 1]];
      assert s[..|s| - 1] + [s[|s| - 1]] == s;
    }
  }

  lemma ReverseAppend<T>(a: seq<T>, b: seq<T>)
    ensures Reverse(a + b) == Reverse(b) + Reverse(a)
    decreases |b|
  {
    if b == [] {
      assert a + b == a;
    } else {
      assert (a + b)[..|a + b| - 1] == a + b[..|b| - 1];
      ReverseAppend(a, b[..|b| - 1]);
    }
  }

  /** The collaborators one set of commands shares (the application's editor, clipboard
      and history) and the set of commands itself. */
  datatype Env = Env(commands: set<Command>, editor: TextEditor, clipboard: Clipboard, history: CommandHistory)
  {

    ghost predicate Valid()
      reads commands`commands, history`stack, history`redoStack
    {
      && history.Valid()
      && (forall c :: c in commands ==> Wired(c))
      && (forall c :: c in commands ==> forall s :: s in c.commands ==> s in commands)
      && (forall c :: c in history.stack ==> c in commands)
      && WellFounded(Structure())
    }

    /** c works on this editor, and on this clipboard or history where it uses one. */
    predicate Wired(c: Command)
    {
      && c.editor == editor
      && (c.variant in {Copy, Cut, Paste} ==> c.clipboard == clipboard)
      && (c.variant == Variant.Undo ==> c.history == history)
    }

    ghost function Structure(): (st: Structure)
      reads commands`commands
      ensures st.Keys == commands
      ensures forall c :: c in commands ==> st[c] == c.commands
    {
      map c | c in commands :: c.commands
    }

    ghost function Now(): World
      reads commands`backup, editor, clipboard, history`stack
    {
      World(editor.State(), clipboard.text, history.stack, map c | c in commands :: c.backup)
    }
  }

  /** Commands without sub-commands, sharing one editor, clipboard and empty history. */
  lemma FlatEnvValid(env: Env)
    requires env.history.Valid() && env.history.stack == []
    requires forall c :: c in env.commands ==> c.commands == [] && env.Wired(c)
    ensures env.Valid()
  {
  }

  /** A command. The C# class hierarchy (EditorCommand and its five subclasses) becomes
      one class whose variant says which subclass it is. */
  class Command {
    const variant: Variant
    const editor: TextEditor
    const clipboard: Clipboard?
    const history: CommandHistory?
    /** Nesting height: a macro is deeper than every sub-command. */
    ghost const depth: nat
    /** BackupContent, BackupSelectionStart and BackupSelectionLength. */
    var backup: Snapshot
    /** MacroCommand._commands; empty for the other variants. */
    var commands: seq<Command>

    constructor CopyCommand(editor: TextEditor, clipboard: Clipboard)
      ensures variant == Copy && this.editor == editor && this.clipboard == clipboard && history == null
      ensures depth == 0 && backup == NoBackup && commands == []
    {
      variant, this.editor, this.clipboard, history, depth := Copy, editor, clipboard, null, 0;
      backup, commands := NoBackup, [];
    }

    constructor CutCommand(editor: TextEditor, clipboard: Clipboard)
      ensures variant == Cut && this.editor == editor && this.clipboard == clipboard && history == null
      ensures depth == 0 && backup == NoBackup && commands == []
    {
      variant, this.editor, this.clipboard, history, depth := Cut, editor, clipboard, null, 0;
      backup, commands := NoBackup, [];
    }

    constructor PasteCommand(editor: TextEditor, clipboard: Clipboard)
      ensures variant == Paste && this.editor == editor && this.clipboard == clipboard && history == null
      ensures depth == 0 && backup == NoBackup && commands == []
    {
      variant, this.editor, this.clipboard, history, depth := Paste, editor, clipboard, null, 0;
      backup, commands := NoBackup, [];
    }

    constructor UndoCommand(editor: TextEditor, history: CommandHistory)
      ensures variant == Variant.Undo && this.editor == editor && clipboard == null && this.history == history
      ensures depth == 0 && backup == NoBackup && commands == []
    {
      variant, this.editor, clipboard, this.history, depth := Variant.Undo, editor, null, history, 0;
      backup, commands := NoBackup, [];
    }

    /** A macro that may later hold sub-commands shallower than `depth`. */
    constructor MacroCommand(editor: TextEditor, ghost depth: nat)
      ensures variant == Macro && this.editor == editor && clipboard == null && history == null
      ensures this.depth == depth && backup == NoBackup && commands == []
    {
      variant, this.editor, clipboard, history, this.depth := Macro, editor, null, null, depth;
      backup, commands := NoBackup, [];
    }

    method AddCommand(c: Command)
      requires variant == Macro && c.depth < depth
      modifies this`commands
      ensures commands == old(commands) + [c]
    {
      commands := commands + [c];
    }

    method SaveBackup()
      modifies this`backup
      ensures backup == Snapshot(Some(editor.content), editor.selectionStart, editor.selectionLength)
    {
      backup := Snapshot(Some(editor.content), editor.selectionStart, editor.selectionLength);
    }

    method CanUndo(ghost env: Env) returns (r: bool)
      requires env.Valid() && this in env.commands
      ensures r == Undoable(env.Structure(), this, env.Now())
      decreases depth
    {
      match variant
      case Copy => r := false;
      case Undo => r := false;
      case Cut => r := backup.content.Some? && backup.content.value != "";
      case Paste => r := backup.content.Some? && backup.content.value != "";
      case Macro =>
        assert SubsOf(env.Structure(), this) == commands;
        r := true;
        var i := 0;
        while i < |commands| && r
          invariant 0 <= i <= |commands|
          invariant r == forall j :: 0 <= j < i ==> Undoable(env.Structure(), commands[j], env.Now())
        {
          r := commands[i].CanUndo(env);
          i := i + 1;
        }
    }

    method CanExecute(ghost env: Env) returns (r: Outcome)
      requires env.Valid() && this in env.commands
      ensures r == Executable(env.Structure(), this, env.Now())
      decreases depth
    {
      match variant
      case Copy =>
        var selected := editor.SelectedText();
        r := if selected.None? then Faulted(ArgumentOutOfRange) else Completed(selected.value != "");
      case Cut => r := Completed(true);
      case Paste => r := Completed(true);
      case Undo => r := Completed(history.Count() > 0);
      case Macro =>
        var i := 0;
        r := Completed(true);
        while i < |commands| && r == Completed(true)
          invariant 0 <= i <= |commands|
          invariant Executable(env.Structure(), this, env.Now()) ==
            if r == Completed(true) then ExecutableFrom(env.Structure(), this, i, env.Now()) else r
        {
          r := commands[i].CanExecute(env);
          i := i + 1;
        }
    }

    /** ExecuteAsync. */
    method Execute(ghost env: Env) returns (r: Outcome)
      requires env.Valid() && this in env.commands
      modifies env.commands`backup, env.editor, env.clipboard, env.history
      ensures env.Valid() && env.Structure() == old(env.Structure())
      ensures Effect(r, env.Now()) == old(Execution(env.Structure(), this, env.Now()))
      decreases 1, depth, 2
    {
      match variant
      case Copy => r := ExecuteCopy(env);
      case Cut => r := ExecuteCut(env);
      case Paste => r := ExecutePaste(env);
      case Undo => r := ExecuteUndo(env);
      case Macro => r := ExecuteMacro(env);
    }

    method ExecuteCopy(ghost env: Env) returns (r: Outcome)
      requires env.Valid() && this in env.commands && variant == Copy
      modifies env.clipboard
      ensures Effect(r, env.Now()) == old(CopyExecution(env.Now()))
    {
      var selected := editor.SelectedText();
      if selected.None? {
        return Faulted(ArgumentOutOfRange);
      }
      if selected.value == "" {
        return Completed(false);
      }
      clipboard.SetText(selected.value);
      r := Completed(true);
    }

    method ExecuteCut(ghost env: Env) returns (r: Outcome)
      requires env.Valid() && this in env.commands && variant == Cut
      modifies this`backup, env.editor, env.clipboard
      ensures Effect(r, env.Now()) == old(CutExecution(this, env.Now()))
    {
      ghost var w := env.Now();
      assert clipboard == env.clipboard && editor == env.editor;
      var selected := editor.SelectedText();
      if selected.None? {
        return Faulted(ArgumentOutOfRange);
      }
      if selected.value == "" {
        return Completed(false);
      }
      SaveBackup();
      ghost var saved := Saved(w, this);
      assert env.Now() == saved;
      clipboard.SetText(selected.value);
      editor.DeleteText(editor.selectionStart, editor.selectionLength);
      r := Completed(true);
      assert env.Now() == saved.(clipboard := selected.value, doc := editor.State());
    }

    method ExecutePaste(ghost env: Env) returns (r: Outcome)
      requires env.Valid() && this in env.commands && variant == Paste
      modifies this`backup, env.editor
      ensures Effect(r, env.Now()) == old(PasteExecution(this, env.Now()))
    {
      ghost var w := env.Now();
      assert clipboard == env.clipboard && editor == env.editor;
      var text := clipboard.GetText();
      if text == "" {
        return Completed(false);
      }
      SaveBackup();
      ghost var saved := Saved(w, this);
      assert env.Now() == saved;
      if editor.selectionLength > 0 {
        var thrown := editor.ReplaceText(text, editor.selectionStart, editor.selectionLength);
      } else {
        editor.InsertText(text, editor.selectionStart);
      }
      r := Completed(true);
      assert env.Now() == saved.(doc := editor.State());
    }

    method ExecuteUndo(ghost env: Env) returns (r: Outcome)
      requires env.Valid() && this in env.commands && variant == Variant.Undo
      modifies env.history, env.editor
      ensures env.Valid()
      ensures Effect(r, env.Now()) == old(UndoExecution(env.Structure(), env.Now()))
      decreases 1, depth, 1
    {
      ghost var st, w := env.Structure(), env.Now();
      var last := PopHistory(env);
      ghost var popped := env.Now();
      if last.Some? {
        var can := last.value.CanUndo(env);
        if can {
          assert UndoExecution(st, w) == Reversal(st, last.value, popped);
          r := last.value.Undo(env);
          return;
        }
      }
      r := Completed(false);
    }

    /** The pop at the start of UndoCommand.ExecuteAsync. */
    method PopHistory(ghost env: Env) returns (last: Option<Command>)
      requires env.Valid() && this in env.commands && variant == Variant.Undo
      modifies env.history
      ensures env.Valid()
      ensures var w := old(env.Now());
        if w.history == [] then last == None && env.Now() == w
        else
          && last == Some(w.history[|w.history| - 1]) && last.value in env.commands
          && env.Now() == w.(history := w.history[..|w.history| - 1])
    {
      assert history == env.history;
      last := history.Pop();
    }

    method ExecuteMacro(ghost env: Env) returns (r: Outcome)
      requires env.Valid() && this in env.commands && variant == Macro
      modifies env.commands`backup, env.editor, env.clipboard, env.history
      ensures env.Valid() && env.Structure() == old(env.Structure())
      ensures Effect(r, env.Now()) == old(Execution(env.Structure(), this, env.Now()))
      decreases 1, depth, 1
    {
      ghost var w := env.Now();
      SaveBackup();
      assert env.Now() == Saved(w, this);
      r := RunCommands(env);
    }

    /** The macro's loop: the sub-commands in list order, up to the first that fails. */
    method RunCommands(ghost env: Env) returns (r: Outcome)
      requires env.Valid() && this in env.commands && variant == Macro
      modifies env.commands`backup, env.editor, env.clipboard, env.history
      ensures env.Valid() && env.Structure() == old(env.Structure())
      ensures Effect(r, env.Now()) == old(ExecutionFrom(env.Structure(), this, 0, env.Now()))
      decreases 1, depth, 0
    {
      ghost var st := env.Structure();
      ghost var start := env.Now();
      var success := true;
      var i := 0;
      while i < |commands|
        invariant 0 <= i <= |commands|
        invariant env.Valid() && env.Structure() == st && commands == st[this]
        invariant ExecutionFrom(st, this, 0, start) == ExecutionFrom(st, this, i, env.Now())
        decreases |commands| - i
      {
        var o := commands[i].Execute(env);
        if o.Faulted? {
          return o;
        }
        if !o.success {
          success := false;
          break;
        }
        i := i + 1;
      }
      r := Completed(success);
    }

    /** UndoAsync. */
    method Undo(ghost env: Env) returns (r: Outcome)
      requires env.Valid() && this in env.commands
      modifies env.editor
      ensures Effect(r, env.Now()) == old(Reversal(env.Structure(), this, env.Now()))
      decreases 0, depth, 2
    {
      match variant
      case Copy => r := Completed(true);
      case Undo => r := Completed(false);
      case Cut => r := RestoreBackupInEditor(env);
      case Paste => r := RestoreBackupInEditor(env);
      case Macro => r := UndoMacro(env);
    }

    method RestoreBackupInEditor(ghost env: Env) returns (r: Outcome)
      requires env.Valid() && this in env.commands
      modifies env.editor
      ensures Effect(r, env.Now()) == old(RestoreBackup(this, env.Now()))
    {
      if backup.content.None? {
        return Faulted(ArgumentNull);
      }
      var thrown := editor.ReplaceText(backup.content.value, 0, |editor.content|);
      editor.Select(backup.selectionStart, backup.selectionLength);
      r := Completed(true);
    }

    method UndoMacro(ghost env: Env) returns (r: Outcome)
      requires env.Valid() && this in env.commands && variant == Macro
      modifies env.editor
      ensures Effect(r, env.Now()) == old(Reversal(env.Structure(), this, env.Now()))
      decreases 0, depth, 1
    {
      ghost var st := env.Structure();
      var success := true;
      var i := |commands|;
      while i > 0
        invariant 0 <= i <= |commands|
        invariant ReversalFrom(st, this, |commands|, old(env.Now())) == ReversalFrom(st, this, i, env.Now())
        decreases i
      {
        i := i - 1;
        var c := commands[i];
        var can := c.CanUndo(env);
        if can {
          var o := c.Undo(env);
          if o.Faulted? {
            return o;
          }
          if !o.success {
            success := false;
            break;
          }
        }
      }
      r := Completed(success);
    }
  }

  // ==================== the application ====================

  /** AdvancedTextEditorApplication: one editor, clipboard and history, and a table of
      named commands. `known` holds every command the table can reach. */
  class EditorApplication {
    const editor: TextEditor
    const clipboard: Clipboard
    const history: CommandHistory
    var commands: map<string, Command>
    ghost var known: set<Command>
    /** CommandExecuted notifications raised so far. */
    ghost var executed: seq<CommandExecuted>

    ghost function Shared(): Env
      reads this`known
    {
      Env(known, editor, clipboard, history)
    }

    ghost predicate Valid()
      reads this`commands, this`known, known`commands, history`stack, history`redoStack
    {
      Shared().Valid() && forall name :: name in commands ==> commands[name] in known
    }

    constructor ()
      ensures Valid()
      ensures commands.Keys == {"copy", "cut", "paste", "undo"}
      ensures commands["copy"].variant == Copy && commands["cut"].variant == Cut
      ensures commands["paste"].variant == Paste && commands["undo"].variant == Variant.Undo
      ensures known == {commands["copy"], commands["cut"], commands["paste"], commands["undo"]}
      ensures editor.State() == Doc("", 0, 0) && clipboard.text == "" && history.stack == []
      ensures history.maxSize == 100 && executed == []
    {
      var e := new TextEditor();
      var cb := new Clipboard();
      var h := new CommandHistory(100);
      editor, clipboard, history := e, cb, h;
      var copy := new Command.CopyCommand(e, cb);
      var cut := new Command.CutCommand(e, cb);
      var paste := new Command.PasteCommand(e, cb);
      var undo := new Command.UndoCommand(e, h);
      var table := map["copy" := copy, "cut" := cut, "paste" := paste, "undo" := undo];
      assert table["copy"] == copy && table["cut"] == cut && table["paste"] == paste && table["undo"] == undo;
      commands := table;
      known := {copy, cut, paste, undo};
      executed := [];
      new;
      FlatEnvValid(Shared());
    }

    /** ExecuteCommandAsync. */
    method ExecuteCommand(name: string) returns (r: Outcome)
      requires Valid()
      modifies this`executed, known`backup, editor, clipboard, history
      ensures Valid() && commands == old(commands) && known == old(known)
      ensures
        var d := old(Dispatch(Shared().Structure(), commands, name, Shared().Now(), history.maxSize));
        r == d.outcome && Shared().Now() == d.after && executed == old(executed) + d.events
    {
      if name !in commands {
        return Completed(false);
      }
      r := Run(commands[name], name);
    }

    method Run(command: Command, name: string) returns (r: Outcome)
      requires Valid() && command in known
      modifies this`executed, known`backup, editor, clipboard, history
      ensures Valid()
      ensures
        var d := old(Ran(Shared().Structure(), command, name, Shared().Now(), history.maxSize));
        r == d.outcome && Shared().Now() == d.after && executed == old(executed) + d.events
    {
      ghost var env, w := Shared(), Shared().Now();
      ghost var st := env.Structure();
      var can := command.CanExecute(env);
      if can != Completed(true) {
        return can;
      }
      r := command.Execute(env);
      Conclude(command, name, r);
      assert Shared() == env;
    }

    /** The history push and the CommandExecuted notification after command ran with
        outcome r. */
    method Conclude(command: Command, name: string, r: Outcome)
      requires Valid() && command in known
      modifies history, this`executed
      ensures Valid()
      ensures var d := Concluded(command, name, Effect(r, old(Shared().Now())), history.maxSize);
        Shared().Now() == d.after && executed == old(executed) + d.events
    {
      if r.Faulted? {
        return;
      }
      ghost var w := Shared().Now();
      if r.success && name != "undo" && name != "copy" {
        PushHistory(command);
        assert Shared().Now() == w.(history := Pushed(w.history, command, history.maxSize));
      }
      executed := executed + [CommandExecuted(command, r.success)];
    }

    method PushHistory(command: Command)
      requires Valid() && command in known
      modifies history
      ensures Valid() && history.stack == Pushed(old(history.stack), command, history.maxSize)
    {
      PushedElements(history.stack, command, history.maxSize);
      history.Push(command);
    }

    /** RegisterCommand: the name maps to command from now on. `reach` holds the command
        with every sub-command it brings along that the application does not know yet;
        each must work on this application's editor, clipboard and history. */
    method RegisterCommand(name: string, command: Command, ghost reach: set<Command>)
      requires Valid() && command in reach && Env(known + reach, editor, clipboard, history).Valid()
      modifies this
      ensures Valid()
      ensures commands == old(commands)[name := command] && known == old(known) + reach
      ensures executed == old(executed)
    {
      commands := commands[name := command];
      known := known + reach;
    }
  }
}
