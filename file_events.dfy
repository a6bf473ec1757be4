/**
 * The Observer sample: an EventManager keeps, per event type, an ordered list of
 * listeners; an Editor notifies "open" and "save" with the name of its file.
 *
 * A listener's Update writes one line to the console. Here the console is an output
 * value: Update returns the line it would write, and Notify returns the lines of the
 * listeners it calls, in the order it calls them.
 */
module FileEvents {
  import opened Optional
  import opened Lists

  /** String.Replace(pattern, replacement) with ordinal matching: every occurrence of the
      pattern, found left to right without overlap, is replaced. */
  function ReplaceAll(s: string, pattern: string, replacement: string): string
    requires pattern != []
    decreases |s|
  {
    if |s| < |pattern| then s
    else if s[..|pattern|] == pattern then replacement + ReplaceAll(s[|pattern|..], pattern, replacement)
    else [s[0]] + ReplaceAll(s[1..], pattern, replacement)
  }

  /** A text whose characters cannot start the pattern is left unchanged. */
  lemma {:induction false} ReplaceAllNoMatch(s: string, pattern: string, replacement: string)
    requires pattern != [] && pattern[0] !in s
    ensures ReplaceAll(s, pattern, replacement) == s
    decreases |s|
  {
    if |s| >= |pattern| {
      assert s[..|pattern|][0] == s[0];
      ReplaceAllNoMatch(s[1..], pattern, replacement);
      assert [s[0]] + s[1..] == s;
    }
  }

  /** A template with one placeholder after a prefix free of the pattern's first
      character: the placeholder becomes the replacement and the rest is processed on. */
  lemma {:induction false} ReplaceAllAfterPrefix(prefix: string, rest: string, pattern: string, replacement: string)
    requires pattern != [] && pattern[0] !in prefix
    ensures ReplaceAll(prefix + pattern + rest, pattern, replacement)
      == prefix + replacement + ReplaceAll(rest, pattern, replacement)
    decreases |prefix|
  {
    var s := prefix + pattern + rest;
    if prefix == [] {
      assert s == pattern + rest;
      assert s[..|pattern|] == pattern;
      assert s[|pattern|..] == rest;
    } else {
      var tail := ReplaceAll(rest, pattern, replacement);
      assert s[..|pattern|] != pattern by {
        assert s[..|pattern|][0] == prefix[0];
      }
      assert ReplaceAll(s, pattern, replacement) == [s[0]] + ReplaceAll(s[1..], pattern, replacement);
      assert s[1..] == prefix[1..] + pattern + rest;
      ReplaceAllAfterPrefix(prefix[1..], rest, pattern, replacement);
      calc {
        [s[0]] + (prefix[1..] + replacement + tail);
        ([prefix[0]] + prefix[1..]) + replacement + tail;
        { assert [prefix[0]] + prefix[1..] == prefix; }
        prefix + replacement + tail;
      }
    }
  }

  /** The placeholder the listener templates use. */
  const Placeholder: string := "%s"

  datatype ListenerKind = Logging | EmailAlerts

  /** LoggingListener (target is the log path) or EmailAlertsListener (target is the
      address). Listeners are compared by reference, as List.Remove does for them. */
  class Listener {
    const kind: ListenerKind
    const target: string
    const message: string

    constructor(kind: ListenerKind, target: string, message: string)
      ensures this.kind == kind && this.target == target && this.message == message
    {
      this.kind := kind;
      this.target := target;
      this.message := message;
    }

    /** The message with the file name in place of every "%s". */
    function Text(filename: string): string
    {
      ReplaceAll(message, Placeholder, filename)
    }

    /** Update: the console line the listener writes for the file name. */
    function Update(filename: string): string
    {
      match kind
      case Logging => LogLine(target, Text(filename))
      case EmailAlerts => MailLine(target, Text(filename))
    }
  }

  /** LoggingListener's console line. */
  function LogLine(path: string, text: string): string
  {
    "[LOG " + path + "] " + text
  }

  /** EmailAlertsListener's console line. */
  function MailLine(address: string, text: string): string
  {
    "[EMAIL to " + address + "] " + text
  }

  /** The listener list of an event type; an unknown type has none. */
  function ListenersOf(listeners: map<string, seq<Listener>>, eventType: string): seq<Listener>
  {
    if eventType in listeners then listeners[eventType] else []
  }

  /** The lines of calling Update(data) on each listener in turn. */
  function Broadcast(ls: seq<Listener>, data: string): seq<string>
  {
    seq(|ls|, i requires 0 <= i < |ls| => ls[i].Update(data))
  }

  /** EventManager. */
  class EventManager {
    var listeners: map<string, seq<Listener>>

    constructor()
      ensures listeners == map[]
    {
      listeners := map[];
    }

    /** Subscribe: create the type's list on first use, then append (duplicates allowed). */
    method Subscribe(eventType: string, listener: Listener)
      modifies this`listeners
      ensures listeners == old(listeners)[eventType := ListenersOf(old(listeners), eventType) + [listener]]
    {
      if eventType !in listeners {
        listeners := listeners[eventType := []];
      }
      listeners := listeners[eventType := listeners[eventType] + [listener]];
    }

    /** Unsubscribe: drop the first occurrence from that type's list; an unknown type is
        left alone and keeps being unknown. */
    method Unsubscribe(eventType: string, listener: Listener)
      modifies this`listeners
      ensures eventType in old(listeners) ==>
        listeners == old(listeners)[eventType := RemoveFirst(old(listeners)[eventType], listener)]
      ensures eventType !in old(listeners) ==> listeners == old(listeners)
    {
      if eventType in listeners {
        listeners := listeners[eventType := RemoveFirst(listeners[eventType], listener)];
      }
    }

    /** Notify: one Update per entry of the type's list, in subscription order. */
    method Notify(eventType: string, data: string) returns (lines: seq<string>)
      ensures lines == Broadcast(ListenersOf(listeners, eventType), data)
    {
      lines := [];
      if eventType in listeners {
        var ls := listeners[eventType];
        var i := 0;
        while i < |ls|
          invariant 0 <= i <= |ls|
          invariant |lines| == i && forall k :: 0 <= k < i ==> lines[k] == ls[k].Update(data)
        {
          lines := lines + [ls[i].Update(data)];
          i := i + 1;
        }
      }
    }
  }

  /** Editor: the file it has opened, if any (a file is its name; the path is not
      modelled), and its event manager. */
  class Editor {
    const events: EventManager
    var file: Option<string>

    constructor()
      ensures fresh(events) && events.listeners == map[] && file == None
    {
      events := new EventManager();
      file := None;
    }

    /** OpenFile: remember the file, then notify "open" with its name. */
    method OpenFile(name: string) returns (lines: seq<string>)
      modifies this`file
      ensures file == Some(name)
      ensures lines == Broadcast(ListenersOf(events.listeners, "open"), name)
    {
      file := Some(name);
      lines := events.Notify("open", name);
    }

    /** SaveFile: nothing without a file; otherwise File.Write's line, then notify "save"
        with the name. */
    method SaveFile() returns (lines: seq<string>)
      ensures file == None ==> lines == []
      ensures file.Some? ==>
        lines == [WriteLine(file.value)] + Broadcast(ListenersOf(events.listeners, "save"), file.value)
    {
      lines := [];
      if file.Some? {
        var notified := events.Notify("save", file.value);
        lines := [WriteLine(file.value)] + notified;
      }
    }
  }

  /** The console line File.Write writes. */
  function WriteLine(name: string): string
  {
    "Запись файла: " + name
  }

  /** An unsubscribed listener that was subscribed once is gone from its type, and the
      other types are untouched. */
  lemma SubscribeThenUnsubscribe(listeners: map<string, seq<Listener>>, eventType: string, l: Listener)
    requires l !in ListenersOf(listeners, eventType)
    ensures var added := listeners[eventType := ListenersOf(listeners, eventType) + [l]];
      added[eventType := RemoveFirst(added[eventType], l)] == listeners[eventType := ListenersOf(listeners, eventType)]
  {
    RemoveJustAppended(ListenersOf(listeners, eventType), l);
  }

  /** The sample's log path, alert address and file name. */
  const LogPath: string := "/path/to/log.txt"
  const AdminAddress: string := "admin@example.com"
  const DemoFile: string := "document.txt"

  /** The sample's two templates: a fixed text, then the placeholder. */
  const OpenPrefix: string := "Someone has opened file: "
  const SavePrefix: string := "Someone has changed the file: "
  const OpenTemplate: string := OpenPrefix + Placeholder
  const SaveTemplate: string := SavePrefix + Placeholder

  /** The sample configuration: a logger on "open" and e-mail alerts on "save"; opening
      document.txt logs once and saving it writes the file and mails once. */
  method ConfigDemo() returns (openLines: seq<string>, saveLines: seq<string>)
    ensures openLines == [LogLine(LogPath, OpenPrefix + DemoFile)]
    ensures saveLines == [WriteLine(DemoFile), MailLine(AdminAddress, SavePrefix + DemoFile)]
  {
    var editor := new Editor();
    var logger := new Listener(Logging, LogPath, OpenTemplate);
    editor.events.Subscribe("open", logger);
    var emailAlerts := new Listener(EmailAlerts, AdminAddress, SaveTemplate);
    editor.events.Subscribe("save", emailAlerts);
    assert ListenersOf(editor.events.listeners, "open") == [logger];
    assert ListenersOf(editor.events.listeners, "save") == [emailAlerts];
    openLines := editor.OpenFile(DemoFile);
    saveLines := editor.SaveFile();
    BroadcastOne(logger, DemoFile);
    BroadcastOne(emailAlerts, DemoFile);
    TemplateTexts(DemoFile);
  }

  /** Notifying two lists one after the other gives the lines of their concatenation:
      each listener answers on its own, whatever the others in the list are. */
  lemma BroadcastAppend(a: seq<Listener>, b: seq<Listener>, data: string)
    ensures Broadcast(a + b, data) == Broadcast(a, data) + Broadcast(b, data)
  {
    assert forall i :: 0 <= i < |a| ==> (a + b)[i] == a[i];
    assert forall i :: |a| <= i < |a| + |b| ==> (a + b)[i] == b[i - |a|];
  }

  /** One listener, one line. */
  lemma BroadcastOne(l: Listener, data: string)
    ensures Broadcast([l], data) == [l.Update(data)]
  {
  }

  /** The two sample templates filled with a file name. */
  lemma TemplateTexts(name: string)
    ensures ReplaceAll(OpenTemplate, Placeholder, name) == OpenPrefix + name
    ensures ReplaceAll(SaveTemplate, Placeholder, name) == SavePrefix + name
  {
    assert '%' !in OpenPrefix;
    TemplateText(OpenPrefix, name);
    assert '%' !in SavePrefix;
    TemplateText(SavePrefix, name);
  }

  /** A template ending in its one placeholder. */
  lemma TemplateText(prefix: string, name: string)
    requires '%' !in prefix
    ensures ReplaceAll(prefix + Placeholder, Placeholder, name) == prefix + name
  {
    ReplaceAllAfterPrefix(prefix, "", Placeholder, name);
    assert prefix + Placeholder + "" == prefix + Placeholder;
    assert ReplaceAll("", Placeholder, name) == "";
  }
}
