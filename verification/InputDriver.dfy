/**
 The CDP command log of one tab and the native input driver on top of it.
 Every attempted command is logged with its outcome, so "nothing was sent"
 means that no attempt of an input command is in the log at all.
 */
module InputDriver {
  import opened Wrappers

  datatype Modifier = ALT | CONTROL | META | SHIFT
  datatype Button = Left | Right | Middle | NoButton
  datatype MouseKind = Pressed | Released | Moved
  datatype Point = Point(x: real, y: real)

  datatype Command =
    // Input and mutation commands.
    | KeyDown(key: string, modifiers: set<Modifier>)
    | RawKeyDown(c: char)
    | CharEvent(c: char)
    | KeyUp(key: string)
    | InsertText(text: string)
    | Mouse(kind: MouseKind, at: Point, button: Button, clicks: nat)
    | Wheel(at: Point, deltaX: int, deltaY: int)
    | ScrollBy(deltaX: int, deltaY: int)
    | SetFiles(files: seq<string>)
    | SelectOptions(values: seq<string>)
    | InvokeTool(tool: string)
    | AnswerDialog(accept: bool)
    // Commands that send nothing to the page's controls.
    | FocusNode
    | Probe

  /** Focus is the one state change that is not counted as sending input. */
  predicate IsInput(c: Command) {
    !c.FocusNode? && !c.Probe?
  }

  datatype Outcome = Fine | Refused(code: ErrorCode) | Fault
  datatype Entry = Entry(command: Command, outcome: Outcome)

  /** The input commands of a log, in order. */
  function Inputs(log: seq<Entry>): seq<Command> {
    if log == [] then []
    else (if IsInput(log[0].command) then [log[0].command] else []) + Inputs(log[1..])
  }

  predicate AllFine(log: seq<Entry>) {
    forall e :: e in log ==> e.outcome.Fine?
  }

  /** The outcome sums up the attempts logged since: all of them went well, or one failed this way. */
  ghost predicate Told(before: seq<Entry>, log: seq<Entry>, outcome: Outcome) {
    before <= log
    && if outcome.Fine? then AllFine(log[|before|..]) else exists e :: e in log[|before|..] && e.outcome == outcome
  }

  /** After attempts that went well the next outcome sums up all of them, and a failure is not
      forgotten by what follows it. */
  lemma Retold(a: seq<Entry>, b: seq<Entry>, c: seq<Entry>, first: Outcome, second: Outcome)
    requires Told(a, b, first) && b <= c && (first.Fine? ==> Told(b, c, second))
    ensures a <= c && Told(a, c, if first.Fine? then second else first)
  {
    assert c[|a|..] == b[|a|..] + c[|b|..];
  }

  /** A failure of the later attempts is one of all of them. */
  lemma Overruled(a: seq<Entry>, b: seq<Entry>, c: seq<Entry>, outcome: Outcome)
    requires a <= b && Told(b, c, outcome) && !outcome.Fine?
    ensures Told(a, c, outcome)
  {
    assert c[|a|..] == b[|a|..] + c[|b|..];
  }

  lemma {:induction false} InputsConcat(a: seq<Entry>, b: seq<Entry>)
    ensures Inputs(a + b) == Inputs(a) + Inputs(b)
  {
    if a == [] {
      assert a + b == b;
    } else {
      InputsConcat(a[1..], b);
      assert (a + b)[1..] == a[1..] + b && (a + b)[0] == a[0];
      assert Inputs(a + b) == (if IsInput(a[0].command) then [a[0].command] else []) + Inputs(a[1..] + b);
    }
  }

  /** One more attempt appends exactly its own command, if it is an input command. */
  lemma InputsSnoc(a: seq<Entry>, e: Entry)
    ensures Inputs(a + [e]) == Inputs(a) + (if IsInput(e.command) then [e.command] else [])
  {
    InputsConcat(a, [e]);
    assert [e][1..] == [];
    assert Inputs([e]) == (if IsInput(e.command) then [e.command] else []) + Inputs([e][1..]);
  }

  // ---- what each gesture sends when nothing fails -------------------------------

  /** Printable ASCII is typed as key events. Lower-casing also maps the Kelvin sign
      to an ASCII letter, so it is typed as a key as well. */
  predicate Keyed(c: char) {
    ' ' <= c <= '~' || c == '\U{212A}'
  }

  function CharCommands(c: char): seq<Command> {
    if Keyed(c) then [RawKeyDown(c), CharEvent(c), KeyUp([c])] else [InsertText([c])]
  }

  function TypeCommands(text: string): seq<Command> {
    if text == "" then [] else TypeCommands(text[..|text| - 1]) + CharCommands(text[|text| - 1])
  }

  function KeyCommands(key: string, modifiers: set<Modifier>): seq<Command> {
    [KeyDown(key, modifiers), KeyUp(key)]
  }

  function ClickCommands(at: Point, button: Button, count: nat): seq<Command> {
    if count == 0 then []
    else ClickCommands(at, button, count - 1)
         + [Mouse(Pressed, at, button, count), Mouse(Released, at, button, count)]
  }

  function Between(start: Point, end: Point, n: nat, steps: nat): Point
    requires steps > 0
  {
    Point(start.x + (end.x - start.x) * n as real / steps as real,
          start.y + (end.y - start.y) * n as real / steps as real)
  }

  function MoveCommands(start: Point, end: Point, n: nat, steps: nat): seq<Command>
    requires n <= steps
  {
    if n == 0 then []
    else MoveCommands(start, end, n - 1, steps) + [Mouse(Moved, Between(start, end, n, steps), Left, 1)]
  }

  function DragCommands(start: Point, end: Point, steps: nat): seq<Command> {
    [Mouse(Moved, start, NoButton, 1), Mouse(Pressed, start, Left, 1)]
    + MoveCommands(start, end, steps, steps)
    + [Mouse(Released, end, Left, 1)]
  }

  /** The browser side. `fate` is an arbitrary script: any attempt may fail in any way. */
  class Tab {
    const fate: nat -> Outcome
    var log: seq<Entry>

    constructor (fate: nat -> Outcome)
      ensures log == []
    {
      this.fate := fate;
      log := [];
    }

    method RunCdp(command: Command) returns (outcome: Outcome)
      modifies this
      ensures log == old(log) + [Entry(command, outcome)] && Told(old(log), log, outcome)
      ensures Inputs(log) == Inputs(old(log)) + (if IsInput(command) then [command] else [])
    {
      outcome := fate(|log|);
      log := log + [Entry(command, outcome)];
      assert log[|old(log)|..] == [Entry(command, outcome)];
      InputsSnoc(old(log), Entry(command, outcome));
    }
  }

  /** The driver keeps the clipboard to itself. */
  predicate ClipboardShortcut(key: string, modifiers: set<Modifier>) {
    key in {"C", "V", "X"} && (CONTROL in modifiers || META in modifiers)
  }

  /** A held key or button is remembered only between a press attempt and its release. */
  class NativeInput {
    const tab: Tab
    var heldKey: Option<string>
    var heldButton: Option<Button>
    var point: Point

    constructor (tab: Tab)
      ensures this.tab == tab && heldKey.None? && heldButton.None?
    {
      this.tab := tab;
      heldKey, heldButton, point := None, None, Point(0.0, 0.0);
    }

    predicate Holding()
      reads this
    {
      heldKey.Some? || heldButton.Some?
    }

    /** Sends the press and always attempts the release; the key stays held exactly
        when that release failed. */
    method Key(name: string, modifiers: set<Modifier>) returns (outcome: Outcome)
      modifies this, tab
      ensures heldButton == old(heldButton)
      ensures old(tab.log) <= tab.log
      ensures ClipboardShortcut(name, modifiers) ==>
        outcome == Refused(OtherCode) && tab.log == old(tab.log) && heldKey == old(heldKey)
      ensures !ClipboardShortcut(name, modifiers) ==>
        Told(old(tab.log), tab.log, outcome)
        && Inputs(tab.log) == Inputs(old(tab.log)) + KeyCommands(name, modifiers)
        && heldKey == (if tab.log[|tab.log| - 1].outcome.Fine? then None else Some(name))
      ensures heldKey.Some? && heldKey != old(heldKey) ==> !outcome.Fine?
      ensures outcome.Fine? ==> heldKey.None?
      ensures Inputs(old(tab.log)) <= Inputs(tab.log)
      ensures Holding() && !old(Holding()) ==> Inputs(old(tab.log)) < Inputs(tab.log)
    {
      if ClipboardShortcut(name, modifiers) {
        return Refused(OtherCode);
      }
      heldKey := Some(name);
      var down := tab.RunCdp(KeyDown(name, modifiers));
      ghost var pressed := tab.log;
      var up := tab.RunCdp(KeyUp(name));
      Retold(old(tab.log), pressed, tab.log, down, up);
      if !up.Fine? { Overruled(old(tab.log), pressed, tab.log, up); }
      if up.Fine? {
        heldKey := None;
        outcome := down;
      } else {
        outcome := up;
      }
    }

    method TypeChar(c: char) returns (outcome: Outcome)
      modifies this, tab
      ensures heldButton == old(heldButton)
      ensures Inputs(old(tab.log)) < Inputs(tab.log) && Told(old(tab.log), tab.log, outcome)
      ensures outcome.Fine? ==>
        Inputs(tab.log) == Inputs(old(tab.log)) + CharCommands(c)
        && heldKey == (if Keyed(c) then None else old(heldKey))
    {
      hide Told;
      if !Keyed(c) {
        outcome := tab.RunCdp(InsertText([c]));
        return;
      }
      heldKey := Some([c]);
      outcome := tab.RunCdp(RawKeyDown(c));
      if outcome.Fine? {
        ghost var pressed := tab.log;
        outcome := tab.RunCdp(CharEvent(c));
        Retold(old(tab.log), pressed, tab.log, Fine, outcome);
      }
      ghost var typed := tab.log;
      var up := tab.RunCdp(KeyUp([c]));
      Retold(old(tab.log), typed, tab.log, outcome, up);
      if !up.Fine? { Overruled(old(tab.log), typed, tab.log, up); }
      if !up.Fine? { return up; }
      heldKey := None;
    }

    method TypeText(text: string) returns (outcome: Outcome)
      modifies this, tab
      ensures heldButton == old(heldButton)
      ensures Inputs(old(tab.log)) <= Inputs(tab.log) && Told(old(tab.log), tab.log, outcome)
      ensures text == "" ==> outcome.Fine? && tab.log == old(tab.log) && heldKey == old(heldKey)
      ensures outcome.Fine? ==> Inputs(tab.log) == Inputs(old(tab.log)) + TypeCommands(text)
      ensures outcome.Fine? && old(heldKey.None?) ==> heldKey.None?
      ensures Holding() && !old(Holding()) ==> Inputs(old(tab.log)) < Inputs(tab.log)
    {
      outcome := Fine;
      assert Told(tab.log, tab.log, Fine);
      hide Told;
      var i := 0;
      while i < |text|
        invariant 0 <= i <= |text|
        invariant heldButton == old(heldButton)
        invariant i == 0 ==> tab.log == old(tab.log) && heldKey == old(heldKey)
        invariant Inputs(tab.log) == Inputs(old(tab.log)) + TypeCommands(text[..i])
        invariant outcome.Fine? && (old(heldKey.None?) ==> heldKey.None?)
        invariant Told(old(tab.log), tab.log, Fine)
      {
        assert text[..i + 1][..i] == text[..i];
        ghost var sofar := tab.log;
        outcome := TypeChar(text[i]);
        Retold(old(tab.log), sofar, tab.log, Fine, outcome);
        if !outcome.Fine? { return; }
        i := i + 1;
      }
      assert text[..|text|] == text;
    }

    method MouseEvent(kind: MouseKind, at: Point, button: Button, clicks: nat) returns (outcome: Outcome)
      modifies this, tab
      ensures heldKey == old(heldKey) && point == at
      ensures tab.log == old(tab.log) + [Entry(Mouse(kind, at, button, clicks), outcome)]
      ensures Told(old(tab.log), tab.log, outcome)
      ensures Inputs(tab.log) == Inputs(old(tab.log)) + [Mouse(kind, at, button, clicks)]
      ensures kind.Pressed? ==> heldButton == Some(button)
      ensures kind.Moved? ==> heldButton == old(heldButton)
      ensures kind.Released? ==> heldButton == if outcome.Fine? then None else old(heldButton)
    {
      point := at;
      if kind.Pressed? { heldButton := Some(button); }
      outcome := tab.RunCdp(Mouse(kind, at, button, clicks));
      if kind.Released? && outcome.Fine? { heldButton := None; }
    }

    method Click(at: Point, button: Button, count: nat) returns (outcome: Outcome)
      modifies this, tab
      ensures heldKey == old(heldKey)
      ensures Told(old(tab.log), tab.log, outcome)
      ensures Inputs(old(tab.log)) <= Inputs(tab.log)
      ensures outcome.Fine? ==> Inputs(tab.log) == Inputs(old(tab.log)) + ClickCommands(at, button, count)
      ensures outcome.Fine? && old(heldButton.None?) ==> heldButton.None?
      ensures Holding() && !old(Holding()) ==> Inputs(old(tab.log)) < Inputs(tab.log)
    {
      outcome := Fine;
      assert Told(tab.log, tab.log, Fine);
      hide Told;
      var n := 0;
      while n < count
        invariant 0 <= n <= count
        invariant heldKey == old(heldKey)
        invariant Told(old(tab.log), tab.log, Fine)
        invariant outcome.Fine?
        invariant Inputs(tab.log) == Inputs(old(tab.log)) + ClickCommands(at, button, n)
        invariant old(heldButton.None?) ==> heldButton.None?
      {
        n := n + 1;
        ghost var sofar := tab.log;
        outcome := MouseEvent(Pressed, at, button, n);
        ghost var pressed := tab.log;
        Retold(old(tab.log), sofar, pressed, Fine, outcome);
        var up := MouseEvent(Released, at, button, n);
        Retold(old(tab.log), pressed, tab.log, outcome, up);
        if !up.Fine? { Overruled(old(tab.log), pressed, tab.log, up); }
        if !up.Fine? { return up; }
        if !outcome.Fine? { return; }
      }
    }

    /** Whatever happens after the first move, the release is attempted at the end point. */
    method Drag(start: Point, end: Point, steps: nat) returns (outcome: Outcome)
      modifies this, tab
      ensures heldKey == old(heldKey)
      ensures old(tab.log) < tab.log && Told(old(tab.log), tab.log, outcome)
      ensures outcome.Fine? ==> Inputs(tab.log) == Inputs(old(tab.log)) + DragCommands(start, end, steps)
      ensures outcome.Fine? ==> heldButton.None?
      ensures Inputs(old(tab.log)) < Inputs(tab.log)
      ensures !outcome.Fine? && |tab.log| > |old(tab.log)| + 1 ==>
        tab.log[|tab.log| - 1].command == Mouse(Released, end, Left, 1)
    {
      hide Told;
      outcome := MouseEvent(Moved, start, NoButton, 1);
      if !outcome.Fine? { return; }
      ghost var moved := tab.log;
      outcome := MouseEvent(Pressed, start, Left, 1);
      Retold(old(tab.log), moved, tab.log, Fine, outcome);
      var n := 0;
      while n < steps && outcome.Fine?
        invariant 0 <= n <= steps
        invariant heldKey == old(heldKey)
        invariant old(tab.log) < tab.log && Told(old(tab.log), tab.log, outcome)
        invariant Inputs(old(tab.log)) < Inputs(tab.log)
        invariant outcome.Fine? ==>
          Inputs(tab.log) == Inputs(old(tab.log))
                             + [Mouse(Moved, start, NoButton, 1), Mouse(Pressed, start, Left, 1)]
                             + MoveCommands(start, end, n, steps)
        decreases steps - n, outcome.Fine?
      {
        n := n + 1;
        ghost var sofar := tab.log;
        outcome := MouseEvent(Moved, Between(start, end, n, steps), Left, 1);
        Retold(old(tab.log), sofar, tab.log, Fine, outcome);
      }
      ghost var dragged := tab.log;
      var up := MouseEvent(Released, end, Left, 1);
      Retold(old(tab.log), dragged, tab.log, outcome, up);
      if !up.Fine? { Overruled(old(tab.log), dragged, tab.log, up); }
      if !up.Fine? { outcome := up; }
    }

    /** Sends a release only for what is still held, and clears it when that succeeds. */
    method Release()
      modifies this, tab
      ensures old(tab.log) <= tab.log
      ensures !old(Holding()) ==> tab.log == old(tab.log)
      ensures Inputs(tab.log) == Inputs(old(tab.log))
          + (if old(heldKey.Some?) then [KeyUp(old(heldKey.value))] else [])
          + (if old(heldButton.Some?) then [Mouse(Released, old(point), old(heldButton.value), 0)] else [])
      ensures heldKey in {None, old(heldKey)} && heldButton in {None, old(heldButton)}
      ensures Holding() <==> !AllFine(tab.log[|old(tab.log)|..])
    {
      if heldKey.Some? {
        var outcome := tab.RunCdp(KeyUp(heldKey.value));
        if outcome.Fine? { heldKey := None; }
      }
      if heldButton.Some? {
        var outcome := tab.RunCdp(Mouse(Released, point, heldButton.value, 0));
        if outcome.Fine? { heldButton := None; }
      }
    }
  }
}
