/**
 The adapter's `act`: the last layer that knows whether any input left the process.
 The browser is an arbitrary script of outcomes and answers; every branch that can
 raise is modelled, including the clean-up in the final `release`.
 */
module Adapter {
  import opened Wrappers
  import opened InputDriver

  datatype ClickKind = SingleClick | DoubleClick | RightClick | MiddleClick

  datatype Action =
    | Click(node: nat, kind: ClickKind)
    | Fill(node: nat, text: string)
    | TypeText(node: nat, text: string)
    | KeyPress(node: nat, key: string, modifiers: set<Modifier>)
    | Check(node: nat, checked: bool)
    | Select(node: nat, value: string)
    | SelectMultiple(node: nat, values: seq<string>)
    | Upload(node: nat, files: seq<string>)
    | DragTo(node: nat, target: nat, steps: nat)
    | PageTool(tool: string)
    | ScrollNode(node: nat, deltaX: int, deltaY: int)
    | Scroll(deltaX: int, deltaY: int)
    | ScrollAt(at: Point, deltaX: int, deltaY: int)
    | MoveTo(at: Point)
    | ClickAt(at: Point, double: bool)
    | AnswerPrompt(dialogId: nat, accept: bool)
    | Unsupported

  /** The actions that may be repeated without an execution record. */
  predicate Passive(a: Action) {
    a.Scroll? || a.ScrollNode? || a.ScrollAt? || a.MoveTo?
  }

  predicate IsSingle(a: Action) {
    a.PageTool? || a.Upload? || a.Select? || a.SelectMultiple? || a.ScrollNode? || a.Scroll? || a.ScrollAt? || a.MoveTo?
  }

  predicate HasTarget(a: Action) {
    a.Click? || a.Fill? || a.TypeText? || a.KeyPress? || a.Check? || a.Select?
    || a.SelectMultiple? || a.Upload? || a.DragTo? || a.ScrollNode?
  }

  /** How `act` ends. `flag` is `performed` in the raised error's action result. */
  datatype Exit =
    | Returned(performed: bool, dialog: bool)
    | Raised(code: ErrorCode, flag: Option<bool>)
    | Crashed

  /** The guarantee the service builds its rollback on. */
  predicate Truthful(sent: seq<Command>, exit: Exit) {
    exit.Raised? && exit.flag == Some(false) ==> sent == []
  }

  /** Exits that say nothing was done: no error that claims a dispatch, no performed result. */
  predicate Untouched(exit: Exit) {
    (exit.Raised? && exit.flag == Some(false)) || (exit.Returned? && !exit.performed)
  }

  /** Exits that say the whole gesture went out. */
  predicate Completed(exit: Exit) {
    (exit.Returned? && exit.performed && !exit.dialog) || exit == Raised(ActionGoalNotMet, Some(true))
  }

  /** Every kind of exit is accounted for by what became of the commands: a plain success means that
      all of them went well; an error that admits the dispatch is uncertain, and rightly so, unless
      it is a missed goal; one without a flag passes on a failed read; a crash is a faulting one. */
  predicate Reported(a: Action, exit: Exit, read: seq<Entry>) {
    match exit
    case Returned(_, dialog) => dialog || AllFine(read)
    case Raised(code, Some(true)) =>
      code.ActionGoalNotMet?
      || (code.ResultUncertain? && (Clipboard(a) || exists e :: e in read && !e.outcome.Fine? && e.outcome != Refused(ActionGoalNotMet)))
    case Raised(code, Some(false)) => true
    case Raised(code, None) =>
      if code.ActionGoalNotMet? then exists e :: e in read && e.outcome == Refused(code) else Entry(Probe, Refused(code)) in read
    case Crashed => Entry(Probe, Fault) in read
  }

  /** Commands that went well before do not change what an exit is accounted for by. */
  lemma ReportedLater(a: Action, exit: Exit, before: seq<Entry>, read: seq<Entry>)
    requires AllFine(before) && Reported(a, exit, read)
    ensures Reported(a, exit, before + read)
  {
  }

  /** How the dispatch and its observation came out is borne out by the commands. */
  ghost predicate BorneOut(a: Action, body: Body, dispatched: bool, read: seq<Entry>) {
    match body
    case Finished => AllFine(read)
    case Broke(code) =>
      dispatched ==> (Clipboard(a) && code.OtherCode?) || exists e :: e in read && e.outcome == Refused(code)
    case Blew => dispatched ==> exists e :: e in read && e.outcome.Fault?
    case _ => true
  }

  /** A plain success stands only if the last look at the page succeeds as well. */
  lemma ReportedFinally(a: Action, exit: Exit, read: seq<Entry>, outcome: Outcome)
    requires AllFine(read)
    ensures match outcome
      case Fine => exit.Returned? ==> Reported(a, exit, read + [Entry(Probe, Fine)])
      case Refused(code) => Reported(a, Raised(code, None), read + [Entry(Probe, Refused(code))])
      case Fault => Reported(a, Crashed, read + [Entry(Probe, Fault)])
  {
    if !outcome.Fine? { assert (read + [Entry(Probe, outcome)])[|read|] == Entry(Probe, outcome); }
  }

  /** The one gesture that the driver itself refuses. */
  predicate Clipboard(a: Action) { a.KeyPress? && ClipboardShortcut(a.key, a.modifiers) }

  function ClickSpec(at: Point, kind: ClickKind): seq<Command> {
    match kind
    case SingleClick => ClickCommands(at, Left, 1)
    case DoubleClick => ClickCommands(at, Left, 2)
    case RightClick => ClickCommands(at, Right, 1)
    case MiddleClick => ClickCommands(at, Middle, 1)
  }

  /** Everything a fully successful action sends, and nothing else. */
  function Expected(a: Action, geometry: nat -> Point, checkedNow: bool): seq<Command> {
    match a
    case Click(node, kind) => ClickSpec(geometry(node), kind)
    case Fill(_, text) =>
      KeyCommands("A", {CONTROL}) + (if text != "" then [InsertText(text)] else KeyCommands("BACKSPACE", {}))
    case TypeText(_, text) => TypeCommands(text)
    case KeyPress(_, key, modifiers) => KeyCommands(key, modifiers)
    case Check(node, checked) => if checkedNow != checked then ClickCommands(geometry(node), Left, 1) else []
    case Select(_, value) => [SelectOptions([value])]
    case SelectMultiple(_, values) => [SelectOptions(values)]
    case Upload(_, files) => [SetFiles(files)]
    case DragTo(node, target, steps) => DragCommands(geometry(node), geometry(target), steps)
    case PageTool(tool) => [InvokeTool(tool)]
    case ScrollNode(_, dx, dy) => [ScrollBy(dx, dy)]
    case Scroll(dx, dy) => [ScrollBy(dx, dy)]
    case ScrollAt(at, dx, dy) => [Wheel(at, dx, dy)]
    case MoveTo(at) => [Mouse(Moved, at, NoButton, 0)]
    case ClickAt(at, double) => ClickCommands(at, Left, if double then 2 else 1)
    case AnswerPrompt(_, accept) => [AnswerDialog(accept)]
    case Unsupported => []
  }

  /** What the body of the main `try` came to. */
  datatype Body = Finished | DialogOpen | GoalMissed | Broke(code: ErrorCode) | Blew

  function Raise(outcome: Outcome): Body {
    match outcome
    case Fine => Finished
    case Refused(code) => Broke(code)
    case Fault => Blew
  }

  class TabState {
    const tab: Tab
    const geometry: nat -> Point
    const checkedNow: nat -> bool
    const facts: nat -> bool
    var asked: nat
    var pendingInput: NativeInput?

    constructor (tab: Tab, geometry: nat -> Point, checkedNow: nat -> bool, facts: nat -> bool)
      ensures this.tab == tab && pendingInput == null
    {
      this.tab, this.geometry, this.checkedNow, this.facts := tab, geometry, checkedNow, facts;
      asked, pendingInput := 0, null;
    }

    ghost predicate Valid()
      reads this, pendingInput
    {
      pendingInput != null ==> pendingInput.tab == tab
    }

    /** The input commands logged after `before`. */
    ghost function SentSince(before: seq<Entry>): seq<Command>
      requires Inputs(before) <= Inputs(tab.log)
      reads this, tab
    {
      Inputs(tab.log)[|Inputs(before)|..]
    }

    /** What was attempted after `before`, with its outcomes. */
    ghost function Since(before: seq<Entry>): seq<Entry>
      requires before <= tab.log
      reads this, tab
    {
      tab.log[|before|..]
    }

    function Goal(action: Action): seq<Command> {
      Expected(action, geometry, action.Check? && checkedNow(action.node))
    }

    /** A page fact the environment decides: hit tests, open dialogs, reached goals. */
    method Ask() returns (answer: bool)
      modifies this`asked
    {
      answer := facts(asked);
      asked := asked + 1;
    }

    method FocusExact() returns (outcome: Outcome)
      modifies this`asked, tab
      ensures Inputs(tab.log) == Inputs(old(tab.log))
      ensures old(tab.log) <= tab.log && (outcome.Fine? ==> AllFine(Since(old(tab.log))))
    {
      outcome := tab.RunCdp(FocusNode);
      if !outcome.Fine? { return Refused(OtherCode); }
      outcome := tab.RunCdp(Probe);
      if !outcome.Fine? { return; }
      var focused := Ask();
      if !focused { return Refused(OtherCode); }
    }

    /** Locates a node's centre and hit-tests it; sends nothing. */
    method Locate(node: nat) returns (outcome: Outcome)
      modifies this`asked, tab
      ensures Inputs(tab.log) == Inputs(old(tab.log))
      ensures old(tab.log) <= tab.log && (outcome.Fine? ==> AllFine(Since(old(tab.log))))
    {
      outcome := tab.RunCdp(Probe);
      if !outcome.Fine? { return; }
      outcome := tab.RunCdp(Probe);
      if !outcome.Fine? { return; }
      var hit := Ask();
      if !hit { return Refused(OtherCode); }
      outcome := tab.RunCdp(Probe);
    }

    method NativeClick(native: NativeInput, node: nat, kind: ClickKind)
      returns (outcome: Outcome, dispatched: bool)
      requires native.tab == tab && !native.Holding()
      modifies this`asked, tab, native
      ensures old(tab.log) <= tab.log && (dispatched ==> Told(old(tab.log), tab.log, outcome))
      ensures Inputs(old(tab.log)) <= Inputs(tab.log)
      ensures !dispatched ==>
        !outcome.Fine? && Inputs(tab.log) == Inputs(old(tab.log)) && !native.Holding()
      ensures outcome.Fine? ==>
        Inputs(tab.log) == Inputs(old(tab.log)) + ClickSpec(geometry(node), kind) && !native.Holding()
      ensures native.Holding() ==> Inputs(old(tab.log)) < Inputs(tab.log)
    {
      dispatched := false;
      outcome := Locate(node);
      if !outcome.Fine? { return; }
      dispatched := true;
      var button := match kind case RightClick => Right case MiddleClick => Middle case _ => Left;
      ghost var located := tab.log;
      outcome := native.Click(geometry(node), button, if kind.DoubleClick? then 2 else 1);
      Retold(old(tab.log), located, tab.log, Fine, outcome);
    }

    /** Replaces a field's text: select all, then insert, or delete when the text is empty. */
    method FillNode(native: NativeInput, text: string) returns (outcome: Outcome, dispatched: bool)
      requires native.tab == tab && !native.Holding()
      modifies this`asked, tab, native
      ensures old(tab.log) <= tab.log && (dispatched ==> Told(old(tab.log), tab.log, outcome))
      ensures Inputs(old(tab.log)) <= Inputs(tab.log)
      ensures !dispatched ==>
        !outcome.Fine? && Inputs(tab.log) == Inputs(old(tab.log)) && !native.Holding()
      ensures outcome.Fine? ==>
        !native.Holding()
        && Inputs(tab.log) == Inputs(old(tab.log)) + KeyCommands("A", {CONTROL})
                              + (if text != "" then [InsertText(text)] else KeyCommands("BACKSPACE", {}))
      ensures native.Holding() ==> Inputs(old(tab.log)) < Inputs(tab.log)
    {
      dispatched := false;
      outcome := FocusExact();
      if !outcome.Fine? { return; }
      dispatched := true;
      ghost var focused := tab.log;
      outcome := native.Key("A", {CONTROL});
      Retold(old(tab.log), focused, tab.log, Fine, outcome);
      if !outcome.Fine? { return; }
      ghost var selected := tab.log;
      if text != "" {
        outcome := tab.RunCdp(InsertText(text));
      } else {
        outcome := native.Key("BACKSPACE", {});
      }
      Retold(old(tab.log), selected, tab.log, Fine, outcome);
    }

    /** The action types that come to one command, with no native gesture. */
    method SendSingle(action: Action) returns (outcome: Outcome)
      requires IsSingle(action)
      modifies tab
      ensures Told(old(tab.log), tab.log, outcome)
      ensures Inputs(old(tab.log)) < Inputs(tab.log)
      ensures Inputs(tab.log) == Inputs(old(tab.log)) + Goal(action)
    {
      match action {
        case PageTool(tool) => outcome := tab.RunCdp(InvokeTool(tool));
        case Upload(_, files) => outcome := tab.RunCdp(SetFiles(files));
        case SelectMultiple(_, values) => outcome := tab.RunCdp(SelectOptions(values));
        case Select(_, value) => outcome := tab.RunCdp(SelectOptions([value]));
        case ScrollNode(_, dx, dy) => outcome := tab.RunCdp(ScrollBy(dx, dy));
        case Scroll(dx, dy) => outcome := tab.RunCdp(ScrollBy(dx, dy));
        case ScrollAt(at, dx, dy) => outcome := tab.RunCdp(Wheel(at, dx, dy));
        case MoveTo(at) => outcome := tab.RunCdp(Mouse(Moved, at, NoButton, 0));
      }
    }

    method DragNodes(native: NativeInput, node: nat, target: nat, steps: nat)
      returns (outcome: Outcome, dispatched: bool)
      requires native.tab == tab && !native.Holding()
      modifies this`asked, tab, native
      ensures old(tab.log) <= tab.log && (dispatched ==> Told(old(tab.log), tab.log, outcome))
      ensures Inputs(old(tab.log)) <= Inputs(tab.log)
      ensures !dispatched ==>
        !outcome.Fine? && Inputs(tab.log) == Inputs(old(tab.log)) && !native.Holding()
      ensures outcome.Fine? ==>
        !native.Holding()
        && Inputs(tab.log) == Inputs(old(tab.log)) + DragCommands(geometry(node), geometry(target), steps)
      ensures native.Holding() ==> Inputs(old(tab.log)) < Inputs(tab.log)
    {
      dispatched := false;
      outcome := Locate(node);
      if !outcome.Fine? { return; }
      ghost var first := tab.log;
      outcome := Locate(target);
      if !outcome.Fine? { return; }
      Retold(old(tab.log), first, tab.log, Fine, Fine);
      ghost var located := tab.log;
      dispatched := true;
      outcome := native.Drag(geometry(node), geometry(target), steps);
      Retold(old(tab.log), located, tab.log, Fine, outcome);
    }

    /** The dispatch part of `act`: one branch per action type. `dispatched` is set
        immediately before the first command that can reach the page's controls. */
    method Dispatch(native: NativeInput, action: Action)
      returns (outcome: Outcome, dispatched: bool, performed: bool)
      requires native.tab == tab && !native.Holding() && !action.AnswerPrompt?
      modifies this`asked, tab, native
      ensures old(tab.log) <= tab.log
      ensures dispatched || outcome.Fine? ==>
        Told(old(tab.log), tab.log, outcome) || (Clipboard(action) && outcome == Refused(OtherCode))
      ensures Inputs(old(tab.log)) <= Inputs(tab.log)
      ensures !dispatched ==> Inputs(tab.log) == Inputs(old(tab.log)) && !native.Holding()
      ensures outcome.Fine? ==>
        Inputs(tab.log) == Inputs(old(tab.log)) + Goal(action) && !native.Holding()
      ensures native.Holding() ==> Inputs(old(tab.log)) < Inputs(tab.log)
      ensures !performed ==> !dispatched
    {
      dispatched, performed, outcome := false, true, Fine;
      if IsSingle(action) {
        dispatched := true;
        outcome := SendSingle(action);
        return;
      }
      match action {
        case Click(node, kind) =>
          outcome, dispatched := NativeClick(native, node, kind);
        case Fill(_, text) =>
          outcome, dispatched := FillNode(native, text);
        case TypeText(_, text) =>
          outcome := FocusExact();
          if !outcome.Fine? { return; }
          ghost var focused := tab.log;
          dispatched := text != "";
          outcome := native.TypeText(text);
          Retold(old(tab.log), focused, tab.log, Fine, outcome);
        case DragTo(node, target, steps) =>
          outcome, dispatched := DragNodes(native, node, target, steps);
        case Check(node, checked) =>
          if checkedNow(node) != checked {
            outcome, dispatched := NativeClick(native, node, SingleClick);
          } else {
            performed := false;
          }
        case KeyPress(_, key, modifiers) =>
          outcome := FocusExact();
          if !outcome.Fine? { return; }
          ghost var focused := tab.log;
          dispatched := true;
          outcome := native.Key(key, modifiers);
          if !Clipboard(action) { Retold(old(tab.log), focused, tab.log, Fine, outcome); }
        case ClickAt(at, double) =>
          dispatched := true;
          outcome := native.Click(at, Left, if double then 2 else 1);
        case Unsupported =>
          outcome := Refused(OtherCode);
      }
    }

    /** What follows a dispatch: dialog check, fresh capture, goal verification. */
    method Observe(action: Action) returns (body: Body)
      modifies this`asked, tab
      ensures Inputs(tab.log) == Inputs(old(tab.log)) && old(tab.log) <= tab.log
      ensures match body
        case Finished => AllFine(Since(old(tab.log)))
        case Broke(code) => Entry(Probe, Refused(code)) in Since(old(tab.log))
        case Blew => Entry(Probe, Fault) in Since(old(tab.log))
        case _ => true
    {
      var dialog := Ask();
      if dialog {
        var outcome := tab.RunCdp(Probe);
        return if outcome.Fine? then DialogOpen else Raise(outcome);
      }
      var outcome := tab.RunCdp(Probe);
      if !outcome.Fine? { return Raise(outcome); }
      outcome := tab.RunCdp(Probe);
      if !outcome.Fine? { return Raise(outcome); }
      if HasTarget(action) {
        outcome := tab.RunCdp(Probe);
        if !outcome.Fine? { return Raise(outcome); }
        var reached := Ask();
        if !reached { return GoalMissed; }
      }
      return Finished;
    }

    /** Completes a release left over from earlier input; false if it stays unconfirmed. */
    method ReleasePending() returns (released: bool)
      requires Valid()
      modifies this, tab, pendingInput
      ensures Valid() && Inputs(old(tab.log)) <= Inputs(tab.log)
      ensures released ==> pendingInput == null
      ensures !released ==> pendingInput == old(pendingInput)
      ensures old(pendingInput) == null ==> released && tab.log == old(tab.log)
      ensures old(tab.log) <= tab.log && (released <==> AllFine(Since(old(tab.log))))
    {
      released := true;
      if pendingInput != null {
        pendingInput.Release();
        if pendingInput.Holding() { return false; }
        pendingInput := null;
      }
    }

    /** The dialog branch: answers, then completes a pending release. */
    method Answer(accept: bool) returns (exit: Exit)
      requires Valid()
      modifies this, tab, pendingInput
      ensures Valid() && Inputs(old(tab.log)) + [AnswerDialog(accept)] <= Inputs(tab.log)
      ensures pendingInput in {null, old(pendingInput)}
      ensures old(tab.log) < tab.log && tab.log[|old(tab.log)|].command == AnswerDialog(accept)
      ensures !tab.log[|old(tab.log)|].outcome.Fine? ==> exit == Raised(ResultUncertain, None)
      ensures match exit
        case Returned(_, _) => AllFine(Since(old(tab.log)))
        case Raised(code, flag) =>
          flag.None? && !AllFine(Since(old(tab.log))) && (code.ResultUncertain? || Entry(Probe, Refused(code)) in Since(old(tab.log)))
        case Crashed => Entry(Probe, Fault) in Since(old(tab.log))
      ensures exit.Returned? ==> exit.performed && !exit.dialog && pendingInput == null
      ensures old(pendingInput) == null ==> Inputs(tab.log) == Inputs(old(tab.log)) + [AnswerDialog(accept)]
    {
      var outcome := tab.RunCdp(AnswerDialog(accept));
      if !outcome.Fine? { return Raised(ResultUncertain, None); }
      var released := ReleasePending();
      if !released { return Raised(ResultUncertain, None); }
      outcome := tab.RunCdp(Probe);
      if !outcome.Fine? { return Raised(ResultUncertain, None); }
      outcome := tab.RunCdp(Probe);
      match outcome
      case Fine => return Returned(true, false);
      case Refused(code) => return Raised(code, None);
      case Fault => return Crashed;
    }

    /** The exception mapping of the surrounding `try`. */
    method Conclude(action: Action, body: Body, dispatched: bool, performed: bool, ghost before: seq<Entry>)
      returns (exit: Exit)
      requires before <= tab.log && BorneOut(action, body, dispatched, Since(before)) && (dispatched ==> performed)
      modifies this`asked, tab
      ensures old(tab.log) <= tab.log && Inputs(tab.log) == Inputs(old(tab.log))
      ensures Reported(action, exit, Since(before))
      ensures Untouched(exit) ==> !dispatched
      ensures Completed(exit) ==> (body.Finished? && performed) || (body.GoalMissed? && dispatched)
    {
      match body {
        case Finished =>
          exit := Returned(performed, false);
        case DialogOpen =>
          exit := Returned(performed, true);
        case GoalMissed =>
          exit := Raised(ActionGoalNotMet, Some(dispatched));
        case Broke(code) =>
          if dispatched && code.ActionGoalNotMet? {
            exit := Raised(code, None);
          } else if dispatched {
            exit := Raised(ResultUncertain, Some(true));
          } else {
            exit := Raised(code, Some(false));
          }
        case Blew =>
          var dialog := Ask();
          if dispatched && dialog {
            var outcome := tab.RunCdp(Probe);
            assert tab.log[|tab.log| - 1] in Since(before);
            match outcome {
              case Fine => exit := Returned(true, true);
              case Refused(code) => exit := Raised(code, None);
              case Fault => exit := Crashed;
            }
          } else {
            exit := Raised(if dispatched then ResultUncertain else OtherCode, Some(dispatched));
          }
      }
    }

    /** Dispatch and observation. */
    method Attempt(native: NativeInput, action: Action) returns (exit: Exit)
      requires native.tab == tab && !native.Holding() && !action.AnswerPrompt?
      modifies this`asked, tab, native
      ensures old(tab.log) <= tab.log && Reported(action, exit, Since(old(tab.log)))
      ensures Inputs(old(tab.log)) <= Inputs(tab.log)
      ensures Untouched(exit) ==> Inputs(tab.log) == Inputs(old(tab.log)) && !native.Holding()
      ensures Completed(exit) ==>
        Inputs(tab.log) == Inputs(old(tab.log)) + Goal(action) && !native.Holding()
      ensures native.Holding() ==> Inputs(old(tab.log)) < Inputs(tab.log)
    {
      var outcome, dispatched, performed := Dispatch(native, action);
      var body := Raise(outcome);
      ghost var acted := tab.log;
      if outcome.Fine? {
        body := Observe(action);
      }
      assert Since(old(tab.log)) == acted[|old(tab.log)|..] + Since(acted);
      exit := Conclude(action, body, dispatched, performed, old(tab.log));
    }

    /** Everything before the dispatch, the second `prepare` included: reads only. */
    method Prepare(action: Action) returns (exit: Exit)
      modifies tab
      ensures Inputs(tab.log) == Inputs(old(tab.log))
      ensures exit == Returned(true, false) || (exit.Raised? && exit.flag == Some(false))
      ensures old(tab.log) <= tab.log && (exit.Returned? ==> AllFine(Since(old(tab.log))))
    {
      var outcome := tab.RunCdp(Probe);
      if outcome.Fine? && !action.AnswerPrompt? {
        outcome := tab.RunCdp(Probe);
      }
      match outcome
      case Fine => return Returned(true, false);
      case Refused(code) => return Raised(code, Some(false));
      case Fault => return Raised(OtherCode, Some(false));
    }

    /** The `try`/`finally`: whatever `Attempt` leaves held is released afterwards, and what is kept for
        later is only what could not be. */
    method Perform(action: Action) returns (exit: Exit, ghost attempted: seq<Entry>)
      requires Valid() && !action.AnswerPrompt?
      modifies this, tab
      ensures old(tab.log) <= tab.log && Reported(action, exit, Since(old(tab.log)))
      ensures Valid() && Inputs(old(tab.log)) <= Inputs(tab.log)
      ensures Untouched(exit) ==> Inputs(tab.log) == Inputs(old(tab.log))
      ensures Completed(exit) ==> Inputs(tab.log) == Inputs(old(tab.log)) + Goal(action)
      ensures pendingInput == old(pendingInput)
        || (fresh(pendingInput) && pendingInput.Holding() && Inputs(old(tab.log)) < Inputs(tab.log))
      ensures old(tab.log) <= attempted <= tab.log && (pendingInput != old(pendingInput) <==> !AllFine(Since(attempted)))
    {
      var native := new NativeInput(tab);
      exit := Attempt(native, action);
      attempted := tab.log;
      native.Release();
      assert Since(old(tab.log)) == attempted[|old(tab.log)|..] + Since(attempted);
      if native.Holding() { pendingInput := native; }
    }

    /** The whole action. Its second clause is the adapter's promise to the service. */
    method Act(action: Action) returns (exit: Exit)
      requires Valid()
      modifies this, tab, pendingInput
      ensures old(tab.log) <= tab.log
      ensures !action.AnswerPrompt? ==> Reported(action, exit, Since(old(tab.log)))
      ensures action.AnswerPrompt? && exit.Raised? ==>
        exit.flag == Some(false) || exit.code.ResultUncertain? || Entry(Probe, Refused(exit.code)) in Since(old(tab.log))
      ensures Valid() && Inputs(old(tab.log)) <= Inputs(tab.log)
      ensures Truthful(SentSince(old(tab.log)), exit)
      ensures !action.AnswerPrompt? && Untouched(exit) ==> SentSince(old(tab.log)) == []
      ensures !action.AnswerPrompt? && Completed(exit) ==> SentSince(old(tab.log)) == Goal(action)
      ensures action.AnswerPrompt? && exit.Returned? ==>
        SentSince(old(tab.log)) != [] && SentSince(old(tab.log))[0] == AnswerDialog(action.accept)
      ensures pendingInput in {null, old(pendingInput)}
        || (fresh(pendingInput) && pendingInput.Holding() && SentSince(old(tab.log)) != [])
    {
      hide Inputs, Expected;
      exit := Prepare(action);
      if !exit.Returned? { return; }
      ghost var prepared := tab.log;
      if action.AnswerPrompt? {
        exit := Answer(action.accept);
        assert Since(old(tab.log)) == prepared[|old(tab.log)|..] + Since(prepared);
        return;
      }
      ghost var attempted;
      exit, attempted := Perform(action);
      ghost var performed := tab.log;
      assert Since(old(tab.log)) == prepared[|old(tab.log)|..] + Since(prepared);
      ReportedLater(action, exit, prepared[|old(tab.log)|..], Since(prepared));
      if exit.Returned? && !exit.dialog {
        assert AllFine(performed[|old(tab.log)|..]);
        hide Reported;
        var outcome := tab.RunCdp(Probe);
        assert Since(old(tab.log)) == performed[|old(tab.log)|..] + [Entry(Probe, outcome)];
        ReportedFinally(action, exit, performed[|old(tab.log)|..], outcome);
        match outcome {
          case Fine =>
          case Refused(code) => exit := Raised(code, None);
          case Fault => exit := Crashed;
        }
      }
    }
  }
}
