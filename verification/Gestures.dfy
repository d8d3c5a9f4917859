/** What the commands of a completed action do to a page: the gestures mean what they are named. */
module Gestures {
  import opened Wrappers
  import opened InputDriver
  import opened Adapter

  /** The focused field, what is held down, and the presses released so far. */
  datatype Page = Page(text: string, selected: bool, keys: set<string>, button: Option<Button>, at: Point,
                       clicks: seq<Press>, dragged: seq<Point>)
  datatype Press = Press(down: Point, up: Point, button: Button, count: nat)

  /** Typed or inserted text takes the place of the selection. */
  function Enter(p: Page, text: string): Page {
    p.(text := if p.selected then text else p.text + text, selected := false)
  }

  function Erase(p: Page): Page {
    p.(text := if p.selected then "" else if p.text == "" then "" else p.text[..|p.text| - 1], selected := false)
  }

  function After(p: Page, c: Command): Page {
    match c
    case KeyDown(key, modifiers) =>
      var p1 := p.(keys := p.keys + {key});
      if key == "A" && CONTROL in modifiers then p1.(selected := true)
      else if key == "BACKSPACE" then Erase(p1)
      else p1
    case RawKeyDown(c) => p.(keys := p.keys + {[c]})
    case CharEvent(c) => Enter(p, [c])
    case KeyUp(key) => p.(keys := p.keys - {key})
    case InsertText(text) => Enter(p, text)
    case Mouse(Pressed, at, button, _) => p.(at := at, button := Some(button), dragged := [at])
    case Mouse(Moved, at, _, _) => p.(at := at, dragged := if p.button.Some? then p.dragged + [at] else p.dragged)
    case Mouse(Released, at, button, count) =>
      p.(at := at, button := None,
         clicks := p.clicks + [Press(if p.dragged == [] then at else p.dragged[0], at, button, count)])
    case _ => p
  }

  function Play(p: Page, commands: seq<Command>): Page {
    if commands == [] then p else After(Play(p, commands[..|commands| - 1]), commands[|commands| - 1])
  }

  lemma {:induction false} PlayConcat(p: Page, a: seq<Command>, b: seq<Command>)
    ensures Play(p, a + b) == Play(Play(p, a), b)
  {
    if b == [] {
      assert a + b == a;
    } else {
      assert (a + b)[..|a + b| - 1] == a + b[..|b| - 1];
      PlayConcat(p, a, b[..|b| - 1]);
    }
  }

  lemma PlayOne(p: Page, c: Command)
    ensures Play(p, [c]) == After(p, c)
  {
    assert [c][..0] == [];
  }

  lemma PlayTwo(p: Page, c: Command, d: Command)
    ensures Play(p, [c, d]) == After(After(p, c), d)
  {
    PlayConcat(p, [c], [d]);
    PlayOne(p, c);
    PlayOne(After(p, c), d);
    assert [c, d] == [c] + [d];
  }

  /** Nothing is held down. */
  predicate Idle(p: Page) { p.keys == {} && p.button.None? }

  /** Filling leaves exactly the given text, whatever was in the field, and nothing held. */
  lemma FillReplaces(p: Page, node: nat, text: string, geometry: nat -> Point, checkedNow: bool)
    requires Idle(p)
    ensures Play(p, Expected(Fill(node, text), geometry, checkedNow)) == p.(text := text, selected := false)
  {
    var select := KeyCommands("A", {CONTROL});
    PlayTwo(p, select[0], select[1]);
    var p1 := Play(p, select);
    assert p1 == p.(selected := true);
    if text != "" {
      PlayConcat(p, select, [InsertText(text)]);
      PlayOne(p1, InsertText(text));
    } else {
      var erase := KeyCommands("BACKSPACE", {});
      PlayConcat(p, select, erase);
      PlayTwo(p1, erase[0], erase[1]);
    }
  }

  /** Typing adds the text at the end, in place of a selection, and leaves nothing held. */
  lemma {:induction false} TypeAppends(p: Page, text: string)
    requires Idle(p)
    ensures Play(p, TypeCommands(text))
            == p.(text := if p.selected && text != "" then text else p.text + text, selected := p.selected && text == "")
  {
    if text != "" {
      var front, c := text[..|text| - 1], text[|text| - 1];
      TypeAppends(p, front);
      PlayConcat(p, TypeCommands(front), CharCommands(c));
      CharEnters(Play(p, TypeCommands(front)), c);
      assert TypeCommands(text) == TypeCommands(front) + CharCommands(c);
      hide Play, TypeCommands, CharCommands;
      assert text == front + [c] && p.text + text == p.text + front + [c];
    }
  }

  lemma CharEnters(p: Page, c: char)
    requires Idle(p)
    ensures Play(p, CharCommands(c)) == Enter(p, [c])
  {
    if Keyed(c) {
      var down, typed, up := RawKeyDown(c), CharEvent(c), KeyUp([c]);
      PlayConcat(p, [down, typed], [up]);
      PlayTwo(p, down, typed);
      PlayOne(Play(p, [down, typed]), up);
      assert [down, typed] + [up] == CharCommands(c);
    } else {
      PlayOne(p, InsertText([c]));
    }
  }

  function Presses(at: Point, button: Button, count: nat): seq<Press> {
    if count == 0 then [] else Presses(at, button, count - 1) + [Press(at, at, button, count)]
  }

  /** A click presses and releases its button at its point, `count` times with rising counts. */
  lemma {:induction false} ClickClicks(p: Page, at: Point, button: Button, count: nat)
    requires Idle(p) && count > 0
    ensures Play(p, ClickCommands(at, button, count))
            == p.(at := at, dragged := [at], clicks := p.clicks + Presses(at, button, count))
  {
    var rest := ClickCommands(at, button, count - 1);
    var press, release := Mouse(Pressed, at, button, count), Mouse(Released, at, button, count);
    if count > 1 { ClickClicks(p, at, button, count - 1); }
    PlayConcat(p, rest, [press, release]);
    PlayTwo(Play(p, rest), press, release);
  }

  /** The four kinds of clicks. */
  lemma ClicksAsNamed(p: Page, node: nat, kind: ClickKind, geometry: nat -> Point, checkedNow: bool)
    requires Idle(p)
    ensures var at := geometry(node);
      var p' := Play(p, Expected(Click(node, kind), geometry, checkedNow));
      Idle(p') && p'.text == p.text
      && p'.clicks == p.clicks + match kind
         case SingleClick => [Press(at, at, Left, 1)]
         case DoubleClick => [Press(at, at, Left, 1), Press(at, at, Left, 2)]
         case RightClick => [Press(at, at, Right, 1)]
         case MiddleClick => [Press(at, at, Middle, 1)]
  {
    var at := geometry(node);
    match kind
    case SingleClick => ClickClicks(p, at, Left, 1);
    case DoubleClick =>
      ClickClicks(p, at, Left, 2);
      assert Presses(at, Left, 1) == [Press(at, at, Left, 1)];
      assert Presses(at, Left, 2) == [Press(at, at, Left, 1), Press(at, at, Left, 2)];
    case RightClick => ClickClicks(p, at, Right, 1);
    case MiddleClick => ClickClicks(p, at, Middle, 1);
  }

  /** A tick box is clicked exactly when it is not yet as wanted. */
  lemma ChecksWhenNeeded(p: Page, node: nat, checked: bool, geometry: nat -> Point, checkedNow: bool)
    requires Idle(p)
    ensures var at := geometry(node);
      Play(p, Expected(Check(node, checked), geometry, checkedNow)).clicks
      == p.clicks + if checkedNow == checked then [] else [Press(at, at, Left, 1)]
  {
    if checkedNow != checked { ClickClicks(p, geometry(node), Left, 1); }
  }

  lemma {:induction false} MovesDrag(p: Page, start: Point, end: Point, n: nat, steps: nat)
    requires n <= steps && p.button.Some?
    ensures var p' := Play(p, MoveCommands(start, end, n, steps));
      p'.(at := p.at, dragged := p.dragged) == p && p.dragged <= p'.dragged && |p'.dragged| == |p.dragged| + n
      && (n > 0 ==> p'.at == Between(start, end, n, steps))
  {
    if n > 0 {
      MovesDrag(p, start, end, n - 1, steps);
      var c := Mouse(Moved, Between(start, end, n, steps), Left, 1);
      PlayConcat(p, MoveCommands(start, end, n - 1, steps), [c]);
      PlayOne(Play(p, MoveCommands(start, end, n - 1, steps)), c);
    }
  }

  /** A drag presses at the start, moves in as many steps as asked, and releases at the end. */
  lemma DragDrops(p: Page, start: Point, end: Point, steps: nat)
    requires Idle(p)
    ensures var p' := Play(p, DragCommands(start, end, steps));
      Idle(p') && p'.at == end && p'.clicks == p.clicks + [Press(start, end, Left, 1)]
      && |p'.dragged| == steps + 1 && p'.dragged[0] == start && p'.text == p.text
  {
    var hover, press := Mouse(Moved, start, NoButton, 1), Mouse(Pressed, start, Left, 1);
    var moves, release := MoveCommands(start, end, steps, steps), Mouse(Released, end, Left, 1);
    PlayTwo(p, hover, press);
    var p1 := Play(p, [hover, press]);
    MovesDrag(p1, start, end, steps, steps);
    PlayConcat(p, [hover, press], moves);
    PlayConcat(p, [hover, press] + moves, [release]);
    PlayOne(Play(p, [hover, press] + moves), release);
  }

  /** The last step of a drag is at its end. */
  lemma LastStepIsEnd(start: Point, end: Point, steps: nat)
    requires steps > 0
    ensures Between(start, end, steps, steps) == end
  {
    assert (end.x - start.x) * steps as real / steps as real == end.x - start.x;
    assert (end.y - start.y) * steps as real / steps as real == end.y - start.y;
  }
}
