/**
 The text walk over the pruned composed tree: an explicit stack, a set of visited nodes, a node
 limit and a character budget. Nodes are numbers; what the browser knows about a node (its
 style, its boxes, whether it is protected) is given with the page.
 */
module TextWalk {
  import opened Wrappers

  type Id = nat

  datatype Node =
    | TextNode(content: string)
    | Element(tag: string, alt: string, hidden: bool, boxed: bool, landmark: bool)
    | OtherNode

  /** `children` are the composed children; `protects` is the privacy rule for elements. */
  datatype Page = Page(nodes: map<Id, Node>, children: map<Id, seq<Id>>, protects: Id -> bool, normalize: string -> string)

  /** Every child of a node is a node. */
  ghost predicate Valid(p: Page) {
    p.children.Keys == p.nodes.Keys
    && forall n, i :: n in p.children && 0 <= i < |p.children[n]| ==> p.children[n][i] in p.nodes
  }

  const EXCLUDED: set<string> :=
    {"SCRIPT", "STYLE", "TEMPLATE", "NOSCRIPT", "IFRAME", "FRAME", "OBJECT", "EMBED", "SVG", "CANVAS", "VIDEO", "INPUT",
     "TEXTAREA", "SELECT"}
  const BLOCK: set<string> :=
    {"P", "DIV", "SECTION", "ARTICLE", "MAIN", "HEADER", "FOOTER", "ASIDE", "NAV", "UL", "OL", "LI", "TABLE", "TR",
     "BLOCKQUOTE", "PRE", "DL", "DT", "DD", "FIGURE", "FIGCAPTION", "FORM"}

  predicate IsHeading(tag: string) { |tag| == 2 && tag[0] == 'H' && '1' <= tag[1] <= '6' }

  function Hashes(n: nat): string { seq(n, _ => '#') }

  /** One walk: where it starts, whether landmarks are left out, its budget (none: unlimited). */
  datatype Walk = Walk(page: Page, start: seq<Option<Id>>, semantic: bool, budget: Option<nat>, limit: nat)

  ghost predicate ValidWalk(w: Walk) {
    Valid(w.page) && forall i :: 0 <= i < |w.start| && w.start[i].Some? ==> w.start[i].value in w.page.nodes
  }

  /** Nothing of this node or below it is rendered. */
  predicate Pruned(w: Walk, n: Id)
    requires n in w.page.nodes
  {
    match w.page.nodes[n]
    case TextNode(_) => false
    case OtherNode => true
    case Element(tag, _, hidden, boxed, landmark) =>
      tag in EXCLUDED || w.page.protects(n) || hidden || !boxed || (w.semantic && Some(n) !in w.start && landmark)
  }

  datatype Piece = Piece(text: string, source: Id)

  function TextPiece(w: Walk, n: Id, content: string): seq<Piece> {
    var text := w.page.normalize(content);
    if text != "" then [Piece(text + " ", n)] else []
  }

  /** What an element contributes before its children, and after them. */
  function Opening(w: Walk, n: Id): (ps: seq<Piece>)
    requires n in w.page.nodes && w.page.nodes[n].Element?
    ensures forall i :: 0 <= i < |ps| ==> ps[i].source == n && ps[i].text != ""
  {
    var e := w.page.nodes[n];
    (if IsHeading(e.tag) then [Piece("\n" + Hashes((e.tag[1] - '0') as nat) + " ", n)]
     else if e.tag in BLOCK then [Piece("\n", n)] else [])
    + (if e.tag == "BR" then [Piece("\n", n)] else [])
    + (if e.tag == "LI" then [Piece("- ", n)] else [])
    + (if e.tag == "IMG" && e.alt != "" then [Piece("[image: " + w.page.normalize(e.alt) + "] ", n)] else [])
  }

  function Closing(w: Walk, n: Id): (ps: seq<Piece>)
    requires n in w.page.nodes && w.page.nodes[n].Element?
    ensures forall i :: 0 <= i < |ps| ==> ps[i].source == n && ps[i].text != ""
  {
    var e := w.page.nodes[n];
    (if e.tag == "TD" || e.tag == "TH" then [Piece(" | ", n)] else [])
    + (if IsHeading(e.tag) || e.tag in BLOCK then [Piece("\n", n)] else [])
  }

  // ---- the recursive rendering ------------------------------------------------------------

  /** The unlimited rendering of one node and all below it; `seen` nodes are rendered once. */
  ghost function Render(w: Walk, n: Id, seen: set<Id>): (r: (seq<Piece>, set<Id>))
    requires ValidWalk(w) && n in w.page.nodes
    ensures seen <= r.1 && (seen <= w.page.nodes.Keys ==> r.1 <= w.page.nodes.Keys)
    decreases w.page.nodes.Keys - seen, 0
  {
    if n in seen then ([], seen)
    else
      match w.page.nodes[n]
      case TextNode(content) => (TextPiece(w, n, content), seen + {n})
      case OtherNode => ([], seen + {n})
      case Element(_, _, _, _, _) =>
        if Pruned(w, n) then ([], seen + {n})
        else
          var inner := RenderAll(w, w.page.children[n], seen + {n});
          (Opening(w, n) + inner.0 + Closing(w, n), inner.1)
  }

  ghost function RenderAll(w: Walk, ns: seq<Id>, seen: set<Id>): (r: (seq<Piece>, set<Id>))
    requires ValidWalk(w) && forall i :: 0 <= i < |ns| ==> ns[i] in w.page.nodes
    ensures seen <= r.1 && (seen <= w.page.nodes.Keys ==> r.1 <= w.page.nodes.Keys)
    decreases w.page.nodes.Keys - seen, 1, |ns|
  {
    if ns == [] then ([], seen)
    else
      var first := Render(w, ns[0], seen);
      var rest := RenderAll(w, ns[1..], first.1);
      (first.0 + rest.0, rest.1)
  }

  function Starts(start: seq<Option<Id>>): seq<Id> {
    if start == [] then [] else (if start[0].Some? then [start[0].value] else []) + Starts(start[1..])
  }

  lemma {:induction false} StartsAreNodes(w: Walk, start: seq<Option<Id>>)
    requires forall i :: 0 <= i < |start| && start[i].Some? ==> start[i].value in w.page.nodes
    ensures forall i :: 0 <= i < |Starts(start)| ==> Starts(start)[i] in w.page.nodes && Some(Starts(start)[i]) in start
  {
    if start != [] {
      StartsAreNodes(w, start[1..]);
      forall i | 0 <= i < |Starts(start)| ensures Starts(start)[i] in w.page.nodes && Some(Starts(start)[i]) in start {
        if start[0].Some? && i == 0 { assert start[0] in start; }
        else {
          var x := Starts(start[1..])[if start[0].Some? then i - 1 else i];
          assert Some(x) in start[1..];
        }
      }
    }
  }

  ghost function Rendering(w: Walk): seq<Piece>
    requires ValidWalk(w)
  {
    StartsAreNodes(w, w.start);
    RenderAll(w, Starts(w.start), {}).0
  }

  // ---- the same rendering off a stack -------------------------------------------------------

  datatype Entry = Entry(node: Id, closing: bool)

  ghost predicate ValidStack(w: Walk, stack: seq<Entry>) {
    forall i :: 0 <= i < |stack| ==>
      stack[i].node in w.page.nodes && (stack[i].closing ==> w.page.nodes[stack[i].node].Element?)
  }

  /** Entries for the nodes, the first of them on top of the stack, which is its end. */
  function Pushed(ns: seq<Id>): (r: seq<Entry>)
    ensures |r| == |ns|
    ensures forall i :: 0 <= i < |r| ==> r[i] == Entry(ns[|ns| - 1 - i], false)
  {
    if ns == [] then [] else Pushed(ns[1..]) + [Entry(ns[0], false)]
  }

  ghost function Work(w: Walk, stack: seq<Entry>, seen: set<Id>): seq<Piece>
    requires ValidWalk(w) && ValidStack(w, stack)
    decreases w.page.nodes.Keys - seen, |stack|
  {
    if stack == [] then []
    else
      var top, rest := stack[|stack| - 1], stack[..|stack| - 1];
      if top.closing then Closing(w, top.node) + Work(w, rest, seen)
      else if top.node in seen then Work(w, rest, seen)
      else
        match w.page.nodes[top.node]
        case TextNode(content) => TextPiece(w, top.node, content) + Work(w, rest, seen + {top.node})
        case OtherNode => Work(w, rest, seen + {top.node})
        case Element(_, _, _, _, _) =>
          if Pruned(w, top.node) then Work(w, rest, seen + {top.node})
          else
            Opening(w, top.node)
            + Work(w, rest + [Entry(top.node, true)] + Pushed(w.page.children[top.node]), seen + {top.node})
  }

  /** The stack renders its top node exactly as the recursion does. */
  lemma {:induction false} WorkRenders(w: Walk, rest: seq<Entry>, n: Id, seen: set<Id>)
    requires ValidWalk(w) && ValidStack(w, rest) && n in w.page.nodes
    ensures Work(w, rest + [Entry(n, false)], seen) == Render(w, n, seen).0 + Work(w, rest, Render(w, n, seen).1)
    decreases w.page.nodes.Keys - seen, 0
  {
    hide Opening, Closing, TextPiece;
    var stack := rest + [Entry(n, false)];
    assert stack[..|stack| - 1] == rest;
    if n !in seen && w.page.nodes[n].Element? && !Pruned(w, n) {
      var closing := rest + [Entry(n, true)];
      var inner := RenderAll(w, w.page.children[n], seen + {n});
      WorkRendersAll(w, closing, w.page.children[n], seen + {n});
      assert closing[..|closing| - 1] == rest;
      assert Work(w, closing, inner.1) == Closing(w, n) + Work(w, rest, inner.1);
    }
  }

  lemma {:induction false} WorkRendersAll(w: Walk, rest: seq<Entry>, ns: seq<Id>, seen: set<Id>)
    requires ValidWalk(w) && ValidStack(w, rest) && forall i :: 0 <= i < |ns| ==> ns[i] in w.page.nodes
    ensures Work(w, rest + Pushed(ns), seen) == RenderAll(w, ns, seen).0 + Work(w, rest, RenderAll(w, ns, seen).1)
    decreases w.page.nodes.Keys - seen, 1, |ns|
  {
    if ns == [] {
      assert rest + Pushed(ns) == rest;
    } else {
      var first := Render(w, ns[0], seen);
      assert rest + Pushed(ns) == (rest + Pushed(ns[1..])) + [Entry(ns[0], false)];
      WorkRenders(w, rest + Pushed(ns[1..]), ns[0], seen);
      WorkRendersAll(w, rest, ns[1..], first.1);
    }
  }

  // ---- what may be shown ----------------------------------------------------------------------

  /** From a start down through rendered elements only. */
  ghost predicate IsPath(w: Walk, path: seq<Id>) {
    |path| > 0 && Some(path[0]) in w.start
    && (forall i :: 0 <= i < |path| ==> path[i] in w.page.nodes)
    && forall i :: 0 <= i < |path| - 1 ==>
         w.page.nodes[path[i]].Element? && !Pruned(w, path[i])
         && path[i] in w.page.children && path[i + 1] in w.page.children[path[i]]
  }

  ghost predicate Reached(w: Walk, n: Id) {
    exists path :: IsPath(w, path) && path[|path| - 1] == n
  }

  ghost predicate Exposed(w: Walk, n: Id) {
    n in w.page.nodes && Reached(w, n) && !Pruned(w, n)
  }

  lemma ReachedChild(w: Walk, n: Id, c: Id)
    requires Valid(w.page) && Exposed(w, n) && w.page.nodes[n].Element? && c in w.page.children[n]
    ensures Reached(w, c)
  {
    var path :| IsPath(w, path) && path[|path| - 1] == n;
    var longer := path + [c];
    assert IsPath(w, longer);
    assert longer[|longer| - 1] == c;
  }

  lemma ReachedStart(w: Walk, n: Id)
    requires Some(n) in w.start && n in w.page.nodes
    ensures Reached(w, n)
  {
    assert IsPath(w, [n]);
  }

  // ---- the character budget --------------------------------------------------------------------

  function Length(ps: seq<Piece>): nat {
    if ps == [] then 0 else Length(ps[..|ps| - 1]) + |ps[|ps| - 1].text|
  }

  function Room(budget: Option<nat>, chars: nat, want: nat): (r: nat)
    ensures r <= want
  {
    if budget.None? then want else if budget.value <= chars then 0
    else if want <= budget.value - chars then want else budget.value - chars
  }

  /** All pieces but at most one are the beginning of `done`; the odd one is cut short. */
  ghost predicate CutFrom(ps: seq<Piece>, done: seq<Piece>) {
    exists k: nat :: k <= |ps| <= k + 1 && k <= |done| && ps[..k] == done[..k]
      && (|ps| == k + 1 ==> k < |done| && ps[k].source == done[k].source && ps[k].text <= done[k].text)
  }

  /** The output so far against the unlimited output so far. */
  ghost predicate Within(w: Walk, ps: seq<Piece>, chars: nat, truncated: bool, done: seq<Piece>) {
    chars == Length(ps) && (w.budget.Some? ==> chars <= w.budget.value)
    && if truncated then w.budget.Some? && chars == w.budget.value && CutFrom(ps, done) else ps == done
  }

  method Add(w: Walk, pieces0: seq<Piece>, chars0: nat, truncated0: bool, text: string, source: Id, ghost done: seq<Piece>)
    returns (pieces: seq<Piece>, chars: nat, truncated: bool)
    requires Within(w, pieces0, chars0, truncated0, done) && text != ""
    ensures Within(w, pieces, chars, truncated, done + [Piece(text, source)])
    ensures truncated0 ==> truncated && pieces == pieces0
    ensures pieces0 <= pieces && forall i :: |pieces0| <= i < |pieces| ==> pieces[i].source == source
  {
    pieces, chars, truncated := pieces0, chars0, truncated0;
    var part := text[..Room(w.budget, chars, |text|)];
    if part != "" {
      pieces := pieces + [Piece(part, source)];
      chars := chars + |part|;
      assert pieces[..|pieces| - 1] == pieces0;
    }
    if |part| < |text| { truncated := true; }
    ghost var more := done + [Piece(text, source)];
    if truncated0 {
      ghost var k: nat :| k <= |pieces| <= k + 1 && k <= |done| && pieces[..k] == done[..k]
        && (|pieces| == k + 1 ==> k < |done| && pieces[k].source == done[k].source && pieces[k].text <= done[k].text);
      assert more[..k] == done[..k];
      assert CutFrom(pieces, more);
    } else if truncated {
      assert pieces[..|done|] == done == more[..|done|];
      assert CutFrom(pieces, more);
    } else {
      assert part == text;
    }
  }

  /** The adds an element makes when it is opened. */
  method AddOpening(w: Walk, pieces0: seq<Piece>, chars0: nat, n: Id)
    returns (pieces: seq<Piece>, chars: nat, truncated: bool)
    requires n in w.page.nodes && w.page.nodes[n].Element? && Within(w, pieces0, chars0, false, pieces0)
    ensures Within(w, pieces, chars, truncated, pieces0 + Opening(w, n))
    ensures pieces0 <= pieces && forall i :: |pieces0| <= i < |pieces| ==> pieces[i].source == n
  {
    hide Within;
    var e := w.page.nodes[n];
    pieces, chars, truncated := pieces0, chars0, false;
    ghost var done := pieces0;
    if IsHeading(e.tag) {
      var text := "\n" + Hashes((e.tag[1] - '0') as nat) + " ";
      pieces, chars, truncated := Add(w, pieces, chars, truncated, text, n, done);
      done := done + [Piece(text, n)];
    } else if e.tag in BLOCK {
      pieces, chars, truncated := Add(w, pieces, chars, truncated, "\n", n, done);
      done := done + [Piece("\n", n)];
    }
    if e.tag == "BR" {
      pieces, chars, truncated := Add(w, pieces, chars, truncated, "\n", n, done);
      done := done + [Piece("\n", n)];
    }
    if e.tag == "LI" {
      pieces, chars, truncated := Add(w, pieces, chars, truncated, "- ", n, done);
      done := done + [Piece("- ", n)];
    }
    if e.tag == "IMG" && e.alt != "" {
      var text := "[image: " + w.page.normalize(e.alt) + "] ";
      pieces, chars, truncated := Add(w, pieces, chars, truncated, text, n, done);
      done := done + [Piece(text, n)];
    }
    assert done == pieces0 + Opening(w, n);
  }

  method AddClosing(w: Walk, pieces0: seq<Piece>, chars0: nat, n: Id)
    returns (pieces: seq<Piece>, chars: nat, truncated: bool)
    requires n in w.page.nodes && w.page.nodes[n].Element? && Within(w, pieces0, chars0, false, pieces0)
    ensures Within(w, pieces, chars, truncated, pieces0 + Closing(w, n))
    ensures pieces0 <= pieces && forall i :: |pieces0| <= i < |pieces| ==> pieces[i].source == n
  {
    hide Within;
    var e := w.page.nodes[n];
    pieces, chars, truncated := pieces0, chars0, false;
    ghost var done := pieces0;
    if e.tag == "TD" || e.tag == "TH" {
      pieces, chars, truncated := Add(w, pieces, chars, truncated, " | ", n, done);
      done := done + [Piece(" | ", n)];
    }
    if IsHeading(e.tag) || e.tag in BLOCK {
      pieces, chars, truncated := Add(w, pieces, chars, truncated, "\n", n, done);
      done := done + [Piece("\n", n)];
    }
    assert done == pieces0 + Closing(w, n);
  }

  /** A text node is first cut to the room left, then normalised, then added. */
  method AddText(w: Walk, pieces0: seq<Piece>, chars0: nat, n: Id)
    returns (pieces: seq<Piece>, chars: nat, truncated: bool)
    requires n in w.page.nodes && w.page.nodes[n].TextNode? && Within(w, pieces0, chars0, false, pieces0)
    ensures chars == Length(pieces) && (w.budget.Some? ==> chars <= w.budget.value)
    ensures !truncated ==> pieces == pieces0 + TextPiece(w, n, w.page.nodes[n].content)
    ensures truncated ==> w.budget.Some? && TextCut(w, pieces, pieces0, n)
    ensures pieces0 <= pieces && forall i :: |pieces0| <= i < |pieces| ==> pieces[i].source == n
  {
    var content := w.page.nodes[n].content;
    var part := content[..Room(w.budget, chars0, |content|)];
    var text := w.page.normalize(part);
    pieces, chars, truncated := pieces0, chars0, false;
    if text != "" {
      pieces, chars, truncated := Add(w, pieces, chars, truncated, text + " ", n, pieces);
      if truncated { OneCut(pieces0, pieces, Piece(text + " ", n)); }
    }
    if |part| < |content| { truncated := true; }
    if !truncated { assert part == content; }
  }

  /** At most one more piece, which is the beginning of a normalised beginning of the text. */
  ghost predicate TextCut(w: Walk, ps: seq<Piece>, ps0: seq<Piece>, n: Id)
    requires n in w.page.nodes && w.page.nodes[n].TextNode?
  {
    ps == ps0 || (|ps| == |ps0| + 1 && ps[..|ps0|] == ps0 && ps[|ps0|].source == n
                  && exists m :: 0 <= m <= |w.page.nodes[n].content|
                                 && ps[|ps0|].text <= w.page.normalize(w.page.nodes[n].content[..m]) + " ")
  }

  lemma OneCut(ps0: seq<Piece>, ps: seq<Piece>, more: Piece)
    requires CutFrom(ps, ps0 + [more]) && ps0 <= ps
    ensures ps == ps0 || (|ps| == |ps0| + 1 && ps[|ps0|].text <= more.text)
  {
  }

  // ---- the walk ---------------------------------------------------------------------------------

  /** All pieces but at most one are the beginning of the full rendering. */
  ghost predicate AlmostPrefix(w: Walk, ps: seq<Piece>, full: seq<Piece>) {
    exists k: nat :: k <= |ps| <= k + 1 && k <= |full| && ps[..k] == full[..k]
      && (|ps| == k + 1 ==>
            (k < |full| && ps[k].source == full[k].source && ps[k].text <= full[k].text)
            || (ps[k].source in w.page.nodes && w.page.nodes[ps[k].source].TextNode?
                && exists m :: 0 <= m <= |w.page.nodes[ps[k].source].content|
                     && ps[k].text <= w.page.normalize(w.page.nodes[ps[k].source].content[..m]) + " "))
  }

  lemma CutIsAlmostPrefix(w: Walk, ps: seq<Piece>, done: seq<Piece>, full: seq<Piece>)
    requires CutFrom(ps, done) && done <= full
    ensures AlmostPrefix(w, ps, full)
  {
    var k: nat :| k <= |ps| <= k + 1 && k <= |done| && ps[..k] == done[..k]
      && (|ps| == k + 1 ==> k < |done| && ps[k].source == done[k].source && ps[k].text <= done[k].text);
    assert full[..k] == done[..k];
  }

  lemma TextCutIsAlmostPrefix(w: Walk, ps: seq<Piece>, ps0: seq<Piece>, n: Id, full: seq<Piece>)
    requires n in w.page.nodes && w.page.nodes[n].TextNode? && TextCut(w, ps, ps0, n) && ps0 <= full
    ensures AlmostPrefix(w, ps, full)
  {
    assert ps[..|ps0|] == ps0 == full[..|ps0|];
  }

  /** What is on the stack may be opened, or has been. */
  ghost predicate StackExposed(w: Walk, stack: seq<Entry>) {
    forall i :: 0 <= i < |stack| ==>
      if stack[i].closing then Exposed(w, stack[i].node) else Reached(w, stack[i].node)
  }

  ghost predicate PiecesExposed(w: Walk, ps: seq<Piece>) {
    forall i :: 0 <= i < |ps| ==> Exposed(w, ps[i].source)
  }

  method PushStarts(w: Walk) returns (pending: seq<Entry>)
    requires ValidWalk(w)
    ensures pending == Pushed(Starts(w.start)) && ValidStack(w, pending) && StackExposed(w, pending)
  {
    pending := [];
    var i := |w.start|;
    StartsAreNodes(w, w.start);
    assert w.start[i..] == [];
    while i > 0
      invariant 0 <= i <= |w.start| && pending == Pushed(Starts(w.start[i..]))
    {
      i := i - 1;
      assert w.start[i..][1..] == w.start[i + 1..];
      if w.start[i].Some? { pending := pending + [Entry(w.start[i].value, false)]; }
    }
    assert w.start[0..] == w.start;
    forall j | 0 <= j < |pending| ensures Reached(w, pending[j].node) {
      ReachedStart(w, pending[j].node);
    }
  }

  method PushChildren(w: Walk, stack: seq<Entry>, n: Id) returns (pending: seq<Entry>)
    requires ValidWalk(w) && ValidStack(w, stack) && StackExposed(w, stack)
    requires Exposed(w, n) && w.page.nodes[n].Element?
    ensures pending == stack + Pushed(w.page.children[n]) && ValidStack(w, pending) && StackExposed(w, pending)
  {
    pending := stack;
    var children := w.page.children[n];
    var i := |children|;
    assert children[i..] == [];
    while i > 0
      invariant 0 <= i <= |children| && pending == stack + Pushed(children[i..])
    {
      i := i - 1;
      assert children[i..][1..] == children[i + 1..];
      pending := pending + [Entry(children[i], false)];
    }
    assert children[0..] == children;
    forall j | 0 <= j < |pending| && j >= |stack| ensures Reached(w, pending[j].node) {
      ReachedChild(w, n, pending[j].node);
    }
  }

  /** The walk's output and stack at the top of its loop. */
  ghost predicate Progress(w: Walk, ps: seq<Piece>, chars: nat, truncated: bool, pending: seq<Entry>, visited: set<Id>)
    requires ValidWalk(w)
  {
    ValidStack(w, pending) && StackExposed(w, pending) && PiecesExposed(w, ps)
    && chars == Length(ps) && (w.budget.Some? ==> chars <= w.budget.value)
    && if truncated then AlmostPrefix(w, ps, Rendering(w)) else Rendering(w) == ps + Work(w, pending, visited)
  }

  /** The output after one more node is good if the node's own part is. */
  lemma Advanced(w: Walk, before: seq<Piece>, own: seq<Piece>, ps: seq<Piece>, chars: nat, truncated: bool,
                 pending: seq<Entry>, visited: set<Id>, n: Id)
    requires ValidWalk(w) && ValidStack(w, pending) && StackExposed(w, pending) && PiecesExposed(w, before)
    requires Rendering(w) == before + (own + Work(w, pending, visited)) && Exposed(w, n)
    requires Within(w, ps, chars, truncated, before + own)
    requires before <= ps && forall i :: |before| <= i < |ps| ==> ps[i].source == n
    ensures Progress(w, ps, chars, truncated, pending, visited)
  {
    hide Work, Rendering, Exposed, StackExposed, ValidStack;
    assert (before + own) + Work(w, pending, visited) == before + (own + Work(w, pending, visited));
    if truncated { CutIsAlmostPrefix(w, ps, before + own, Rendering(w)); }
  }

  method VisitClosing(w: Walk, pieces0: seq<Piece>, chars0: nat, pending0: seq<Entry>, visited: set<Id>)
    returns (pieces: seq<Piece>, chars: nat, truncated: bool)
    requires ValidWalk(w) && Progress(w, pieces0, chars0, false, pending0, visited)
    requires pending0 != [] && pending0[|pending0| - 1].closing
    ensures truncated ==> w.budget.Some?
    ensures Progress(w, pieces, chars, truncated, pending0[..|pending0| - 1], visited)
  {
    var n := pending0[|pending0| - 1].node;
    TopExposed(w, pieces0, chars0, pending0, visited);
    WorkClosing(w, pending0, visited);
    assert Exposed(w, n);
    hide Work, Exposed, StackExposed, ValidStack, Closing, Length, Pruned;
    pieces, chars, truncated := AddClosing(w, pieces0, chars0, n);
    Advanced(w, pieces0, Closing(w, n), pieces, chars, truncated, pending0[..|pending0| - 1], visited, n);
  }

  lemma WorkClosing(w: Walk, pending: seq<Entry>, seen: set<Id>)
    requires ValidWalk(w) && ValidStack(w, pending) && pending != [] && pending[|pending| - 1].closing
    ensures Work(w, pending, seen) == Closing(w, pending[|pending| - 1].node) + Work(w, pending[..|pending| - 1], seen)
  {
    hide Closing;
  }

  method VisitText(w: Walk, pieces0: seq<Piece>, chars0: nat, pending0: seq<Entry>, visited: set<Id>)
    returns (pieces: seq<Piece>, chars: nat, truncated: bool)
    requires ValidWalk(w) && Progress(w, pieces0, chars0, false, pending0, visited)
    requires pending0 != [] && !pending0[|pending0| - 1].closing
    requires var n := pending0[|pending0| - 1].node; n !in visited && w.page.nodes[n].TextNode?
    ensures truncated ==> w.budget.Some?
    ensures Progress(w, pieces, chars, truncated, pending0[..|pending0| - 1], visited + {pending0[|pending0| - 1].node})
  {
    var n := pending0[|pending0| - 1].node;
    TopExposed(w, pieces0, chars0, pending0, visited);
    pieces, chars, truncated := AddText(w, pieces0, chars0, n);
    ghost var rest := pending0[..|pending0| - 1];
    WorkText(w, pending0, visited);
    hide Work, Exposed, StackExposed, ValidStack, TextPiece, Length, TextCut, Pruned, AlmostPrefix, PiecesExposed;
    if truncated {
      TextTruncated(w, pieces0, pieces, chars, rest, visited + {n}, n);
    } else {
      Advanced(w, pieces0, TextPiece(w, n, w.page.nodes[n].content), pieces, chars, false, rest, visited + {n}, n);
    }
  }

  lemma TopExposed(w: Walk, ps: seq<Piece>, chars: nat, pending: seq<Entry>, visited: set<Id>)
    requires ValidWalk(w) && Progress(w, ps, chars, false, pending, visited) && pending != []
    ensures var top := pending[|pending| - 1];
      Within(w, ps, chars, false, ps) && top.node in w.page.nodes && (!Pruned(w, top.node) ==> Exposed(w, top.node))
    ensures var rest := pending[..|pending| - 1];
      ValidStack(w, rest) && StackExposed(w, rest) && PiecesExposed(w, ps)
  {
  }

  /** The walk stops inside a text node. */
  lemma TextTruncated(w: Walk, before: seq<Piece>, ps: seq<Piece>, chars: nat, rest: seq<Entry>, more: set<Id>, n: Id)
    requires ValidWalk(w) && ValidStack(w, rest) && StackExposed(w, rest) && PiecesExposed(w, before) && Exposed(w, n)
    requires before <= Rendering(w) && n in w.page.nodes && w.page.nodes[n].TextNode? && TextCut(w, ps, before, n)
    requires before <= ps && forall i :: |before| <= i < |ps| ==> ps[i].source == n
    requires chars == Length(ps) && (w.budget.Some? ==> chars <= w.budget.value)
    ensures Progress(w, ps, chars, true, rest, more)
  {
    hide *;
    StillExposed(w, before, ps, n);
    TextCutIsAlmostPrefix(w, ps, before, n, Rendering(w));
    Stopped(w, ps, chars, rest, more);
  }

  lemma StillExposed(w: Walk, before: seq<Piece>, ps: seq<Piece>, n: Id)
    requires PiecesExposed(w, before) && Exposed(w, n) && before <= ps
    requires forall i :: |before| <= i < |ps| ==> ps[i].source == n
    ensures PiecesExposed(w, ps)
  {
    hide Exposed;
  }

  lemma Stopped(w: Walk, ps: seq<Piece>, chars: nat, rest: seq<Entry>, more: set<Id>)
    requires ValidWalk(w) && ValidStack(w, rest) && StackExposed(w, rest) && PiecesExposed(w, ps)
    requires AlmostPrefix(w, ps, Rendering(w)) && chars == Length(ps) && (w.budget.Some? ==> chars <= w.budget.value)
    ensures Progress(w, ps, chars, true, rest, more)
  {
  }

  lemma WorkText(w: Walk, pending: seq<Entry>, seen: set<Id>)
    requires ValidWalk(w) && ValidStack(w, pending) && pending != [] && !pending[|pending| - 1].closing
    requires var n := pending[|pending| - 1].node; n !in seen && w.page.nodes[n].TextNode?
    ensures var n := pending[|pending| - 1].node;
      Work(w, pending, seen) == TextPiece(w, n, w.page.nodes[n].content) + Work(w, pending[..|pending| - 1], seen + {n})
  {
    hide TextPiece;
  }

  method VisitElement(w: Walk, pieces0: seq<Piece>, chars0: nat, pending0: seq<Entry>, visited: set<Id>)
    returns (pieces: seq<Piece>, chars: nat, truncated: bool, pending: seq<Entry>)
    requires ValidWalk(w) && Progress(w, pieces0, chars0, false, pending0, visited)
    requires pending0 != [] && !pending0[|pending0| - 1].closing
    requires var n := pending0[|pending0| - 1].node; n !in visited && w.page.nodes[n].Element? && !Pruned(w, n)
    ensures truncated ==> w.budget.Some?
    ensures Progress(w, pieces, chars, truncated, pending, visited + {pending0[|pending0| - 1].node})
  {
    var n := pending0[|pending0| - 1].node;
    TopExposed(w, pieces0, chars0, pending0, visited);
    WorkElement(w, pending0, visited);
    hide Work, Opening, Length, Pruned, AlmostPrefix, PiecesExposed;
    pieces, chars, truncated := AddOpening(w, pieces0, chars0, n);
    pending := PushChildren(w, pending0[..|pending0| - 1] + [Entry(n, true)], n);
    Advanced(w, pieces0, Opening(w, n), pieces, chars, truncated, pending, visited + {n}, n);
  }

  lemma WorkElement(w: Walk, pending: seq<Entry>, seen: set<Id>)
    requires ValidWalk(w) && ValidStack(w, pending) && pending != [] && !pending[|pending| - 1].closing
    requires var n := pending[|pending| - 1].node; n !in seen && w.page.nodes[n].Element? && !Pruned(w, n)
    ensures var n := pending[|pending| - 1].node;
      var next := pending[..|pending| - 1] + [Entry(n, true)] + Pushed(w.page.children[n]);
      ValidStack(w, next) && Work(w, pending, seen) == Opening(w, n) + Work(w, next, seen + {n})
  {
    hide Opening;
  }

  lemma SkipTop(w: Walk, ps: seq<Piece>, chars: nat, pending: seq<Entry>, visited: set<Id>)
    requires ValidWalk(w) && Progress(w, ps, chars, false, pending, visited)
    requires pending != [] && !pending[|pending| - 1].closing
    ensures var n := pending[|pending| - 1].node;
      n in w.page.nodes && (n in visited || Pruned(w, n) ==> Progress(w, ps, chars, false, pending[..|pending| - 1], visited + {n}))
  {
    var n := pending[|pending| - 1].node;
    TopExposed(w, ps, chars, pending, visited);
    if n in visited || Pruned(w, n) {
      WorkSkips(w, pending, visited);
      hide Work, Exposed, StackExposed, ValidStack, PiecesExposed, Length, Pruned;
    }
  }

  lemma WorkSkips(w: Walk, pending: seq<Entry>, seen: set<Id>)
    requires ValidWalk(w) && ValidStack(w, pending) && pending != [] && !pending[|pending| - 1].closing
    requires var n := pending[|pending| - 1].node; n in seen || Pruned(w, n)
    ensures Work(w, pending, seen) == Work(w, pending[..|pending| - 1], seen + {pending[|pending| - 1].node})
  {
    var n := pending[|pending| - 1].node;
    if n in seen { assert seen + {n} == seen; }
  }

  lemma StopHere(w: Walk, ps: seq<Piece>, chars: nat, pending: seq<Entry>, visited: set<Id>, more: set<Id>)
    requires ValidWalk(w) && Progress(w, ps, chars, false, pending, visited) && pending != []
    ensures Progress(w, ps, chars, true, pending[..|pending| - 1], more)
  {
    assert ps[..|ps|] == Rendering(w)[..|ps|];
  }

  lemma StackNodes(w: Walk, ps: seq<Piece>, chars: nat, truncated: bool, pending: seq<Entry>, visited: set<Id>)
    requires ValidWalk(w) && Progress(w, ps, chars, truncated, pending, visited) && pending != []
    ensures pending[|pending| - 1].node in w.page.nodes
  {
  }

  /** The walk itself. `visits` lists the nodes in the order they are visited. */
  method CollectText(w: Walk) returns (pieces: seq<Piece>, truncated: bool, ghost visits: seq<Id>)
    requires ValidWalk(w)
    ensures !truncated ==> pieces == Rendering(w)
    ensures truncated ==> AlmostPrefix(w, pieces, Rendering(w))
    ensures w.budget.Some? ==> Length(pieces) <= w.budget.value
    ensures PiecesExposed(w, pieces)
    ensures (forall a, b :: 0 <= a < b < |visits| ==> visits[a] != visits[b]) && |visits| <= w.limit + 1
    ensures forall i :: 0 <= i < |visits| ==> visits[i] in w.page.nodes
    ensures !truncated ==> |visits| <= w.limit
    ensures w.budget.None? && |w.page.nodes| <= w.limit ==> !truncated
  {
    hide Progress, Work, Rendering, Starts, Pushed, Exposed, StackExposed, ValidStack, PiecesExposed, AlmostPrefix, Length, Valid;
    var count, chars := 0, 0;
    pieces, truncated := [], false;
    var visited: set<Id> := {};
    visits := [];
    var pending := PushStarts(w);
    assert Progress(w, pieces, chars, truncated, pending, visited) by { Started(w, pending); }
    while pending != [] && !truncated
      invariant Progress(w, pieces, chars, truncated, pending, visited)
      invariant visited <= w.page.nodes.Keys && count == |visits|
      invariant forall n :: n in visited <==> n in visits
      invariant forall a, b :: 0 <= a < b < |visits| ==> visits[a] != visits[b]
      invariant if truncated then count <= w.limit + 1 else count <= w.limit
      invariant count == |visited| && (truncated ==> w.budget.Some? || |visited| > w.limit)
      decreases w.page.nodes.Keys - visited, |pending|
    {
      var top := pending[|pending| - 1];
      var n := top.node;
      StackNodes(w, pieces, chars, truncated, pending, visited);
      if top.closing {
        pieces, chars, truncated := VisitClosing(w, pieces, chars, pending, visited);
        pending := pending[..|pending| - 1];
        continue;
      }
      SkipTop(w, pieces, chars, pending, visited);
      if n in visited {
        assert visited + {n} == visited;
        pending := pending[..|pending| - 1];
        continue;
      }
      visits := visits + [n];
      count := count + 1;
      if count > w.limit {
        StopHere(w, pieces, chars, pending, visited, visited + {n});
        visited := visited + {n};
        pending := pending[..|pending| - 1];
        truncated := true;
        break;
      }
      if w.page.nodes[n].TextNode? {
        pieces, chars, truncated := VisitText(w, pieces, chars, pending, visited);
        pending := pending[..|pending| - 1];
      } else if Pruned(w, n) {
        pending := pending[..|pending| - 1];
      } else {
        pieces, chars, truncated, pending := VisitElement(w, pieces, chars, pending, visited);
      }
      visited := visited + {n};
    }
    Finished(w, pieces, chars, truncated, pending, visited);
    Fewer(visited, w.page.nodes.Keys);
  }

  lemma {:induction false} Fewer(a: set<Id>, b: set<Id>)
    requires a <= b
    ensures |a| <= |b|
  {
    if a != {} {
      var x :| x in a;
      Fewer(a - {x}, b - {x});
    }
  }

  lemma Finished(w: Walk, ps: seq<Piece>, chars: nat, truncated: bool, pending: seq<Entry>, visited: set<Id>)
    requires ValidWalk(w) && Progress(w, ps, chars, truncated, pending, visited) && (truncated || pending == [])
    ensures if truncated then AlmostPrefix(w, ps, Rendering(w)) else ps == Rendering(w)
    ensures (w.budget.Some? ==> Length(ps) <= w.budget.value) && PiecesExposed(w, ps)
  {
  }

  lemma Started(w: Walk, pending: seq<Entry>)
    requires ValidWalk(w) && ValidStack(w, pending) && StackExposed(w, pending) && pending == Pushed(Starts(w.start))
    ensures Progress(w, [], 0, false, pending, {})
  {
    StartsAreNodes(w, w.start);
    WorkRendersAll(w, [], Starts(w.start), {});
    assert [] + pending == pending;
  }

  // ---- privacy ------------------------------------------------------------------------------------

  ghost function NthParent(parent: Id -> Option<Id>, n: Id, k: nat): Option<Id> {
    if k == 0 then Some(n)
    else
      var p := NthParent(parent, n, k - 1);
      if p.None? then None else parent(p.value)
  }

  /** The children lists agree with the parents. */
  ghost predicate ParentsAgree(w: Walk, parent: Id -> Option<Id>) {
    forall n, i :: n in w.page.children && 0 <= i < |w.page.children[n]| ==> parent(w.page.children[n][i]) == Some(n)
  }

  lemma {:induction false} PathIsAncestry(w: Walk, parent: Id -> Option<Id>, path: seq<Id>, k: nat)
    requires ParentsAgree(w, parent) && IsPath(w, path) && k < |path|
    ensures NthParent(parent, path[|path| - 1], k) == Some(path[|path| - 1 - k])
  {
    if k > 0 {
      PathIsAncestry(w, parent, path, k - 1);
      var i := |path| - 1 - k;
      var p := path[i];
      assert path[i + 1] in w.page.children[p];
      var x :| 0 <= x < |w.page.children[p]| && w.page.children[p][x] == path[i + 1];
      assert parent(w.page.children[p][x]) == Some(p);
    }
  }

  /** No text from below an element that is not shown: going up from the source of any piece, no
      element up to the start is protected, hidden, without a box or of a kind that is left out, and
      none but a start is a landmark where landmarks are left out. */
  lemma ExposedAncestry(w: Walk, parent: Id -> Option<Id>, n: Id) returns (height: nat)
    requires ParentsAgree(w, parent) && Exposed(w, n)
    ensures NthParent(parent, n, height) in w.start && NthParent(parent, n, height).Some?
    ensures forall k :: 0 <= k <= height ==>
      NthParent(parent, n, k).Some? && var a := NthParent(parent, n, k).value;
      a in w.page.nodes && !Pruned(w, a)
      && match w.page.nodes[a]
         case Element(tag, _, hidden, boxed, landmark) =>
           !w.page.protects(a) && !hidden && boxed && (w.semantic && landmark ==> Some(a) in w.start)
           && tag !in {"SCRIPT", "STYLE", "TEMPLATE", "NOSCRIPT", "IFRAME", "FRAME", "OBJECT", "EMBED", "SVG", "CANVAS",
                       "VIDEO", "INPUT", "TEXTAREA", "SELECT"}
         case TextNode(_) => k == 0
         case OtherNode => false
  {
    var path :| IsPath(w, path) && path[|path| - 1] == n;
    height := |path| - 1;
    PathIsAncestry(w, parent, path, height);
    forall k | 0 <= k <= height
      ensures NthParent(parent, n, k) == Some(path[height - k]) && !Pruned(w, path[height - k])
    {
      PathIsAncestry(w, parent, path, k);
    }
  }

  /** After an incomplete privacy scan every element counts as protected, and nothing is exposed. */
  lemma IncompleteExposesNothing(w: Walk, n: Id)
    requires forall i :: 0 <= i < |w.start| && w.start[i].Some? && w.start[i].value in w.page.nodes ==>
      w.page.nodes[w.start[i].value].Element?
    requires forall e :: w.page.protects(e)
    ensures !Exposed(w, n)
  {
    if Exposed(w, n) {
      var path :| IsPath(w, path) && path[|path| - 1] == n;
      StartPruned(w, path);
    }
  }

  lemma StartPruned(w: Walk, path: seq<Id>)
    requires IsPath(w, path) && forall e :: w.page.protects(e)
    requires forall i :: 0 <= i < |w.start| && w.start[i].Some? && w.start[i].value in w.page.nodes ==>
      w.page.nodes[w.start[i].value].Element?
    ensures Pruned(w, path[0])
  {
    var i :| 0 <= i < |w.start| && w.start[i] == Some(path[0]);
    assert w.page.nodes[w.start[i].value].Element?;
  }

  const GUARD_LIMIT: nat := 20000

  function BodyWalk(page: Page, body: Id, budget: Option<nat>, limit: nat): Walk {
    Walk(page, [Some(body)], false, budget, limit)
  }

  /** The public text and the evidence for the guards: when the text is cut short, the same
      region is walked again without a character budget. `secret` is the token pattern. */
  method PublicText(page: Page, body: Id, textBudget: nat, scanBudget: nat, incomplete: bool, exactTarget: bool,
                    secret: Option<seq<Piece> -> bool>)
    returns (text: seq<Piece>, guard: seq<Piece>, sensitive: bool)
    requires Valid(page) && body in page.nodes && page.nodes[body].Element?
    ensures incomplete || exactTarget ==> text == [] && guard == [] && !sensitive
    ensures Length(text) <= textBudget
    ensures var w := BodyWalk(page, body, Some(textBudget), scanBudget);
      PiecesExposed(w, text) && AlmostPrefix(w, text, Rendering(w))
    ensures var w := BodyWalk(page, body, None, GUARD_LIMIT);
      !incomplete && !exactTarget && !sensitive ==>
        secret.Some? && !secret.value(guard) && guard == Rendering(w)
  {
    text, guard, sensitive := [], [], false;
    var w := BodyWalk(page, body, Some(textBudget), scanBudget);
    if incomplete || exactTarget {
      assert text[..0] == Rendering(w)[..0];
      return;
    }
    var u := BodyWalk(page, body, None, GUARD_LIMIT);
    var truncated: bool;
    ghost var visits;
    text, truncated, visits := CollectText(w);
    guard := text;
    if truncated {
      guard, truncated, visits := CollectText(u);
    } else {
      assert text[..|text|] == Rendering(w)[..|text|];
      SameRendering(w, u);
    }
    sensitive := truncated || secret.None? || secret.value(guard);
  }

  /** Budget and limit do not affect what the unlimited rendering is. */
  lemma SameRendering(w: Walk, u: Walk)
    requires ValidWalk(w) && u == w.(budget := u.budget, limit := u.limit)
    ensures Rendering(w) == Rendering(u)
  {
    StartsAreNodes(w, w.start);
    RenderAllSame(w, u, Starts(w.start), {});
  }

  lemma {:induction false} RenderSame(w: Walk, u: Walk, n: Id, seen: set<Id>)
    requires ValidWalk(w) && u == w.(budget := u.budget, limit := u.limit) && n in w.page.nodes
    ensures Render(w, n, seen) == Render(u, n, seen)
    decreases w.page.nodes.Keys - seen, 0
  {
    if n !in seen && w.page.nodes[n].Element? && !Pruned(w, n) {
      RenderAllSame(w, u, w.page.children[n], seen + {n});
    }
  }

  lemma {:induction false} RenderAllSame(w: Walk, u: Walk, ns: seq<Id>, seen: set<Id>)
    requires ValidWalk(w) && u == w.(budget := u.budget, limit := u.limit)
    requires forall i :: 0 <= i < |ns| ==> ns[i] in w.page.nodes
    ensures RenderAll(w, ns, seen) == RenderAll(u, ns, seen)
    decreases w.page.nodes.Keys - seen, 1, |ns|
  {
    if ns != [] {
      RenderSame(w, u, ns[0], seen);
      RenderAllSame(w, u, ns[1..], Render(w, ns[0], seen).1);
    }
  }

  // ---- in a tree nothing is met twice ----------------------------------------------------------------

  /** Every node has one place: under one parent once, or in the list of starts once. */
  ghost predicate IsForest(w: Walk, rank: Id -> nat) {
    (forall n, i :: n in w.page.children && 0 <= i < |w.page.children[n]| ==> rank(w.page.children[n][i]) < rank(n))
    && (forall n, i, m, j ::
          (n in w.page.children && 0 <= i < |w.page.children[n]| && m in w.page.children
           && 0 <= j < |w.page.children[m]| && w.page.children[n][i] == w.page.children[m][j]) ==>
          n == m && i == j)
  }

  ghost function Below(w: Walk, rank: Id -> nat, n: Id): (r: set<Id>)
    requires Valid(w.page) && IsForest(w, rank) && n in w.page.nodes
    ensures n in r
    decreases rank(n)
  {
    {n} + set i, x | 0 <= i < |w.page.children[n]| && x in Below(w, rank, w.page.children[n][i]) :: x
  }

  /** The plain recursive rendering: no set of seen nodes. */
  ghost function Plain(w: Walk, rank: Id -> nat, n: Id): seq<Piece>
    requires Valid(w.page) && IsForest(w, rank) && n in w.page.nodes
    decreases rank(n), 0
  {
    match w.page.nodes[n]
    case TextNode(content) => TextPiece(w, n, content)
    case OtherNode => []
    case Element(_, _, _, _, _) =>
      if Pruned(w, n) then [] else Opening(w, n) + PlainChildren(w, rank, n, 0) + Closing(w, n)
  }

  /** The children from the i-th on. */
  ghost function PlainChildren(w: Walk, rank: Id -> nat, n: Id, i: nat): seq<Piece>
    requires Valid(w.page) && IsForest(w, rank) && n in w.page.nodes && i <= |w.page.children[n]|
    decreases rank(n), 0, |w.page.children[n]| - i
  {
    if i == |w.page.children[n]| then []
    else Plain(w, rank, w.page.children[n][i]) + PlainChildren(w, rank, n, i + 1)
  }

  lemma {:induction false} BelowParent(w: Walk, rank: Id -> nat, n: Id, x: Id) returns (p: Id)
    requires Valid(w.page) && IsForest(w, rank) && n in w.page.nodes && x in Below(w, rank, n) && x != n
    ensures p in Below(w, rank, n) && p in w.page.nodes && x in w.page.children[p]
    decreases rank(n)
  {
    var i :| 0 <= i < |w.page.children[n]| && x in Below(w, rank, w.page.children[n][i]);
    if x == w.page.children[n][i] {
      p := n;
    } else {
      p := BelowParent(w, rank, w.page.children[n][i], x);
    }
  }

  lemma {:induction false} BelowIsLower(w: Walk, rank: Id -> nat, n: Id, x: Id)
    requires Valid(w.page) && IsForest(w, rank) && n in w.page.nodes && x in Below(w, rank, n)
    ensures x in w.page.nodes && (x == n || rank(x) < rank(n))
    decreases rank(n)
  {
    if x != n {
      var i :| 0 <= i < |w.page.children[n]| && x in Below(w, rank, w.page.children[n][i]);
      BelowIsLower(w, rank, w.page.children[n][i], x);
    }
  }

  /** A common descendant of two nodes puts one of them below the other. */
  lemma {:induction false} OneOverOther(w: Walk, rank: Id -> nat, a: Id, b: Id, x: Id)
    requires Valid(w.page) && IsForest(w, rank) && a in w.page.nodes && b in w.page.nodes
    requires x in Below(w, rank, a) && x in Below(w, rank, b)
    ensures a in Below(w, rank, b) || b in Below(w, rank, a)
    decreases rank(a) + 1 - rank(x)
  {
    if x != a && x != b {
      var p := BelowParent(w, rank, a, x);
      var q := BelowParent(w, rank, b, x);
      assert p == q by { OneParent(w, rank, p, q, x); }
      BelowIsLower(w, rank, a, x);
      OneOverOther(w, rank, a, b, p);
    }
  }

  lemma OneParent(w: Walk, rank: Id -> nat, p: Id, q: Id, x: Id)
    requires Valid(w.page) && IsForest(w, rank) && p in w.page.nodes && q in w.page.nodes
    requires x in w.page.children[p] && x in w.page.children[q]
    ensures p == q && rank(x) < rank(p)
  {
    var i :| 0 <= i < |w.page.children[p]| && w.page.children[p][i] == x;
    var j :| 0 <= j < |w.page.children[q]| && w.page.children[q][j] == x;
    assert w.page.children[p][i] == w.page.children[q][j];
  }

  lemma SiblingsApart(w: Walk, rank: Id -> nat, n: Id, i: nat, j: nat)
    requires Valid(w.page) && IsForest(w, rank) && n in w.page.nodes && i < j < |w.page.children[n]|
    ensures Below(w, rank, w.page.children[n][i]) !! Below(w, rank, w.page.children[n][j])
  {
    var a, b := w.page.children[n][i], w.page.children[n][j];
    forall x | x in Below(w, rank, a) && x in Below(w, rank, b) ensures false {
      OneOverOther(w, rank, a, b, x);
      NotBelowSibling(w, rank, n, i, j);
      NotBelowSibling(w, rank, n, j, i);
    }
  }

  lemma NotBelowSibling(w: Walk, rank: Id -> nat, n: Id, i: nat, j: nat)
    requires Valid(w.page) && IsForest(w, rank) && n in w.page.nodes && i < |w.page.children[n]| && j < |w.page.children[n]|
    requires i != j
    ensures w.page.children[n][i] !in Below(w, rank, w.page.children[n][j])
  {
    var a, b := w.page.children[n][i], w.page.children[n][j];
    assert a != b;
    if a in Below(w, rank, b) {
      var p := BelowParent(w, rank, b, a);
      OneParent(w, rank, p, n, a);
      BelowIsLower(w, rank, b, n);
    }
  }

  lemma {:induction false} RenderIsPlain(w: Walk, rank: Id -> nat, n: Id, seen: set<Id>)
    requires ValidWalk(w) && IsForest(w, rank) && n in w.page.nodes && Below(w, rank, n) !! seen
    ensures Render(w, n, seen).0 == Plain(w, rank, n) && Render(w, n, seen).1 <= seen + Below(w, rank, n)
    decreases rank(n), 0
  {
    if w.page.nodes[n].Element? && !Pruned(w, n) {
      var children := w.page.children[n];
      forall i | 0 <= i < |children|
        ensures Below(w, rank, children[i]) <= Below(w, rank, n) && n !in Below(w, rank, children[i])
      {
        if n in Below(w, rank, children[i]) { BelowIsLower(w, rank, children[i], n); }
      }
      assert children[0..] == children;
      RenderAllIsPlain(w, rank, n, 0, seen + {n});
    }
  }

  lemma {:induction false} RenderAllIsPlain(w: Walk, rank: Id -> nat, n: Id, i: nat, seen: set<Id>)
    requires ValidWalk(w) && IsForest(w, rank) && n in w.page.nodes && i <= |w.page.children[n]|
    requires forall j :: i <= j < |w.page.children[n]| ==> Below(w, rank, w.page.children[n][j]) !! seen
    ensures RenderAll(w, w.page.children[n][i..], seen).0 == PlainChildren(w, rank, n, i)
    ensures RenderAll(w, w.page.children[n][i..], seen).1 <= seen + Below(w, rank, n)
    decreases rank(n), 0, |w.page.children[n]| - i
  {
    var children := w.page.children[n];
    if i < |children| {
      assert children[i..][0] == children[i] && children[i..][1..] == children[i + 1..];
      RenderIsPlain(w, rank, children[i], seen);
      var first := Render(w, children[i], seen);
      forall j | i + 1 <= j < |children| ensures Below(w, rank, children[j]) !! first.1 {
        SiblingsApart(w, rank, n, i, j);
      }
      RenderAllIsPlain(w, rank, n, i + 1, first.1);
    }
  }

  /** In a composed tree, started at one node, the walk that is not cut short outputs the plain
      in-order rendering: the set of visited nodes never leaves anything out. */
  lemma RenderingOfTree(w: Walk, rank: Id -> nat, root: Id)
    requires ValidWalk(w) && IsForest(w, rank) && root in w.page.nodes && w.start == [Some(root)]
    ensures Rendering(w) == Plain(w, rank, root)
  {
    StartsAreNodes(w, w.start);
    assert Starts(w.start) == [root] by { assert w.start[1..] == []; }
    RenderIsPlain(w, rank, root, {});
    assert RenderAll(w, [root], {}).0 == Render(w, root, {}).0 by {
      assert [root][1..] == [];
    }
  }
}
