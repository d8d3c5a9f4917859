/**
 The privacy scan and the memoised "nearest protected ancestor". Elements are numbers; their
 light and shadow children, slots, owning forms and whether they hold a secret are given.
 */
module Protection {
  import opened Wrappers

  type Id = nat

  const PRIVACY_BUDGET: nat := 20000
  const INPUT_BUDGET: nat := 1000

  /** `depth` is the depth in the composed tree. */
  datatype Dom = Dom(
    elements: set<Id>,
    root: Id,
    light: Id -> seq<Id>,
    shadow: Id -> seq<Id>,
    slot: Id -> Option<Id>,
    parentElement: Id -> Option<Id>,
    host: Id -> Option<Id>,
    form: Id -> Option<Id>,
    isForm: Id -> bool,
    isInput: Id -> bool,
    sensitive: Id -> bool,
    depth: Id -> nat)

  /** The assigned slot, else the parent element, else the shadow host. */
  function ParentOf(d: Dom, e: Id): Option<Id> {
    if d.slot(e).Some? then d.slot(e) else if d.parentElement(e).Some? then d.parentElement(e) else d.host(e)
  }

  ghost predicate IsWalk(d: Dom, path: seq<Id>, light: bool) {
    |path| > 0
    && forall i :: 0 <= i < |path| - 1 ==>
         path[i] in d.elements && (path[i + 1] in d.light(path[i]) || (!light && path[i + 1] in d.shadow(path[i])))
  }

  /** s lies in the shadow tree of q. */
  ghost predicate InShadow(d: Dom, q: Id, s: Id) {
    exists path :: IsWalk(d, path, true) && path[0] in d.shadow(q) && path[|path| - 1] == s
  }

  /** What every document guarantees about its elements. */
  ghost predicate WellFormed(d: Dom) {
    d.root in d.elements && ParentOf(d, d.root).None?
    && (forall e, i :: e in d.elements && 0 <= i < |d.light(e)| ==>
          d.light(e)[i] in d.elements && d.parentElement(d.light(e)[i]) == Some(e))
    && (forall e, i :: e in d.elements && 0 <= i < |d.shadow(e)| ==>
          d.shadow(e)[i] in d.elements && d.parentElement(d.shadow(e)[i]).None? && d.host(d.shadow(e)[i]) == Some(e))
    && (forall e :: e in d.elements && d.slot(e).Some? ==>
          d.parentElement(e).Some? && InShadow(d, d.parentElement(e).value, d.slot(e).value))
    && (forall e :: e in d.elements && ParentOf(d, e).Some? ==>
          ParentOf(d, e).value in d.elements && d.depth(ParentOf(d, e).value) < d.depth(e))
  }

  ghost predicate Reachable(d: Dom, e: Id) {
    exists path :: IsWalk(d, path, false) && path[0] == d.root && path[|path| - 1] == e
  }

  ghost function ReachSet(d: Dom): set<Id> { set e | e in d.elements && Reachable(d, e) }

  ghost function Inputs(d: Dom, es: set<Id>): set<Id> { set e | e in es && d.isInput(e) }

  // ---- ancestors --------------------------------------------------------------------------

  /** The composed ancestors of e, e first. */
  ghost function Chain(d: Dom, e: Id): (c: seq<Id>)
    requires WellFormed(d) && e in d.elements
    ensures |c| > 0 && c[0] == e
    decreases d.depth(e)
  {
    match ParentOf(d, e)
    case None => [e]
    case Some(p) => [e] + Chain(d, p)
  }

  /** The nearest ancestor or self that passes the test. */
  ghost function Nearest(d: Dom, e: Id, test: Id -> bool): (r: Option<Id>)
    requires WellFormed(d) && e in d.elements
    ensures r.Some? ==> test(r.value)
    decreases d.depth(e)
  {
    if test(e) then Some(e)
    else
      match ParentOf(d, e)
      case None => None
      case Some(p) => Nearest(d, p, test)
  }

  ghost function NearestFrom(d: Dom, p: Option<Id>, test: Id -> bool): Option<Id>
    requires WellFormed(d) && (p.Some? ==> p.value in d.elements)
  {
    if p.None? then None else Nearest(d, p.value, test)
  }

  ghost function ChainLength(d: Dom, p: Option<Id>): nat
    requires WellFormed(d) && (p.Some? ==> p.value in d.elements)
  {
    if p.None? then 0 else |Chain(d, p.value)|
  }

  /** The same search, giving up after `fuel` elements. */
  function NearestUpTo(d: Dom, p: Option<Id>, test: Id -> bool, fuel: nat): Option<Id>
    decreases fuel
  {
    if p.None? || fuel == 0 then None
    else if test(p.value) then p
    else NearestUpTo(d, ParentOf(d, p.value), test, fuel - 1)
  }

  lemma {:induction false} FuelSuffices(d: Dom, p: Option<Id>, test: Id -> bool, fuel: nat)
    requires WellFormed(d) && (p.Some? ==> p.value in d.elements) && ChainLength(d, p) <= fuel
    ensures NearestUpTo(d, p, test, fuel) == NearestFrom(d, p, test)
    decreases fuel
  {
    if p.Some? && !test(p.value) { FuelSuffices(d, ParentOf(d, p.value), test, fuel - 1); }
  }

  lemma WalkJoin(d: Dom, a: seq<Id>, b: seq<Id>)
    requires IsWalk(d, a, false) && IsWalk(d, b, true) && a[|a| - 1] in d.elements && b[0] in d.shadow(a[|a| - 1])
    ensures IsWalk(d, a + b, false)
  {
    var c := a + b;
    forall i | 0 <= i < |c| - 1
      ensures c[i] in d.elements && (c[i + 1] in d.light(c[i]) || c[i + 1] in d.shadow(c[i]))
    {
      if i >= |a| { assert c[i] == b[i - |a|] && c[i + 1] == b[i - |a| + 1]; }
    }
  }

  lemma {:induction false} WalkStaysInside(d: Dom, path: seq<Id>, light: bool)
    requires WellFormed(d) && IsWalk(d, path, light) && path[0] in d.elements
    ensures path[|path| - 1] in d.elements
    decreases |path|
  {
    if |path| > 1 {
      var front := path[..|path| - 1];
      WalkStaysInside(d, front, light);
      var q, e := front[|front| - 1], path[|path| - 1];
      if e in d.light(q) {
        var i :| 0 <= i < |d.light(q)| && d.light(q)[i] == e;
      } else {
        var i :| 0 <= i < |d.shadow(q)| && d.shadow(q)[i] == e;
      }
    }
  }

  /** The composed parent of an element the scan can reach can be reached too. */
  lemma ParentReachable(d: Dom, e: Id)
    requires WellFormed(d) && Reachable(d, e) && ParentOf(d, e).Some?
    ensures Reachable(d, ParentOf(d, e).value) && e in d.elements
  {
    var path :| IsWalk(d, path, false) && path[0] == d.root && path[|path| - 1] == e;
    WalkStaysInside(d, path, false);
    assert |path| > 1;
    var front := path[..|path| - 1];
    var q := path[|path| - 2];
    assert IsWalk(d, front, false) && front[|front| - 1] == q;
    if e in d.light(q) {
      var i :| 0 <= i < |d.light(q)| && d.light(q)[i] == e;
      assert d.parentElement(e) == Some(q);
      if d.slot(e).Some? {
        var inner :| IsWalk(d, inner, true) && inner[0] in d.shadow(q) && inner[|inner| - 1] == d.slot(e).value;
        WalkJoin(d, front, inner);
        assert (front + inner)[|front + inner| - 1] == d.slot(e).value;
      }
    } else {
      var i :| 0 <= i < |d.shadow(q)| && d.shadow(q)[i] == e;
    }
  }

  lemma {:induction false} ChainReachable(d: Dom, e: Id)
    requires WellFormed(d) && e in d.elements && Reachable(d, e)
    ensures forall i :: 0 <= i < |Chain(d, e)| ==>
      Chain(d, e)[i] in ReachSet(d) && (i > 0 ==> d.depth(Chain(d, e)[i]) < d.depth(e))
    decreases d.depth(e)
  {
    if ParentOf(d, e).Some? {
      ParentReachable(d, e);
      ChainReachable(d, ParentOf(d, e).value);
    }
  }

  /** The elements of a chain are different, so a chain is no longer than the scan is large. */
  lemma {:induction false} ChainIsShort(d: Dom, e: Id)
    requires WellFormed(d) && e in d.elements && Reachable(d, e)
    ensures |Chain(d, e)| <= |ReachSet(d)|
  {
    ChainReachable(d, e);
    ChainSize(d, e);
    Fewer(Members(Chain(d, e)), ReachSet(d));
  }

  ghost function Members(s: seq<Id>): set<Id> { set x | x in s }

  lemma {:induction false} ChainSize(d: Dom, e: Id)
    requires WellFormed(d) && e in d.elements && Reachable(d, e)
    ensures |Members(Chain(d, e))| == |Chain(d, e)|
    decreases d.depth(e)
  {
    ChainReachable(d, e);
    match ParentOf(d, e)
    case None => assert Members([e]) == {e};
    case Some(p) =>
      ParentReachable(d, e);
      ChainReachable(d, p);
      ChainSize(d, p);
      assert Members(Chain(d, e)) == {e} + Members(Chain(d, p));
      assert e !in Chain(d, p);
  }

  lemma {:induction false} Fewer(a: set<Id>, b: set<Id>)
    requires a <= b
    ensures |a| <= |b|
  {
    if a != {} {
      var x :| x in a;
      Fewer(a - {x}, b - {x});
    }
  }

  // ---- the scan ---------------------------------------------------------------------------

  /** f is what the control e gives away: its own form, else the nearest form around it, else itself. */
  ghost predicate Region(d: Dom, e: Id, f: Id)
    requires WellFormed(d) && e in d.elements
  {
    d.form(e) == Some(f)
    || (d.form(e).None? && Nearest(d, e, d.isForm) == Some(f))
    || (d.form(e).None? && Nearest(d, e, d.isForm).None? && f == e)
  }

  /** What a sensitive control protects: its form, an enclosing form, or itself. */
  function RootOf(d: Dom, e: Id): Id {
    if d.form(e).Some? then d.form(e).value
    else
      var f := NearestUpTo(d, Some(e), d.isForm, PRIVACY_BUDGET);
      if f.Some? then f.value else e
  }

  ghost function RootsOf(d: Dom, es: set<Id>): set<Id> {
    set e | e in es && d.isInput(e) && d.sensitive(e) :: RootOf(d, e)
  }

  method Ancestor(d: Dom, e: Id, test: Id -> bool) returns (r: Option<Id>)
    ensures r == NearestUpTo(d, Some(e), test, PRIVACY_BUDGET)
  {
    var p, steps := Some(e), 0;
    while p.Some? && steps < PRIVACY_BUDGET
      invariant 0 <= steps <= PRIVACY_BUDGET
      invariant NearestUpTo(d, Some(e), test, PRIVACY_BUDGET) == NearestUpTo(d, p, test, PRIVACY_BUDGET - steps)
      decreases PRIVACY_BUDGET - steps
    {
      if test(p.value) { return p; }
      p := ParentOf(d, p.value);
      steps := steps + 1;
    }
    r := None;
  }

  /** Everything seen is reachable, and what seen elements lead to is seen or waiting. */
  ghost predicate Frontier(d: Dom, seen: set<Id>, stack: seq<Id>) {
    seen <= ReachSet(d) && (forall i :: 0 <= i < |stack| ==> stack[i] in ReachSet(d))
    && (d.root in seen || d.root in stack)
    && forall e :: e in seen ==>
         (forall i :: 0 <= i < |d.light(e)| ==> d.light(e)[i] in seen || d.light(e)[i] in stack)
         && (forall i :: 0 <= i < |d.shadow(e)| ==> d.shadow(e)[i] in seen || d.shadow(e)[i] in stack)
  }

  lemma ChildReachable(d: Dom, e: Id, c: Id)
    requires WellFormed(d) && e in ReachSet(d) && (c in d.light(e) || c in d.shadow(e))
    ensures c in ReachSet(d)
  {
    var path :| IsWalk(d, path, false) && path[0] == d.root && path[|path| - 1] == e;
    var longer := path + [c];
    assert IsWalk(d, longer, false) && longer[|longer| - 1] == c;
    WalkStaysInside(d, longer, false);
  }

  /** An empty stack means everything reachable has been seen. */
  lemma {:induction false} AllSeen(d: Dom, seen: set<Id>, path: seq<Id>)
    requires Frontier(d, seen, []) && IsWalk(d, path, false) && path[0] == d.root
    ensures path[|path| - 1] in seen
    decreases |path|
  {
    if |path| > 1 {
      var front := path[..|path| - 1];
      AllSeen(d, seen, front);
      var q, e := front[|front| - 1], path[|path| - 1];
      if e in d.light(q) {
        var i :| 0 <= i < |d.light(q)| && d.light(q)[i] == e;
      } else {
        var i :| 0 <= i < |d.shadow(q)| && d.shadow(q)[i] == e;
      }
    }
  }

  lemma ScanClosed(d: Dom, seen: set<Id>)
    requires Frontier(d, seen, [])
    ensures seen == ReachSet(d)
  {
    forall e | e in ReachSet(d) ensures e in seen {
      var path :| IsWalk(d, path, false) && path[0] == d.root && path[|path| - 1] == e;
      AllSeen(d, seen, path);
    }
  }

  method PushBackwards(stack0: seq<Id>, es: seq<Id>) returns (stack: seq<Id>)
    ensures stack0 <= stack && |stack| == |stack0| + |es|
    ensures forall x :: x in stack <==> x in stack0 || x in es
  {
    stack := stack0;
    var i := |es|;
    while i > 0
      invariant 0 <= i <= |es| && stack0 <= stack && |stack| == |stack0| + |es| - i
      invariant forall x :: x in stack <==> x in stack0 || x in es[i..]
    {
      i := i - 1;
      assert es[i..] == [es[i]] + es[i + 1..];
      stack := stack + [es[i]];
    }
    assert es[0..] == es;
  }

  lemma FrontierStep(d: Dom, seen: set<Id>, stack: seq<Id>, e: Id, rest: seq<Id>, next: seq<Id>)
    requires WellFormed(d) && Frontier(d, seen, stack) && stack == rest + [e] && e !in seen
    requires forall x :: x in next <==> x in rest || x in d.shadow(e) || x in d.light(e)
    ensures Frontier(d, seen + {e}, next)
  {
    assert forall x :: x in stack <==> x in rest || x == e;
    forall i | 0 <= i < |next| ensures next[i] in ReachSet(d) {
      if next[i] in rest {
        assert next[i] in stack;
      } else {
        assert stack[|stack| - 1] == e;
        ChildReachable(d, e, next[i]);
      }
    }
    assert e in ReachSet(d) by { assert stack[|stack| - 1] == e; }
  }

  lemma FrontierSkip(d: Dom, seen: set<Id>, stack: seq<Id>, e: Id, rest: seq<Id>)
    requires Frontier(d, seen, stack) && stack == rest + [e] && e in seen
    ensures Frontier(d, seen, rest)
  {
    assert forall x :: x in stack <==> x in rest || x == e;
    forall i | 0 <= i < |rest| ensures rest[i] in ReachSet(d) { assert stack[i] == rest[i]; }
  }

  lemma TooMany(d: Dom, seen: set<Id>, e: Id)
    requires seen <= ReachSet(d) && e in ReachSet(d) && e !in seen
    ensures |ReachSet(d)| > |seen|
  {
    Fewer(seen + {e}, ReachSet(d));
  }

  lemma TooManyInputs(d: Dom, seen: set<Id>)
    requires seen <= ReachSet(d)
    ensures |Inputs(d, seen)| <= |Inputs(d, ReachSet(d))|
  {
    Fewer(Inputs(d, seen), Inputs(d, ReachSet(d)));
  }

  lemma InputsAdd(d: Dom, seen: set<Id>, e: Id)
    requires e !in seen
    ensures Inputs(d, seen + {e}) == (if d.isInput(e) then Inputs(d, seen) + {e} else Inputs(d, seen))
    ensures |Inputs(d, seen + {e})| == |Inputs(d, seen)| + if d.isInput(e) then 1 else 0
    ensures RootsOf(d, seen + {e}) ==
      (if d.isInput(e) && d.sensitive(e) then RootsOf(d, seen) + {RootOf(d, e)} else RootsOf(d, seen))
  {
    assert Inputs(d, seen + {e}) == if d.isInput(e) then Inputs(d, seen) + {e} else Inputs(d, seen);
    RootsAdd(d, seen, e);
  }

  lemma RootsAdd(d: Dom, seen: set<Id>, e: Id)
    ensures RootsOf(d, seen + {e}) ==
      (if d.isInput(e) && d.sensitive(e) then RootsOf(d, seen) + {RootOf(d, e)} else RootsOf(d, seen))
  {
    hide RootOf;
    forall x | x in RootsOf(d, seen + {e}) && x !in RootsOf(d, seen)
      ensures d.isInput(e) && d.sensitive(e) && x == RootOf(d, e)
    {
      var y :| y in seen + {e} && d.isInput(y) && d.sensitive(y) && RootOf(d, y) == x;
      assert y == e;
    }
    forall x | x in RootsOf(d, seen) ensures x in RootsOf(d, seen + {e}) {
      var y :| y in seen && d.isInput(y) && d.sensitive(y) && RootOf(d, y) == x;
      assert y in seen + {e};
    }
    assert e in seen + {e};
  }

  lemma Start(d: Dom)
    requires WellFormed(d)
    ensures Frontier(d, {}, [d.root]) && Inputs(d, {}) == {} && RootsOf(d, {}) == {}
  {
    assert IsWalk(d, [d.root], false);
  }

  lemma FrontierTop(d: Dom, seen: set<Id>, stack: seq<Id>)
    requires Frontier(d, seen, stack) && stack != []
    ensures stack[|stack| - 1] in ReachSet(d) && seen <= ReachSet(d) && stack[|stack| - 1] in d.elements
  {
  }

  /** In a document within the budget the roots are exactly the regions of the secrets. */
  lemma RegionsAreRoots(d: Dom)
    requires WellFormed(d) && |ReachSet(d)| <= PRIVACY_BUDGET
    ensures forall f :: f in RootsOf(d, ReachSet(d)) <==>
      exists e :: e in ReachSet(d) && e in d.elements && d.isInput(e) && d.sensitive(e) && Region(d, e, f)
  {
    forall e | e in ReachSet(d) ensures Region(d, e, RootOf(d, e)) && forall f :: Region(d, e, f) ==> f == RootOf(d, e) {
      CompleteScanFits(d, e);
    }
    hide RootOf, Region, ReachSet;
    forall e | e in ReachSet(d) && d.isInput(e) && d.sensitive(e) ensures RootOf(d, e) in RootsOf(d, ReachSet(d)) {}
  }

  /** The budgeted scan. It is incomplete exactly when the document is too large, and otherwise
      it has inspected every reachable element once and found every protected root. */
  method Scan(d: Dom) returns (inspected: seq<Id>, roots: set<Id>, incomplete: bool)
    requires WellFormed(d)
    ensures incomplete <==> |ReachSet(d)| > PRIVACY_BUDGET || |Inputs(d, ReachSet(d))| > INPUT_BUDGET
    ensures forall a, b :: 0 <= a < b < |inspected| ==> inspected[a] != inspected[b]
    ensures !incomplete ==> Members(inspected) == ReachSet(d) && roots == RootsOf(d, ReachSet(d))
    ensures !incomplete ==> forall f :: f in roots <==>
      exists e :: e in ReachSet(d) && e in d.elements && d.isInput(e) && d.sensitive(e) && Region(d, e, f)
  {
    hide Region, Frontier, Reachable, WellFormed, Inputs, RootsOf, ReachSet, IsWalk, NearestUpTo;
    inspected, roots, incomplete := [], {}, false;
    var stack, seen, inputCount := [d.root], {}, 0;
    Start(d);
    while stack != []
      invariant Frontier(d, seen, stack) && !incomplete && seen <= d.elements
      invariant forall a, b :: 0 <= a < b < |inspected| ==> inspected[a] != inspected[b]
      invariant (forall x :: x in inspected <==> x in seen) && |inspected| == |seen| <= PRIVACY_BUDGET
      invariant inputCount == |Inputs(d, seen)| <= INPUT_BUDGET && roots == RootsOf(d, seen)
      decreases d.elements - seen, |stack|
    {
      var e, rest := stack[|stack| - 1], stack[..|stack| - 1];
      assert stack == rest + [e];
      if e in seen {
        FrontierSkip(d, seen, stack, e, rest);
        stack := rest;
        continue;
      }
      FrontierTop(d, seen, stack);
      TooMany(d, seen, e);
      if |inspected| >= PRIVACY_BUDGET {
        incomplete := true;
        break;
      }
      InputsAdd(d, seen, e);
      TooManyInputs(d, seen + {e});
      inspected := inspected + [e];
      if d.isInput(e) {
        inputCount := inputCount + 1;
        if inputCount > INPUT_BUDGET {
          incomplete := true;
          break;
        }
        if d.sensitive(e) {
          var owner := d.form(e);
          if owner.None? { owner := Ancestor(d, e, d.isForm); }
          roots := roots + {if owner.Some? then owner.value else e};
        }
      }
      var next := PushBackwards(rest, d.shadow(e));
      next := PushBackwards(next, d.light(e));
      FrontierStep(d, seen, stack, e, rest, next);
      seen := seen + {e};
      stack := next;
    }
    if !incomplete {
      ScanClosed(d, seen);
      assert Members(inspected) == seen;
      RegionsAreRoots(d);
    }
  }

  // ---- the memoised rule -----------------------------------------------------------------------

  /** Protected by its own form, or by the nearest protected ancestor or self. */
  ghost function Rule(d: Dom, roots: set<Id>, e: Id): Option<Id>
    requires WellFormed(d) && e in d.elements
  {
    if d.form(e).Some? && d.form(e).value in roots then d.form(e) else Nearest(d, e, x => x in roots)
  }

  class ProtectionCache {
    const d: Dom
    const roots: set<Id>
    var cache: map<Id, Option<Id>>

    constructor (d: Dom, roots: set<Id>)
      requires WellFormed(d)
      ensures Valid() && this.d == d && this.roots == roots
    {
      this.d, this.roots, cache := d, roots, map[];
    }

    /** What is remembered is what the search would find. */
    ghost predicate Valid()
      reads this
    {
      WellFormed(d) && forall x :: x in cache ==> x in d.elements && cache[x] == Nearest(d, x, y => y in roots)
    }

    /** Climbs until it finds a protected element or a remembered answer, and remembers the
        answer for the whole climb. The cut-off is never reached from an element whose chain
        is within the budget. */
    method ProtectionRoot(e: Id) returns (result: Option<Id>)
      requires Valid() && e in d.elements && |Chain(d, e)| <= PRIVACY_BUDGET
      modifies this`cache
      ensures Valid() && result == Rule(d, roots, e)
    {
      if roots == {} {
        NoRoots(d, e);
        return None;
      }
      if d.form(e).Some? && d.form(e).value in roots { return d.form(e); }
      ghost var test := y => y in roots;
      var path: seq<Id> := [];
      var p, steps := Some(e), 0;
      result := None;
      while p.Some? && steps < PRIVACY_BUDGET
        invariant p.Some? ==> p.value in d.elements
        invariant steps + ChainLength(d, p) <= PRIVACY_BUDGET
        invariant forall i :: 0 <= i < |path| ==> path[i] in d.elements && Nearest(d, path[i], test) == NearestFrom(d, p, test)
        invariant Nearest(d, e, test) == NearestFrom(d, p, test) && result.None?
        decreases PRIVACY_BUDGET - steps
      {
        if p.value in roots {
          result := p;
          break;
        }
        if p.value in cache {
          result := cache[p.value];
          break;
        }
        path := path + [p.value];
        p := ParentOf(d, p.value);
        steps := steps + 1;
      }
      assert result == Nearest(d, e, test);
      var i := 0;
      while i < |path|
        invariant 0 <= i <= |path| && Valid()
      {
        cache := cache[path[i] := result];
        i := i + 1;
      }
    }

    /** Whatever the order of the queries, each gets the answer of the uncached rule. */
    method ProtectionRoots(es: seq<Id>) returns (results: seq<Option<Id>>)
      requires Valid() && forall i :: 0 <= i < |es| ==> es[i] in d.elements && |Chain(d, es[i])| <= PRIVACY_BUDGET
      modifies this`cache
      ensures Valid() && |results| == |es|
      ensures forall i :: 0 <= i < |es| ==> results[i] == Rule(d, roots, es[i])
    {
      results := [];
      var i := 0;
      while i < |es|
        invariant 0 <= i <= |es| && |results| == i && Valid()
        invariant forall j :: 0 <= j < i ==> results[j] == Rule(d, roots, es[j])
      {
        var r := ProtectionRoot(es[i]);
        results := results + [r];
        i := i + 1;
      }
    }
  }

  lemma {:induction false} NoRoots(d: Dom, e: Id)
    requires WellFormed(d) && e in d.elements
    ensures Nearest(d, e, y => y in {}).None?
    decreases d.depth(e)
  {
    if ParentOf(d, e).Some? { NoRoots(d, ParentOf(d, e).value); }
  }

  /** After a complete scan the cut-off cannot matter for any inspected element. */
  lemma CompleteScanFits(d: Dom, e: Id)
    requires WellFormed(d) && e in ReachSet(d) && |ReachSet(d)| <= PRIVACY_BUDGET
    ensures |Chain(d, e)| <= PRIVACY_BUDGET
    ensures forall test :: NearestUpTo(d, Some(e), test, PRIVACY_BUDGET) == Nearest(d, e, test)
  {
    ChainIsShort(d, e);
    forall test ensures NearestUpTo(d, Some(e), test, PRIVACY_BUDGET) == Nearest(d, e, test) {
      FuelSuffices(d, Some(e), test, PRIVACY_BUDGET);
    }
  }

  // ---- what the scan and the rule achieve together ------------------------------------------------

  lemma {:induction false} NearestExists(d: Dom, e: Id, a: Id, test: Id -> bool)
    requires WellFormed(d) && e in d.elements && a in Chain(d, e) && test(a)
    ensures Nearest(d, e, test).Some?
    decreases d.depth(e)
  {
    if !test(e) {
      assert a != e;
      NearestExists(d, ParentOf(d, e).value, a, test);
    }
  }

  lemma {:induction false} NearestInChain(d: Dom, e: Id, test: Id -> bool)
    requires WellFormed(d) && e in d.elements && Nearest(d, e, test).Some?
    ensures Nearest(d, e, test).value in Chain(d, e)
    decreases d.depth(e)
  {
    if !test(e) { NearestInChain(d, ParentOf(d, e).value, test); }
  }

  /** An element is protected exactly when its own form or something on its way up is a root. */
  lemma RuleExact(d: Dom, roots: set<Id>, e: Id)
    requires WellFormed(d) && e in d.elements
    ensures Rule(d, roots, e).Some? <==>
      (d.form(e).Some? && d.form(e).value in roots) || exists a :: a in Chain(d, e) && a in roots
  {
    var test := x => x in roots;
    if Nearest(d, e, test).Some? { NearestInChain(d, e, test); }
    if a :| a in Chain(d, e) && a in roots { NearestExists(d, e, a, test); }
  }

  /** After a complete scan the whole region of every secret is protected, the control itself
      included: its form, or else the nearest form around it, with everything below. */
  lemma SensitiveIsProtected(d: Dom, secret: Id, f: Id, e: Id)
    requires WellFormed(d) && secret in ReachSet(d) && |ReachSet(d)| <= PRIVACY_BUDGET && d.isInput(secret) && d.sensitive(secret)
    requires Region(d, secret, f) && e in d.elements && (f in Chain(d, e) || e == secret)
    ensures f in RootsOf(d, ReachSet(d)) && Rule(d, RootsOf(d, ReachSet(d)), e).Some?
  {
    var roots := RootsOf(d, ReachSet(d));
    RegionsAreRoots(d);
    if e == secret && d.form(secret).None? && Nearest(d, e, d.isForm).Some? { NearestInChain(d, e, d.isForm); }
    RuleExact(d, roots, e);
  }

  /** Protection comes down through the assigned slot, else the parent, else the shadow host. */
  lemma ProtectedThrough(d: Dom, roots: set<Id>, e: Id, p: Id)
    requires WellFormed(d) && e in d.elements && p in d.elements && Nearest(d, p, x => x in roots).Some?
    requires d.slot(e) == Some(p) || (d.slot(e).None? && d.parentElement(e) == Some(p))
             || (d.slot(e).None? && d.parentElement(e).None? && d.host(e) == Some(p))
    ensures Rule(d, roots, e).Some?
  {
    NearestInChain(d, p, x => x in roots);
    RuleExact(d, roots, e);
  }

  lemma {:induction false} ChainSuffix(d: Dom, e: Id, a: Id, b: Id)
    requires WellFormed(d) && e in d.elements && a in d.elements && a in Chain(d, e) && b in Chain(d, a)
    ensures b in Chain(d, e)
    decreases d.depth(e)
  {
    if a != e { ChainSuffix(d, ParentOf(d, e).value, a, b); }
  }

  /** Protection reaches down: below a protected root everything is protected. */
  lemma ProtectionInherited(d: Dom, roots: set<Id>, e: Id, a: Id)
    requires WellFormed(d) && e in d.elements && a in d.elements && a in Chain(d, e)
    requires Nearest(d, a, x => x in roots).Some?
    ensures Rule(d, roots, e).Some?
  {
    NearestInChain(d, a, x => x in roots);
    var b := Nearest(d, a, x => x in roots).value;
    ChainSuffix(d, e, a, b);
    NearestExists(d, e, b, x => x in roots);
  }
}
