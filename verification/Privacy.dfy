/** The scan, the protection rule and the text walk together: secrets are not rendered. */
module Privacy {
  import opened Wrappers
  import T = TextWalk
  import P = Protection

  /** The walk asks exactly the protection rule of a complete scan of the same document. */
  ghost predicate Guards(w: T.Walk, d: P.Dom) {
    P.WellFormed(d) && |P.ReachSet(d)| <= P.PRIVACY_BUDGET
    && forall a :: a in w.page.nodes && w.page.nodes[a].Element? ==>
         a in d.elements
         && (w.page.protects(a) <==> P.Rule(d, P.RootsOf(d, P.ReachSet(d)), a).Some?)
  }

  /** Nothing that is rendered lies in the region of a control that holds a secret: with f its own
      form, or else the nearest form around it, or else the control itself, no element on the way
      from the source of any piece up to the start is f or is inside f. */
  lemma SecretsStayPrivate(w: T.Walk, d: P.Dom, parent: P.Id -> Option<P.Id>, n: P.Id, secret: P.Id, f: P.Id)
    returns (height: nat)
    requires Guards(w, d) && T.ParentsAgree(w, parent) && T.Exposed(w, n)
    requires secret in P.ReachSet(d) && secret in d.elements && d.isInput(secret) && d.sensitive(secret)
    requires d.form(secret) == Some(f)
             || (d.form(secret).None? && P.Nearest(d, secret, d.isForm) == Some(f))
             || (d.form(secret).None? && P.Nearest(d, secret, d.isForm).None? && f == secret)
    ensures T.NthParent(parent, n, height).Some? && T.NthParent(parent, n, height) in w.start
    ensures forall k :: 0 <= k <= height ==>
      T.NthParent(parent, n, k).Some? && var a := T.NthParent(parent, n, k).value;
      a in w.page.nodes && (w.page.nodes[a].Element? ==> f !in P.Chain(d, a) && a != secret)
  {
    height := T.ExposedAncestry(w, parent, n);
    forall k | 0 <= k <= height
      ensures T.NthParent(parent, n, k).Some?
      ensures var a := T.NthParent(parent, n, k).value;
        a in w.page.nodes && (w.page.nodes[a].Element? ==> f !in P.Chain(d, a) && a != secret)
    {
      var a := T.NthParent(parent, n, k).value;
      if w.page.nodes[a].Element? && (f in P.Chain(d, a) || a == secret) { P.SensitiveIsProtected(d, secret, f, a); }
    }
  }
}
