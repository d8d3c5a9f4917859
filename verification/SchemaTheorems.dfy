/** Compaction preserves which instances validate. */
module SchemaTheorems {
  import opened Schema

  /** Two schemas accept the same instances, each in its own world. */
  ghost predicate SameMeaning(a: Json, w: World, b: Json, w': World) {
    forall x: Json :: Valid(a, x, w) == Valid(b, x, w')
  }

  ghost predicate SameWorld(w: World, w': World) {
    (forall t: string, x: Json :: w.ref(t, x) == w'.ref(t, x))
    && (forall k: string, v: Json, x: Json :: w.assertion(k, v, x) == w'.assertion(k, v, x))
    && (forall q: string, p: string :: w.matches(q, p) == w'.matches(q, p))
  }

  /** The values of one keyword have the same shape and equivalent subschemas. */
  ghost predicate Related(k: string, v: Json, w: World, v': Json, w': World) {
    match GroupOf(Classify(k))
    case Dictionary =>
      if v.Obj? then v'.Obj? && v.fields.Keys == v'.fields.Keys
                     && forall p :: p in v.fields ==> SameMeaning(v.fields[p], w, v'.fields[p], w')
      else v == v'
    case List =>
      if v.Arr? then v'.Arr? && |v.items| == |v'.items|
                     && forall j :: 0 <= j < |v.items| ==> SameMeaning(v.items[j], w, v'.items[j], w')
      else v == v'
    case Single => SameMeaning(v, w, v', w')
    case Plain => v == v'
  }

  ghost predicate RelatedAt(s: Json, w: World, s': Json, w': World, k: string)
    requires s.Obj? && s'.Obj?
  {
    (k in s.fields <==> k in s'.fields) && (k in s.fields ==> Related(k, s.fields[k], w, s'.fields[k], w'))
  }

  /** The siblings that some keyword looks at. */
  ghost predicate RelatedSiblings(s: Json, w: World, s': Json, w': World)
    requires s.Obj? && s'.Obj?
  {
    RelatedAt(s, w, s', w', "properties") && RelatedAt(s, w, s', w', "patternProperties")
    && RelatedAt(s, w, s', w', "prefixItems") && RelatedAt(s, w, s', w', "then") && RelatedAt(s, w, s', w', "else")
    && RelatedAt(s, w, s', w', "minContains") && RelatedAt(s, w, s', w', "maxContains")
  }

  lemma NamedSame(s: Json, w: World, s': Json, w': World, p: string)
    requires s.Obj? && s'.Obj? && RelatedSiblings(s, w, s', w') && SameWorld(w, w')
    ensures Named(s, p, w) == Named(s', p, w')
  {
  }

  lemma DictionarySame(s: Json, w: World, s': Json, w': World, k: string, i: Json)
    requires s.Obj? && s'.Obj? && SameWorld(w, w') && k in s.fields && RelatedAt(s, w, s', w', k)
    requires Classify(k).Properties? || Classify(k).PatternProperties? || Classify(k).DependentSchemas?
    ensures DictionaryOk(s, k, i, w) == DictionaryOk(s', k, i, w')
  {
    hide Classify;
  }

  lemma ListSame(s: Json, w: World, s': Json, w': World, k: string, i: Json)
    requires s.Obj? && s'.Obj? && SameWorld(w, w') && k in s.fields && RelatedAt(s, w, s', w', k)
    requires GroupOf(Classify(k)).List?
    ensures ListOk(s, k, i, w) == ListOk(s', k, i, w')
  {
    hide Classify, Valid;
  }

  lemma ContainsSame(s: Json, w: World, s': Json, w': World, k: string, i: Json)
    requires s.Obj? && s'.Obj? && RelatedAt(s, w, s', w', "minContains") && RelatedAt(s, w, s', w', "maxContains")
    requires k in s.fields && RelatedAt(s, w, s', w', k) && Classify(k).Contains?
    ensures KeywordOk(s, k, i, w) == KeywordOk(s', k, i, w')
  {
    hide Classify;
    if i.Arr? {
      HitsSame(s.fields[k], w, s'.fields[k], w', i.items);
      CountSame(s, w, s', w', |Hits(s.fields[k], i.items, w)|);
      hide CountAllowed, Hits, Valid, RelatedAt, Related, SameMeaning;
    }
  }

  lemma HitsSame(v: Json, w: World, v': Json, w': World, items: seq<Json>)
    requires SameMeaning(v, w, v', w')
    ensures Hits(v, items, w) == Hits(v', items, w')
  {
  }

  lemma CountSame(s: Json, w: World, s': Json, w': World, n: nat)
    requires s.Obj? && s'.Obj? && RelatedAt(s, w, s', w', "minContains") && RelatedAt(s, w, s', w', "maxContains")
    ensures CountAllowed(s, n) == CountAllowed(s', n)
  {
  }

  lemma IfIs(s: Json, k: string, i: Json, w: World)
    requires s.Obj? && k in s.fields && Classify(k).If?
    ensures KeywordOk(s, k, i, w) ==
      if Valid(s.fields[k], i, w) then "then" in s.fields ==> Valid(s.fields["then"], i, w)
      else "else" in s.fields ==> Valid(s.fields["else"], i, w)
  {
    hide Classify, Valid;
  }

  lemma SingleSame(s: Json, w: World, s': Json, w': World, k: string, i: Json)
    requires s.Obj? && s'.Obj? && RelatedAt(s, w, s', w', k) && GroupOf(Classify(k)).Single?
    ensures k in s.fields <==> k in s'.fields
    ensures k in s.fields ==> Valid(s.fields[k], i, w) == Valid(s'.fields[k], i, w')
  {
    hide Classify, Valid;
  }

  lemma BranchesAreSingle()
    ensures GroupOf(Classify("then")).Single? && GroupOf(Classify("else")).Single?
  {
  }

  lemma IfSame(s: Json, w: World, s': Json, w': World, k: string, i: Json)
    requires s.Obj? && s'.Obj? && RelatedAt(s, w, s', w', "then") && RelatedAt(s, w, s', w', "else")
    requires k in s.fields && RelatedAt(s, w, s', w', k) && Classify(k).If?
    ensures k in s'.fields && KeywordOk(s, k, i, w) == KeywordOk(s', k, i, w')
  {
    assert GroupOf(Classify(k)).Single?;
    hide *;
    BranchesAreSingle();
    SingleSame(s, w, s', w', k, i);
    SingleSame(s, w, s', w', "then", i);
    SingleSame(s, w, s', w', "else", i);
    IfIs(s, k, i, w);
    IfIs(s', k, i, w');
  }

  lemma ItemsSame(s: Json, w: World, s': Json, w': World, k: string, i: Json)
    requires s.Obj? && s'.Obj? && RelatedAt(s, w, s', w', "prefixItems")
    requires k in s.fields && RelatedAt(s, w, s', w', k) && Classify(k).Items?
    ensures KeywordOk(s, k, i, w) == KeywordOk(s', k, i, w')
  {
    assert PrefixLength(s) == PrefixLength(s');
    hide Classify;
  }

  lemma AdditionalSame(s: Json, w: World, s': Json, w': World, k: string, i: Json)
    requires s.Obj? && s'.Obj? && RelatedSiblings(s, w, s', w') && SameWorld(w, w')
    requires k in s.fields && RelatedAt(s, w, s', w', k) && Classify(k).AdditionalProperties?
    ensures KeywordOk(s, k, i, w) == KeywordOk(s', k, i, w')
  {
    hide Classify;
    assert SameMeaning(s.fields[k], w, s'.fields[k], w');
    hide RelatedSiblings, RelatedAt, Related;
    if i.Obj? {
      forall p | p in i.fields ensures Named(s, p, w) == Named(s', p, w') { NamedSame(s, w, s', w', p); }
    }
  }

  lemma OwnSame(s: Json, w: World, s': Json, w': World, k: string, i: Json)
    requires s.Obj? && s'.Obj? && SameWorld(w, w') && k in s.fields && RelatedAt(s, w, s', w', k)
    requires var c := Classify(k); GroupOf(c).Plain? || c.PropertyNames? || c.Not? || c.Then? || c.Else? || c.Defs?
    ensures KeywordOk(s, k, i, w) == KeywordOk(s', k, i, w')
  {
    hide Classify, Named, PrefixLength, CountAllowed, DictionaryOk, ListOk, Hits;
  }

  /** A keyword means the same when its own value and the siblings it reads do. */
  lemma KeywordSame(s: Json, w: World, s': Json, w': World, k: string, i: Json)
    requires s.Obj? && s'.Obj? && SameWorld(w, w') && k in s.fields && RelatedAt(s, w, s', w', k)
    requires RelatedSiblings(s, w, s', w') && !Classify(k).UnevaluatedProperties?
    ensures k in s'.fields && KeywordOk(s, k, i, w) == KeywordOk(s', k, i, w')
  {
    assert k in s'.fields;
    hide Named, PrefixLength, CountAllowed, DictionaryOk, ListOk, Classify, Related, RelatedAt, SameWorld;
    match Classify(k)
    case AdditionalProperties => AdditionalSame(s, w, s', w', k, i);
    case Items => ItemsSame(s, w, s', w', k, i);
    case Contains => ContainsSame(s, w, s', w', k, i);
    case Properties | PatternProperties | DependentSchemas => DictionarySame(s, w, s', w', k, i);
    case AnyOf | OneOf | AllOf | PrefixItems => ListSame(s, w, s', w', k, i);
    case If => IfSame(s, w, s', w', k, i);
    case _ => OwnSame(s, w, s', w', k, i);
  }

  // ---- the union of types ---------------------------------------------------------------

  lemma TypeOnlyMeans(c: Json, i: Json, w: World)
    requires TypeOnly(c)
    ensures Valid(c, i, w) == HasType(i, TypeNameOf(c).text)
  {
    assert forall k :: k in c.fields <==> k == "type";
    assert KeywordOk(c, "type", i, w) == HasType(i, TypeNameOf(c).text);
  }

  /** Some choice names a type of the instance. */
  ghost predicate SomeChoice(choices: seq<Json>, i: Json) {
    exists c :: c in choices && TypeOnly(c) && HasType(i, TypeNameOf(c).text)
  }

  lemma AnyOfIs(s: Json, i: Json, w: World)
    requires s.Obj? && "anyOf" in s.fields && s.fields["anyOf"].Arr?
    ensures KeywordOk(s, "anyOf", i, w) ==
      exists j :: 0 <= j < |s.fields["anyOf"].items| && Valid(s.fields["anyOf"].items[j], i, w)
  {
    assert Classify("anyOf") == AnyOf;
    hide Classify, Valid;
    assert KeywordOk(s, "anyOf", i, w) == ListOk(s, "anyOf", i, w);
  }

  lemma AnyOfMeans(s: Json, i: Json, w: World)
    requires s.Obj? && "anyOf" in s.fields && s.fields["anyOf"].Arr?
    ensures KeywordOk(s, "anyOf", i, w) == exists c :: c in s.fields["anyOf"].items && Valid(c, i, w)
  {
    AnyOfIs(s, i, w);
    hide *;
    if c :| c in s.fields["anyOf"].items && Valid(c, i, w) {
      var j :| 0 <= j < |s.fields["anyOf"].items| && s.fields["anyOf"].items[j] == c;
      assert Valid(s.fields["anyOf"].items[j], i, w);
    }
  }

  lemma ChoicesMean(s: Json, i: Json, w: World)
    requires s.Obj? && Collapses(s)
    ensures KeywordOk(s, "anyOf", i, w) == SomeChoice(s.fields["anyOf"].items, i)
  {
    var choices := s.fields["anyOf"].items;
    AnyOfMeans(s, i, w);
    hide Valid, KeywordOk, HasType, TypeNameOf;
    forall c | c in choices
      ensures TypeOnly(c) && Valid(c, i, w) == HasType(i, TypeNameOf(c).text)
    {
      TypeOnlyMeans(c, i, w);
    }
  }

  /** The collapsed union names what the choices name. */
  lemma UnionNames(choices: seq<Json>, t: Json)
    requires forall j :: 0 <= j < |choices| ==> TypeOnly(choices[j])
    ensures t in Deduped(TypeNames(choices)) <==> exists c :: c in choices && TypeOnly(c) && TypeNameOf(c) == t
  {
    var names := TypeNames(choices);
    if t in names {
      var j :| 0 <= j < |names| && names[j] == t;
      assert choices[j] in choices && TypeOnly(choices[j]);
    }
    if c :| c in choices && TypeOnly(c) && TypeNameOf(c) == t {
      var j :| 0 <= j < |choices| && choices[j] == c;
      assert names[j] == t;
    }
  }

  lemma TypeListMeans(ts: seq<Json>, i: Json, w: World)
    ensures TypeAllows(Arr(ts), i, w) == exists t :: t in ts && t.Str? && HasType(i, t.text)
  {
    if t :| t in ts && t.Str? && HasType(i, t.text) {
      var j :| 0 <= j < |ts| && ts[j] == t;
      assert HasType(i, ts[j].text);
    }
  }

  /** The collapsed union accepts what the choices accept. */
  lemma UnionMeans(s: Json, i: Json, w: World)
    requires s.Obj? && Collapses(s)
    ensures TypeAllows(UnionType(s), i, w) == SomeChoice(s.fields["anyOf"].items, i)
  {
    var choices := s.fields["anyOf"].items;
    var union := Deduped(TypeNames(choices));
    TypeListMeans(union, i, w);
    hide HasType, TypeOnly, TypeAllows, Deduped, TypeNames, TypeNameOf;
    if t :| t in union && t.Str? && HasType(i, t.text) {
      UnionNames(choices, t);
    }
    if c :| c in choices && TypeOnly(c) && HasType(i, TypeNameOf(c).text) {
      UnionNames(choices, TypeNameOf(c));
    }
  }

  lemma CoveredMeans(i: Json, t: string, sibling: Json, w: World)
    requires HasType(i, t) && Covered(t, SiblingTypes(sibling))
    ensures TypeAllows(sibling, i, w)
  {
    assert t in TYPES;
    var u := if t in SiblingTypes(sibling) then t else "number";
    assert u in SiblingTypes(sibling) && HasType(i, u);
    if sibling.Arr? {
      var j :| 0 <= j < |sibling.items| && sibling.items[j].Str? && sibling.items[j].text == u;
      assert HasType(i, sibling.items[j].text);
    }
  }

  /** A sibling type that covers the union adds nothing to it. */
  lemma OverwriteSafeMeans(s: Json, i: Json, w: World)
    requires s.Obj? && Collapses(s) && OverwriteSafe(s) && "type" in s.fields
    requires SomeChoice(s.fields["anyOf"].items, i)
    ensures TypeAllows(s.fields["type"], i, w)
  {
    var c :| c in s.fields["anyOf"].items && TypeOnly(c) && HasType(i, TypeNameOf(c).text);
    CoveredMeans(i, TypeNameOf(c).text, s.fields["type"], w);
  }

  // ---- compaction -------------------------------------------------------------------------

  lemma {:induction false} ChildMeans(c: Json, w: World)
    requires c.Obj? ==> Shaped(c) && Plainly(c)
    ensures SameMeaning(c, w, CompactChild(c), w)
    decreases c, 2
  {
    if c.Obj? {
      forall x: Json ensures Valid(c, x, w) == Valid(CompactChild(c), x, w) { CompactMeans(c, x, w); }
    }
  }

  lemma {:induction false} RewriteRelated(k: string, v: Json, w: World)
    requires match GroupOf(Classify(k))
      case Dictionary => v.Obj? ==> forall p :: p in v.fields && v.fields[p].Obj? ==> Shaped(v.fields[p]) && Plainly(v.fields[p])
      case List => v.Arr? ==> forall j :: 0 <= j < |v.items| && v.items[j].Obj? ==> Shaped(v.items[j]) && Plainly(v.items[j])
      case Single => v.Obj? ==> Shaped(v) && Plainly(v)
      case Plain => true
    ensures Related(k, v, w, Rewrite(k, v), w)
    decreases v, 3
  {
    match GroupOf(Classify(k))
    case Dictionary =>
      if v.Obj? {
        forall p | p in v.fields ensures SameMeaning(v.fields[p], w, CompactChild(v.fields[p]), w) {
          ChildMeans(v.fields[p], w);
        }
      }
    case List =>
      if v.Arr? {
        forall j | 0 <= j < |v.items| ensures SameMeaning(v.items[j], w, CompactChild(v.items[j]), w) {
          ChildMeans(v.items[j], w);
        }
      }
    case Single => ChildMeans(v, w);
    case Plain =>
  }

  /** A kept keyword other than an overwritten `type` is related to its compacted form. */
  lemma KeptAt(s: Json, w: World, k: string)
    requires s.Obj? && k !in Dropped(s) && !(Collapses(s) && k == "type")
    requires k in s.fields ==> Related(k, s.fields[k], w, Rewrite(k, s.fields[k]), w)
    ensures RelatedAt(s, w, Compact(s), w, k)
  {
    hide Related, Rewrite, Collapses, Dropped, UnionType;
  }

  /** The keywords other keywords look at are never dropped. */
  lemma SiblingsKept(s: Json)
    requires s.Obj?
    ensures Dropped(s) !! {"properties", "patternProperties", "prefixItems", "then", "else", "minContains", "maxContains"}
  {
    hide Collapses;
  }

  lemma KeptRelated(s: Json, w: World)
    requires s.Obj? && forall k :: k in s.fields ==> Related(k, s.fields[k], w, Rewrite(k, s.fields[k]), w)
    ensures RelatedSiblings(s, w, Compact(s), w)
    ensures forall k :: k in s.fields && k !in Dropped(s) && !(Collapses(s) && k == "type") ==>
      RelatedAt(s, w, Compact(s), w, k)
  {
    SiblingsKept(s);
    hide Related, Rewrite, Collapses, Dropped, Compact, RelatedAt;
    KeptAt(s, w, "properties");
    KeptAt(s, w, "patternProperties");
    KeptAt(s, w, "prefixItems");
    KeptAt(s, w, "then");
    KeptAt(s, w, "else");
    KeptAt(s, w, "minContains");
    KeptAt(s, w, "maxContains");
    forall k | k in s.fields && k !in Dropped(s) && !(Collapses(s) && k == "type")
      ensures RelatedAt(s, w, Compact(s), w, k)
    {
      KeptAt(s, w, k);
    }
  }

  /** What is dropped says nothing, except the collapsed union, which `type` now says. */
  lemma DroppedMeans(s: Json, i: Json, w: World)
    requires s.Obj? && OverwriteSafe(s)
    ensures forall k :: k in s.fields && k in Dropped(s) && k != "anyOf" ==> KeywordOk(s, k, i, w)
    ensures Collapses(s) ==>
      (KeywordOk(s, "anyOf", i, w) && ("type" in s.fields ==> KeywordOk(s, "type", i, w))) ==
      KeywordOk(Compact(s), "type", i, w)
  {
    if Collapses(s) {
      UnionMeans(s, i, w);
      ChoicesMean(s, i, w);
      if "type" in s.fields && SomeChoice(s.fields["anyOf"].items, i) { OverwriteSafeMeans(s, i, w); }
    }
  }

  lemma NotUnevaluated(s: Json, k: string)
    requires s.Obj? && "unevaluatedProperties" !in s.fields && k in s.fields
    ensures !Classify(k).UnevaluatedProperties?
  {
  }

  /** Every keyword that stays says the same as before. */
  lemma KeptMean(s: Json, i: Json, w: World)
    requires s.Obj? && RelatedSiblings(s, w, Compact(s), w) && "unevaluatedProperties" !in s.fields
    requires forall k :: k in s.fields && k !in Dropped(s) && !(Collapses(s) && k == "type") ==>
      RelatedAt(s, w, Compact(s), w, k)
    ensures forall k :: k in s.fields && k !in Dropped(s) && !(Collapses(s) && k == "type") ==>
      k in Compact(s).fields && KeywordOk(s, k, i, w) == KeywordOk(Compact(s), k, i, w)
  {
    hide *;
    forall k | k in s.fields && k !in Dropped(s) && !(Collapses(s) && k == "type")
      ensures k in Compact(s).fields && KeywordOk(s, k, i, w) == KeywordOk(Compact(s), k, i, w)
    {
      NotUnevaluated(s, k);
      SameWorldSelf(w);
      KeywordSame(s, w, Compact(s), w, k, i);
    }
  }

  lemma SameWorldSelf(w: World)
    ensures SameWorld(w, w)
  {
  }

  lemma CompactKeys(s: Json)
    requires s.Obj?
    ensures Compact(s).fields.Keys == (s.fields.Keys - Dropped(s)) + (if Collapses(s) then {"type"} else {})
    ensures Collapses(s) ==> "anyOf" in s.fields && "anyOf" in Dropped(s)
    ensures Dropped(s) <= {"title", "additionalProperties", "default", "anyOf"}
    ensures "anyOf" in Dropped(s) ==> Collapses(s)
  {
    hide Rewrite, UnionType;
  }

  /** The theorem: compaction keeps the set of valid instances, whatever the references mean. */
  lemma {:induction false} CompactMeans(s: Json, i: Json, w: World)
    requires s.Obj? && Shaped(s) && Plainly(s)
    ensures Valid(s, i, w) == Valid(Compact(s), i, w)
    decreases s, 1
  {
    forall k | k in s.fields ensures Related(k, s.fields[k], w, Rewrite(k, s.fields[k]), w) {
      RewriteRelated(k, s.fields[k], w);
    }
    Assemble(s, i, w);
  }

  lemma Assemble(s: Json, i: Json, w: World)
    requires s.Obj? && "unevaluatedProperties" !in s.fields && OverwriteSafe(s)
    requires forall k :: k in s.fields ==> Related(k, s.fields[k], w, Rewrite(k, s.fields[k]), w)
    ensures Valid(s, i, w) == Valid(Compact(s), i, w)
  {
    KeptRelated(s, w);
    KeptMean(s, i, w);
    DroppedMeans(s, i, w);
    CompactKeys(s);
    ValidObj(s, i, w);
    ValidObj(Compact(s), i, w);
    hide *;
  }

  lemma ValidObj(s: Json, i: Json, w: World)
    requires s.Obj?
    ensures Valid(s, i, w) == forall k :: k in s.fields ==> KeywordOk(s, k, i, w)
  {
  }

  // ---- references -------------------------------------------------------------------------

  const DEFS: string := "#/$defs/"

  /** The world's reading of local references agrees with the definitions of the root schema. */
  ghost predicate IsSolution(root: Json, w: World)
    requires root.Obj?
  {
    "$defs" in root.fields && root.fields["$defs"].Obj? ==>
      forall d, i: Json :: d in root.fields["$defs"].fields ==>
        w.ref(DEFS + d, i) == Valid(root.fields["$defs"].fields[d], i, w)
  }

  lemma DefsKept(root: Json)
    requires root.Obj?
    ensures "$defs" in root.fields <==> "$defs" in Compact(root).fields
    ensures "$defs" in root.fields ==> Compact(root).fields["$defs"] == Rewrite("$defs", root.fields["$defs"])
  {
    CompactKeys(root);
    CompactAt(root, "$defs");
    hide Collapses, UnionType, Dropped, Compact, Rewrite;
  }

  lemma DefsMean(root: Json, w: World)
    requires root.Obj? && Shaped(root) && Plainly(root) && "$defs" in root.fields
    ensures Related("$defs", root.fields["$defs"], w, Compact(root).fields["$defs"], w)
  {
    DefsKept(root);
    RewriteRelated("$defs", root.fields["$defs"], w);
  }

  lemma SolutionsSame(root: Json, r: Json, w: World)
    requires root.Obj? && r.Obj? && ("$defs" in root.fields <==> "$defs" in r.fields)
    requires "$defs" in root.fields ==>
      root.fields["$defs"].Obj? && r.fields["$defs"].Obj?
      && root.fields["$defs"].fields.Keys == r.fields["$defs"].fields.Keys
      && forall d :: d in root.fields["$defs"].fields ==>
           SameMeaning(root.fields["$defs"].fields[d], w, r.fields["$defs"].fields[d], w)
    ensures IsSolution(root, w) <==> IsSolution(r, w)
  {
    hide Valid;
    if "$defs" in root.fields {
      var a, b := root.fields["$defs"].fields, r.fields["$defs"].fields;
      forall d, i: Json | d in a
        ensures (w.ref(DEFS + d, i) == Valid(a[d], i, w)) <==> (w.ref(DEFS + d, i) == Valid(b[d], i, w))
      {
        assert SameMeaning(a[d], w, b[d], w);
      }
    }
  }

  /** Recursive definitions: a reading of the references solves the original definitions exactly
      when it solves the compacted ones, and under it both roots accept the same instances. */
  lemma ReferencesMean(root: Json, w: World)
    requires root.Obj? && Shaped(root) && Plainly(root)
    ensures IsSolution(root, w) <==> IsSolution(Compact(root), w)
    ensures SameMeaning(root, w, Compact(root), w)
  {
    ChildMeans(root, w);
    DefsKept(root);
    if "$defs" in root.fields {
      DefsMean(root, w);
      DefsShaped(root);
    }
    hide Compact, Valid, Shaped, Plainly, Rewrite, IsSolution, SameMeaning;
    SolutionsSame(root, Compact(root), w);
  }

  lemma DictionaryShaped(s: Json, k: string)
    requires s.Obj? && Shaped(s) && k in s.fields && GroupOf(Classify(k)).Dictionary?
    ensures s.fields[k].Obj?
  {
    hide Classify;
  }

  lemma DefsShaped(root: Json)
    requires root.Obj? && Shaped(root) && "$defs" in root.fields
    ensures GroupOf(Classify("$defs")).Dictionary? && root.fields["$defs"].Obj?
  {
    hide Shaped;
    assert Classify("$defs") == Defs;
    DictionaryShaped(root, "$defs");
  }

  // ---- names survive, noise does not ----------------------------------------------------------

  /** Inside `properties` nothing is a keyword: every name stays, `title` and `default` included. */
  lemma PropertyNamesSurvive(s: Json, name: string)
    requires s.Obj? && "properties" in s.fields && s.fields["properties"].Obj?
    ensures var r := Compact(s);
      "properties" in r.fields && r.fields["properties"].Obj?
      && (name in r.fields["properties"].fields <==> name in s.fields["properties"].fields)
      && (name in s.fields["properties"].fields ==>
            r.fields["properties"].fields[name] == CompactChild(s.fields["properties"].fields[name]))
  {
    CompactKeys(s);
    hide Collapses, UnionType;
  }

  lemma {:induction false} CompactIsClean(s: Json)
    requires s.Obj? && Shaped(s)
    ensures Clean(Compact(s))
    decreases s, 1
  {
    forall k | k in s.fields ensures CleanValue(k, Rewrite(k, s.fields[k])) { RewriteIsClean(k, s.fields[k]); }
    CleanParts(s);
  }

  ghost predicate CleanValue(k: string, v: Json) {
    match GroupOf(Classify(k))
    case Dictionary => v.Obj? ==> forall p :: p in v.fields && v.fields[p].Obj? ==> Clean(v.fields[p])
    case List => v.Arr? ==> forall j :: 0 <= j < |v.items| && v.items[j].Obj? ==> Clean(v.items[j])
    case Single => v.Obj? ==> Clean(v)
    case Plain => true
  }

  lemma {:induction false} RewriteIsClean(k: string, v: Json)
    requires match GroupOf(Classify(k))
      case Dictionary => v.Obj? ==> forall p :: p in v.fields && v.fields[p].Obj? ==> Shaped(v.fields[p])
      case List => v.Arr? ==> forall j :: 0 <= j < |v.items| && v.items[j].Obj? ==> Shaped(v.items[j])
      case Single => v.Obj? ==> Shaped(v)
      case Plain => true
    ensures CleanValue(k, Rewrite(k, v))
    decreases v, 3
  {
    match GroupOf(Classify(k))
    case Dictionary =>
      if v.Obj? { forall p | p in v.fields && v.fields[p].Obj? ensures Clean(Compact(v.fields[p])) { CompactIsClean(v.fields[p]); } }
    case List =>
      if v.Arr? { forall j | 0 <= j < |v.items| && v.items[j].Obj? ensures Clean(Compact(v.items[j])) { CompactIsClean(v.items[j]); } }
    case Single =>
      if v.Obj? { CompactIsClean(v); }
    case Plain =>
  }

  /** A single subschema or plain value is rewritten to true or null only if it was that before. */
  lemma RewriteKeepsConstants(k: string, v: Json)
    ensures v != Bool(true) ==> Rewrite(k, v) != Bool(true)
    ensures v != Null ==> Rewrite(k, v) != Null
  {
  }

  lemma CleanParts(s: Json)
    requires s.Obj? && forall k :: k in s.fields ==> CleanValue(k, Rewrite(k, s.fields[k]))
    ensures Clean(Compact(s))
  {
    TypeIsPlain();
    hide *;
    forall k | k in Compact(s).fields ensures CleanValue(k, Compact(s).fields[k]) {
      CompactAt(s, k);
      if Collapses(s) && k == "type" { PlainIsClean(k, Compact(s).fields[k]); }
    }
    NoiseGone(s);
    CleanIs(Compact(s));
  }

  lemma PlainIsClean(k: string, v: Json)
    requires GroupOf(Classify(k)).Plain?
    ensures CleanValue(k, v)
  {
  }

  lemma NoiseGone(s: Json)
    requires s.Obj?
    ensures var r := Compact(s);
      "title" !in r.fields
      && ("additionalProperties" in r.fields ==> r.fields["additionalProperties"] != Bool(true))
      && ("default" in r.fields ==> r.fields["default"] != Null)
  {
    CompactAt(s, "title");
    CompactAt(s, "additionalProperties");
    CompactAt(s, "default");
    if "additionalProperties" in s.fields {
      RewriteKeepsConstants("additionalProperties", s.fields["additionalProperties"]);
    }
    if "default" in s.fields { RewriteKeepsConstants("default", s.fields["default"]); }
    hide Rewrite, Collapses, Compact;
  }

  /** The names of the keywords that lead to subschemas, group by group. */
  lemma DictionaryGroup(k: string)
    requires k in {"properties", "$defs", "patternProperties", "dependentSchemas"}
    ensures GroupOf(Classify(k)).Dictionary?
  {
    if k == "properties" {
    } else if k == "$defs" {
    } else if k == "patternProperties" {
    } else {
      assert k == "dependentSchemas";
    }
  }

  lemma ListGroup(k: string)
    requires k in {"anyOf", "oneOf", "allOf", "prefixItems"}
    ensures GroupOf(Classify(k)).List?
  {
    if k == "anyOf" {
    } else if k == "oneOf" {
    } else if k == "allOf" {
    } else {
      assert k == "prefixItems";
    }
  }

  lemma SingleGroup(k: string)
    requires k in {"items", "contains", "additionalProperties", "unevaluatedProperties", "propertyNames", "not", "if", "then", "else"}
    ensures GroupOf(Classify(k)).Single?
  {
    if k == "items" || k == "contains" || k == "additionalProperties" {
    } else if k == "unevaluatedProperties" || k == "propertyNames" || k == "not" {
    } else {
      assert k == "if" || k == "then" || k == "else";
    }
  }

  lemma CleanIs(r: Json)
    requires r.Obj? && "title" !in r.fields
    requires "additionalProperties" in r.fields ==> r.fields["additionalProperties"] != Bool(true)
    requires "default" in r.fields ==> r.fields["default"] != Null
    requires forall k :: k in r.fields ==> CleanValue(k, r.fields[k])
    ensures Clean(r)
  {
    hide Classify;
    forall k | k in r.fields && k in {"properties", "$defs", "patternProperties", "dependentSchemas"}
      ensures GroupOf(Classify(k)).Dictionary? { DictionaryGroup(k); }
    forall k | k in r.fields && k in {"anyOf", "oneOf", "allOf", "prefixItems"} ensures GroupOf(Classify(k)).List? { ListGroup(k); }
    forall k | k in r.fields && k in {"items", "contains", "additionalProperties", "unevaluatedProperties", "propertyNames",
                                      "not", "if", "then", "else"}
      ensures GroupOf(Classify(k)).Single? { SingleGroup(k); }
  }

  lemma TypeIsPlain()
    ensures GroupOf(Classify("type")).Plain?
  {
  }

  // ---- exactly when overwriting the sibling type is harmless -----------------------------------

  /** An instance of one type only. */
  function Sample(t: string): (i: Json)
    requires t in TYPES
    ensures HasType(i, t) && forall u :: HasType(i, u) ==> u == t || (t == "integer" && u == "number")
  {
    if t == "null" then Null else if t == "boolean" then Bool(true) else if t == "number" then Num(0.5)
    else if t == "integer" then Num(0.0) else if t == "string" then Str("") else if t == "array" then Arr([])
    else Obj(map[])
  }

  lemma UncoveredSample(t: string, sibling: Json, w: World)
    requires !Covered(t, SiblingTypes(sibling)) && (sibling.Str? || sibling.Arr?)
    ensures t in TYPES && !TypeAllows(sibling, Sample(t), w)
  {
    var i := Sample(t);
    if sibling.Arr? {
      forall j | 0 <= j < |sibling.items| && sibling.items[j].Str?
        ensures !HasType(i, sibling.items[j].text)
      {
        assert sibling.items[j].text in SiblingTypes(sibling);
      }
    }
  }

  /** Every keyword but `type` and `anyOf` accepts the instance. */
  ghost predicate OthersAccept(s: Json, i: Json, w: World)
    requires s.Obj?
  {
    forall k :: k in s.fields && k != "type" && k != "anyOf" ==> KeywordOk(s, k, i, w)
  }

  /** The instance has the type of a merged choice and passes every other keyword, but not the sibling `type`. */
  ghost predicate Excludes(s: Json, i: Json, w: World)
    requires s.Obj? && Collapses(s) && "type" in s.fields
  {
    SomeChoice(s.fields["anyOf"].items, i) && !TypeAllows(s.fields["type"], i, w) && OthersAccept(s, i, w)
  }

  lemma ValidParts(s: Json, i: Json, w: World)
    requires s.Obj? && Collapses(s) && "type" in s.fields
    ensures Valid(s, i, w) <==>
      OthersAccept(s, i, w) && SomeChoice(s.fields["anyOf"].items, i) && TypeAllows(s.fields["type"], i, w)
  {
    TypeMeans(s, i, w);
    ChoicesMean(s, i, w);
    ValidObj(s, i, w);
    hide Valid, KeywordOk, TypeAllows, SomeChoice, Compact, TypeOnly;
  }

  lemma CompactParts(s: Json, i: Json, w: World)
    requires s.Obj? && "unevaluatedProperties" !in s.fields && Collapses(s)
    requires forall k :: k in s.fields ==> Related(k, s.fields[k], w, Rewrite(k, s.fields[k]), w)
    ensures Valid(Compact(s), i, w) <==> OthersAccept(s, i, w) && SomeChoice(s.fields["anyOf"].items, i)
  {
    hide *;
    KeptRelated(s, w);
    KeptMean(s, i, w);
    NoiseMeans(s, i, w);
    TypeMeans(s, i, w);
    KeptKeys(s);
    ValidObj(Compact(s), i, w);
    OthersAcceptIs(s, i, w);
  }

  lemma KeptKeys(s: Json)
    requires s.Obj? && Collapses(s)
    ensures forall k :: k in Compact(s).fields <==> k == "type" || (k in s.fields && k !in Dropped(s))
    ensures "anyOf" in Dropped(s) && "type" !in Dropped(s)
  {
    CompactKeys(s);
    hide *;
    forall k ensures k in Compact(s).fields <==> k == "type" || (k in s.fields && k !in Dropped(s)) {
      assert k in Compact(s).fields <==> k in Compact(s).fields.Keys;
    }
  }

  lemma OthersAcceptIs(s: Json, i: Json, w: World)
    requires s.Obj?
    ensures OthersAccept(s, i, w) <==> forall k :: k in s.fields && k != "type" && k != "anyOf" ==> KeywordOk(s, k, i, w)
  {
    hide KeywordOk;
  }

  /** What the overwrite changes, for any sibling and any other keywords: exactly the instances
      that the sibling `type` alone excluded from the union become valid. */
  lemma OverwriteMeans(s: Json, i: Json, w: World)
    requires s.Obj? && Shaped(s) && PlainlyBelow(s) && Collapses(s) && "type" in s.fields
    ensures Valid(Compact(s), i, w) <==> Valid(s, i, w) || Excludes(s, i, w)
  {
    forall k | k in s.fields ensures Related(k, s.fields[k], w, Rewrite(k, s.fields[k]), w) {
      RewriteRelated(k, s.fields[k], w);
    }
    CompactParts(s, i, w);
    ValidParts(s, i, w);
    hide Valid, OthersAccept, SomeChoice, TypeAllows, Compact, Related, Rewrite;
  }

  lemma NoiseMeans(s: Json, i: Json, w: World)
    requires s.Obj?
    ensures forall k :: k in s.fields && k in Dropped(s) && k != "anyOf" ==> KeywordOk(s, k, i, w)
  {
  }

  /** So the overwrite is harmless if and only if the sibling `type` excludes nothing by itself. */
  lemma OverwriteHarmless(s: Json, w: World)
    requires s.Obj? && Shaped(s) && PlainlyBelow(s) && Collapses(s) && "type" in s.fields
    ensures SameMeaning(s, w, Compact(s), w) <==> forall i: Json :: !Excludes(s, i, w)
  {
    hide Valid, Excludes, Compact, Shaped, PlainlyBelow;
    forall i: Json ensures (Valid(s, i, w) == Valid(Compact(s), i, w)) <==> !(Excludes(s, i, w) && !Valid(s, i, w)) {
      OverwriteMeans(s, i, w);
    }
    forall i: Json | Excludes(s, i, w) ensures !Valid(s, i, w) { ExcludedIsInvalid(s, i, w); }
  }

  lemma ExcludedIsInvalid(s: Json, i: Json, w: World)
    requires s.Obj? && Collapses(s) && "type" in s.fields && Excludes(s, i, w)
    ensures !Valid(s, i, w)
  {
    ValidParts(s, i, w);
    hide Valid, Collapses, OthersAccept, SomeChoice, TypeAllows;
  }

  /** A condition on the two type lists alone: with a well-formed sibling `type`, and other keywords
      that accept everything, the overwrite is harmless if and only if the sibling covers the union. */
  lemma OverwriteExact(s: Json, w: World)
    requires s.Obj? && Shaped(s) && PlainlyBelow(s) && Collapses(s)
    requires "type" in s.fields && (s.fields["type"].Str? || s.fields["type"].Arr?)
    requires forall k, i: Json :: k in s.fields && k != "type" && k != "anyOf" ==> KeywordOk(s, k, i, w)
    ensures OverwriteSafe(s) <==> SameMeaning(s, w, Compact(s), w)
  {
    if OverwriteSafe(s) {
      ChildMeans(s, w);
    } else {
      var c :| c in s.fields["anyOf"].items && TypeOnly(c) && !Covered(TypeNameOf(c).text, SiblingTypes(s.fields["type"]));
      UncoveredSample(TypeNameOf(c).text, s.fields["type"], w);
      assert Excludes(s, Sample(TypeNameOf(c).text), w);
      OverwriteHarmless(s, w);
    }
  }

  lemma TypeMeans(s: Json, i: Json, w: World)
    requires s.Obj? && Collapses(s)
    ensures "type" in Compact(s).fields
    ensures KeywordOk(Compact(s), "type", i, w) == SomeChoice(s.fields["anyOf"].items, i)
    ensures "type" in s.fields ==> KeywordOk(s, "type", i, w) == TypeAllows(s.fields["type"], i, w)
  {
    UnionMeans(s, i, w);
  }

  /** The failing case in the small: null is rejected before and accepted after. */
  lemma OverwriteWitness(w: World)
    ensures var choices := Arr([Obj(map["type" := Str("string")]), Obj(map["type" := Str("null")])]);
      var s := Obj(map["type" := Str("string"), "anyOf" := choices]);
      !Valid(s, Null, w) && Valid(Compact(s), Null, w)
  {
    var a, b := Obj(map["type" := Str("string")]), Obj(map["type" := Str("null")]);
    var s := Obj(map["type" := Str("string"), "anyOf" := Arr([a, b])]);
    assert TypeOnly(a) && TypeOnly(b) && Collapses(s);
    TypeMeans(s, Null, w);
    assert b in s.fields["anyOf"].items && HasType(Null, TypeNameOf(b).text);
    CompactKeys(s);
    assert Compact(s).fields.Keys == {"type"};
    ValidObj(s, Null, w);
    ValidObj(Compact(s), Null, w);
  }

  // ---- exactly when one pass is the last ---------------------------------------------------------

  /** A keyword that compaction always drops. */
  predicate Noise(c: Json, k: string)
    requires c.Obj? && k in c.fields
  {
    k == "title" || (k == "additionalProperties" && c.fields[k] == Bool(true)) || (k == "default" && c.fields[k] == Null)
  }

  /** Besides noise the choice only names one type. */
  predicate NoisyType(c: Json) {
    c.Obj? && "type" in c.fields && c.fields["type"].Str? && forall k :: k in c.fields ==> k == "type" || Noise(c, k)
  }

  /** A union of types that noise in some choice hides from the first pass. */
  predicate LateUnion(s: Json)
    requires s.Obj?
  {
    "anyOf" in s.fields && s.fields["anyOf"].Arr? && s.fields["anyOf"].items != [] && !Collapses(s)
    && forall j :: 0 <= j < |s.fields["anyOf"].items| ==> NoisyType(s.fields["anyOf"].items[j])
  }

  /** No schema that the traversal keeps has such a union. */
  ghost predicate Stable(s: Json)
    requires s.Obj?
    decreases s, 1
  {
    !LateUnion(s) && forall k :: k in s.fields && k !in Dropped(s) ==> StableValue(k, s.fields[k])
  }

  ghost predicate StableValue(k: string, v: Json)
    decreases v, 3
  {
    match GroupOf(Classify(k))
    case Dictionary => v.Obj? ==> forall p :: p in v.fields && v.fields[p].Obj? ==> Stable(v.fields[p])
    case List => v.Arr? ==> forall j :: 0 <= j < |v.items| && v.items[j].Obj? ==> Stable(v.items[j])
    case Single => v.Obj? ==> Stable(v)
    case Plain => true
  }

  lemma TypeOnlyAfter(c: Json)
    ensures TypeOnly(CompactChild(c)) <==> NoisyType(c)
  {
    if c.Obj? {
      CompactKeys(c);
      CompactAt(c, "type");
      RewritePlain();
      hide Rewrite, Compact, UnionType;
      var r := Compact(c);
      if TypeOnly(r) {
        forall k | k in c.fields ensures k == "type" || Noise(c, k) {
          if k != "type" { assert k !in r.fields.Keys; }
        }
      }
      if NoisyType(c) {
        assert "anyOf" !in c.fields;
        assert r.fields.Keys == {"type"};
      }
    }
  }

  lemma LateUnionCollapses(s: Json)
    requires s.Obj?
    ensures Collapses(Compact(s)) <==> LateUnion(s)
  {
    CompactAt(s, "anyOf");
    AnyOfDropped(s);
    hide Compact, Dropped, UnionType, TypeOnly, NoisyType;
    if "anyOf" in s.fields && !Collapses(s) {
      RewriteAnyOf(s.fields["anyOf"]);
      if s.fields["anyOf"].Arr? {
        var items := s.fields["anyOf"].items;
        forall j | 0 <= j < |items|
          ensures TypeOnly(Compact(s).fields["anyOf"].items[j]) <==> NoisyType(items[j])
        {
          TypeOnlyAfter(items[j]);
        }
      }
    }
  }

  lemma AnyOfDropped(s: Json)
    requires s.Obj?
    ensures "anyOf" in Dropped(s) <==> Collapses(s)
  {
    hide Collapses;
  }

  lemma RewriteAnyOf(v: Json)
    ensures !v.Arr? ==> Rewrite("anyOf", v) == v
    ensures v.Arr? ==> Rewrite("anyOf", v).Arr? && |Rewrite("anyOf", v).items| == |v.items|
    ensures v.Arr? ==> forall j :: 0 <= j < |v.items| ==> Rewrite("anyOf", v).items[j] == CompactChild(v.items[j])
  {
    assert Classify("anyOf") == AnyOf;
  }

  /** After one pass only a late union is ever dropped. */
  lemma DroppedAgain(s: Json, k: string)
    requires s.Obj?
    ensures var r := Compact(s); k in r.fields && k in Dropped(r) ==> k == "anyOf" && Collapses(r)
  {
    NoiseGone(s);
    hide Compact, Collapses;
  }

  /** A second pass changes nothing at this level, provided it changes no value that stayed. */
  lemma SecondPass(s: Json)
    requires s.Obj?
    ensures var r := Compact(s);
      Compact(r) == r <==> !Collapses(r) && forall k :: k in r.fields ==> Rewrite(k, r.fields[k]) == r.fields[k]
  {
    var r := Compact(s);
    AnyOfDropped(r);
    hide Compact, Dropped, UnionType, Rewrite;
    if Collapses(r) {
      CompactAt(r, "anyOf");
      assert "anyOf" in r.fields && "anyOf" !in Compact(r).fields;
    } else {
      forall k
        ensures k in r.fields <==> k in Compact(r).fields
        ensures k in r.fields ==> Compact(r).fields[k] == Rewrite(k, r.fields[k])
      {
        CompactAt(r, k);
        DroppedAgain(s, k);
      }
      if forall k :: k in r.fields ==> Rewrite(k, r.fields[k]) == r.fields[k] {
        assert Compact(r).fields == r.fields;
      }
    }
  }

  lemma {:induction false} ChildStable(c: Json)
    ensures CompactChild(CompactChild(c)) == CompactChild(c) <==> (c.Obj? ==> Stable(c))
    decreases c, 2
  {
    if c.Obj? { StableExact(c); }
  }

  lemma {:induction false} RewriteStable(k: string, v: Json)
    ensures Rewrite(k, Rewrite(k, v)) == Rewrite(k, v) <==> StableValue(k, v)
    decreases v, 3
  {
    var r := Rewrite(k, v);
    match GroupOf(Classify(k))
    case Dictionary =>
      if v.Obj? {
        forall p | p in v.fields
          ensures Rewrite(k, r).fields[p] == r.fields[p] <==> (v.fields[p].Obj? ==> Stable(v.fields[p]))
        {
          ChildStable(v.fields[p]);
        }
        assert Rewrite(k, r) == r <==> forall p :: p in v.fields ==> Rewrite(k, r).fields[p] == r.fields[p] by {
          assert Rewrite(k, r).fields.Keys == r.fields.Keys == v.fields.Keys;
          if forall p :: p in v.fields ==> Rewrite(k, r).fields[p] == r.fields[p] {
            assert Rewrite(k, r).fields == r.fields;
          }
        }
      }
    case List =>
      if v.Arr? {
        forall j | 0 <= j < |v.items|
          ensures Rewrite(k, r).items[j] == r.items[j] <==> (v.items[j].Obj? ==> Stable(v.items[j]))
        {
          ChildStable(v.items[j]);
        }
        if forall j :: 0 <= j < |v.items| ==> Rewrite(k, r).items[j] == r.items[j] {
          assert Rewrite(k, r).items == r.items;
        }
      }
    case Single => ChildStable(v);
    case Plain =>
  }

  /** The exact condition: compacting twice is compacting once if and only if no kept schema has
      a union of types hidden by noise. */
  lemma {:induction false} StableExact(s: Json)
    requires s.Obj?
    ensures Compact(Compact(s)) == Compact(s) <==> Stable(s)
    decreases s, 1
  {
    forall k | k in s.fields
      ensures Rewrite(k, Rewrite(k, s.fields[k])) == Rewrite(k, s.fields[k]) <==> StableValue(k, s.fields[k])
    {
      RewriteStable(k, s.fields[k]);
    }
    StableAssembled(s);
  }

  lemma StableAssembled(s: Json)
    requires s.Obj?
    requires forall k :: k in s.fields ==>
      (Rewrite(k, Rewrite(k, s.fields[k])) == Rewrite(k, s.fields[k]) <==> StableValue(k, s.fields[k]))
    ensures Compact(Compact(s)) == Compact(s) <==> Stable(s)
  {
    var r := Compact(s);
    SecondPass(s);
    LateUnionCollapses(s);
    RewritePlain();
    hide Compact, Rewrite, Collapses, LateUnion, StableValue, Dropped, UnionType, Classify, GroupOf;
    forall k
      ensures k in s.fields && k !in Dropped(s) && !(Collapses(s) && k == "type") ==>
        k in r.fields && (Rewrite(k, r.fields[k]) == r.fields[k] <==> StableValue(k, s.fields[k]))
      ensures k in r.fields && !(k in s.fields && k !in Dropped(s) && !(Collapses(s) && k == "type")) ==>
        Rewrite(k, r.fields[k]) == r.fields[k]
    {
      CompactAt(s, k);
    }
    TypeIsStable(s);
  }

  lemma TypeIsStable(s: Json)
    requires s.Obj?
    ensures "type" in s.fields ==> StableValue("type", s.fields["type"])
  {
    TypeIsPlain();
    hide Classify, GroupOf;
  }

  /** One pass is not always the last: a titled choice becomes a type union in the second. */
  lemma SecondPassWitness()
    ensures var s := Obj(map["anyOf" := Arr([Obj(map["title" := Str("A"), "type" := Str("string")])])]);
      "anyOf" in Compact(s).fields && "type" !in Compact(s).fields
      && "anyOf" !in Compact(Compact(s)).fields && "type" in Compact(Compact(s)).fields
  {
    var c := Obj(map["title" := Str("A"), "type" := Str("string")]);
    var s := Obj(map["anyOf" := Arr([c])]);
    assert "title" in c.fields && !TypeOnly(c);
    assert s.fields["anyOf"].items[0] == c && !Collapses(s);
    CompactAt(s, "anyOf");
    CompactAt(s, "type");
    assert "anyOf" !in Dropped(s);
    TitledChoice(c);
    var r := Compact(s);
    assert r.fields["anyOf"] == Arr([Compact(c)]);
    assert Collapses(r);
    CompactAt(r, "anyOf");
    CompactAt(r, "type");
  }

  lemma TitledChoice(c: Json)
    requires c == Obj(map["title" := Str("A"), "type" := Str("string")])
    ensures TypeOnly(Compact(c)) && Rewrite("anyOf", Arr([c])) == Arr([Compact(c)])
  {
    assert c.fields.Keys == {"title", "type"} && !Collapses(c);
    CompactKeys(c);
    CompactAt(c, "type");
    assert Compact(c).fields.Keys == {"type"};
    assert Rewrite("type", Str("string")) == Str("string");
  }
}
