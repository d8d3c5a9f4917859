/**
 JSON Schema compaction. Schemas and instances are JSON values; a schema is evaluated as
 sections 10 and 11 of JSON Schema Core 2020-12 say, with `$ref` interpreted by a parameter
 and every keyword that has no subschema treated as an unknown assertion of its value.
 Whether a string is a keyword depends on where it stands: inside `properties` it is a name.
 */
module Schema {
  datatype Json =
    | Null
    | Bool(truth: bool)
    | Num(number: real)
    | Str(text: string)
    | Arr(items: seq<Json>)
    | Obj(fields: map<string, Json>)

  datatype Keyword =
    | Title | Default | Type | Ref
    | AdditionalProperties | Properties | PatternProperties | PropertyNames | DependentSchemas | UnevaluatedProperties
    | AnyOf | OneOf | AllOf | Not | If | Then | Else
    | PrefixItems | Items | Contains | MinContains | MaxContains | UnevaluatedItems
    | Defs | Other

  function Classify(k: string): Keyword {
    if k == "title" then Title else if k == "default" then Default else if k == "type" then Type
    else if k == "$ref" then Ref else if k == "additionalProperties" then AdditionalProperties
    else if k == "properties" then Properties else if k == "patternProperties" then PatternProperties
    else if k == "propertyNames" then PropertyNames else if k == "dependentSchemas" then DependentSchemas
    else if k == "unevaluatedProperties" then UnevaluatedProperties else if k == "anyOf" then AnyOf
    else if k == "oneOf" then OneOf else if k == "allOf" then AllOf else if k == "not" then Not
    else if k == "if" then If else if k == "then" then Then else if k == "else" then Else
    else if k == "prefixItems" then PrefixItems else if k == "items" then Items
    else if k == "contains" then Contains else if k == "minContains" then MinContains
    else if k == "maxContains" then MaxContains else if k == "unevaluatedItems" then UnevaluatedItems
    else if k == "$defs" then Defs else Other
  }

  /** Keywords whose value is a dictionary of schemas, a list of schemas, or one schema. */
  datatype Group = Dictionary | List | Single | Plain

  function GroupOf(kw: Keyword): Group {
    match kw
    case Properties | Defs | PatternProperties | DependentSchemas => Dictionary
    case AnyOf | OneOf | AllOf | PrefixItems => List
    case Items | Contains | AdditionalProperties | UnevaluatedProperties | PropertyNames | Not | If | Then | Else => Single
    case _ => Plain
  }

  // ---- validation -----------------------------------------------------------------------

  /** What the evaluator does not fix: references, plain assertions, regular expressions. */
  datatype World = World(
    ref: (string, Json) -> bool,
    assertion: (string, Json, Json) -> bool,
    matches: (string, string) -> bool)

  const TYPES: set<string> := {"null", "boolean", "number", "integer", "string", "array", "object"}

  /** Section 6.1.1 of JSON Schema Validation: every integer is a number. */
  predicate HasType(i: Json, t: string) {
    match i
    case Null => t == "null"
    case Bool(_) => t == "boolean"
    case Num(n) => t == "number" || (t == "integer" && n.Floor as real == n)
    case Str(_) => t == "string"
    case Arr(_) => t == "array"
    case Obj(_) => t == "object"
  }

  predicate TypeAllows(v: Json, i: Json, w: World) {
    match v
    case Str(t) => HasType(i, t)
    case Arr(ts) => exists j :: 0 <= j < |ts| && ts[j].Str? && HasType(i, ts[j].text)
    case _ => w.assertion("type", v, i)
  }

  /** The property is named or matched by the sibling keywords. */
  ghost predicate Named(s: Json, p: string, w: World)
    requires s.Obj?
  {
    ("properties" in s.fields && s.fields["properties"].Obj? && p in s.fields["properties"].fields)
    || ("patternProperties" in s.fields && s.fields["patternProperties"].Obj?
        && exists q :: q in s.fields["patternProperties"].fields && w.matches(q, p))
  }

  function PrefixLength(s: Json): nat
    requires s.Obj?
  {
    if "prefixItems" in s.fields && s.fields["prefixItems"].Arr? then |s.fields["prefixItems"].items| else 0
  }

  predicate CountAllowed(s: Json, n: nat)
    requires s.Obj?
  {
    (if "minContains" in s.fields && s.fields["minContains"].Num? then n as real >= s.fields["minContains"].number else n >= 1)
    && ("maxContains" in s.fields && s.fields["maxContains"].Num? ==> n as real <= s.fields["maxContains"].number)
  }

  ghost predicate Valid(s: Json, i: Json, w: World)
    decreases s, 1
  {
    match s
    case Bool(b) => b
    case Obj(m) => forall k :: k in m ==> KeywordOk(s, k, i, w)
    case _ => w.assertion("", s, i)
  }

  /** One keyword of a schema object, as it applies to an instance. */
  ghost predicate KeywordOk(s: Json, k: string, i: Json, w: World)
    requires s.Obj? && k in s.fields
    decreases s, 0
  {
    var v := s.fields[k];
    match Classify(k)
    case Title | Default | Defs | Then | Else | MinContains | MaxContains => true
    case Type => TypeAllows(v, i, w)
    case Ref => if v.Str? then w.ref(v.text, i) else w.assertion(k, v, i)
    case AdditionalProperties => i.Obj? ==> forall p :: p in i.fields && !Named(s, p, w) ==> Valid(v, i.fields[p], w)
    case PropertyNames => i.Obj? ==> forall p :: p in i.fields ==> Valid(v, Str(p), w)
    case Items => i.Arr? ==> forall j :: PrefixLength(s) <= j < |i.items| ==> Valid(v, i.items[j], w)
    case Contains => i.Arr? ==> CountAllowed(s, |Hits(v, i.items, w)|)
    case Not => !Valid(v, i, w)
    case If =>
      if Valid(v, i, w) then "then" in s.fields ==> Valid(s.fields["then"], i, w)
      else "else" in s.fields ==> Valid(s.fields["else"], i, w)
    case Properties | PatternProperties | DependentSchemas => DictionaryOk(s, k, i, w)
    case AnyOf | OneOf | AllOf | PrefixItems => ListOk(s, k, i, w)
    case UnevaluatedProperties | UnevaluatedItems | Other => w.assertion(k, v, i)
  }

  /** The positions whose items a schema accepts. */
  ghost function Hits(v: Json, items: seq<Json>, w: World): set<int>
    decreases v, 2
  {
    set j | 0 <= j < |items| && Valid(v, items[j], w)
  }

  ghost predicate DictionaryOk(s: Json, k: string, i: Json, w: World)
    requires s.Obj? && k in s.fields
    decreases s, 0, 0
  {
    var v := s.fields[k];
    if !v.Obj? then w.assertion(k, v, i)
    else
      i.Obj? ==> forall p :: p in v.fields ==>
        match Classify(k)
        case Properties => p in i.fields ==> Valid(v.fields[p], i.fields[p], w)
        case PatternProperties => forall x :: x in i.fields && w.matches(p, x) ==> Valid(v.fields[p], i.fields[x], w)
        case _ => p in i.fields ==> Valid(v.fields[p], i, w)
  }

  ghost predicate ListOk(s: Json, k: string, i: Json, w: World)
    requires s.Obj? && k in s.fields
    decreases s, 0, 0
  {
    var v := s.fields[k];
    if !v.Arr? then w.assertion(k, v, i)
    else
      match Classify(k)
      case AnyOf => exists j :: 0 <= j < |v.items| && Valid(v.items[j], i, w)
      case OneOf =>
        exists j :: 0 <= j < |v.items| && Valid(v.items[j], i, w)
                    && forall x :: 0 <= x < |v.items| && x != j ==> !Valid(v.items[x], i, w)
      case AllOf => forall j :: 0 <= j < |v.items| ==> Valid(v.items[j], i, w)
      case _ => i.Arr? ==> forall j :: 0 <= j < |v.items| && j < |i.items| ==> Valid(v.items[j], i.items[j], w)
  }

  // ---- compaction -----------------------------------------------------------------------

  /** A choice that says nothing but one type name. */
  predicate TypeOnly(c: Json) {
    c.Obj? && c.fields.Keys == {"type"} && c.fields["type"].Str?
  }

  /** The choices form a plain union of types. */
  predicate Collapses(s: Json)
    requires s.Obj?
  {
    "anyOf" in s.fields && s.fields["anyOf"].Arr? && s.fields["anyOf"].items != []
    && forall j :: 0 <= j < |s.fields["anyOf"].items| ==> TypeOnly(s.fields["anyOf"].items[j])
  }

  /** Keeps the first of equal elements, in their order. */
  function Deduped(xs: seq<Json>): (r: seq<Json>)
    ensures forall x :: x in r <==> x in xs
    ensures forall a, b :: 0 <= a < b < |r| ==> r[a] != r[b]
  {
    if xs == [] then []
    else
      var front := Deduped(xs[..|xs| - 1]);
      var last := xs[|xs| - 1];
      assert xs == xs[..|xs| - 1] + [last];
      if last in front then front else front + [last]
  }

  function TypeNameOf(c: Json): (t: Json)
    requires TypeOnly(c)
    ensures t.Str?
  {
    c.fields["type"]
  }

  function TypeNames(choices: seq<Json>): (r: seq<Json>)
    requires forall j :: 0 <= j < |choices| ==> TypeOnly(choices[j])
    ensures |r| == |choices| && forall j :: 0 <= j < |r| ==> r[j] == TypeNameOf(choices[j])
  {
    seq(|choices|, j requires 0 <= j < |choices| && TypeOnly(choices[j]) => TypeNameOf(choices[j]))
  }

  function UnionType(s: Json): Json
    requires s.Obj? && Collapses(s)
  {
    Arr(Deduped(TypeNames(s.fields["anyOf"].items)))
  }

  /** The keywords that go: noise, defaults written out, and the collapsed union. */
  function Dropped(s: Json): set<string>
    requires s.Obj?
  {
    {"title"}
    + (if "additionalProperties" in s.fields && s.fields["additionalProperties"] == Bool(true) then {"additionalProperties"} else {})
    + (if "default" in s.fields && s.fields["default"] == Null then {"default"} else {})
    + (if Collapses(s) then {"anyOf"} else {})
  }

  function Compact(s: Json): (r: Json)
    requires s.Obj?
    ensures r.Obj?
    decreases s, 1
  {
    var kept := map k | k in s.fields && k !in Dropped(s) :: Rewrite(k, s.fields[k]);
    Obj(if Collapses(s) then kept["type" := UnionType(s)] else kept)
  }

  function CompactChild(c: Json): Json
    decreases c, 2
  {
    if c.Obj? then Compact(c) else c
  }

  function Rewrite(k: string, v: Json): Json
    decreases v, 3
  {
    match GroupOf(Classify(k))
    case Dictionary => if v.Obj? then Obj(map p | p in v.fields :: CompactChild(v.fields[p])) else v
    case List => if v.Arr? then Arr(seq(|v.items|, j requires 0 <= j < |v.items| => CompactChild(v.items[j]))) else v
    case Single => CompactChild(v)
    case Plain => v
  }

  // ---- what the code demands and what meaning preservation needs ----------------------------

  /** No visited value makes the traversal itself fail: dictionaries of schemas are dictionaries,
      lists of schemas can be iterated. */
  ghost predicate Shaped(s: Json)
    requires s.Obj?
    decreases s
  {
    forall k :: k in s.fields ==>
      var v := s.fields[k];
      match GroupOf(Classify(k))
      case Dictionary => v.Obj? && forall p :: p in v.fields && v.fields[p].Obj? ==> Shaped(v.fields[p])
      case List => (v.Arr? || v.Str? || v.Obj?)
                   && (v.Arr? ==> forall j :: 0 <= j < |v.items| && v.items[j].Obj? ==> Shaped(v.items[j]))
      case Single => v.Obj? ==> Shaped(v)
      case Plain => true
  }

  /** The type names of a sibling `type`. */
  ghost function SiblingTypes(v: Json): set<string> {
    match v
    case Str(t) => {t}
    case Arr(ts) => set j | 0 <= j < |ts| && ts[j].Str? :: ts[j].text
    case _ => {}
  }

  /** Every instance of type t has one of the given types. */
  ghost predicate Covered(t: string, types: set<string>) {
    t in types || (t == "integer" && "number" in types) || t !in TYPES
  }

  /** Overwriting the sibling `type` loses nothing. */
  ghost predicate OverwriteSafe(s: Json)
    requires s.Obj?
  {
    Collapses(s) && "type" in s.fields ==>
      forall c :: c in s.fields["anyOf"].items && TypeOnly(c) ==>
        Covered(TypeNameOf(c).text, SiblingTypes(s.fields["type"]))
  }

  /** No visited schema relies on annotations of what has been evaluated, and none combines
      a union of types with a sibling type that excludes part of it. */
  ghost predicate Plainly(s: Json)
    requires s.Obj?
    decreases s, 1
  {
    OverwriteSafe(s) && PlainlyBelow(s)
  }

  /** The same of every schema below this one, and no such annotations at this one. */
  ghost predicate PlainlyBelow(s: Json)
    requires s.Obj?
    decreases s, 0
  {
    "unevaluatedProperties" !in s.fields && "unevaluatedItems" !in s.fields
    && forall k :: k in s.fields ==>
      var v := s.fields[k];
      match GroupOf(Classify(k))
      case Dictionary => v.Obj? ==> forall p :: p in v.fields && v.fields[p].Obj? ==> Plainly(v.fields[p])
      case List => v.Arr? ==> forall j :: 0 <= j < |v.items| && v.items[j].Obj? ==> Plainly(v.items[j])
      case Single => v.Obj? ==> Plainly(v)
      case Plain => true
  }

  /** Nothing the compaction is meant to remove is left at any visited schema. */
  ghost predicate Clean(s: Json)
    requires s.Obj?
    decreases s
  {
    "title" !in s.fields
    && ("additionalProperties" in s.fields ==> s.fields["additionalProperties"] != Bool(true))
    && ("default" in s.fields ==> s.fields["default"] != Null)
    && forall k :: k in s.fields ==>
      var v := s.fields[k];
      (k in {"properties", "$defs", "patternProperties", "dependentSchemas"} && v.Obj? ==>
         forall p :: p in v.fields && v.fields[p].Obj? ==> Clean(v.fields[p]))
      && (k in {"anyOf", "oneOf", "allOf", "prefixItems"} && v.Arr? ==>
            forall j :: 0 <= j < |v.items| && v.items[j].Obj? ==> Clean(v.items[j]))
      && (k in {"items", "contains", "additionalProperties", "unevaluatedProperties", "propertyNames", "not", "if", "then", "else"} ==>
            v.Obj? ==> Clean(v))
  }

  // ---- the traversal as written -----------------------------------------------------------

  const DICTIONARIES: seq<string> := ["properties", "$defs", "patternProperties", "dependentSchemas"]
  const LISTS: seq<string> := ["anyOf", "oneOf", "allOf", "prefixItems"]
  const SINGLES: seq<string> := ["items", "contains", "additionalProperties", "unevaluatedProperties", "propertyNames",
                                 "not", "if", "then", "else"]

  /** The type names of the choices, each once, in order of first appearance. */
  method UniqueNames(choices: seq<Json>) returns (names: seq<Json>)
    requires forall j :: 0 <= j < |choices| ==> TypeOnly(choices[j])
    ensures names == Deduped(TypeNames(choices))
  {
    names := [];
    var i := 0;
    while i < |choices|
      invariant 0 <= i <= |choices| && names == Deduped(TypeNames(choices[..i]))
    {
      var name := TypeNameOf(choices[i]);
      assert TypeNames(choices[..i + 1])[..i] == TypeNames(choices[..i]);
      if name !in names { names := names + [name]; }
      i := i + 1;
    }
    assert choices[..|choices|] == choices;
  }

  method CompactDictionary(k: string, v: Json) returns (r: Json)
    requires GroupOf(Classify(k)).Dictionary?
    requires v.Obj? && forall p :: p in v.fields && v.fields[p].Obj? ==> Shaped(v.fields[p])
    ensures r == Rewrite(k, v)
    decreases v, 3
  {
    var fields := v.fields;
    var todo := fields.Keys;
    while todo != {}
      invariant todo <= fields.Keys == v.fields.Keys
      invariant forall p :: p in fields ==> fields[p] == if p in todo then v.fields[p] else CompactChild(v.fields[p])
      decreases todo
    {
      var p :| p in todo;
      if fields[p].Obj? {
        var child := CompactSchema(fields[p]);
        fields := fields[p := child];
      }
      todo := todo - {p};
    }
    r := Obj(fields);
    assert fields == map p | p in v.fields :: CompactChild(v.fields[p]);
  }

  method CompactList(k: string, v: Json) returns (r: Json)
    requires GroupOf(Classify(k)).List?
    requires v.Arr? ==> forall j :: 0 <= j < |v.items| && v.items[j].Obj? ==> Shaped(v.items[j])
    ensures r == Rewrite(k, v)
    decreases v, 3
  {
    if !v.Arr? { return v; }
    var items := v.items;
    var i := 0;
    while i < |items|
      invariant 0 <= i <= |items| == |v.items|
      invariant forall j :: 0 <= j < |items| ==> items[j] == if j < i then CompactChild(v.items[j]) else v.items[j]
    {
      if items[i].Obj? {
        var child := CompactSchema(items[i]);
        items := items[i := child];
      }
      i := i + 1;
    }
    r := Arr(items);
    assert items == seq(|v.items|, j requires 0 <= j < |v.items| => CompactChild(v.items[j]));
  }

  /** The dictionary after the noise is removed and a union of types is merged. */
  function Stripped(s: Json): (m: map<string, Json>)
    requires s.Obj?
    ensures forall k :: k in m && k != "type" ==> k in s.fields && m[k] == s.fields[k]
    ensures forall k :: k in m && Classify(k) != Type ==> k in s.fields && m[k] == s.fields[k]
  {
    var kept := map k | k in s.fields && k !in Dropped(s) :: s.fields[k];
    if Collapses(s) then kept["type" := UnionType(s)] else kept
  }

  method Strip(s: Json) returns (schema: map<string, Json>)
    requires s.Obj?
    ensures schema == Stripped(s)
  {
    schema := s.fields - {"title"};
    if "additionalProperties" in schema && schema["additionalProperties"] == Bool(true) {
      schema := schema - {"additionalProperties"};
    }
    if "default" in schema && schema["default"] == Null {
      schema := schema - {"default"};
    }
    if Collapses(s) {
      var names := UniqueNames(s.fields["anyOf"].items);
      schema := schema["type" := Arr(names)];
      schema := schema - {"anyOf"};
    }
  }

  /** The keywords are different and of one group. */
  ghost predicate AreAll(keywords: seq<string>, g: Group) {
    (forall a, b :: 0 <= a < b < |keywords| ==> keywords[a] != keywords[b])
    && (forall k :: k in keywords ==> GroupOf(Classify(k)) == g)
  }

  function DictionaryAt(i: nat): Keyword {
    match i
    case 0 => Properties case 1 => Defs case 2 => PatternProperties case _ => DependentSchemas
  }

  lemma DictionaryClass(i: nat)
    requires i < |DICTIONARIES|
    ensures Classify(DICTIONARIES[i]) == DictionaryAt(i)
  {
  }

  lemma DictionaryNames()
    ensures AreAll(DICTIONARIES, Dictionary)
  {
    hide Classify;
    forall i: nat | i < |DICTIONARIES| ensures Classify(DICTIONARIES[i]) == DictionaryAt(i) { DictionaryClass(i); }
  }

  lemma IsDictionary(k: string)
    requires GroupOf(Classify(k)).Dictionary?
    ensures k in DICTIONARIES
  {
    assert k == DICTIONARIES[0] || k == DICTIONARIES[1] || k == DICTIONARIES[2] || k == DICTIONARIES[3];
  }

  function ListAt(i: nat): Keyword {
    match i
    case 0 => AnyOf case 1 => OneOf case 2 => AllOf case _ => PrefixItems
  }

  lemma ListClass(i: nat)
    requires i < |LISTS|
    ensures Classify(LISTS[i]) == ListAt(i)
  {
  }

  lemma ListNames()
    ensures AreAll(LISTS, List)
  {
    hide Classify;
    forall i: nat | i < |LISTS| ensures Classify(LISTS[i]) == ListAt(i) { ListClass(i); }
  }

  lemma IsList(k: string)
    requires GroupOf(Classify(k)).List?
    ensures k in LISTS
  {
    assert k == LISTS[0] || k == LISTS[1] || k == LISTS[2] || k == LISTS[3];
  }

  function SingleAt(i: nat): Keyword {
    match i
    case 0 => Items case 1 => Contains case 2 => AdditionalProperties case 3 => UnevaluatedProperties
    case 4 => PropertyNames case 5 => Not case 6 => If case 7 => Then case _ => Else
  }

  lemma SingleClass(i: nat)
    requires i < |SINGLES|
    ensures Classify(SINGLES[i]) == SingleAt(i)
  {
    if i < 5 { SingleClassLow(i); }
  }

  lemma SingleClassLow(i: nat)
    requires i < 5
    ensures Classify(SINGLES[i]) == SingleAt(i)
  {
  }

  lemma SingleNames()
    ensures AreAll(SINGLES, Single)
  {
    hide Classify;
    forall i: nat | i < |SINGLES| ensures Classify(SINGLES[i]) == SingleAt(i) { SingleClass(i); }
  }

  lemma IsSingle(k: string)
    requires GroupOf(Classify(k)).Single?
    ensures k in SINGLES
  {
    assert k == SINGLES[0] || k == SINGLES[1] || k == SINGLES[2] || k == SINGLES[3] || k == SINGLES[4]
        || k == SINGLES[5] || k == SINGLES[6] || k == SINGLES[7] || k == SINGLES[8];
  }

  /** The subschemas of s still to be visited are as they were in s. */
  ghost predicate Untouched(keywords: seq<string>, schema: map<string, Json>, s: Json)
    requires s.Obj?
  {
    forall k :: k in keywords && k in schema ==> k in s.fields && schema[k] == s.fields[k]
  }

  ghost predicate Visited(keywords: seq<string>, before: map<string, Json>, after: map<string, Json>) {
    after.Keys == before.Keys
    && forall k :: k in before ==> after[k] == if k in keywords then Rewrite(k, before[k]) else before[k]
  }

  lemma VisitedMore(keywords: seq<string>, i: nat, before: map<string, Json>, after: map<string, Json>, v: Json)
    requires i < |keywords| && Visited(keywords[..i], before, after)
    requires keywords[i] in before ==> v == Rewrite(keywords[i], before[keywords[i]])
    ensures Visited(keywords[..i + 1], before, if keywords[i] in before then after[keywords[i] := v] else after)
  {
    hide Rewrite;
    assert keywords[..i + 1] == keywords[..i] + [keywords[i]];
  }

  lemma NotYet(keywords: seq<string>, g: Group, i: nat, before: map<string, Json>, after: map<string, Json>)
    requires AreAll(keywords, g) && i < |keywords| && Visited(keywords[..i], before, after)
    ensures keywords[i] in before ==> after[keywords[i]] == before[keywords[i]]
    ensures GroupOf(Classify(keywords[i])) == g
  {
    hide Rewrite, Classify, GroupOf;
  }

  method VisitDictionaries(keywords: seq<string>, schema0: map<string, Json>, s: Json) returns (schema: map<string, Json>)
    requires s.Obj? && Shaped(s) && AreAll(keywords, Dictionary) && Untouched(keywords, schema0, s)
    ensures Visited(keywords, schema0, schema)
    decreases s, 0
  {
    hide Rewrite, Classify, Visited;
    schema := schema0;
    var i := 0;
    assert Visited(keywords[..i], schema0, schema) by { VisitedNone(keywords, schema0); }
    while i < |keywords|
      invariant 0 <= i <= |keywords| && Visited(keywords[..i], schema0, schema) && schema.Keys == schema0.Keys
    {
      var k := keywords[i];
      NotYet(keywords, Dictionary, i, schema0, schema);
      var v := Null;
      ghost var was := schema;
      if k in schema {
        v := CompactDictionary(k, schema[k]);
        schema := schema[k := v];
      }
      VisitedMore(keywords, i, schema0, was, v);
      i := i + 1;
    }
    assert keywords[..|keywords|] == keywords;
  }

  lemma VisitedNone(keywords: seq<string>, schema: map<string, Json>)
    ensures Visited(keywords[..0], schema, schema)
  {
  }

  method VisitLists(keywords: seq<string>, schema0: map<string, Json>, s: Json) returns (schema: map<string, Json>)
    requires s.Obj? && Shaped(s) && AreAll(keywords, List) && Untouched(keywords, schema0, s)
    ensures Visited(keywords, schema0, schema)
    decreases s, 0
  {
    hide Rewrite, Classify, Visited;
    schema := schema0;
    var i := 0;
    assert Visited(keywords[..i], schema0, schema) by { VisitedNone(keywords, schema0); }
    while i < |keywords|
      invariant 0 <= i <= |keywords| && Visited(keywords[..i], schema0, schema) && schema.Keys == schema0.Keys
    {
      var k := keywords[i];
      NotYet(keywords, List, i, schema0, schema);
      var v := Null;
      ghost var was := schema;
      if k in schema {
        v := CompactList(k, schema[k]);
        schema := schema[k := v];
      }
      VisitedMore(keywords, i, schema0, was, v);
      i := i + 1;
    }
    assert keywords[..|keywords|] == keywords;
  }

  lemma RewriteSingle(k: string, v: Json)
    requires GroupOf(Classify(k)).Single?
    ensures Rewrite(k, v) == if v.Obj? then Compact(v) else v
  {
  }

  method VisitSingles(keywords: seq<string>, schema0: map<string, Json>, s: Json) returns (schema: map<string, Json>)
    requires s.Obj? && Shaped(s) && AreAll(keywords, Single) && Untouched(keywords, schema0, s)
    ensures Visited(keywords, schema0, schema)
    decreases s, 0
  {
    hide Rewrite, Classify, Visited, Compact;
    schema := schema0;
    var i := 0;
    assert Visited(keywords[..i], schema0, schema) by { VisitedNone(keywords, schema0); }
    while i < |keywords|
      invariant 0 <= i <= |keywords| && Visited(keywords[..i], schema0, schema) && schema.Keys == schema0.Keys
    {
      var k := keywords[i];
      NotYet(keywords, Single, i, schema0, schema);
      var v := Null;
      ghost var was := schema;
      if k in schema {
        v := schema[k];
        RewriteSingle(k, v);
        if v.Obj? {
          v := CompactSchema(v);
          schema := schema[k := v];
        }
      }
      assert k in was ==> was[k := v] == schema;
      VisitedMore(keywords, i, schema0, was, v);
      i := i + 1;
    }
    assert keywords[..|keywords|] == keywords;
  }

  /** The whole traversal: strip, then dictionaries, lists and single subschemas in turn. */
  method CompactSchema(s: Json) returns (r: Json)
    requires s.Obj? && Shaped(s)
    ensures r == Compact(s)
    decreases s, 1
  {
    DictionaryNames();
    ListNames();
    SingleNames();
    hide Classify, Rewrite;
    var stripped := Strip(s);
    var schema := VisitDictionaries(DICTIONARIES, stripped, s);
    schema := VisitLists(LISTS, schema, s);
    schema := VisitSingles(SINGLES, schema, s);
    r := Obj(schema);
    forall k | k in schema ensures schema[k] == Rewrite(k, stripped[k]) {
      VisitedAll(k, stripped[k]);
    }
    CompactIs(s, schema);
  }

  /** A keyword on none of the three lists is not rewritten. */
  lemma VisitedAll(k: string, v: Json)
    ensures k !in DICTIONARIES && k !in LISTS && k !in SINGLES ==> Rewrite(k, v) == v
  {
    if GroupOf(Classify(k)).Dictionary? {
      IsDictionary(k);
    } else if GroupOf(Classify(k)).List? {
      IsList(k);
    } else if GroupOf(Classify(k)).Single? {
      IsSingle(k);
    }
  }

  lemma RewritePlain()
    ensures forall k: string, v: Json :: GroupOf(Classify(k)).Plain? ==> Rewrite(k, v) == v
    ensures GroupOf(Classify("type")).Plain?
  {
  }

  /** One keyword of the compacted schema. */
  lemma CompactAt(s: Json, k: string)
    requires s.Obj?
    ensures k in Compact(s).fields <==> (k in s.fields && k !in Dropped(s)) || (Collapses(s) && k == "type")
    ensures k in s.fields && k !in Dropped(s) && !(Collapses(s) && k == "type") ==>
      Compact(s).fields[k] == Rewrite(k, s.fields[k])
    ensures Collapses(s) ==> Compact(s).fields["type"] == UnionType(s)
  {
    hide Rewrite, Dropped, Collapses, UnionType;
  }

  lemma StrippedAt(s: Json, k: string)
    requires s.Obj?
    ensures k in Stripped(s) <==> (k in s.fields && k !in Dropped(s)) || (Collapses(s) && k == "type")
    ensures k in s.fields && k !in Dropped(s) && !(Collapses(s) && k == "type") ==> Stripped(s)[k] == s.fields[k]
    ensures Collapses(s) ==> Stripped(s)["type"] == UnionType(s)
  {
    hide Dropped, Collapses, UnionType;
  }

  /** Visiting the three groups one after the other rewrites every keyword. */
  lemma CompactIs(s: Json, schema: map<string, Json>)
    requires s.Obj? && schema.Keys == Stripped(s).Keys
    requires forall k :: k in schema ==> schema[k] == Rewrite(k, Stripped(s)[k])
    ensures Obj(schema) == Compact(s)
  {
    RewritePlain();
    hide *;
    forall k
      ensures k in schema <==> k in Compact(s).fields
      ensures k in schema ==> Compact(s).fields[k] == schema[k]
    {
      CompactAt(s, k);
      StrippedAt(s, k);
    }
    assert schema == Compact(s).fields;
  }
}
