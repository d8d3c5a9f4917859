/**
 The node registry: records in recency order under a byte and an entry budget, a reverse index
 from an element's identity to its handle, pinned handles, and the last 256 evicted handles.
 */
module Registry {
  import opened Wrappers

  type NodeId = nat

  const OVERHEAD: nat := 384
  const REMEMBERED: nat := 256

  datatype Identity = Identity(root: string, owner: string, document: string, backend: nat, signature: string)
  datatype Record = Record(identity: Identity, metadata: string, size: nat)
  datatype Item = Item(id: NodeId, record: Record)

  /** `bytesOf` is the length of a string's encoding. */
  datatype Limits = Limits(maxBytes: nat, maxEntries: nat, bytesOf: string -> nat)

  datatype State = State(records: seq<Item>, index: map<Identity, NodeId>, bytes: int, evicted: seq<NodeId>, pinned: set<NodeId>)

  function SizeOf(l: Limits, metadata: string, signature: string): nat {
    l.bytesOf(metadata) + l.bytesOf(signature) + OVERHEAD
  }

  function Total(rs: seq<Item>): nat { if rs == [] then 0 else Total(rs[..|rs| - 1]) + rs[|rs| - 1].record.size }

  function Find(rs: seq<Item>, id: NodeId): (i: nat)
    ensures i <= |rs| && (i < |rs| ==> rs[i].id == id)
    ensures forall x :: 0 <= x < i ==> rs[x].id != id
  {
    if rs == [] || rs[0].id == id then 0 else 1 + Find(rs[1..], id)
  }

  predicate Has(rs: seq<Item>, id: NodeId) { Find(rs, id) < |rs| }

  function Cut(rs: seq<Item>, i: nat): (r: seq<Item>)
    requires i < |rs|
    ensures |r| == |rs| - 1
  {
    rs[..i] + rs[i + 1..]
  }

  /** A deque of bounded length. */
  function Push(e: seq<NodeId>, id: NodeId): (r: seq<NodeId>)
    ensures |r| <= REMEMBERED || |r| <= |e|
  {
    var r := e + [id];
    if |r| > REMEMBERED then r[|r| - REMEMBERED..] else r
  }

  function RemoveAt(s: State, i: nat, evicted: bool): State
    requires i < |s.records|
  {
    var item := s.records[i];
    var identity := item.record.identity;
    State(Cut(s.records, i),
          if identity in s.index && s.index[identity] == item.id then s.index - {identity} else s.index,
          s.bytes - item.record.size,
          if evicted then Push(s.evicted, item.id) else s.evicted,
          s.pinned)
  }

  /** The oldest record that is not pinned, else the oldest. */
  function Victim(rs: seq<Item>, pinned: set<NodeId>): (i: nat)
    requires rs != []
    ensures i < |rs|
  {
    var i := FirstUnpinned(rs, pinned);
    if i < |rs| then i else 0
  }

  function FirstUnpinned(rs: seq<Item>, pinned: set<NodeId>): (i: nat)
    ensures i <= |rs| && (i < |rs| ==> rs[i].id !in pinned)
    ensures forall x :: 0 <= x < i ==> rs[x].id in pinned
  {
    if rs == [] || rs[0].id !in pinned then 0 else 1 + FirstUnpinned(rs[1..], pinned)
  }

  predicate Over(l: Limits, rs: seq<Item>, bytes: int) { bytes > l.maxBytes || |rs| > l.maxEntries }

  function Shrink(l: Limits, s: State): State
    decreases |s.records|
  {
    if s.records != [] && Over(l, s.records, s.bytes) then Shrink(l, RemoveAt(s, Victim(s.records, s.pinned), true)) else s
  }

  /** The handle a record gets: the one asked for, the identity's own, or a fresh one. */
  function HandleFor(s: State, identity: Identity, wanted: Option<NodeId>, unused: NodeId): NodeId {
    if wanted.Some? then wanted.value else if identity in s.index then s.index[identity] else unused
  }

  function Appended(l: Limits, s: State, identity: Identity, metadata: string, id: NodeId): State {
    var s1 := if Has(s.records, id) then RemoveAt(s, Find(s.records, id), false) else s;
    var size := SizeOf(l, metadata, identity.signature);
    s1.(records := s1.records + [Item(id, Record(identity, metadata, size))],
        index := s1.index[identity := id],
        bytes := s1.bytes + size)
  }

  function Remember(l: Limits, s: State, identity: Identity, metadata: string, wanted: Option<NodeId>, unused: NodeId): State {
    Shrink(l, Appended(l, s, identity, metadata, HandleFor(s, identity, wanted, unused)))
  }

  function Touched(s: State, i: nat): State
    requires i < |s.records|
  {
    s.(records := Cut(s.records, i) + [s.records[i]])
  }

  function Get(s: State, id: NodeId, root: string): State {
    var i := Find(s.records, id);
    if i < |s.records| && s.records[i].record.identity.root == root then Touched(s, i) else s
  }

  /** The documents alive, by root and owner. */
  type Owners = map<(string, string), string>

  predicate Alive(owners: Owners, r: Record) {
    (r.identity.root, r.identity.owner) in owners && owners[(r.identity.root, r.identity.owner)] == r.identity.document
  }

  /** Removes the dead among the records from the i-th on. */
  function Synchronize(s: State, owners: Owners, i: nat): State
    requires i <= |s.records|
    decreases |s.records| - i
  {
    if i == |s.records| then s
    else if Alive(owners, s.records[i].record) then Synchronize(s, owners, i + 1)
    else Synchronize(RemoveAt(s, i, false), owners, i)
  }

  // ---- the invariant ------------------------------------------------------------------------

  ghost predicate Distinct(rs: seq<Item>) { forall a, b :: 0 <= a < b < |rs| ==> rs[a].id != rs[b].id }

  /** Every index entry names a live record with exactly that identity. */
  ghost predicate IndexSound(s: State) {
    forall k :: k in s.index ==> exists i :: 0 <= i < |s.records| && s.records[i].id == s.index[k] && s.records[i].record.identity == k
  }

  ghost predicate Inv(s: State) {
    Distinct(s.records) && s.bytes == Total(s.records) && IndexSound(s) && |s.evicted| <= REMEMBERED
  }

  /** Both budgets are kept. */
  ghost predicate Within(l: Limits, s: State) { !Over(l, s.records, s.bytes) }

  lemma {:induction false} TotalConcat(a: seq<Item>, b: seq<Item>)
    ensures Total(a + b) == Total(a) + Total(b)
  {
    if b == [] {
      assert a + b == a;
    } else {
      assert (a + b)[..|a + b| - 1] == a + b[..|b| - 1];
      TotalConcat(a, b[..|b| - 1]);
    }
  }

  lemma SplitAt(rs: seq<Item>, i: nat)
    requires i < |rs|
    ensures (rs[..i] + [rs[i]]) + rs[i + 1..] == rs
  {
  }

  lemma TotalCut(rs: seq<Item>, i: nat)
    requires i < |rs|
    ensures Total(Cut(rs, i)) == Total(rs) - rs[i].record.size
  {
    SplitAt(rs, i);
    TotalConcat(rs[..i] + [rs[i]], rs[i + 1..]);
    TotalConcat(rs[..i], rs[i + 1..]);
    TotalSnoc(rs[..i], rs[i]);
    hide Total;
  }

  lemma TotalSnoc(rs: seq<Item>, item: Item)
    ensures Total(rs + [item]) == Total(rs) + item.record.size
  {
    assert (rs + [item])[..|rs|] == rs;
  }

  /** The index is sound for other records if every record it names is still there. */
  lemma IndexFrame(s: State, rs: seq<Item>, index: map<Identity, NodeId>)
    requires IndexSound(s) && (forall k :: k in index ==> k in s.index && index[k] == s.index[k])
    requires forall x ::
      (0 <= x < |s.records| && s.records[x].record.identity in index
       && index[s.records[x].record.identity] == s.records[x].id) ==> s.records[x] in rs
    ensures IndexSound(s.(records := rs, index := index))
  {
    forall k | k in index
      ensures exists x :: 0 <= x < |rs| && rs[x].id == index[k] && rs[x].record.identity == k
    {
      var x :| 0 <= x < |s.records| && s.records[x].id == s.index[k] && s.records[x].record.identity == k;
      assert s.records[x] in rs;
      var y :| 0 <= y < |rs| && rs[y] == s.records[x];
    }
  }

  lemma CutKeeps(rs: seq<Item>, i: nat)
    requires i < |rs| && Distinct(rs)
    ensures Distinct(Cut(rs, i)) && !Has(Cut(rs, i), rs[i].id)
    ensures forall x :: 0 <= x < |rs| && x != i ==> rs[x] in Cut(rs, i)
  {
    var r := Cut(rs, i);
    forall x | 0 <= x < |r| ensures r[x] == rs[if x < i then x else x + 1] { }
    forall x | 0 <= x < |rs| && x != i ensures rs[x] in r {
      assert r[if x < i then x else x - 1] == rs[x];
    }
  }

  lemma RemoveInv(s: State, i: nat, evicted: bool)
    requires Inv(s) && i < |s.records|
    ensures Inv(RemoveAt(s, i, evicted))
    ensures !Has(RemoveAt(s, i, evicted).records, s.records[i].id)
  {
    var s' := RemoveAt(s, i, evicted);
    TotalCut(s.records, i);
    CutKeeps(s.records, i);
    hide Cut, Total, Has, Distinct;
    IndexFrame(s, s'.records, s'.index);
    hide IndexSound;
    assert IndexSound(s') by { SameIndex(s.(records := s'.records, index := s'.index), s'); }
  }

  lemma SameIndex(s: State, s': State)
    requires IndexSound(s) && s'.records == s.records && s'.index == s.index
    ensures IndexSound(s')
  {
  }

  lemma AppendInv(l: Limits, s: State, identity: Identity, metadata: string, id: NodeId)
    requires Inv(s)
    ensures Inv(Appended(l, s, identity, metadata, id))
  {
    var s1 := if Has(s.records, id) then RemoveAt(s, Find(s.records, id), false) else s;
    if Has(s.records, id) { RemoveInv(s, Find(s.records, id), false); }
    var item := Item(id, Record(identity, metadata, SizeOf(l, metadata, identity.signature)));
    TotalSnoc(s1.records, item);
    DistinctAppend(s1.records, item);
    IndexAppend(s1, item, s1.bytes + item.record.size);
    hide Total, Distinct, IndexSound, Has, RemoveAt;
  }

  lemma IndexAppend(s: State, item: Item, bytes: int)
    requires IndexSound(s)
    ensures IndexSound(State(s.records + [item], s.index[item.record.identity := item.id], bytes, s.evicted, s.pinned))
  {
    var rs := s.records + [item];
    var index := s.index[item.record.identity := item.id];
    forall k | k in index
      ensures exists x :: 0 <= x < |rs| && rs[x].id == index[k] && rs[x].record.identity == k
    {
      if k == item.record.identity {
        assert rs[|s.records|] == item;
      } else {
        var x :| 0 <= x < |s.records| && s.records[x].id == s.index[k] && s.records[x].record.identity == k;
        assert rs[x] == s.records[x];
      }
    }
  }

  lemma {:induction false} ShrinkInv(l: Limits, s: State)
    requires Inv(s)
    ensures Inv(Shrink(l, s)) && Within(l, Shrink(l, s))
    decreases |s.records|
  {
    EmptyFits(l, s);
    if s.records != [] && Over(l, s.records, s.bytes) {
      var i := Victim(s.records, s.pinned);
      RemoveInv(s, i, true);
      ShrinkInv(l, RemoveAt(s, i, true));
    }
  }

  lemma RememberInv(l: Limits, s: State, identity: Identity, metadata: string, wanted: Option<NodeId>, unused: NodeId)
    requires Inv(s)
    ensures Inv(Remember(l, s, identity, metadata, wanted, unused)) && Within(l, Remember(l, s, identity, metadata, wanted, unused))
  {
    var id := HandleFor(s, identity, wanted, unused);
    AppendInv(l, s, identity, metadata, id);
    ShrinkInv(l, Appended(l, s, identity, metadata, id));
  }

  lemma TouchInv(s: State, i: nat)
    requires Inv(s) && i < |s.records|
    ensures Inv(Touched(s, i)) && Touched(s, i).bytes == s.bytes && |Touched(s, i).records| == |s.records|
  {
    var s' := Touched(s, i);
    TotalCut(s.records, i);
    CutKeeps(s.records, i);
    assert s'.records[..|s'.records| - 1] == Cut(s.records, i);
    forall x | 0 <= x < |s.records| ensures s.records[x] in s'.records {
      if x == i { assert s'.records[|s'.records| - 1] == s.records[i]; }
    }
    hide Cut;
    IndexFrame(s, s'.records, s'.index);
    DistinctAppend(Cut(s.records, i), s.records[i]);
  }

  lemma DistinctAppend(rs: seq<Item>, item: Item)
    requires Distinct(rs) && !Has(rs, item.id)
    ensures Distinct(rs + [item])
  {
  }

  lemma {:induction false} SynchronizeInv(s: State, owners: Owners, i: nat)
    requires Inv(s) && i <= |s.records|
    ensures Inv(Synchronize(s, owners, i))
    ensures Synchronize(s, owners, i).bytes <= s.bytes && |Synchronize(s, owners, i).records| <= |s.records|
    decreases |s.records| - i
  {
    if i < |s.records| {
      if Alive(owners, s.records[i].record) {
        SynchronizeInv(s, owners, i + 1);
      } else {
        RemoveInv(s, i, false);
        SynchronizeInv(RemoveAt(s, i, false), owners, i);
      }
    }
  }

  // ---- runs -----------------------------------------------------------------------------------

  datatype Op =
    | RememberOp(identity: Identity, metadata: string, wanted: Option<NodeId>, unused: NodeId)
    | GetOp(id: NodeId, root: string)
    | SynchronizeOp(owners: Owners)
    | PinOp(pinned: set<NodeId>)

  function Apply(l: Limits, s: State, op: Op): State {
    match op
    case RememberOp(identity, metadata, wanted, unused) => Remember(l, s, identity, metadata, wanted, unused)
    case GetOp(id, root) => Get(s, id, root)
    case SynchronizeOp(owners) => Synchronize(s, owners, 0)
    case PinOp(pinned) => s.(pinned := pinned)
  }

  function Run(l: Limits, ops: seq<Op>): State
    decreases |ops|
  {
    if ops == [] then State([], map[], 0, [], {}) else Apply(l, Run(l, ops[..|ops| - 1]), ops[|ops| - 1])
  }

  /** After any sequence of operations both budgets are kept, the byte counter is the sum of the live sizes, handles
      are distinct, and every index entry names a live record with that identity. */
  lemma {:induction false} RunInv(l: Limits, ops: seq<Op>)
    ensures Inv(Run(l, ops)) && Within(l, Run(l, ops))
    decreases |ops|
  {
    if ops != [] {
      RunInv(l, ops[..|ops| - 1]);
      var s := Run(l, ops[..|ops| - 1]);
      match ops[|ops| - 1]
      case RememberOp(identity, metadata, wanted, unused) => RememberInv(l, s, identity, metadata, wanted, unused);
      case GetOp(id, root) => if Has(s.records, id) { TouchInv(s, Find(s.records, id)); }
      case SynchronizeOp(owners) => SynchronizeInv(s, owners, 0);
      case PinOp(_) =>
    }
  }

  // ---- what eviction keeps ---------------------------------------------------------------------

  /** Without its first k unpinned records. */
  ghost function DropUnpinned(rs: seq<Item>, pinned: set<NodeId>, k: nat): seq<Item> {
    if rs == [] || k == 0 then rs
    else if rs[0].id !in pinned then DropUnpinned(rs[1..], pinned, k - 1)
    else [rs[0]] + DropUnpinned(rs[1..], pinned, k)
  }

  ghost function UnpinnedCount(rs: seq<Item>, pinned: set<NodeId>): nat {
    if rs == [] then 0 else (if rs[0].id !in pinned then 1 else 0) + UnpinnedCount(rs[1..], pinned)
  }

  /** Without k records: the oldest unpinned ones, and pinned ones, oldest first, only when
      nothing else remains. The survivors keep their order. */
  ghost function Kept(rs: seq<Item>, pinned: set<NodeId>, k: nat): seq<Item>
    requires k <= |rs|
  {
    var u := UnpinnedCount(rs, pinned);
    if k <= u then DropUnpinned(rs, pinned, k)
    else
      DropSize(rs, pinned, u);
      DropUnpinned(rs, pinned, u)[k - u..]
  }

  lemma {:induction false} DropSize(rs: seq<Item>, pinned: set<NodeId>, k: nat)
    requires k <= UnpinnedCount(rs, pinned)
    ensures |DropUnpinned(rs, pinned, k)| + k == |rs|
    ensures UnpinnedCount(DropUnpinned(rs, pinned, k), pinned) + k == UnpinnedCount(rs, pinned)
    decreases |rs|
  {
    if rs != [] && k > 0 {
      if rs[0].id !in pinned {
        DropSize(rs[1..], pinned, k - 1);
      } else {
        DropSize(rs[1..], pinned, k);
        var rest := DropUnpinned(rs[1..], pinned, k);
        assert ([rs[0]] + rest)[1..] == rest;
      }
    }
  }

  /** Removing the next victim is removing one more. */
  lemma {:induction false} CutUnpinned(rs: seq<Item>, pinned: set<NodeId>)
    requires UnpinnedCount(rs, pinned) > 0
    ensures FirstUnpinned(rs, pinned) < |rs|
    ensures Cut(rs, FirstUnpinned(rs, pinned)) == DropUnpinned(rs, pinned, 1)
    decreases |rs|
  {
    DropNone(rs[1..], pinned);
    if rs[0].id in pinned {
      CutUnpinned(rs[1..], pinned);
      CutCons(rs, FirstUnpinned(rs[1..], pinned));
      hide Cut;
    } else {
      CutFirst(rs);
      hide Cut;
    }
  }

  lemma CutCons(rs: seq<Item>, i: nat)
    requires i + 1 < |rs|
    ensures Cut(rs, i + 1) == [rs[0]] + Cut(rs[1..], i)
  {
  }

  lemma CutFirst(rs: seq<Item>)
    requires rs != []
    ensures Cut(rs, 0) == rs[1..]
  {
  }

  lemma DropNone(rs: seq<Item>, pinned: set<NodeId>)
    ensures DropUnpinned(rs, pinned, 0) == rs
  {
  }

  lemma {:induction false} NoUnpinned(rs: seq<Item>, pinned: set<NodeId>)
    ensures UnpinnedCount(rs, pinned) == 0 <==> FirstUnpinned(rs, pinned) == |rs|
    decreases |rs|
  {
    if rs != [] { NoUnpinned(rs[1..], pinned); }
  }

  lemma {:induction false} DropMore(rs: seq<Item>, pinned: set<NodeId>, j: nat, k: nat)
    ensures DropUnpinned(DropUnpinned(rs, pinned, j), pinned, k) == DropUnpinned(rs, pinned, j + k)
    decreases |rs|
  {
    if rs != [] && j > 0 {
      if rs[0].id !in pinned {
        DropMore(rs[1..], pinned, j - 1, k);
      } else {
        DropMore(rs[1..], pinned, j, k);
        var rest := DropUnpinned(rs[1..], pinned, j);
        assert ([rs[0]] + rest)[1..] == rest;
        if k == 0 { assert DropUnpinned(rest, pinned, 0) == rest; }
      }
    }
  }

  lemma KeptSize(rs: seq<Item>, pinned: set<NodeId>, k: nat)
    requires k <= |rs|
    ensures |Kept(rs, pinned, k)| == |rs| - k
  {
    var u := UnpinnedCount(rs, pinned);
    DropSize(rs, pinned, if k <= u then k else u);
  }

  lemma KeptNext(rs: seq<Item>, pinned: set<NodeId>, k: nat)
    requires k < |rs|
    ensures Kept(rs, pinned, k) != []
    ensures Cut(Kept(rs, pinned, k), Victim(Kept(rs, pinned, k), pinned)) == Kept(rs, pinned, k + 1)
  {
    var u := UnpinnedCount(rs, pinned);
    var now := Kept(rs, pinned, k);
    KeptSize(rs, pinned, k);
    if k < u {
      DropSize(rs, pinned, k);
      CutUnpinned(now, pinned);
      DropMore(rs, pinned, k, 1);
    } else {
      DropSize(rs, pinned, u);
      var base := DropUnpinned(rs, pinned, u);
      NoUnpinned(base, pinned);
      assert now == base[k - u..];
      assert FirstUnpinned(now, pinned) == |now| by {
        if FirstUnpinned(now, pinned) < |now| { OutOfBase(base, pinned, k - u); }
      }
      assert Cut(now, 0) == base[k + 1 - u..];
    }
  }

  lemma OutOfBase(base: seq<Item>, pinned: set<NodeId>, k: nat)
    requires k <= |base| && FirstUnpinned(base, pinned) == |base|
    ensures FirstUnpinned(base[k..], pinned) == |base[k..]|
  {
    var now := base[k..];
    assert forall x :: 0 <= x < |now| ==> now[x] == base[k + x];
  }

  /** How many records the loop evicts. */
  ghost function EvictedCount(l: Limits, s: State): nat
    decreases |s.records|
  {
    if s.records != [] && Over(l, s.records, s.bytes) then 1 + EvictedCount(l, RemoveAt(s, Victim(s.records, s.pinned), true)) else 0
  }

  /** Keeping anything from k up to but not n evictions would be too much. */
  ghost predicate AllNeeded(l: Limits, rs: seq<Item>, pinned: set<NodeId>, k: nat, n: nat)
    requires n <= |rs|
  {
    forall j :: k <= j < n ==> Over(l, Kept(rs, pinned, j), Total(Kept(rs, pinned, j)))
  }

  lemma OneMoreNeeded(l: Limits, rs: seq<Item>, pinned: set<NodeId>, k: nat, n: nat)
    requires k < n <= |rs| && AllNeeded(l, rs, pinned, k + 1, n) && Over(l, Kept(rs, pinned, k), Total(Kept(rs, pinned, k)))
    ensures AllNeeded(l, rs, pinned, k, n)
  {
    hide Kept, Total, Over;
  }

  /** s is what k evictions have left of rs. */
  ghost predicate After(rs: seq<Item>, s: State, k: nat) {
    k <= |rs| && s.records == Kept(rs, s.pinned, k) && s.bytes == Total(s.records)
  }

  lemma AfterOneMore(l: Limits, rs: seq<Item>, s: State, k: nat)
    requires After(rs, s, k) && Over(l, s.records, s.bytes)
    ensures k < |rs| && s.records != [] && After(rs, RemoveAt(s, Victim(s.records, s.pinned), true), k + 1)
    ensures Over(l, Kept(rs, s.pinned, k), Total(Kept(rs, s.pinned, k)))
  {
    KeptSize(rs, s.pinned, k);
    EmptyFits(l, s);
    KeptNext(rs, s.pinned, k);
    TotalCut(s.records, Victim(s.records, s.pinned));
    hide Kept, Total, Cut, Over, Victim, Push;
  }

  lemma {:induction false} ShrinkFrom(l: Limits, rs: seq<Item>, s: State, k: nat)
    requires After(rs, s, k)
    ensures k + EvictedCount(l, s) <= |rs| && Shrink(l, s).records == Kept(rs, s.pinned, k + EvictedCount(l, s))
    ensures AllNeeded(l, rs, s.pinned, k, k + EvictedCount(l, s))
    decreases |s.records|
  {
    ShrinkStep(l, s);
    hide AllNeeded, Shrink, EvictedCount, Over, RemoveAt, Victim, After, Kept, Total, Cut;
    if Over(l, s.records, s.bytes) {
      AfterOneMore(l, rs, s, k);
      var s1 := RemoveAt(s, Victim(s.records, s.pinned), true);
      ShrinkFrom(l, rs, s1, k + 1);
      OneMoreNeeded(l, rs, s.pinned, k, k + 1 + EvictedCount(l, s1));
    } else {
      AfterIs(rs, s, k);
      NothingNeeded(l, rs, s.pinned, k);
    }
  }

  lemma AfterIs(rs: seq<Item>, s: State, k: nat)
    requires After(rs, s, k)
    ensures k <= |rs| && s.records == Kept(rs, s.pinned, k)
  {
  }

  lemma NothingNeeded(l: Limits, rs: seq<Item>, pinned: set<NodeId>, k: nat)
    requires k <= |rs|
    ensures AllNeeded(l, rs, pinned, k, k)
  {
  }

  lemma ShrinkStep(l: Limits, s: State)
    ensures s.records != [] && Over(l, s.records, s.bytes) ==>
      var s1 := RemoveAt(s, Victim(s.records, s.pinned), true);
      Shrink(l, s) == Shrink(l, s1) && EvictedCount(l, s) == 1 + EvictedCount(l, s1)
      && s1.records == Cut(s.records, Victim(s.records, s.pinned)) && s1.pinned == s.pinned
      && s1.bytes == s.bytes - s.records[Victim(s.records, s.pinned)].record.size
    ensures !Over(l, s.records, s.bytes) ==> Shrink(l, s) == s && EvictedCount(l, s) == 0
  {
    hide Over, Victim, Cut, Push;
  }

  lemma EmptyFits(l: Limits, s: State)
    requires s.bytes == Total(s.records)
    ensures s.records == [] ==> !Over(l, s.records, s.bytes)
  {
  }

  /** `remember` ends within both budgets and evicts exactly the records needed: the smallest
      number, oldest unpinned first, pinned ones only when nothing else remains, and the
      survivors keep their recency order. */
  lemma EvictsExactly(l: Limits, s: State)
    requires Inv(s)
    ensures var n := EvictedCount(l, s);
      n <= |s.records| && Shrink(l, s).records == Kept(s.records, s.pinned, n)
      && Shrink(l, s).bytes <= l.maxBytes && |Shrink(l, s).records| <= l.maxEntries
      && AllNeeded(l, s.records, s.pinned, 0, n)
  {
    AfterNone(s);
    ShrinkInv(l, s);
    hide Kept, Total, AllNeeded, Shrink, EvictedCount, After, IndexSound, Distinct;
    ShrinkFrom(l, s.records, s, 0);
  }

  lemma AfterNone(s: State)
    requires s.bytes == Total(s.records)
    ensures After(s.records, s, 0)
  {
  }

  /** An identity that is still indexed gets its handle back. */
  lemma SameHandle(l: Limits, s: State, identity: Identity, metadata: string, unused: NodeId)
    requires Inv(s) && identity in s.index
    ensures HandleFor(s, identity, None, unused) == s.index[identity] && Has(s.records, s.index[identity])
  {
    var i :| 0 <= i < |s.records| && s.records[i].id == s.index[identity] && s.records[i].record.identity == identity;
    assert s.records[i].id == s.index[identity];
  }

  /** Asking for a live handle under its own root makes its record the most recent one and leaves the
      order of the others; under another root, or for an unknown handle, nothing changes. */
  lemma HitBecomesRecent(s: State, i: nat, root: string)
    requires Inv(s) && i < |s.records|
    ensures var s' := Get(s, s.records[i].id, root);
      if s.records[i].record.identity.root == root
      then s'.records == s.records[..i] + s.records[i + 1..] + [s.records[i]] && s'.index == s.index && s'.bytes == s.bytes
      else s' == s
    ensures forall id :: (forall x :: 0 <= x < |s.records| ==> s.records[x].id != id) ==> Get(s, id, root) == s
  {
    var x := Find(s.records, s.records[i].id);
    assert x == i;
    forall id | forall y :: 0 <= y < |s.records| ==> s.records[y].id != id ensures Get(s, id, root) == s {
      assert Find(s.records, id) == |s.records|;
    }
  }

  /** The record's document is the one that its root and owner show now. */
  predicate Current(owners: Owners, r: Record) {
    (r.identity.root, r.identity.owner) in owners.Keys
    && owners[(r.identity.root, r.identity.owner)] == r.identity.document
  }

  /** From the i-th record on exactly the current ones are left, and the earlier ones are as they were. */
  ghost predicate Swept(rs: seq<Item>, r: seq<Item>, owners: Owners, i: nat) {
    i <= |rs| && i <= |r| && r[..i] == rs[..i]
    && forall item :: item in r[i..] <==> item in rs[i..] && Current(owners, item.record)
  }

  lemma SweptKeep(rs: seq<Item>, r: seq<Item>, owners: Owners, i: nat)
    requires i < |rs| && Current(owners, rs[i].record) && Swept(rs, r, owners, i + 1)
    ensures Swept(rs, r, owners, i)
  {
    assert r[i] == r[..i + 1][i] == rs[..i + 1][i] == rs[i];
    assert rs[i..] == [rs[i]] + rs[i + 1..] && r[i..] == [r[i]] + r[i + 1..];
    assert r[..i] == r[..i + 1][..i] && rs[..i] == rs[..i + 1][..i];
  }

  lemma SweptGone(rs: seq<Item>, r: seq<Item>, owners: Owners, i: nat)
    requires i < |rs| && !Current(owners, rs[i].record) && Swept(Cut(rs, i), r, owners, i)
    ensures Swept(rs, r, owners, i)
  {
    assert Cut(rs, i)[..i] == rs[..i] && Cut(rs, i)[i..] == rs[i + 1..];
    assert rs[i..] == [rs[i]] + rs[i + 1..];
  }

  /** Synchronizing leaves exactly the records of current documents. */
  lemma {:induction false} SynchronizeExact(s: State, owners: Owners, i: nat)
    requires i <= |s.records|
    ensures Swept(s.records, Synchronize(s, owners, i).records, owners, i) && Synchronize(s, owners, i).evicted == s.evicted
    decreases |s.records| - i
  {
    if i < |s.records| {
      if Current(owners, s.records[i].record) {
        SynchronizeExact(s, owners, i + 1);
        SweptKeep(s.records, Synchronize(s, owners, i + 1).records, owners, i);
      } else {
        var s1 := RemoveAt(s, i, false);
        SynchronizeExact(s1, owners, i);
        SweptGone(s.records, Synchronize(s1, owners, i).records, owners, i);
      }
    }
    hide Swept;
  }

  /** What has just been remembered is found under its handle, unless it was evicted at once,
      and then the registry says so. */
  lemma RememberedIsFound(l: Limits, s: State, identity: Identity, metadata: string, wanted: Option<NodeId>, unused: NodeId)
    requires Inv(s) && Within(l, s)
    ensures var s' := Remember(l, s, identity, metadata, wanted, unused);
      var id := HandleFor(s, identity, wanted, unused);
      if Has(s'.records, id) then
        s'.records[Find(s'.records, id)].record == Record(identity, metadata, SizeOf(l, metadata, identity.signature))
        && identity in s'.index && s'.index[identity] == id
      else id in s'.evicted
  {
    var id := HandleFor(s, identity, wanted, unused);
    AppendInv(l, s, identity, metadata, id);
    var s1 := Appended(l, s, identity, metadata, id);
    AppendedFits(l, s, identity, metadata, id);
    LastSurvives(l, s1, s1.records[|s1.records| - 1]);
  }

  /** Without the record just appended both budgets are kept. */
  ghost predicate FrontFits(l: Limits, s: State)
    requires s.records != []
  {
    !Over(l, s.records[..|s.records| - 1], Total(s.records[..|s.records| - 1]))
  }

  lemma AppendedFits(l: Limits, s: State, identity: Identity, metadata: string, id: NodeId)
    requires Inv(s) && Within(l, s)
    ensures var s1 := Appended(l, s, identity, metadata, id);
      s1.records != [] && FrontFits(l, s1)
  {
    if Has(s.records, id) {
      TotalCut(s.records, Find(s.records, id));
    }
    var front := if Has(s.records, id) then Cut(s.records, Find(s.records, id)) else s.records;
    var s1 := Appended(l, s, identity, metadata, id);
    assert s1.records[..|s1.records| - 1] == front;
  }

  lemma FrontStep(l: Limits, s: State, i: nat)
    requires s.records != [] && FrontFits(l, s) && i < |s.records| - 1
    ensures var s1 := RemoveAt(s, i, true);
      s1.records != [] && FrontFits(l, s1) && s1.records[|s1.records| - 1] == s.records[|s.records| - 1]
  {
    var front := s.records[..|s.records| - 1];
    var s1 := RemoveAt(s, i, true);
    TotalCut(front, i);
    hide Total, Push;
    assert s1.records[..|s1.records| - 1] == Cut(front, i);
  }

  lemma {:induction false} LastSurvives(l: Limits, s: State, item: Item)
    requires Inv(s) && s.records != [] && s.records[|s.records| - 1] == item && FrontFits(l, s)
    requires item.record.identity in s.index && s.index[item.record.identity] == item.id
    ensures var s' := Shrink(l, s);
      if Has(s'.records, item.id) then
        s'.records[Find(s'.records, item.id)] == item
        && item.record.identity in s'.index && s'.index[item.record.identity] == item.id
      else item.id in s'.evicted
    decreases |s.records|
  {
    hide Total, Victim, Cut, IndexSound;
    if Over(l, s.records, s.bytes) {
      var i := Victim(s.records, s.pinned);
      var s1 := RemoveAt(s, i, true);
      RemoveInv(s, i, true);
      if i < |s.records| - 1 {
        FrontStep(l, s, i);
        RemovedIndex(s, i, item);
        LastSurvives(l, s1, item);
      } else {
        LastGone(l, s, i);
      }
    } else {
      FoundLast(s, item);
    }
  }

  lemma RemovedIndex(s: State, i: nat, item: Item)
    requires Inv(s) && i < |s.records| - 1 && s.records[|s.records| - 1] == item
    requires item.record.identity in s.index && s.index[item.record.identity] == item.id
    ensures var s1 := RemoveAt(s, i, true);
      item.record.identity in s1.index && s1.index[item.record.identity] == item.id
  {
  }

  lemma LastGone(l: Limits, s: State, i: nat)
    requires Inv(s) && s.records != [] && i == |s.records| - 1 && FrontFits(l, s)
    ensures var s1 := RemoveAt(s, i, true);
      Shrink(l, s1) == s1 && !Has(s1.records, s.records[i].id) && s.records[i].id in s1.evicted
  {
    RemoveInv(s, i, true);
    var s1 := RemoveAt(s, i, true);
    assert s1.records == s.records[..i];
    assert s1.evicted[|s1.evicted| - 1] == s.records[i].id;
  }

  lemma FoundLast(s: State, item: Item)
    requires Distinct(s.records) && s.records != [] && s.records[|s.records| - 1] == item
    ensures Has(s.records, item.id) && s.records[Find(s.records, item.id)] == item
  {
  }
}

/** The registry object: its fields updated in place, each method proved against the model. */
module RegistryObject {
  import opened Wrappers
  import opened Registry

  class NodeRegistry {
    const limits: Limits
    var records: seq<Item>
    var index: map<Identity, NodeId>
    var bytes: int
    var evicted: seq<NodeId>
    var pinned: set<NodeId>

    function St(): State
      reads this
    {
      State(records, index, bytes, evicted, pinned)
    }

    constructor (limits: Limits)
      ensures this.limits == limits && St() == Run(limits, [])
    {
      this.limits := limits;
      records, index, bytes, evicted, pinned := [], map[], 0, [], {};
    }

    method Remove(i: nat, evict: bool)
      requires i < |records|
      modifies this
      ensures St() == RemoveAt(old(St()), i, evict)
    {
      var item := records[i];
      var identity := item.record.identity;
      records := records[..i] + records[i + 1..];
      bytes := bytes - item.record.size;
      if identity in index && index[identity] == item.id { index := index - {identity}; }
      if evict { evicted := Push(evicted, item.id); }
    }

    /** The oldest handle that is not pinned, if there is one. */
    method Candidate() returns (i: nat)
      requires records != []
      ensures i == Victim(records, pinned)
    {
      i := 0;
      assert records[0..] == records;
      while i < |records| && records[i].id in pinned
        invariant i <= |records| && FirstUnpinned(records, pinned) == i + FirstUnpinned(records[i..], pinned)
      {
        assert records[i..][1..] == records[i + 1..];
        i := i + 1;
      }
      if i == |records| { i := 0; }
    }

    method Remember(identity: Identity, metadata: string, wanted: Option<NodeId>, unused: NodeId) returns (id: NodeId)
      modifies this
      ensures St() == Registry.Remember(limits, old(St()), identity, metadata, wanted, unused)
      ensures id == HandleFor(old(St()), identity, wanted, unused)
    {
      id := HandleFor(St(), identity, wanted, unused);
      var size := SizeOf(limits, metadata, identity.signature);
      if Has(records, id) { Remove(Find(records, id), false); }
      records := records + [Item(id, Record(identity, metadata, size))];
      index := index[identity := id];
      bytes := bytes + size;
      ghost var appended := St();
      assert appended == Appended(limits, old(St()), identity, metadata, id);
      while records != [] && (bytes > limits.maxBytes || |records| > limits.maxEntries)
        invariant Shrink(limits, St()) == Shrink(limits, appended)
        decreases |records|
      {
        var i := Candidate();
        Remove(i, true);
      }
    }

    method Get(id: NodeId, root: string) returns (found: Option<Record>)
      modifies this`records
      ensures St() == Registry.Get(old(St()), id, root)
      ensures found.Some? <==> exists i :: 0 <= i < |old(records)| && old(records)[i].id == id && i == Find(old(records), id)
                                           && old(records)[i].record.identity.root == root
      ensures found.Some? ==> records != [] && records[|records| - 1] == Item(id, found.value)
    {
      var i := Find(records, id);
      if i == |records| || records[i].record.identity.root != root { return None; }
      found := Some(records[i].record);
      records := records[..i] + records[i + 1..] + [records[i]];
    }

    method Synchronize(owners: Owners)
      modifies this
      ensures St() == Registry.Synchronize(old(St()), owners, 0)
    {
      var i := 0;
      while i < |records|
        invariant 0 <= i <= |records|
        invariant Registry.Synchronize(St(), owners, i) == Registry.Synchronize(old(St()), owners, 0)
        decreases |records| - i
      {
        if Alive(owners, records[i].record) { i := i + 1; } else { Remove(i, false); }
      }
    }

    /** Whether a missing handle is known to have been evicted. */
    method MissingReason(id: NodeId) returns (wasEvicted: bool)
      ensures wasEvicted <==> id in evicted
    {
      wasEvicted := id in evicted;
    }
  }
}
