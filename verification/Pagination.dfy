/**
 Observation pages: a long text and a list of element rows share one character budget. A page
 takes complete rows first, then text, and says where the next page starts.
 */
module Pagination {
  import opened Wrappers

  /** An element: its complete encoding, and what its reduced encoding is made of. */
  datatype Node = Node(id: string, tag: string, name: string, full: string)

  /** `quote` is the JSON encoding of a string. */
  datatype Snapshot = Snapshot(semantic: string, nodes: seq<Node>, quote: string -> string)

  const TAG_LIMIT: nat := 64

  function Min(a: nat, b: nat): nat { if a <= b then a else b }

  // ---- one row --------------------------------------------------------------------------

  /** Identity, shortened name, and the mark that details are missing. */
  function Reduced(s: Snapshot, n: Node, name: string): string {
    "{\"node_id\":" + s.quote(n.id) + ",\"tag\":" + s.quote(n.tag[..Min(|n.tag|, TAG_LIMIT)])
    + ",\"name\":" + s.quote(name) + ",\"details_omitted\":true}"
  }

  /** Halves the name until the row fits or nothing of it is left. */
  function Halved(s: Snapshot, n: Node, name: string, budget: nat): (r: string)
    ensures r <= name && (|Reduced(s, n, r)| <= budget || r == "")
    decreases |name|
  {
    if |Reduced(s, n, name)| > budget && name != "" then Halved(s, n, name[..|name| / 2], budget) else name
  }

  function Line(s: Snapshot, n: Node, budget: nat): string {
    if |n.full| <= budget then n.full else Reduced(s, n, Halved(s, n, n.name, budget))
  }

  method EncodeLine(s: Snapshot, n: Node, budget: nat) returns (text: string)
    ensures text == Line(s, n, budget)
  {
    text := n.full;
    if |text| <= budget { return; }
    var name := n.name;
    while |Reduced(s, n, name)| > budget && name != ""
      invariant Halved(s, n, name, budget) == Halved(s, n, n.name, budget)
      decreases |name|
    {
      name := name[..|name| / 2];
    }
    text := Reduced(s, n, name);
  }

  /** The length of a name that was halved k times. */
  function HalfLength(n: nat, k: nat): nat {
    if k == 0 then n else HalfLength(n, k - 1) / 2
  }

  lemma {:induction false} HalfLater(n: nat, k: nat)
    ensures HalfLength(n / 2, k) == HalfLength(n, k + 1) <= n
  {
    if k > 0 { HalfLater(n, k - 1); }
  }

  /** The first of the halvings whose row fits, or the one that leaves nothing. */
  lemma {:induction false} HalvedFirst(s: Snapshot, n: Node, name: string, budget: nat) returns (k: nat)
    ensures HalfLength(|name|, k) <= |name| && Halved(s, n, name, budget) == name[..HalfLength(|name|, k)]
    ensures forall j: nat :: j < k ==> HalfLength(|name|, j) <= |name| && |Reduced(s, n, name[..HalfLength(|name|, j)])| > budget
    decreases |name|
  {
    k := 0;
    assert name[..|name|] == name;
    if |Reduced(s, n, name)| > budget && name != "" {
      var half := name[..|name| / 2];
      var later := HalvedFirst(s, n, half, budget);
      HalfLater(|name|, later);
      k := later + 1;
      hide Reduced;
      forall j: nat | j < k
        ensures HalfLength(|name|, j) <= |name| && |Reduced(s, n, name[..HalfLength(|name|, j)])| > budget
      {
        if j > 0 {
          HalfLater(|name|, j - 1);
          assert half[..HalfLength(|half|, j - 1)] == name[..HalfLength(|name|, j)];
        }
      }
    }
  }

  /** A row is the whole element exactly when that is within the budget. Otherwise it is its identity
      with the name cut to its half, and that again, only until the row fits or no name is left. */
  lemma LineIdentifies(s: Snapshot, n: Node, budget: nat) returns (k: nat)
    ensures |n.full| <= budget ==> Line(s, n, budget) == n.full
    ensures HalfLength(|n.name|, k) <= |n.name|
    ensures |n.full| > budget ==> Line(s, n, budget) == Reduced(s, n, n.name[..HalfLength(|n.name|, k)])
    ensures |Line(s, n, budget)| <= budget || |Line(s, n, budget)| == |Reduced(s, n, "")|
    ensures forall j: nat :: j < k ==>
      HalfLength(|n.name|, j) <= |n.name| && |Reduced(s, n, n.name[..HalfLength(|n.name|, j)])| > budget
  {
    k := HalvedFirst(s, n, n.name, budget);
  }

  // ---- one page -------------------------------------------------------------------------

  /** What is taken after the first row: complete rows while they fit the share. */
  function MoreRows(s: Snapshot, ni: nat, used: nat, reserve: nat, budget: nat): (r: seq<string>)
    ensures |r| + ni <= |s.nodes| || r == []
    decreases |s.nodes| - ni
  {
    if ni >= |s.nodes| then []
    else
      var candidate := Line(s, s.nodes[ni], budget);
      if used + 1 + |candidate| > reserve then []
      else [candidate] + MoreRows(s, ni + 1, used + 1 + |candidate|, reserve, budget)
  }

  function Share(s: Snapshot, so: nat, budget: nat): nat { if so >= |s.semantic| then budget else budget / 2 }

  function Rows(s: Snapshot, so: nat, ni: nat, budget: nat): (r: seq<string>)
    ensures ni < |s.nodes| ==> 0 < |r| <= |s.nodes| - ni
    ensures ni >= |s.nodes| ==> r == []
  {
    if ni >= |s.nodes| then []
    else
      var first := Line(s, s.nodes[ni], Share(s, so, budget));
      [first] + MoreRows(s, ni + 1, |first|, Share(s, so, budget), budget)
  }

  /** Characters of the rows, joined by newlines. */
  function Used(rows: seq<string>): nat {
    if rows == [] then 0 else if |rows| == 1 then |rows[0]| else Used(rows[..|rows| - 1]) + 1 + |rows[|rows| - 1]|
  }

  /** The last newline in [from, end), or -1. */
  function LastNewline(text: string, from: nat, end: nat): (i: int)
    requires end <= |text|
    ensures i == -1 || (from <= i < end && text[i] == '\n')
    ensures forall j :: from <= j < end && j > i ==> text[j] != '\n'
    decreases end
  {
    if end <= from then -1
    else if text[end - 1] == '\n' then end - 1
    else LastNewline(text, from, end - 1)
  }

  /** Where the text of the page ends: the budget's end, moved back to just after the last
      newline if that lies in the second half. */
  function TextEnd(text: string, so: nat, remaining: nat): nat {
    var end := Min(|text|, so + remaining);
    if so < end < |text| then
      var boundary := LastNewline(text, so, end);
      if boundary >= so + remaining / 2 then boundary + 1 else end
    else end
  }

  datatype Page = Page(text: string, rows: seq<string>, truncated: bool, nextSo: nat, nextNi: nat)

  function Slice(text: string, from: nat, end: nat): string {
    if from <= end <= |text| then text[from..end] else ""
  }

  function PageAt(s: Snapshot, so: nat, ni: nat, budget: nat): Page {
    var rows := Rows(s, so, ni, budget);
    var remaining := if budget > Used(rows) then budget - Used(rows) else 0;
    var end := TextEnd(s.semantic, so, remaining);
    Page(Slice(s.semantic, so, end), rows, end < |s.semantic| || ni + |rows| < |s.nodes|, end, ni + |rows|)
  }

  method RFindNewline(text: string, from: nat, end: nat) returns (i: int)
    requires end <= |text|
    ensures i == LastNewline(text, from, end)
  {
    var k := end;
    while k > from && text[k - 1] != '\n'
      invariant 0 <= k <= end && LastNewline(text, from, k) == LastNewline(text, from, end)
    {
      k := k - 1;
    }
    i := if k > from then k - 1 else -1;
  }

  lemma UsedSnoc(rows: seq<string>, row: string)
    requires rows != []
    ensures Used(rows + [row]) == Used(rows) + 1 + |row|
  {
    assert (rows + [row])[..|rows|] == rows;
  }

  lemma MoreRowsStep(s: Snapshot, ni: nat, used: nat, reserve: nat, budget: nat)
    requires ni < |s.nodes|
    ensures var candidate := Line(s, s.nodes[ni], budget);
      MoreRows(s, ni, used, reserve, budget) ==
        if used + 1 + |candidate| > reserve then []
        else [candidate] + MoreRows(s, ni + 1, used + 1 + |candidate|, reserve, budget)
  {
    hide Line;
  }

  /** The rows of the page: the first always, further ones while they fit the share. */
  method TakeRows(s: Snapshot, ni0: nat, reserve: nat, budget: nat) returns (rows: seq<string>, used: nat)
    requires ni0 < |s.nodes|
    ensures var first := Line(s, s.nodes[ni0], reserve);
      rows == [first] + MoreRows(s, ni0 + 1, |first|, reserve, budget)
    ensures used == Used(rows)
  {
    var first := EncodeLine(s, s.nodes[ni0], reserve);
    OneUsed(first);
    hide Line, MoreRows, Used;
    rows, used := [first], |first|;
    var ni := ni0 + 1;
    ghost var all := [first] + MoreRows(s, ni0 + 1, |first|, reserve, budget);
    while ni < |s.nodes|
      invariant ni0 < ni <= |s.nodes| && rows != [] && used == Used(rows)
      invariant all == rows + MoreRows(s, ni, used, reserve, budget)
      decreases |s.nodes| - ni
    {
      var candidate := EncodeLine(s, s.nodes[ni], budget);
      MoreRowsStep(s, ni, used, reserve, budget);
      if used + 1 + |candidate| > reserve {
        NothingMore(rows);
        return;
      }
      UsedSnoc(rows, candidate);
      Regroup(rows, candidate, MoreRows(s, ni + 1, used + 1 + |candidate|, reserve, budget));
      rows := rows + [candidate];
      used := used + 1 + |candidate|;
      ni := ni + 1;
    }
    MoreRowsEnd(s, ni, used, reserve, budget);
    NothingMore(rows);
  }

  lemma OneUsed(row: string)
    ensures Used([row]) == |row|
  {
  }

  lemma NothingMore(rows: seq<string>)
    ensures rows + [] == rows
  {
  }

  lemma Regroup(rows: seq<string>, row: string, rest: seq<string>)
    ensures rows + ([row] + rest) == (rows + [row]) + rest
  {
  }

  lemma MoreRowsEnd(s: Snapshot, ni: nat, used: nat, reserve: nat, budget: nat)
    requires ni >= |s.nodes|
    ensures MoreRows(s, ni, used, reserve, budget) == []
  {
  }

  method FindEnd(text: string, so: nat, remaining: nat) returns (end: nat)
    ensures end == TextEnd(text, so, remaining)
  {
    end := Min(|text|, so + remaining);
    if end < |text| && end > so {
      var boundary := RFindNewline(text, so, end);
      if boundary >= so + remaining / 2 { end := boundary + 1; }
    }
  }

  method Paginate(s: Snapshot, so: nat, ni: nat, budget: nat) returns (page: Page)
    ensures page == PageAt(s, so, ni, budget)
  {
    hide Used, MoreRows, Line, TextEnd, Slice;
    var rows, used := [], 0;
    var reserve := if so >= |s.semantic| then budget else budget / 2;
    NoneUsed();
    if ni < |s.nodes| { rows, used := TakeRows(s, ni, reserve, budget); }
    assert rows == Rows(s, so, ni, budget);
    hide Rows;
    var end := FindEnd(s.semantic, so, if budget > used then budget - used else 0);
    page := Page(Slice(s.semantic, so, end), rows, end < |s.semantic| || ni + |rows| < |s.nodes|, end, ni + |rows|);
  }

  lemma NoneUsed()
    ensures Used([]) == 0
  {
  }

  // ---- what a page guarantees -------------------------------------------------------------

  lemma {:induction false} MoreFits(s: Snapshot, rows: seq<string>, ni: nat, reserve: nat, budget: nat)
    requires rows != []
    ensures Used(rows + MoreRows(s, ni, Used(rows), reserve, budget)) <= if Used(rows) > reserve then Used(rows) else reserve
    decreases |s.nodes| - ni
  {
    var used := Used(rows);
    assert rows + [] == rows;
    if ni < |s.nodes| {
      var candidate := Line(s, s.nodes[ni], budget);
      if used + 1 + |candidate| <= reserve {
        UsedSnoc(rows, candidate);
        MoreFits(s, rows + [candidate], ni + 1, reserve, budget);
        var rest := MoreRows(s, ni + 1, used + 1 + |candidate|, reserve, budget);
        assert rows + ([candidate] + rest) == (rows + [candidate]) + rest;
      }
    }
  }

  lemma RowsFit(s: Snapshot, so: nat, ni: nat, budget: nat)
    ensures var rows := Rows(s, so, ni, budget);
      Used(rows) <= budget || (|rows| == 1 && Used(rows) == |rows[0]|)
  {
    if ni < |s.nodes| {
      var reserve := Share(s, so, budget);
      var first := Line(s, s.nodes[ni], reserve);
      MoreFits(s, [first], ni + 1, reserve, budget);
      if |first| > reserve { FirstAlone(s, ni + 1, |first|, reserve, budget); }
    }
  }

  lemma FirstAlone(s: Snapshot, ni: nat, used: nat, reserve: nat, budget: nat)
    requires used > reserve
    ensures MoreRows(s, ni, used, reserve, budget) == []
  {
    hide Line;
  }

  /** Rows are taken as long as they fit their share of the budget, which is all of it once the text
      is through and half of it before: only a row that does not fit is left for the next page. */
  lemma RowsAreFilled(s: Snapshot, so: nat, ni: nat, budget: nat)
    requires ni < |s.nodes|
    ensures var p := PageAt(s, so, ni, budget);
      p.nextNi < |s.nodes| ==>
        Used(p.rows) + 1 + |Line(s, s.nodes[p.nextNi], budget)| > if so >= |s.semantic| then budget else budget / 2
  {
    var first := Line(s, s.nodes[ni], Share(s, so, budget));
    OneUsed(first);
    MoreRowsFill(s, [first], ni + 1, Share(s, so, budget), budget);
    hide TextEnd, Slice, Line, Used;
  }

  lemma {:induction false} MoreRowsFill(s: Snapshot, rows: seq<string>, ni: nat, reserve: nat, budget: nat)
    requires rows != []
    ensures var more := MoreRows(s, ni, Used(rows), reserve, budget);
      ni + |more| < |s.nodes| ==> Used(rows + more) + 1 + |Line(s, s.nodes[ni + |more|], budget)| > reserve
    decreases |s.nodes| - ni
  {
    hide Line;
    var used := Used(rows);
    assert rows + [] == rows;
    if ni < |s.nodes| {
      var candidate := Line(s, s.nodes[ni], budget);
      if used + 1 + |candidate| <= reserve {
        UsedSnoc(rows, candidate);
        MoreRowsFill(s, rows + [candidate], ni + 1, reserve, budget);
        var rest := MoreRows(s, ni + 1, used + 1 + |candidate|, reserve, budget);
        assert rows + ([candidate] + rest) == (rows + [candidate]) + rest;
      }
    }
  }

  lemma TextFits(text: string, so: nat, remaining: nat)
    ensures |Slice(text, so, TextEnd(text, so, remaining))| <= remaining
  {
  }

  /** A page holds at most the budget, or its first row alone if that is longer. */
  lemma PageIsBounded(s: Snapshot, so: nat, ni: nat, budget: nat)
    ensures var p := PageAt(s, so, ni, budget);
      |p.text| + Used(p.rows) <= budget || (p.text == "" && |p.rows| == 1 && Used(p.rows) == |p.rows[0]|)
  {
    RowsFit(s, so, ni, budget);
    var used := Used(Rows(s, so, ni, budget));
    TextFits(s.semantic, so, if budget > used then budget - used else 0);
    hide Rows, Used, TextEnd;
  }

  /** Every page is a slice of the text from its offset and moves on; an unfinished one always
      moves on by at least one character or one row. */
  lemma PageProgresses(s: Snapshot, so: nat, ni: nat, budget: nat)
    requires budget >= 1 && so <= |s.semantic| && ni <= |s.nodes|
    ensures var p := PageAt(s, so, ni, budget);
      so <= p.nextSo <= |s.semantic| && ni <= p.nextNi <= |s.nodes|
      && p.text == s.semantic[so..p.nextSo] && |p.rows| == p.nextNi - ni
      && (p.truncated <==> p.nextSo < |s.semantic| || p.nextNi < |s.nodes|)
      && (so < |s.semantic| || ni < |s.nodes| ==> so < p.nextSo || ni < p.nextNi)
  {
  }

  /** A text that is cut ends at the budget, or just after the last newline before it if there is one
      in the second half of what was left for text. */
  lemma CutAtNewline(s: Snapshot, so: nat, ni: nat, budget: nat)
    requires so <= |s.semantic| && PageAt(s, so, ni, budget).nextSo < |s.semantic|
    ensures var p := PageAt(s, so, ni, budget);
      var limit := so + if budget > Used(p.rows) then budget - Used(p.rows) else 0;
      limit < |s.semantic| && p.nextSo <= limit
      && (p.nextSo < limit ==> p.nextSo > so + (limit - so) / 2 && s.semantic[p.nextSo - 1] == '\n')
      && (forall j :: p.nextSo <= j < limit ==> s.semantic[j] != '\n')
      && (p.nextSo == limit ==> forall j :: so + (limit - so) / 2 <= j < limit - 1 && s.semantic[j] == '\n' ==> s.semantic[limit - 1] == '\n')
  {
  }

  // ---- following the offsets ---------------------------------------------------------------

  /** All pages from an offset on, until one is not truncated. */
  ghost function Pages(s: Snapshot, so: nat, ni: nat, budget: nat): seq<Page>
    requires budget >= 1 && so <= |s.semantic| && ni <= |s.nodes|
    decreases |s.semantic| - so + |s.nodes| - ni
  {
    var p := PageAt(s, so, ni, budget);
    PageProgresses(s, so, ni, budget);
    if p.truncated then [p] + Pages(s, p.nextSo, p.nextNi, budget) else [p]
  }

  ghost function TextOf(pages: seq<Page>): string {
    if pages == [] then "" else pages[0].text + TextOf(pages[1..])
  }

  ghost function RowsOf(pages: seq<Page>): seq<string> {
    if pages == [] then [] else pages[0].rows + RowsOf(pages[1..])
  }

  /** A row of the given element, whatever its budget was. */
  ghost predicate IsRowOf(s: Snapshot, n: Node, row: string) {
    row == n.full || exists k :: 0 <= k <= |n.name| && row == Reduced(s, n, n.name[..k])
  }

  /** The rows are those of the elements from ni on, in order. */
  ghost predicate RowsAre(s: Snapshot, ni: nat, rows: seq<string>) {
    ni + |rows| <= |s.nodes| && forall j :: 0 <= j < |rows| ==> IsRowOf(s, s.nodes[ni + j], rows[j])
  }

  lemma RowsConcat(s: Snapshot, ni: nat, a: seq<string>, b: seq<string>)
    requires RowsAre(s, ni, a) && RowsAre(s, ni + |a|, b)
    ensures RowsAre(s, ni, a + b)
  {
    hide IsRowOf;
    forall j | 0 <= j < |a + b| ensures IsRowOf(s, s.nodes[ni + j], (a + b)[j]) {
      if j >= |a| {
        var x := j - |a|;
        assert IsRowOf(s, s.nodes[ni + |a| + x], b[x]);
      }
    }
  }

  lemma LineIsRow(s: Snapshot, ni: nat, budget: nat)
    requires ni < |s.nodes|
    ensures RowsAre(s, ni, [Line(s, s.nodes[ni], budget)])
  {
    var k := LineIdentifies(s, s.nodes[ni], budget);
    assert IsRowOf(s, s.nodes[ni], Line(s, s.nodes[ni], budget));
    hide IsRowOf, Line;
  }

  lemma {:induction false} MoreRowsMatch(s: Snapshot, ni: nat, used: nat, reserve: nat, budget: nat)
    requires ni <= |s.nodes|
    ensures RowsAre(s, ni, MoreRows(s, ni, used, reserve, budget))
    decreases |s.nodes| - ni
  {
    hide IsRowOf, Line;
    if ni < |s.nodes| {
      var candidate := Line(s, s.nodes[ni], budget);
      LineIsRow(s, ni, budget);
      MoreRowsMatch(s, ni + 1, used + 1 + |candidate|, reserve, budget);
      RowsConcat(s, ni, [candidate], MoreRows(s, ni + 1, used + 1 + |candidate|, reserve, budget));
    }
  }

  lemma RowsMatch(s: Snapshot, so: nat, ni: nat, budget: nat)
    requires ni <= |s.nodes|
    ensures RowsAre(s, ni, Rows(s, so, ni, budget))
  {
    if ni < |s.nodes| {
      var first := Line(s, s.nodes[ni], Share(s, so, budget));
      LineIsRow(s, ni, Share(s, so, budget));
      MoreRowsMatch(s, ni + 1, |first|, Share(s, so, budget), budget);
      hide IsRowOf, Line, MoreRows;
      RowsConcat(s, ni, [first], MoreRows(s, ni + 1, |first|, Share(s, so, budget), budget));
    }
  }

  /** The slices make up the rest of the text, and the rows are one for every remaining element,
      each exactly once and in order; only the last page is not truncated. */
  ghost predicate Partitions(s: Snapshot, so: nat, ni: nat, pages: seq<Page>)
    requires so <= |s.semantic| && ni <= |s.nodes|
  {
    && TextOf(pages) == s.semantic[so..]
    && RowsAre(s, ni, RowsOf(pages)) && |RowsOf(pages)| == |s.nodes| - ni
    && pages != [] && !pages[|pages| - 1].truncated
    && forall j :: 0 <= j < |pages| - 1 ==> pages[j].truncated
  }

  /** One page, as a piece of the whole. */
  ghost predicate IsPiece(s: Snapshot, so: nat, ni: nat, p: Page) {
    so <= p.nextSo <= |s.semantic| && ni <= p.nextNi <= |s.nodes|
    && p.text == s.semantic[so..p.nextSo] && |p.rows| == p.nextNi - ni && RowsAre(s, ni, p.rows)
    && (!p.truncated ==> p.nextSo == |s.semantic| && p.nextNi == |s.nodes|)
  }

  lemma PageIsPiece(s: Snapshot, so: nat, ni: nat, budget: nat)
    requires budget >= 1 && so <= |s.semantic| && ni <= |s.nodes|
    ensures IsPiece(s, so, ni, PageAt(s, so, ni, budget))
  {
    PageProgresses(s, so, ni, budget);
    RowsMatch(s, so, ni, budget);
    hide RowsAre, Rows, TextEnd, Slice, Used;
  }

  lemma TextJoins(text: string, so: nat, mid: nat)
    requires so <= mid <= |text|
    ensures text[so..mid] + text[mid..] == text[so..]
  {
  }

  lemma PartitionMore(s: Snapshot, so: nat, ni: nat, p: Page, rest: seq<Page>)
    requires IsPiece(s, so, ni, p) && p.truncated && Partitions(s, p.nextSo, p.nextNi, rest)
    ensures Partitions(s, so, ni, [p] + rest)
  {
    Joined(p, rest);
    TextJoins(s.semantic, so, p.nextSo);
    RowsConcat(s, ni, p.rows, RowsOf(rest));
    hide TextOf, RowsOf, RowsAre;
  }

  lemma PartitionLast(s: Snapshot, so: nat, ni: nat, p: Page)
    requires IsPiece(s, so, ni, p) && !p.truncated
    ensures Partitions(s, so, ni, [p])
  {
    Joined(p, []);
    assert [p] + [] == [p];
    hide RowsAre, TextOf, RowsOf;
  }

  /** Following the offsets ends, and the pages partition the observation. */
  lemma {:induction false} PagesPartition(s: Snapshot, so: nat, ni: nat, budget: nat)
    requires budget >= 1 && so <= |s.semantic| && ni <= |s.nodes|
    ensures Partitions(s, so, ni, Pages(s, so, ni, budget))
    decreases |s.semantic| - so + |s.nodes| - ni
  {
    var p := PageAt(s, so, ni, budget);
    PageIsPiece(s, so, ni, budget);
    PageProgresses(s, so, ni, budget);
    PagesStep(s, so, ni, budget);
    hide PageAt, Pages, Partitions, IsPiece;
    if p.truncated {
      PagesPartition(s, p.nextSo, p.nextNi, budget);
      PartitionMore(s, so, ni, p, Pages(s, p.nextSo, p.nextNi, budget));
    } else {
      PartitionLast(s, so, ni, p);
    }
  }

  lemma PagesStep(s: Snapshot, so: nat, ni: nat, budget: nat)
    requires budget >= 1 && so <= |s.semantic| && ni <= |s.nodes|
    ensures var p := PageAt(s, so, ni, budget);
      p.nextSo <= |s.semantic| && p.nextNi <= |s.nodes|
      && Pages(s, so, ni, budget) == [p] + if p.truncated then Pages(s, p.nextSo, p.nextNi, budget) else []
  {
    PageProgresses(s, so, ni, budget);
    hide PageAt;
  }

  lemma Joined(p: Page, rest: seq<Page>)
    ensures TextOf([p] + rest) == p.text + TextOf(rest) && RowsOf([p] + rest) == p.rows + RowsOf(rest)
    ensures TextOf([]) == "" && RowsOf([]) == []
  {
    assert ([p] + rest)[1..] == rest;
  }
}
