/**
 The outbox table and the dispatcher's passes over it: per-channel FIFO and
 confirmed-only marking at every point of every run, and a bound on how long a
 row can wait.
 */
module Outbox {
  import opened FairRows
  import opened Arithmetic

  /** Rows in the order they were inserted; ids grow. */
  datatype Table = Table(rows: seq<Row>, published: set<nat>, confirmed: set<nat>)

  predicate Increasing(s: seq<Row>) {
    forall i, j :: 0 <= i < j < |s| ==> s[i].id < s[j].id
  }

  /** The unpublished rows of a line, oldest first. */
  function Pending(rows: seq<Row>, line: string, published: set<nat>): seq<Row> {
    if rows == [] then []
    else
      var last := rows[|rows| - 1];
      Pending(rows[..|rows| - 1], line, published)
      + (if last.line == line && last.id !in published then [last] else [])
  }

  function Take(s: seq<Row>, n: nat): seq<Row> {
    if |s| <= n then s else s[..n]
  }

  /** What a pass reads: the 10 * limit oldest pending rows of its line. */
  function Window(t: Table, line: string, limit: nat): seq<Row> {
    Take(Pending(t.rows, line, t.published), 10 * limit)
  }

  function Ids(s: seq<Row>): set<nat> {
    set x | x in s :: x.id
  }

  lemma {:induction false} PendingMembers(rows: seq<Row>, line: string, published: set<nat>)
    ensures forall x :: x in Pending(rows, line, published) <==> x in rows && x.line == line && x.id !in published
  {
    if rows != [] {
      PendingMembers(rows[..|rows| - 1], line, published);
      assert rows == rows[..|rows| - 1] + [rows[|rows| - 1]];
    }
  }

  lemma {:induction false} PendingIncreasing(rows: seq<Row>, line: string, published: set<nat>)
    requires Increasing(rows)
    ensures Increasing(Pending(rows, line, published))
  {
    if rows != [] {
      var init := rows[..|rows| - 1];
      PendingIncreasing(init, line, published);
      PendingMembers(init, line, published);
      var p := Pending(init, line, published);
      forall i | 0 <= i < |p|
        ensures p[i].id < rows[|rows| - 1].id
      {
        assert p[i] in init;
      }
    }
  }

  lemma {:induction false} OfIncreasing(s: seq<Row>, c: string)
    requires Increasing(s)
    ensures Increasing(Of(s, c))
  {
    if s != [] {
      var init := s[..|s| - 1];
      OfIncreasing(init, c);
      OfMembers(init, c);
      var p := Of(init, c);
      forall i | 0 <= i < |p|
        ensures p[i].id < s[|s| - 1].id
      {
        assert p[i] in init;
      }
    }
  }

  /** A prefix of an increasing sequence contains everything older than any of its rows. */
  lemma PrefixIsDownClosed(p: seq<Row>, q: seq<Row>, x: Row, y: Row)
    requires p <= q && Increasing(q) && x in p && y in q && y.id < x.id
    ensures y in p
  {
    var i :| 0 <= i < |p| && p[i] == x;
    var j :| 0 <= j < |q| && q[j] == y;
    assert q[i] == x;
    assert j < i;
    assert p[j] == y;
  }

  // ---------- runs ----------

  /**
   A request inserts a row, or the dispatcher makes a pass: it selects fairly from the
   window, sees the first `confirms` publishes confirmed, and marks the first `marks` rows.
   A pass succeeds if it marks everything it selected.
   */
  datatype Move =
    | Insert(row: Row)
    | Pass(line: string, limit: nat, selected: seq<Row>, confirms: nat, marks: nat)
  {
    predicate Succeeds() {
      Pass? && marks == |selected|
    }
  }

  ghost predicate Enabled(t: Table, e: Move) {
    match e
    case Insert(row) => forall x :: x in t.rows ==> x.id < row.id
    case Pass(line, limit, selected, confirms, marks) =>
      marks <= confirms <= |selected| && FairSelection(Window(t, line, limit), limit, selected)
  }

  ghost function Next(t: Table, e: Move): Table
    requires Enabled(t, e)
  {
    match e
    case Insert(row) => t.(rows := t.rows + [row])
    case Pass(_, _, selected, confirms, marks) =>
      t.(published := t.published + Ids(selected[..marks]), confirmed := t.confirmed + Ids(selected[..confirms]))
  }

  ghost predicate Run(t: Table, es: seq<Move>, t': Table)
    decreases |es|
  {
    if es == [] then t == t' else Enabled(t, es[0]) && Run(Next(t, es[0]), es[1..], t')
  }

  const EMPTY := Table([], {}, {})

  /** y is an older row of x's line and channel. */
  predicate Precedes(y: Row, x: Row) {
    y.line == x.line && y.channel == x.channel && y.id < x.id
  }

  /** Published rows were confirmed, and form a prefix in id order of each line and channel. */
  ghost predicate Inv(t: Table) {
    && Increasing(t.rows)
    && t.published <= t.confirmed
    && (forall x, y :: x in t.rows && y in t.rows && Precedes(y, x) && x.id in t.published ==> y.id in t.published)
    && (forall i :: i in t.published ==> i in Ids(t.rows))
  }

  /** What a pass selects comes from the pending rows of its line. */
  lemma SelectedArePending(t: Table, line: string, limit: nat, selected: seq<Row>, x: Row)
    requires FairSelection(Window(t, line, limit), limit, selected) && x in selected
    ensures x in Window(t, line, limit) && x in Pending(t.rows, line, t.published)
    ensures x in t.rows && x.line == line && x.id !in t.published
  {
    var w := Window(t, line, limit);
    PrefixesAreSubset(selected, w);
    assert multiset(selected)[x] > 0;
    assert x in w;
    PendingMembers(t.rows, line, t.published);
  }

  /** A marked row's older pending rows of the same channel are marked with it. */
  lemma MarkedInOrder(t: Table, e: Move, x: Row, y: Row)
    requires Inv(t) && Enabled(t, e) && e.Pass? && x in e.selected[..e.marks]
    requires y in t.rows && Precedes(y, x) && y.id !in t.published
    ensures y in e.selected[..e.marks]
  {
    hide Pending;
    var w, p, c := Window(t, e.line, e.limit), Pending(t.rows, e.line, t.published), x.channel;
    var marked := e.selected[..e.marks];
    SelectedArePending(t, e.line, e.limit, e.selected, x);
    PendingMembers(t.rows, e.line, t.published);
    PendingIncreasing(t.rows, e.line, t.published);
    PrefixIsDownClosed(w, p, x, y);
    OfPrefix(e.selected, e.marks, c);
    OfMembers(marked, c);
    OfMembers(w, c);
    OfIncreasing(w, c);
    PrefixIsDownClosed(Of(marked, c), Of(w, c), x, y);
  }

  lemma InsertInv(t: Table, row: Row)
    requires Inv(t) && forall x :: x in t.rows ==> x.id < row.id
    ensures Inv(t.(rows := t.rows + [row]))
  {
    forall i | i in t.published
      ensures i < row.id && i in Ids(t.rows + [row])
    {
      var x :| x in t.rows && x.id == i;
      assert x in t.rows + [row];
    }
  }

  lemma PassInv(t: Table, e: Move)
    requires Inv(t) && Enabled(t, e) && e.Pass?
    ensures Inv(Next(t, e))
  {
    hide FairSelection, Window;
    var t', marked := Next(t, e), e.selected[..e.marks];
    forall x | x in marked
      ensures x in t.rows
    {
      SelectedArePending(t, e.line, e.limit, e.selected, x);
    }
    forall x, y | x in t.rows && y in t.rows && Precedes(y, x) && x.id in t'.published
      ensures y.id in t'.published
    {
      if x.id !in t.published && y.id !in t.published {
        var z :| z in marked && z.id == x.id;
        assert z == x;
        MarkedInOrder(t, e, x, y);
      }
    }
  }

  lemma StepInv(t: Table, e: Move)
    requires Inv(t) && Enabled(t, e)
    ensures Inv(Next(t, e))
  {
    hide FairSelection, Window, Inv;
    if e.Pass? { PassInv(t, e); } else { InsertInv(t, e.row); }
  }

  lemma {:induction false} RunInv(t: Table, es: seq<Move>, t': Table)
    requires Inv(t) && Run(t, es, t')
    ensures Inv(t')
    decreases |es|
  {
    hide Inv, Enabled, Next;
    if es != [] {
      StepInv(t, es[0]);
      RunInv(Next(t, es[0]), es[1..], t');
    }
  }

  /**
   At every point of every run, also after passes that failed part-way: a row marked
   published was confirmed by the broker, and so were all older rows of its line and channel,
   which are marked as well.
   */
  lemma PublishedInOrder(es: seq<Move>, t: Table, x: Row, y: Row)
    requires Run(EMPTY, es, t) && x in t.rows && x.id in t.published
    requires y in t.rows && (y == x || Precedes(y, x))
    ensures y.id in t.published && y.id in t.confirmed
  {
    hide Enabled, Next;
    RunInv(EMPTY, es, t);
  }

  /** A run goes on with any enabled move. */
  lemma Extend(es: seq<Move>, t: Table, e: Move)
    requires Run(EMPTY, es, t) && Inv(t) && Enabled(t, e)
    ensures Run(EMPTY, es + [e], Next(t, e)) && Inv(Next(t, e))
  {
    StepInv(t, e);
    hide Enabled, Next, Inv;
    assert [e][1..] == [] && Run(Next(t, e), [], Next(t, e));
    assert Run(t, [e], Next(t, e));
    RunConcat(EMPTY, es, t, [e], Next(t, e), "");
  }

  // ---------- waiting ----------

  /** Pending rows of x's line that are older than x. */
  ghost function Ahead(t: Table, x: Row): set<Row> {
    set y | y in t.rows && y.line == x.line && y.id < x.id && y.id !in t.published
  }

  /** Those of them that belong to x's channel. */
  ghost function AheadInChannel(t: Table, x: Row): set<Row> {
    set y | y in Ahead(t, x) && y.channel == x.channel
  }

  lemma {:induction false} RowSetSize(s: seq<Row>)
    requires Increasing(s)
    ensures |set y | y in s| == |s|
  {
    if s != [] {
      var init, last := s[..|s| - 1], s[|s| - 1];
      assert forall i :: 0 <= i < |init| ==> init[i] == s[i] && s[i].id < last.id;
      RowSetSize(init);
      hide Increasing;
      assert last !in init;
      assert s == init + [last];
      assert (set y | y in s) == (set y | y in init) + {last};
    }
  }

  /** The position of a row in an increasing sequence is the number of its older rows. */
  lemma PositionIsAhead(t: Table, x: Row, i: nat)
    requires Increasing(t.rows)
    requires var p := Pending(t.rows, x.line, t.published); i < |p| && p[i] == x
    ensures |Ahead(t, x)| == i
    ensures Ahead(t, x) == set y | y in Pending(t.rows, x.line, t.published)[..i]
  {
    var p := Pending(t.rows, x.line, t.published);
    hide Pending;
    PendingIncreasing(t.rows, x.line, t.published);
    PendingMembers(t.rows, x.line, t.published);
    RowSetSize(p[..i]);
    forall y
      ensures y in Ahead(t, x) <==> y in p[..i]
    {
      if y in Ahead(t, x) {
        var j :| 0 <= j < |p| && p[j] == y;
        assert j < i;
        assert y == p[..i][j];
      }
    }
    assert Ahead(t, x) == set y | y in p[..i];
  }

  /** A row is in the window exactly if fewer than 10 * limit pending rows of its line are older. */
  lemma InWindow(t: Table, x: Row, limit: nat)
    requires Increasing(t.rows) && x in t.rows && x.id !in t.published
    ensures x in Window(t, x.line, limit) <==> |Ahead(t, x)| < 10 * limit
    ensures |Ahead(t, x)| >= 10 * limit ==>
      var w := Window(t, x.line, limit);
      |w| == 10 * limit && forall y :: y in w ==> y in Ahead(t, x)
  {
    var p, w := Pending(t.rows, x.line, t.published), Window(t, x.line, limit);
    PendingMembers(t.rows, x.line, t.published);
    PendingIncreasing(t.rows, x.line, t.published);
    hide Pending;
    var i :| 0 <= i < |p| && p[i] == x;
    PositionIsAhead(t, x, i);
    if i < 10 * limit {
      assert w[i] == x;
    } else {
      assert forall y :: y in w ==> y in p[..i];
    }
  }

  lemma SelectionIsASet(w: seq<Row>, limit: nat, sel: seq<Row>)
    requires FairSelection(w, limit, sel) && Increasing(w)
    ensures |set y | y in sel| == |sel|
    ensures forall y :: y in sel ==> y in w
  {
    PrefixesAreSubset(sel, w);
    forall y | y in sel
      ensures y in w
    {
      assert multiset(sel)[y] > 0;
    }
    forall i, j | 0 <= i < j < |w|
      ensures w[i] != w[j]
    {
    }
    DistinctMultiset(w);
    SubsetOfDistinct(sel, w);
  }

  lemma {:induction false} DistinctMultiset(w: seq<Row>)
    requires forall i, j :: 0 <= i < j < |w| ==> w[i] != w[j]
    ensures forall y :: multiset(w)[y] <= 1
  {
    if w != [] {
      var init, last := w[..|w| - 1], w[|w| - 1];
      DistinctMultiset(init);
      assert w == init + [last];
      assert last !in init;
    }
  }

  lemma {:induction false} SubsetOfDistinct(sel: seq<Row>, w: seq<Row>)
    requires multiset(sel) <= multiset(w) && forall y :: multiset(w)[y] <= 1
    ensures |set y | y in sel| == |sel|
  {
    if sel != [] {
      var init, last := sel[..|sel| - 1], sel[|sel| - 1];
      assert sel == init + [last];
      assert multiset(sel) == multiset(init) + multiset{last};
      SubsetOfDistinct(init, w);
      assert multiset(sel)[last] <= 1;
      assert last !in init;
      assert (set y | y in sel) == (set y | y in init) + {last};
    }
  }

  ghost function Channels(s: seq<Row>): set<string> {
    set x | x in s :: x.channel
  }

  lemma {:induction false} TwoOfSame(s: seq<Row>, i: nat, j: nat)
    requires i < j < |s| && s[i].channel == s[j].channel
    ensures Share(s, s[i].channel) >= 2
  {
    hide Of;
    TurnRow(s[..j], i);
    assert s[..j][i] == s[i];
    OfSnoc(s[..j], s[j], s[i].channel);
    assert s[..j + 1] == s[..j] + [s[j]];
    OfPrefix(s, j + 1, s[i].channel);
  }

  lemma {:induction false} DistinctChannels(s: seq<Row>)
    requires forall i, j :: 0 <= i < j < |s| ==> s[i].channel != s[j].channel
    ensures |Channels(s)| == |s|
  {
    if s != [] {
      var init, last := s[..|s| - 1], s[|s| - 1];
      DistinctChannels(init);
      assert s == init + [last];
      assert Channels(s) == Channels(init) + {last.channel};
      assert last.channel !in Channels(init);
    }
  }

  lemma SubsetCard<T>(a: set<T>, b: set<T>)
    requires a <= b
    ensures |a| <= |b|
  {
    assert b == a + (b - a);
  }

  /** The channels of the window that are visited before c. */
  ghost function Earlier(w: seq<Row>, c: string): set<string> {
    set d | d in Channels(w) && Before(d, c)
  }

  /** A selection has room for channel c: everything is taken, or fewer than `limit` channels come before c. */
  ghost predicate HasRoom(w: seq<Row>, limit: nat, c: string) {
    |w| <= limit || |Earlier(w, c)| < limit
  }

  lemma {:induction false} ChannelCount(s: seq<Row>)
    ensures |Channels(s)| <= |s|
  {
    if s != [] {
      var init, last := s[..|s| - 1], s[|s| - 1];
      ChannelCount(init);
      assert s == init + [last];
      assert Channels(s) == Channels(init) + {last.channel};
    }
  }

  lemma ChannelsByShare(s: seq<Row>, c: string)
    ensures c in Channels(s) <==> Share(s, c) > 0
  {
    OfMembers(s, c);
    if Share(s, c) > 0 {
      assert Of(s, c)[0] in Of(s, c);
    } else {
      assert forall x :: x !in Of(s, c);
    }
  }

  lemma SelectedChannels(w: seq<Row>, limit: nat, sel: seq<Row>, c: string)
    requires FairSelection(w, limit, sel) && Share(sel, c) > 0
    ensures Share(w, c) > 0
  {
    assert Of(sel, c) <= Of(w, c);
  }

  /** A channel that gets nothing is kept out by `limit` channels before it. */
  lemma UnservedChannel(w: seq<Row>, limit: nat, sel: seq<Row>, c: string)
    requires FairSelection(w, limit, sel) && |w| > limit && Share(sel, c) == 0 < Share(w, c)
    ensures limit <= |Earlier(w, c)|
  {
    forall i, j | 0 <= i < j < |sel|
      ensures sel[i].channel != sel[j].channel
    {
      if sel[i].channel == sel[j].channel { TwoOfSame(sel, i, j); }
    }
    DistinctChannels(sel);
    forall d | d in Channels(sel)
      ensures d in Earlier(w, c)
    {
      ChannelsByShare(sel, d);
      SelectedChannels(w, limit, sel, d);
      ChannelsByShare(w, d);
      BeforeTotal(c, d);
    }
    SubsetCard(Channels(sel), Earlier(w, c));
  }

  /** A channel that gets a row leaves no channel before it empty-handed. */
  lemma ServedChannel(w: seq<Row>, limit: nat, sel: seq<Row>, c: string)
    requires FairSelection(w, limit, sel) && |w| > limit && Share(sel, c) > 0
    ensures |Earlier(w, c)| < limit
  {
    forall d | d in Earlier(w, c)
      ensures d in Channels(sel) - {c}
    {
      ChannelsByShare(w, d);
      ChannelsByShare(sel, d);
      BeforeTotal(d, c);
    }
    ChannelsByShare(sel, c);
    SubsetCard(Earlier(w, c), Channels(sel) - {c});
    ChannelCount(sel);
  }

  /**
   Exactly which channels a pass serves: one that has a row in the window gets at least one row
   out if and only if the selection has room for it.
   */
  lemma ServedExactly(w: seq<Row>, limit: nat, sel: seq<Row>, x: Row)
    requires FairSelection(w, limit, sel) && x in w
    ensures Share(sel, x.channel) > 0 <==> HasRoom(w, limit, x.channel)
  {
    hide Share, Earlier;
    assert Share(w, x.channel) > 0 by { ChannelsByShare(w, x.channel); }
    if |w| <= limit {
      AllTaken(w, limit, sel, x.channel);
    } else if Share(sel, x.channel) == 0 {
      UnservedChannel(w, limit, sel, x.channel);
    } else {
      ServedChannel(w, limit, sel, x.channel);
    }
  }

  lemma AllTaken(w: seq<Row>, limit: nat, sel: seq<Row>, c: string)
    requires FairSelection(w, limit, sel) && |w| <= limit
    ensures Share(sel, c) == Share(w, c)
  {
    SharesAgree(sel, w);
  }

  /** In particular, with at most `limit` channels in the window every one of them is served. */
  lemma EveryChannelServed(w: seq<Row>, limit: nat, sel: seq<Row>, x: Row)
    requires FairSelection(w, limit, sel) && x in w && |Channels(w)| <= limit
    ensures HasRoom(w, limit, x.channel) && Share(sel, x.channel) > 0
  {
    BeforeTotal(x.channel, x.channel);
    SubsetCard(Earlier(w, x.channel), Channels(w) - {x.channel});
    ServedExactly(w, limit, sel, x);
  }

  /** An upper bound on the successful passes that a row waits for. */
  function Wait(ahead: nat, aheadInChannel: nat, limit: nat): nat
    requires 0 < limit
  {
    (if ahead < 10 * limit then 0 else (ahead - 10 * limit) / limit + 1) + aheadInChannel + 1
  }

  /** The bound in other words: q + 1 and the fewest batches of `limit` rows that bring row number p into the window. */
  lemma WaitIsCeiling(p: nat, q: nat, limit: nat)
    requires 0 < limit
    ensures var k := Wait(p, q, limit) - q - 1;
      k >= 0 && p < 10 * limit + k * limit && (k > 0 ==> 10 * limit + (k - 1) * limit <= p)
  {
    if p >= 10 * limit {
      var a := p - 10 * limit;
      var k := a / limit + 1;
      assert a == (a / limit) * limit + a % limit;
      assert k * limit == (a / limit) * limit + limit;
    }
  }

  lemma WaitMonotone(p: nat, q: nat, p': nat, q': nat, limit: nat)
    requires 0 < limit && p' <= p && q' <= q
    ensures Wait(p', q', limit) <= Wait(p, q, limit)
    ensures p >= 10 * limit && p' + limit <= p ==> Wait(p', q', limit) < Wait(p, q, limit)
  {
    if p' >= 10 * limit {
      DivMonotone(p' - 10 * limit, p - 10 * limit, limit);
      if p' + limit <= p {
        DivMonotone(p' - 10 * limit, p - limit - 10 * limit, limit);
        DivStep(p - 10 * limit, limit);
      }
    }
  }

  /** No step puts a pending row further back. */
  lemma NeverFurtherBack(t: Table, e: Move, x: Row)
    requires Inv(t) && Enabled(t, e) && x in t.rows
    ensures Ahead(Next(t, e), x) <= Ahead(t, x) && AheadInChannel(Next(t, e), x) <= AheadInChannel(t, x)
  {
    hide FairSelection, Window;
  }

  /** A successful pass over x's line publishes x or brings it closer. */
  lemma PassHelps(t: Table, e: Move, x: Row)
    requires Inv(t) && Enabled(t, e) && e.Pass? && 0 < e.limit && Helps(t, e, x, e.limit)
    requires x in t.rows && x.id !in t.published
    ensures var t', w := Next(t, e), Wait(|Ahead(t, x)|, |AheadInChannel(t, x)|, e.limit);
      x.id in t'.published || Wait(|Ahead(t', x)|, |AheadInChannel(t', x)|, e.limit) < w
  {
    var t', w := Next(t, e), Window(t, e.line, e.limit);
    var a, a' := Ahead(t, x), Ahead(t', x);
    var b, b' := AheadInChannel(t, x), AheadInChannel(t', x);
    NeverFurtherBack(t, e, x);
    SubsetCard(a', a);
    SubsetCard(b', b);
    InWindow(t, x, e.limit);
    WaitMonotone(|a|, |b|, |a'|, |b'|, e.limit);
    if |a| >= 10 * e.limit {
      OutsideWindow(t, e, x);
    } else {
      InsideWindow(t, e, x);
      if x.id !in t'.published {
        WaitMonotone(|a|, |b| - 1, |a'|, |b'|, e.limit);
      }
    }
  }

  lemma OutsideWindow(t: Table, e: Move, x: Row)
    requires Inv(t) && Enabled(t, e) && e.Succeeds() && 0 < e.limit
    requires x in t.rows && x.id !in t.published && e.line == x.line && |Ahead(t, x)| >= 10 * e.limit
    ensures |Ahead(Next(t, e), x)| + e.limit <= |Ahead(t, x)|
  {
    var w, a, a' := Window(t, e.line, e.limit), Ahead(t, x), Ahead(Next(t, e), x);
    var taken := set y | y in e.selected;
    InWindow(t, x, e.limit);
    PendingIncreasing(t.rows, e.line, t.published);
    assert Increasing(w);
    SelectionIsASet(w, e.limit, e.selected);
    assert e.selected[..e.marks] == e.selected;
    assert forall y :: y in e.selected ==> y in a && y.id in Ids(e.selected);
    assert taken <= a && a' <= a - taken;
    SubsetCard(a', a - taken);
    assert |a - taken| == |a| - |taken|;
  }

  lemma InsideWindow(t: Table, e: Move, x: Row)
    requires Inv(t) && Enabled(t, e) && e.Succeeds() && 0 < e.limit
    requires x in t.rows && x.id !in t.published && e.line == x.line && |Ahead(t, x)| < 10 * e.limit
    requires HasRoom(Window(t, e.line, e.limit), e.limit, x.channel)
    ensures x.id in Next(t, e).published || |AheadInChannel(Next(t, e), x)| < |AheadInChannel(t, x)|
  {
    var w, t', c := Window(t, e.line, e.limit), Next(t, e), x.channel;
    InWindow(t, x, e.limit);
    ServedExactly(w, e.limit, e.selected, x);
    var y := Of(e.selected, c)[0];
    OfMembers(e.selected, c);
    SelectedArePending(t, e.line, e.limit, e.selected, y);
    assert e.selected[..e.marks] == e.selected;
    assert y.id in t'.published;
    OldestFirst(t, e, x, y);
    if y.id < x.id {
      assert y in AheadInChannel(t, x) && y !in AheadInChannel(t', x);
      NeverFurtherBack(t, e, x);
      SubsetCard(AheadInChannel(t', x), AheadInChannel(t, x) - {y});
    }
  }

  /** The first row a pass takes of a channel is at most as old as any row of it in the window. */
  lemma OldestFirst(t: Table, e: Move, x: Row, y: Row)
    requires Inv(t) && Enabled(t, e) && e.Pass?
    requires x in Window(t, e.line, e.limit) && Share(e.selected, x.channel) > 0 && y == Of(e.selected, x.channel)[0]
    ensures y == x || y.id < x.id
  {
    var w, c := Window(t, e.line, e.limit), x.channel;
    PendingIncreasing(t.rows, e.line, t.published);
    hide Pending;
    assert Increasing(w);
    OfIncreasing(w, c);
    OfMembers(w, c);
    assert Of(e.selected, c) <= Of(w, c);
    assert Of(w, c)[0] == y;
    var i :| 0 <= i < |Of(w, c)| && Of(w, c)[i] == x;
  }

  /** A successful pass over x's line with this limit that, if it reads x, has room for x's channel. */
  ghost predicate Helps(t: Table, e: Move, x: Row, limit: nat) {
    && e.Succeeds() && e.line == x.line && e.limit == limit
    && (x in Window(t, x.line, limit) ==> HasRoom(Window(t, x.line, limit), limit, x.channel))
  }

  /** How many such passes there are in a run. */
  ghost function Chances(t: Table, es: seq<Move>, x: Row, limit: nat): nat
    decreases |es|
  {
    if es == [] || !Enabled(t, es[0]) then 0
    else (if Helps(t, es[0], x, limit) then 1 else 0) + Chances(Next(t, es[0]), es[1..], x, limit)
  }

  function Successes(es: seq<Move>, line: string): nat {
    if es == [] then 0
    else (if es[0].Succeeds() && es[0].line == line then 1 else 0) + Successes(es[1..], line)
  }

  /**
   No starvation, with a bound. A pending row with p older pending rows on its line and q of them in its
   channel is published once max(0, ceil((p - 10 * limit + 1) / limit)) + q + 1 passes over its line have
   succeeded that did not read it or had room for its channel, whatever is inserted and whatever other
   passes, crowded, failing or with other limits, happen in between.
   */
  lemma {:induction false} NoStarvation(t: Table, es: seq<Move>, t': Table, x: Row, limit: nat)
    requires Inv(t) && Run(t, es, t') && x in t.rows && 0 < limit
    requires Wait(|Ahead(t, x)|, |AheadInChannel(t, x)|, limit) <= Chances(t, es, x, limit) || x.id in t.published
    ensures x.id in t'.published
    decreases |es|
  {
    hide Inv, Enabled, Next, Window, Ahead, AheadInChannel, HasRoom, Wait;
    if es == [] {
      WaitPositive(|Ahead(t, x)|, |AheadInChannel(t, x)|, limit);
    } else {
      var e := es[0];
      var t1 := Next(t, e);
      StepInv(t, e);
      Persists(t, e, x);
      if x.id !in t.published {
        if Helps(t, e, x, limit) {
          PassHelps(t, e, x);
        } else {
          NeverFurtherBack(t, e, x);
          SubsetCard(Ahead(t1, x), Ahead(t, x));
          SubsetCard(AheadInChannel(t1, x), AheadInChannel(t, x));
          WaitMonotone(|Ahead(t, x)|, |AheadInChannel(t, x)|, |Ahead(t1, x)|, |AheadInChannel(t1, x)|, limit);
        }
      }
      NoStarvation(t1, es[1..], t', x, limit);
    }
  }

  lemma WaitPositive(p: nat, q: nat, limit: nat)
    requires 0 < limit
    ensures Wait(p, q, limit) > 0
  {
  }

  lemma Persists(t: Table, e: Move, x: Row)
    requires Enabled(t, e) && x in t.rows
    ensures x in Next(t, e).rows && (x.id in t.published ==> x.id in Next(t, e).published)
  {
    hide FairSelection, Window;
  }

  // ---------- when a pass has no room for a channel ----------

  /** New rows, one for each of some channels. */
  function Batch(line: string, hot: seq<string>, base: nat): (rows: seq<Row>)
    ensures |rows| == |hot| && forall j :: 0 <= j < |hot| ==> rows[j] == Row(base + j, line, hot[j])
  {
    seq(|hot|, j requires 0 <= j < |hot| => Row(base + j, line, hot[j]))
  }

  /** `limit` different channels, all visited before channel c. */
  ghost predicate Crowd(hot: seq<string>, limit: nat, c: string) {
    && |hot| == limit
    && (forall i, j :: 0 <= i < j < limit ==> hot[i] != hot[j])
    && (forall i :: 0 <= i < limit ==> Before(hot[i], c))
  }

  predicate Numbered(rows: seq<Row>) {
    forall i :: 0 <= i < |rows| ==> rows[i].id == i
  }

  /** Only x is waiting on its line. */
  ghost predicate Stuck(t: Table, x: Row) {
    Numbered(t.rows) && x in t.rows && Pending(t.rows, x.line, t.published) == [x]
  }

  lemma PendingSnoc(rows: seq<Row>, y: Row, line: string, published: set<nat>)
    ensures Pending(rows + [y], line, published)
         == Pending(rows, line, published) + (if y.line == line && y.id !in published then [y] else [])
  {
    assert (rows + [y])[..|rows|] == rows;
  }

  lemma OneStep(t: Table, e: Move)
    requires Enabled(t, e) && e.Pass?
    ensures Run(t, [e], Next(t, e)) && Successes([e], e.line) == if e.Succeeds() then 1 else 0
  {
    hide Enabled, Next;
    assert [e][1..] == [] && Run(Next(t, e), [], Next(t, e));
    assert Successes([], e.line) == 0;
  }

  /** The rows of a batch arrive one by one behind x. */
  lemma {:induction false} InsertAll(t: Table, batch: seq<Row>, line: string) returns (es: seq<Move>)
    requires Numbered(t.rows) && forall j :: 0 <= j < |batch| ==> batch[j].id == |t.rows| + j && batch[j].line == line
    requires forall i :: i in t.published ==> i < |t.rows|
    ensures Run(t, es, t.(rows := t.rows + batch)) && Successes(es, line) == 0 && Numbered(t.rows + batch)
    ensures Pending(t.rows + batch, line, t.published) == Pending(t.rows, line, t.published) + batch
    ensures forall e :: e in es ==> e.Insert?
    decreases |batch|
  {
    hide Pending, Enabled, Next;
    if batch == [] {
      es := [];
      assert t.rows + batch == t.rows && t.(rows := t.rows + batch) == t;
    } else {
      var init, last := batch[..|batch| - 1], batch[|batch| - 1];
      var pre := InsertAll(t, init, line);
      var t1 := t.(rows := t.rows + init);
      assert t1.rows + [last] == t.rows + batch;
      PendingSnoc(t1.rows, last, line, t.published);
      var t2 := InsertOne(t1, last, line);
      RunConcat(t, pre, t1, [Insert(last)], t2, line);
      es := pre + [Insert(last)];
    }
  }

  lemma InsertOne(t: Table, row: Row, line: string) returns (t': Table)
    requires Numbered(t.rows) && row.id == |t.rows|
    ensures t' == t.(rows := t.rows + [row]) && Run(t, [Insert(row)], t') && Successes([Insert(row)], line) == 0
    ensures Numbered(t.rows + [row])
  {
    var e := Insert(row);
    t' := Next(t, e);
    hide Next, Enabled;
    assert [e][1..] == [] && Run(t', [], t');
    assert Successes([], line) == 0;
  }

  /** A batch of one row per channel has at most one row of any channel. */
  lemma {:induction false} BatchShares(batch: seq<Row>, d: string)
    requires forall i, j :: 0 <= i < j < |batch| ==> batch[i].channel != batch[j].channel
    ensures Share(batch, d) <= 1
  {
    if batch != [] {
      var init, last := batch[..|batch| - 1], batch[|batch| - 1];
      BatchShares(init, d);
      assert batch == init + [last];
      OfSnoc(init, last, d);
      ChannelsByShare(init, d);
      assert last.channel !in Channels(init);
    }
  }

  lemma {:induction false} OfConcat(s: seq<Row>, u: seq<Row>, d: string)
    ensures Of(s + u, d) == Of(s, d) + Of(u, d)
    decreases |u|
  {
    hide Of;
    if u == [] {
      assert s + u == s;
      OfEmpty(d);
    } else {
      var init, last := u[..|u| - 1], u[|u| - 1];
      OfConcat(s, init, d);
      OfSnoc(init, last, d);
      assert s + u == (s + init) + [last] && u == init + [last];
      OfSnoc(s + init, last, d);
    }
  }

  /** The fair selection from x and such a batch is the batch. */
  lemma CrowdIsSelected(x: Row, hot: seq<string>, limit: nat, base: nat)
    requires Crowd(hot, limit, x.channel)
    ensures FairSelection([x] + Batch(x.line, hot, base), limit, Batch(x.line, hot, base))
  {
    var sel := Batch(x.line, hot, base);
    var w := [x] + sel;
    hide Of;
    forall d
      ensures Of(w, d) == Of([x], d) + Of(sel, d)
      ensures Of([x], d) == if d == x.channel then [x] else []
      ensures Share(sel, d) <= 1
      ensures Share(sel, d) > 0 ==> Before(d, x.channel)
    {
      OfConcat([x], sel, d);
      OfSnoc([], x, d);
      OfEmpty(d);
      assert [] + [x] == [x];
      BatchShares(sel, d);
      OfMembers(sel, d);
      if Share(sel, d) > 0 { assert Of(sel, d)[0] in sel; }
    }
    forall a, b | Before(a, b) && Share(sel, b) > Share(sel, a)
      ensures Share(sel, a) == Share(w, a)
    {
      BeforeTotal(a, b);
    }
    BeforeTotal(x.channel, x.channel);
    assert Of(sel, x.channel) == [];
  }

  lemma OfEmpty(d: string)
    ensures Of([], d) == []
  {
  }

  lemma NumberedIncreases(rows: seq<Row>)
    requires Numbered(rows)
    ensures Increasing(rows)
  {
  }

  /** If x is the only pending row, it is all a query finds. */
  lemma OnlyPending(rows: seq<Row>, published: set<nat>, x: Row)
    requires Increasing(rows) && x in rows && x.id !in published
    requires forall y :: y in rows && y.line == x.line && y.id !in published ==> y == x
    ensures Pending(rows, x.line, published) == [x]
  {
    var p := Pending(rows, x.line, published);
    PendingMembers(rows, x.line, published);
    PendingIncreasing(rows, x.line, published);
    hide Pending;
    RowSetSize(p);
    assert (set y | y in p) == {x};
    assert p[0] in p;
  }

  /** A batch arrives and a pass takes all of it and nothing else. */
  lemma StuckRound(t: Table, x: Row, hot: seq<string>, limit: nat) returns (es: seq<Move>, t': Table)
    requires Inv(t) && Stuck(t, x) && 0 < limit && Crowd(hot, limit, x.channel)
    ensures Run(t, es, t') && Inv(t') && Stuck(t', x) && Successes(es, x.line) == 1
    ensures forall e :: e in es && e.Pass? ==> e.limit == limit
  {
    var batch := Batch(x.line, hot, |t.rows|);
    var t1 := t.(rows := t.rows + batch);
    PublishedAreOld(t);
    var pre := InsertAll(t, batch, x.line);
    var pass := Pass(x.line, limit, batch, limit, limit);
    TakesTheBatch(t1, x, hot, limit, |t.rows|);
    t' := Next(t1, pass);
    StillStuck(t, t', x, batch);
    hide Enabled, Next, Inv, Stuck, Numbered;
    RunInv(t, pre, t1);
    StepInv(t1, pass);
    OneStep(t1, pass);
    RunConcat(t, pre, t1, [pass], t', x.line);
    es := pre + [pass];
  }

  lemma PublishedAreOld(t: Table)
    requires Inv(t) && Numbered(t.rows)
    ensures forall i :: i in t.published ==> i < |t.rows|
  {
    forall i | i in t.published
      ensures i < |t.rows|
    {
      var y :| y in t.rows && y.id == i;
    }
  }

  lemma TakesTheBatch(t: Table, x: Row, hot: seq<string>, limit: nat, base: nat)
    requires 0 < limit && Crowd(hot, limit, x.channel)
    requires Pending(t.rows, x.line, t.published) == [x] + Batch(x.line, hot, base)
    ensures var batch := Batch(x.line, hot, base); var pass := Pass(x.line, limit, batch, limit, limit);
      && Enabled(t, pass) && Next(t, pass).rows == t.rows && Next(t, pass).published == t.published + Ids(batch)
  {
    hide Pending, FairSelection;
    CrowdIsSelected(x, hot, limit, base);
    var batch := Batch(x.line, hot, base);
    assert batch[..limit] == batch;
  }

  lemma StillStuck(t: Table, t': Table, x: Row, batch: seq<Row>)
    requires Stuck(t, x) && Numbered(t.rows + batch)
    requires t'.rows == t.rows + batch && t'.published == t.published + Ids(batch)
    ensures Stuck(t', x)
  {
    PendingMembers(t.rows, x.line, t.published);
    hide Pending;
    assert x in [x];
    NumberedIncreases(t'.rows);
    forall y | y in batch
      ensures y.id >= |t.rows|
    {
      var j :| 0 <= j < |batch| && batch[j] == y;
      assert t'.rows[|t.rows| + j] == y;
    }
    forall y | y in t.rows
      ensures y.id < |t.rows|
    {
      var i :| 0 <= i < |t.rows| && t.rows[i] == y;
      assert t'.rows[i] == y;
    }
    forall y | y in t'.rows && y.line == x.line && y.id !in t'.published
      ensures y == x
    {
      assert y in t.rows || y in batch;
      assert y in Pending(t.rows, x.line, t.published);
    }
    OnlyPending(t'.rows, t'.published, x);
  }

  /**
   Without room a channel can starve for ever. For every limit, every line, every channel c and any
   `limit` channels that sort before it, and for every n, there is a run of n successful passes, fed
   by new rows of those channels, that never publishes the oldest row of the line, which is c's.
   */
  lemma {:induction false} CrowdedStarves(n: nat, limit: nat, line: string, c: string, hot: seq<string>)
    returns (es: seq<Move>, t: Table)
    requires 0 < limit && Crowd(hot, limit, c)
    ensures Run(EMPTY, es, t) && Inv(t) && Stuck(t, Row(0, line, c)) && Successes(es, line) == n
    ensures forall e :: e in es && e.Pass? ==> e.limit == limit
    ensures Row(0, line, c) in t.rows && 0 !in t.published
  {
    var x := Row(0, line, c);
    if n == 0 {
      t := InsertOne(EMPTY, x, line);
      es := [Insert(x)];
      RunInv(EMPTY, es, t);
      assert [] + [x] == [x];
      PendingSnoc([], x, line, {});
    } else {
      hide Enabled, Next, Inv, Crowd;
      var pre, t1 := CrowdedStarves(n - 1, limit, line, c, hot);
      var round;
      round, t := StuckRound(t1, x, hot, limit);
      RunConcat(EMPTY, pre, t1, round, t, line);
      es := pre + round;
    }
    StuckIsPending(t, x);
  }

  lemma StuckIsPending(t: Table, x: Row)
    requires Stuck(t, x)
    ensures x.id !in t.published
  {
    PendingMembers(t.rows, x.line, t.published);
    assert x in [x];
  }

  lemma {:induction false} RunConcat(t: Table, xs: seq<Move>, t1: Table, ys: seq<Move>, t2: Table, line: string)
    requires Run(t, xs, t1) && Run(t1, ys, t2)
    ensures Run(t, xs + ys, t2) && Successes(xs + ys, line) == Successes(xs, line) + Successes(ys, line)
    decreases |xs|
  {
    hide Next, Enabled;
    if xs == [] {
      assert xs + ys == ys;
    } else {
      RunConcat(Next(t, xs[0]), xs[1..], t1, ys, t2, line);
      assert (xs + ys)[1..] == xs[1..] + ys;
    }
  }
}
