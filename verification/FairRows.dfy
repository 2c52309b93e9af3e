/** Bounded round-robin selection of outbox rows by channel. */
module FairRows {

  /** An outbox row; `channel` is the decoded channel name, one fixed name for undecodable payloads. */
  datatype Row = Row(id: nat, line: string, channel: string)

  // ---------- channel order ----------

  /** The order in which channels are visited. */
  predicate Before(a: string, b: string) {
    b != [] && (a == [] || a[0] < b[0] || (a[0] == b[0] && Before(a[1..], b[1..])))
  }

  lemma {:induction false} BeforeTotal(a: string, b: string)
    ensures a == b || Before(a, b) || Before(b, a)
    ensures !(Before(a, b) && Before(b, a)) && !Before(a, a)
  {
    if a != [] && b != [] && a[0] == b[0] {
      BeforeTotal(a[1..], b[1..]);
      if a[1..] == b[1..] {
        assert a == [a[0]] + a[1..] && b == [b[0]] + b[1..];
      }
    }
    if a != [] {
      BeforeIrreflexive(a);
    }
  }

  lemma {:induction false} BeforeIrreflexive(a: string)
    ensures !Before(a, a)
  {
    if a != [] {
      BeforeIrreflexive(a[1..]);
    }
  }

  lemma {:induction false} BeforeTransitive(a: string, b: string, c: string)
    requires Before(a, b) && Before(b, c)
    ensures Before(a, c)
  {
    if a != [] && a[0] == b[0] == c[0] {
      BeforeTransitive(a[1..], b[1..], c[1..]);
    }
  }

  /** It is the order of a dictionary: a proper prefix comes first, else the first difference decides. */
  lemma {:induction false} BeforeIsLexicographic(a: string, b: string)
    ensures Before(a, b) <==> (a <= b && a != b) || exists k: nat :: DiffersAt(a, b, k) && a[k] < b[k]
  {
    if a != [] && b != [] {
      if a[0] != b[0] {
        assert DiffersAt(a, b, 0);
        assert forall k: nat :: DiffersAt(a, b, k) ==> k == 0;
      } else {
        BeforeIsLexicographic(a[1..], b[1..]);
        assert a == [a[0]] + a[1..] && b == [b[0]] + b[1..];
        forall k: nat | DiffersAt(a[1..], b[1..], k)
          ensures DiffersAt(a, b, k + 1)
        {
          assert a[..k + 1] == [a[0]] + a[1..][..k] && b[..k + 1] == [b[0]] + b[1..][..k];
        }
        forall k: nat | DiffersAt(a, b, k)
          ensures k > 0 && DiffersAt(a[1..], b[1..], k - 1)
        {
          assert a[1..][..k - 1] == a[..k][1..] && b[1..][..k - 1] == b[..k][1..];
        }
      }
    }
  }

  /** The two names agree up to position k and differ there. */
  predicate DiffersAt(a: string, b: string, k: nat) {
    k < |a| && k < |b| && a[..k] == b[..k] && a[k] != b[k]
  }

  predicate Sorted(cs: seq<string>) {
    forall i, j :: 0 <= i < j < |cs| ==> Before(cs[i], cs[j])
  }

  // ---------- channels of rows ----------

  /** The rows of one channel, in order. */
  function Of(rows: seq<Row>, c: string): seq<Row> {
    if rows == [] then []
    else
      var last := rows[|rows| - 1];
      Of(rows[..|rows| - 1], c) + (if last.channel == c then [last] else [])
  }

  lemma OfSnoc(rows: seq<Row>, x: Row, c: string)
    ensures Of(rows + [x], c) == Of(rows, c) + (if x.channel == c then [x] else [])
  {
    assert (rows + [x])[..|rows|] == rows;
  }

  /** How many rows of a channel there are. */
  function Share(rows: seq<Row>, c: string): nat {
    |Of(rows, c)|
  }

  lemma {:induction false} OfMembers(rows: seq<Row>, c: string)
    ensures forall x :: x in Of(rows, c) <==> x in rows && x.channel == c
  {
    if rows != [] {
      var init, last := rows[..|rows| - 1], rows[|rows| - 1];
      OfMembers(init, c);
      assert rows == init + [last];
    }
  }

  lemma {:induction false} OfMultiset(rows: seq<Row>, x: Row)
    ensures multiset(Of(rows, x.channel))[x] == multiset(rows)[x]
  {
    if rows != [] {
      var init, last := rows[..|rows| - 1], rows[|rows| - 1];
      OfMultiset(init, x);
      assert rows == init + [last];
      if last.channel == x.channel {
        assert multiset(Of(rows, x.channel)) == multiset(Of(init, x.channel)) + multiset{last};
      }
    }
  }

  /** If each channel's rows are a prefix of another sequence's, nothing is invented and nothing repeated. */
  lemma PrefixesAreSubset(s: seq<Row>, t: seq<Row>)
    requires forall c :: Of(s, c) <= Of(t, c)
    ensures multiset(s) <= multiset(t) && |s| <= |t|
  {
    hide Of;
    forall x: Row
      ensures multiset(s)[x] <= multiset(t)[x]
    {
      OfMultiset(s, x);
      OfMultiset(t, x);
      PrefixMultiset(Of(s, x.channel), Of(t, x.channel), x);
    }
    SubsetSize(s, t);
  }

  lemma PrefixMultiset(p: seq<Row>, q: seq<Row>, x: Row)
    requires p <= q
    ensures multiset(p)[x] <= multiset(q)[x]
  {
    assert q == p + q[|p|..];
  }

  lemma SubsetSize(s: seq<Row>, t: seq<Row>)
    requires multiset(s) <= multiset(t)
    ensures |s| <= |t|
  {
    assert multiset(t) == multiset(s) + (multiset(t) - multiset(s));
    assert |multiset(t)| == |t| && |multiset(s)| == |s|;
  }

  // ---------- what a fair selection is ----------

  /**
   A fair selection of at most `limit` rows: as many rows as allowed, a prefix of every
   channel, and a channel falls behind another by more than the round-robin order
   explains only if it has no rows left.
   */
  ghost predicate FairSelection(rows: seq<Row>, limit: nat, sel: seq<Row>) {
    && |sel| == (if |rows| <= limit then |rows| else limit)
    && (forall c :: Of(sel, c) <= Of(rows, c))
    && (forall a, b :: Share(sel, b) > Share(sel, a) + 1 ==> Share(sel, a) == Share(rows, a))
    && (forall a, b :: Before(a, b) && Share(sel, b) > Share(sel, a) ==> Share(sel, a) == Share(rows, a))
  }

  lemma SameSizeSubset<T>(a: multiset<T>, b: multiset<T>)
    requires a <= b && |a| == |b|
    ensures a == b
  {
    assert b == a + (b - a);
    assert |b - a| == 0;
  }

  /** The rows of a channel depend, up to order, on the rows up to order only. */
  lemma OfRespectsMultiset(s: seq<Row>, t: seq<Row>, c: string)
    requires multiset(s) == multiset(t)
    ensures multiset(Of(s, c)) == multiset(Of(t, c)) && Share(s, c) == Share(t, c)
  {
    var p, q := Of(s, c), Of(t, c);
    forall x: Row
      ensures multiset(p)[x] == multiset(q)[x]
    {
      if x.channel == c {
        OfMultiset(s, x);
        OfMultiset(t, x);
      } else {
        OfMembers(s, c);
        OfMembers(t, c);
        assert x !in p && x !in q;
      }
    }
    assert multiset(p) == multiset(q);
    assert |p| == |multiset(p)| && |q| == |multiset(q)|;
  }

  lemma SharesAgreeAt(s: seq<Row>, t: seq<Row>, c: string)
    requires Of(s, c) <= Of(t, c) && multiset(s) == multiset(t)
    ensures Of(s, c) == Of(t, c)
  {
    OfRespectsMultiset(s, t, c);
    hide Of;
    assert Of(t, c)[..|Of(s, c)|] == Of(t, c);
  }

  lemma SharesAgree(s: seq<Row>, t: seq<Row>)
    requires forall c :: Of(s, c) <= Of(t, c)
    requires |s| == |t|
    ensures multiset(s) == multiset(t) && forall c :: Of(s, c) == Of(t, c)
  {
    PrefixesAreSubset(s, t);
    assert |multiset(s)| == |s| && |multiset(t)| == |t|;
    SameSizeSubset(multiset(s), multiset(t));
    forall c
      ensures Of(s, c) == Of(t, c)
    {
      SharesAgreeAt(s, t, c);
    }
  }

  /** Two fair selections cannot favour different channels. */
  lemma NoCrossing(rows: seq<Row>, limit: nat, s: seq<Row>, t: seq<Row>, a: string, b: string)
    requires FairSelection(rows, limit, s) && FairSelection(rows, limit, t)
    ensures Share(s, a) >= Share(t, a) || Share(s, b) <= Share(t, b)
  {
    hide Of, Before;
    assert Of(t, a) <= Of(rows, a) && Of(s, b) <= Of(rows, b);
    assert Share(t, a) <= Share(rows, a) && Share(s, b) <= Share(rows, b);
    BeforeTotal(a, b);
  }

  lemma PrefixByShare(rows: seq<Row>, limit: nat, s: seq<Row>, t: seq<Row>)
    requires FairSelection(rows, limit, s) && FairSelection(rows, limit, t)
    requires forall c :: Share(s, c) <= Share(t, c)
    ensures multiset(s) == multiset(t) && forall c :: Of(s, c) == Of(t, c)
  {
    forall c
      ensures Of(s, c) <= Of(t, c)
    {
      assert Of(s, c) <= Of(rows, c) && Of(t, c) <= Of(rows, c) && Share(s, c) <= Share(t, c);
    }
    SharesAgree(s, t);
  }

  /**
   Fairness leaves no choice: any two fair selections from the same rows take exactly
   the same rows of every channel.
   */
  lemma FairSelectionIsUnique(rows: seq<Row>, limit: nat, s: seq<Row>, t: seq<Row>)
    requires FairSelection(rows, limit, s) && FairSelection(rows, limit, t)
    ensures multiset(s) == multiset(t) && forall c :: Of(s, c) == Of(t, c)
  {
    forall a, b
      ensures Share(s, a) >= Share(t, a) || Share(s, b) <= Share(t, b)
    {
      NoCrossing(rows, limit, s, t, a, b);
    }
    if forall c :: Share(s, c) <= Share(t, c) {
      PrefixByShare(rows, limit, s, t);
    } else {
      PrefixByShare(rows, limit, t, s);
    }
  }

  // ---------- the order of a selection ----------

  /** The round in which row i of a selection was taken: how many rows of its channel precede it. */
  function Turn(sel: seq<Row>, i: nat): nat
    requires i < |sel|
  {
    Share(sel[..i], sel[i].channel)
  }

  /** Round q for channel c comes before round r for channel d. */
  predicate Sooner(q: nat, c: string, r: nat, d: string) {
    q < r || (q == r && Before(c, d))
  }

  /** Rows are ordered by round, and within a round by channel. */
  ghost predicate InRounds(sel: seq<Row>) {
    forall i, j :: 0 <= i < j < |sel| ==> Sooner(Turn(sel, i), sel[i].channel, Turn(sel, j), sel[j].channel)
  }

  /** A row is the one of its channel that its turn says. */
  lemma {:induction false} TurnRow(sel: seq<Row>, i: nat)
    requires i < |sel|
    ensures Turn(sel, i) < Share(sel, sel[i].channel) && Of(sel, sel[i].channel)[Turn(sel, i)] == sel[i]
  {
    hide Of;
    var c, x := sel[i].channel, sel[i];
    var p, all := Of(sel[..i], c), Of(sel, c);
    OfSnoc(sel[..i], x, c);
    assert sel[..i + 1] == sel[..i] + [x];
    OfPrefix(sel, i + 1, c);
    assert p + [x] <= all;
    assert all[|p|] == (p + [x])[|p|];
  }

  lemma {:induction false} OfPrefix(s: seq<Row>, n: nat, c: string)
    requires n <= |s|
    ensures Of(s[..n], c) <= Of(s, c)
    decreases |s| - n
  {
    if n < |s| {
      OfPrefix(s, n + 1, c);
      assert s[..n + 1][..n] == s[..n];
    } else {
      assert s[..n] == s;
    }
  }

  /** Every turn of a channel up to its share is some row's. */
  lemma {:induction false} SomeTurn(sel: seq<Row>, c: string, q: nat) returns (i: nat)
    requires q < Share(sel, c)
    ensures i < |sel| && sel[i].channel == c && Turn(sel, i) == q
    decreases |sel|
  {
    hide Of;
    if sel == [] {
      OfNone(c);
    }
    var init, last := sel[..|sel| - 1], sel[|sel| - 1];
    assert sel == init + [last];
    OfSnoc(init, last, c);
    if q < Share(init, c) {
      i := SomeTurn(init, c, q);
      assert sel[..i] == init[..i];
    } else {
      i := |sel| - 1;
    }
  }

  lemma OfNone(c: string)
    ensures Of([], c) == []
  {
  }

  /** Two orderly selections of the same rows cannot part at any position. */
  lemma NoFirstDifference(s: seq<Row>, t: seq<Row>, i: nat)
    requires InRounds(s) && InRounds(t) && i < |s| && i < |t| && s[..i] == t[..i]
    requires forall c :: Of(s, c) == Of(t, c)
    ensures !Sooner(Turn(s, i), s[i].channel, Turn(t, i), t[i].channel)
  {
    hide Of;
    var q, c := Turn(s, i), s[i].channel;
    TurnRow(s, i);
    var j := SomeTurn(t, c, q);
    forall l | 0 <= l < i
      ensures Sooner(Turn(t, l), t[l].channel, q, c)
    {
      assert s[..i][..l] == s[..l] && t[..i][..l] == t[..l];
      assert t[l] == t[..i][l] && s[l] == s[..i][l];
      assert Sooner(Turn(s, l), s[l].channel, q, c);
    }
    BeforeTotal(c, c);
    assert i <= j;
    BeforeTotal(c, t[i].channel);
    assert i < j ==> Sooner(Turn(t, i), t[i].channel, q, c);
  }

  lemma SameRow(s: seq<Row>, t: seq<Row>, i: nat)
    requires InRounds(s) && InRounds(t) && i < |s| && i < |t| && s[..i] == t[..i]
    requires forall c :: Of(s, c) == Of(t, c)
    ensures s[i] == t[i]
  {
    hide Of, InRounds;
    NoFirstDifference(s, t, i);
    NoFirstDifference(t, s, i);
    BeforeTotal(s[i].channel, t[i].channel);
    TurnRow(s, i);
    TurnRow(t, i);
  }

  lemma {:induction false} SamePrefix(s: seq<Row>, t: seq<Row>, n: nat)
    requires InRounds(s) && InRounds(t) && n <= |s| && n <= |t|
    requires forall c :: Of(s, c) == Of(t, c)
    ensures s[..n] == t[..n]
  {
    hide Of, InRounds;
    if n > 0 {
      SamePrefix(s, t, n - 1);
      SameRow(s, t, n - 1);
      assert s[..n] == s[..n - 1] + [s[n - 1]] && t[..n] == t[..n - 1] + [t[n - 1]];
    }
  }

  /** Fairness and the order of rounds leave no choice at all: they determine the selected sequence. */
  lemma SelectionIsDetermined(rows: seq<Row>, limit: nat, s: seq<Row>, t: seq<Row>)
    requires FairSelection(rows, limit, s) && FairSelection(rows, limit, t) && InRounds(s) && InRounds(t)
    ensures s == t
  {
    FairSelectionIsUnique(rows, limit, s, t);
    hide Of, InRounds;
    SamePrefix(s, t, |s|);
    assert s[..|s|] == s && t[..|t|] == t;
  }

  /** In the middle of round r, with the channels from number x on still to be served in it. */
  ghost predicate Through(sel: seq<Row>, channels: seq<string>, r: nat, x: nat) {
    && InRounds(sel)
    && (forall i :: 0 <= i < |sel| ==> Turn(sel, i) <= r)
    && forall i, j :: 0 <= i < |sel| && x <= j < |channels| ==> Sooner(Turn(sel, i), sel[i].channel, r, channels[j])
  }

  /** Taking the next channel's row keeps the order. */
  lemma ThroughStep(sel: seq<Row>, channels: seq<string>, r: nat, x: nat, row: Row)
    requires Through(sel, channels, r, x) && Sorted(channels) && x < |channels|
    requires row.channel == channels[x] && Share(sel, row.channel) == r
    ensures Through(sel + [row], channels, r, x + 1)
  {
    hide Of, Share, Before;
    var sel' := sel + [row];
    forall i | 0 <= i < |sel|
      ensures Turn(sel', i) == Turn(sel, i) && sel'[i] == sel[i]
    {
      assert sel'[..i] == sel[..i];
    }
    assert sel'[..|sel|] == sel;
    assert Turn(sel', |sel|) == r;
  }

  lemma ThroughSkip(sel: seq<Row>, channels: seq<string>, r: nat, x: nat)
    requires Through(sel, channels, r, x)
    ensures Through(sel, channels, r, x + 1)
  {
    hide InRounds, Turn, Sooner;
  }

  /** After a round the next one begins. */
  lemma ThroughNext(sel: seq<Row>, channels: seq<string>, r: nat)
    requires Through(sel, channels, r, |channels|)
    ensures Through(sel, channels, r + 1, 0)
  {
    hide InRounds, Turn, Before;
  }

  // ---------- the selection ----------

  /** Shares in the middle of round r, with the first x channels already served in it. */
  ghost predicate Level(rows: seq<Row>, channels: seq<string>, sel: seq<Row>, r: nat, x: nat) {
    forall j :: 0 <= j < |channels| ==> Share(sel, channels[j]) == Quota(Share(rows, channels[j]), r, j < x)
  }

  function Quota(have: nat, r: nat, served: bool): nat {
    var turns := if served then r + 1 else r;
    if have < turns then have else turns
  }

  /** Every channel of the rows is listed. */
  ghost predicate Lists(channels: seq<string>, rows: seq<Row>) {
    Sorted(channels) && forall c :: Share(rows, c) > 0 ==> c in channels
  }

  lemma LevelPair(rows: seq<Row>, channels: seq<string>, sel: seq<Row>, r: nat, x: nat, a: string, b: string)
    requires Lists(channels, rows) && Level(rows, channels, sel, r, x)
    requires Share(sel, b) <= Share(rows, b) && Share(sel, a) < Share(rows, a) && Share(sel, b) > Share(sel, a)
    ensures Share(sel, b) <= Share(sel, a) + 1 && !Before(a, b)
  {
    hide Of, Before, Share;
    var i :| 0 <= i < |channels| && channels[i] == a;
    var j :| 0 <= j < |channels| && channels[j] == b;
    BeforeTotal(a, b);
  }

  lemma LevelIsFair(rows: seq<Row>, channels: seq<string>, limit: nat, sel: seq<Row>, r: nat, x: nat)
    requires Lists(channels, rows) && Level(rows, channels, sel, r, x) && |rows| > limit && |sel| == limit
    requires forall c :: Of(sel, c) <= Of(rows, c)
    ensures FairSelection(rows, limit, sel)
  {
    hide Of, Before, Lists, Level;
    forall c
      ensures Share(sel, c) <= Share(rows, c)
    {
      assert Of(sel, c) <= Of(rows, c);
    }
    forall a, b | Share(sel, b) > Share(sel, a) && Share(sel, a) < Share(rows, a)
      ensures Share(sel, b) <= Share(sel, a) + 1 && !Before(a, b)
    {
      LevelPair(rows, channels, sel, r, x, a, b);
    }
  }

  method GroupByChannel(rows: seq<Row>) returns (groups: map<string, seq<Row>>)
    ensures forall c :: c in groups <==> Share(rows, c) > 0
    ensures forall c :: c in groups ==> groups[c] == Of(rows, c)
  {
    assert forall c :: Of([], c) == [] && rows[..0] == [];
    hide Of;
    groups := map[];
    for i := 0 to |rows|
      invariant forall c :: c in groups <==> Share(rows[..i], c) > 0
      invariant forall c :: c in groups ==> groups[c] == Of(rows[..i], c)
    {
      var row := rows[i];
      forall c {
        OfSnoc(rows[..i], row, c);
      }
      assert rows[..i + 1] == rows[..i] + [row];
      groups := groups[row.channel := (if row.channel in groups then groups[row.channel] else []) + [row]];
    }
    assert rows[..|rows|] == rows;
  }

  /** Insert a name into a sorted list of other names. */
  method InsertSorted(cs: seq<string>, c: string) returns (r: seq<string>)
    requires Sorted(cs) && c !in cs
    ensures Sorted(r) && forall d :: d in r <==> d in cs || d == c
  {
    var i := 0;
    while i < |cs| && Before(cs[i], c)
      invariant 0 <= i <= |cs|
      invariant forall j :: 0 <= j < i ==> Before(cs[j], c)
    {
      i := i + 1;
    }
    forall j | i <= j < |cs|
      ensures Before(c, cs[j])
    {
      BeforeTotal(cs[i], c);
      if i < j {
        BeforeTransitive(c, cs[i], cs[j]);
      }
    }
    r := cs[..i] + [c] + cs[i..];
  }

  method SortedKeys(keys: set<string>) returns (cs: seq<string>)
    ensures Sorted(cs) && forall c :: c in cs <==> c in keys
  {
    cs := [];
    var rest := keys;
    while rest != {}
      invariant Sorted(cs) && rest <= keys
      invariant forall c :: c in cs <==> c in keys && c !in rest
    {
      var c :| c in rest;
      cs := InsertSorted(cs, c);
      rest := rest - {c};
    }
  }

  /** Rows taken so far and rows left make up each channel. */
  ghost predicate Splits(rows: seq<Row>, groups: map<string, seq<Row>>, sel: seq<Row>) {
    forall c :: Of(sel, c) + (if c in groups then groups[c] else []) == Of(rows, c)
  }

  lemma HeadChannel(rows: seq<Row>, groups: map<string, seq<Row>>, sel: seq<Row>, c: string)
    requires Splits(rows, groups, sel) && c in groups && groups[c] != []
    ensures groups[c][0].channel == c
  {
    hide Of;
    OfMembers(rows, c);
    assert Of(rows, c) == Of(sel, c) + groups[c];
    assert Of(rows, c)[|Of(sel, c)|] == groups[c][0];
  }

  lemma TakeHead(rows: seq<Row>, groups: map<string, seq<Row>>, sel: seq<Row>, c: string)
    requires Splits(rows, groups, sel) && c in groups && groups[c] != []
    ensures groups[c][0].channel == c
    ensures Splits(rows, groups[c := groups[c][1..]], sel + [groups[c][0]])
    ensures forall d :: Share(sel + [groups[c][0]], d) == Share(sel, d) + (if d == c then 1 else 0)
  {
    hide Of;
    var x, groups' := groups[c][0], groups[c := groups[c][1..]];
    HeadChannel(rows, groups, sel, c);
    forall d
      ensures Of(sel + [x], d) == Of(sel, d) + (if d == c then [x] else [])
      ensures Of(sel + [x], d) + (if d in groups' then groups'[d] else []) == Of(rows, d)
    {
      OfSnoc(sel, x, d);
      assert Of(sel, d) + (if d in groups then groups[d] else []) == Of(rows, d);
      if d == c {
        assert Of(sel, c) + groups[c] == (Of(sel, c) + [x]) + groups[c][1..];
      }
    }
  }

  lemma SplitsArePrefixes(rows: seq<Row>, groups: map<string, seq<Row>>, sel: seq<Row>)
    requires Splits(rows, groups, sel)
    ensures forall c :: Of(sel, c) <= Of(rows, c)
    ensures |sel| <= |rows|
  {
    hide Of;
    forall c
      ensures Of(sel, c) <= Of(rows, c)
    {
      assert Of(rows, c) == Of(sel, c) + (if c in groups then groups[c] else []);
    }
    PrefixesAreSubset(sel, rows);
  }

  /** When no group has rows left, everything was taken. */
  lemma NothingLeft(rows: seq<Row>, groups: map<string, seq<Row>>, sel: seq<Row>)
    requires Splits(rows, groups, sel) && forall c :: c in groups ==> groups[c] == []
    ensures |sel| == |rows|
  {
    hide Of;
    forall c
      ensures Of(sel, c) == Of(rows, c)
    {
      assert Of(rows, c) == Of(sel, c) + (if c in groups then groups[c] else []);
    }
    PrefixesAreSubset(sel, rows);
    PrefixesAreSubset(rows, sel);
  }

  /** Serving channel number x, or skipping it because it is empty, moves the round on by one. */
  lemma LevelStep(rows: seq<Row>, channels: seq<string>, groups: map<string, seq<Row>>,
                  sel: seq<Row>, sel': seq<Row>, r: nat, x: nat)
    requires Sorted(channels) && x < |channels| && channels[x] in groups
    requires Splits(rows, groups, sel) && Level(rows, channels, sel, r, x)
    requires if groups[channels[x]] == [] then sel' == sel
             else forall d :: Share(sel', d) == Share(sel, d) + (if d == channels[x] then 1 else 0)
    ensures Level(rows, channels, sel', r, x + 1)
  {
    var c := channels[x];
    assert Of(rows, c) == Of(sel, c) + groups[c];
    hide Of;
    forall j | 0 <= j < |channels|
      ensures Share(sel', channels[j]) == Quota(Share(rows, channels[j]), r, j < x + 1)
    {
      if j != x {
        assert Before(channels[j], c) || Before(c, channels[j]);
        BeforeTotal(c, c);
      }
    }
  }

  /** A channel with rows left has had one row in each round so far. */
  lemma NextTurn(rows: seq<Row>, channels: seq<string>, groups: map<string, seq<Row>>, sel: seq<Row>, r: nat, x: nat)
    requires x < |channels| && channels[x] in groups && groups[channels[x]] != []
    requires Splits(rows, groups, sel) && Level(rows, channels, sel, r, x)
    ensures Share(sel, channels[x]) == r
  {
    var c := channels[x];
    assert Of(rows, c) == Of(sel, c) + groups[c];
    hide Of;
  }

  lemma RoundDone(rows: seq<Row>, channels: seq<string>, sel: seq<Row>, r: nat)
    requires Level(rows, channels, sel, r, |channels|)
    ensures Level(rows, channels, sel, r + 1, 0)
  {
    hide Of;
  }

  ghost predicate Keyed(groups: map<string, seq<Row>>, channels: seq<string>) {
    forall c :: c in groups <==> c in channels
  }

  /** One round over the channels: each one with rows left gives its oldest, until the limit is reached. */
  method ServeRound(rows: seq<Row>, channels: seq<string>, groups0: map<string, seq<Row>>, selected0: seq<Row>,
                    limit: nat, ghost r: nat)
    returns (groups: map<string, seq<Row>>, selected: seq<Row>, progress: bool)
    requires |selected0| < limit < |rows| && Lists(channels, rows) && Keyed(groups0, channels)
    requires Splits(rows, groups0, selected0) && Level(rows, channels, selected0, r, 0)
    requires Through(selected0, channels, r, 0)
    ensures |selected0| <= |selected| <= limit && Keyed(groups, channels) && Splits(rows, groups, selected)
    ensures progress ==> |selected0| < |selected|
    ensures !progress ==> |selected| == |rows|
    ensures if |selected| < limit then Level(rows, channels, selected, r + 1, 0)
            else FairSelection(rows, limit, selected)
    ensures InRounds(selected) && (|selected| < limit ==> Through(selected, channels, r + 1, 0))
  {
    hide Of, Share, Level, Splits, Lists, FairSelection, Through, InRounds;
    assert Sorted(channels) by { ListsSorted(channels, rows); }
    groups, selected, progress := groups0, selected0, false;
    for x := 0 to |channels|
      invariant |selected| < limit && Keyed(groups, channels)
      invariant Splits(rows, groups, selected) && Level(rows, channels, selected, r, x)
      invariant Through(selected, channels, r, x)
      invariant if progress then |selected0| < |selected| else |selected0| == |selected|
      invariant !progress ==> forall j :: 0 <= j < x ==> groups[channels[j]] == []
    {
      var c := channels[x];
      assert c in channels;
      if |groups[c]| == 0 {
        LevelStep(rows, channels, groups, selected, selected, r, x);
        ThroughSkip(selected, channels, r, x);
        continue;
      }
      TakeHead(rows, groups, selected, c);
      NextTurn(rows, channels, groups, selected, r, x);
      ThroughStep(selected, channels, r, x, groups[c][0]);
      LevelStep(rows, channels, groups, selected, selected + [groups[c][0]], r, x);
      selected := selected + [groups[c][0]];
      groups := groups[c := groups[c][1..]];
      progress := true;
      if |selected| == limit {
        SplitsArePrefixes(rows, groups, selected);
        LevelIsFair(rows, channels, limit, selected, r, x + 1);
        ThroughInRounds(selected, channels, r, x + 1);
        return;
      }
    }
    RoundDone(rows, channels, selected, r);
    ThroughNext(selected, channels, r);
    ThroughInRounds(selected, channels, r + 1, 0);
    if !progress {
      NothingLeft(rows, groups, selected);
    }
  }

  /**
   `selectFairRows`. All rows as they are if they fit; otherwise the fair selection, by rounds and within a
   round by channel name, which is one sequence only.
   */
  method SelectFairRows(rows: seq<Row>, limit: nat) returns (selected: seq<Row>)
    ensures FairSelection(rows, limit, selected)
    ensures |rows| <= limit ==> selected == rows
    ensures |rows| > limit ==>
      forall i, j :: 0 <= i < j < |selected| ==>
        var q, r := Share(selected[..i], selected[i].channel), Share(selected[..j], selected[j].channel);
        q < r || (q == r && Before(selected[i].channel, selected[j].channel))
  {
    hide Of, Share, Level, Splits, Lists, FairSelection, Through, InRounds;
    if |rows| <= limit {
      AllIsFair(rows, limit);
      return rows;
    }
    var groups := GroupByChannel(rows);
    var channels := SortedKeys(groups.Keys);
    selected := [];
    StartsFair(rows, groups, channels, limit);
    StartsThrough(channels);
    ghost var r := 0;
    while |selected| < limit
      invariant |selected| <= limit && Keyed(groups, channels)
      invariant Splits(rows, groups, selected) && InRounds(selected)
      invariant if |selected| < limit then Level(rows, channels, selected, r, 0)
                else FairSelection(rows, limit, selected)
      invariant |selected| < limit ==> Through(selected, channels, r, 0)
      decreases limit - |selected|
    {
      var progress;
      groups, selected, progress := ServeRound(rows, channels, groups, selected, limit, r);
      if !progress {
        break;
      }
      r := r + 1;
    }
    InRoundsMeans(selected);
  }

  lemma InRoundsMeans(sel: seq<Row>)
    requires InRounds(sel)
    ensures forall i, j :: 0 <= i < j < |sel| ==>
      var q, r := Share(sel[..i], sel[i].channel), Share(sel[..j], sel[j].channel);
      q < r || (q == r && Before(sel[i].channel, sel[j].channel))
  {
    hide Share, Before;
    forall i, j | 0 <= i < j < |sel|
      ensures Sooner(Share(sel[..i], sel[i].channel), sel[i].channel, Share(sel[..j], sel[j].channel), sel[j].channel)
    {
      assert Sooner(Turn(sel, i), sel[i].channel, Turn(sel, j), sel[j].channel);
    }
  }

  lemma StartsThrough(channels: seq<string>)
    ensures Through([], channels, 0, 0) && InRounds([])
  {
  }

  lemma ThroughInRounds(sel: seq<Row>, channels: seq<string>, r: nat, x: nat)
    requires Through(sel, channels, r, x)
    ensures InRounds(sel)
  {
  }

  lemma ListsSorted(channels: seq<string>, rows: seq<Row>)
    requires Lists(channels, rows)
    ensures Sorted(channels)
  {
  }

  lemma AllIsFair(rows: seq<Row>, limit: nat)
    requires |rows| <= limit
    ensures FairSelection(rows, limit, rows)
  {
    hide Of;
  }

  lemma StartsSplit(rows: seq<Row>, groups: map<string, seq<Row>>)
    requires forall c :: c in groups <==> Share(rows, c) > 0
    requires forall c :: c in groups ==> groups[c] == Of(rows, c)
    ensures Splits(rows, groups, [])
  {
    forall c
      ensures Of([], c) + (if c in groups then groups[c] else []) == Of(rows, c)
    {
      assert Of([], c) == [];
      assert c !in groups ==> Share(rows, c) == 0;
    }
  }

  lemma StartsLevel(rows: seq<Row>, channels: seq<string>)
    ensures Level(rows, channels, [], 0, 0)
  {
    assert forall c :: Of([], c) == [];
  }

  lemma StartsFair(rows: seq<Row>, groups: map<string, seq<Row>>, channels: seq<string>, limit: nat)
    requires |rows| > limit && Sorted(channels) && forall c :: c in channels <==> c in groups
    requires forall c :: c in groups <==> Share(rows, c) > 0
    requires forall c :: c in groups ==> groups[c] == Of(rows, c)
    ensures Splits(rows, groups, []) && Level(rows, channels, [], 0, 0) && Lists(channels, rows)
    ensures limit == 0 ==> FairSelection(rows, limit, [])
  {
    hide Splits, Of, Share, Level, Before, Sorted, FairSelection;
    StartsSplit(rows, groups);
    StartsLevel(rows, channels);
    if limit == 0 {
      SplitsArePrefixes(rows, groups, []);
      LevelIsFair(rows, channels, limit, [], 0, 0);
    }
  }
}
