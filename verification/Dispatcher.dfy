/** The dispatcher's code over the outbox table; every pass is a move of the outbox runs. */
module Dispatcher {
  import opened FairRows
  import opened Outbox

  /** What the infrastructure answers during one pass over a line. */
  datatype Answers = Answers(queries: bool, publishes: bool, confirms: nat -> bool, marks: nat -> bool) {
    /** Rows before position i were all confirmed and marked. */
    predicate FineUpTo(i: nat) {
      forall j | 0 <= j < i :: confirms(j) && marks(j)
    }
  }

  class Table {
    var rows: seq<Row>
    var published: set<nat>
    ghost var confirmed: set<nat>
    ghost var log: seq<Move>

    ghost function Value(): Outbox.Table
      reads this
    {
      Outbox.Table(rows, published, confirmed)
    }

    ghost predicate Valid()
      reads this
    {
      Run(EMPTY, log, Value()) && Inv(Value())
    }

    constructor ()
      ensures Valid() && rows == []
    {
      rows, published, confirmed, log := [], {}, {}, [];
    }

    /** The outbox insert: the sequence gives the new row a larger id. */
    method Enqueue(line: string, channel: string) returns (row: Row)
      requires Valid()
      modifies this
      ensures Valid() && log == old(log) + [Insert(row)]
      ensures rows == old(rows) + [row] && row.line == line && row.channel == channel
      ensures published == old(published)
    {
      hide Run;
      row := Row(if rows == [] then 0 else rows[|rows| - 1].id + 1, line, channel);
      assert Enabled(Value(), Insert(row));
      Extend(log, Value(), Insert(row));
      rows := rows + [row];
      log := log + [Insert(row)];
    }

    /** The query: pending rows of a line by id, at most 10 * limit of them. */
    method Fetch(line: string, limit: nat) returns (found: seq<Row>)
      ensures found == Window(Value(), line, limit)
    {
      found := [];
      var i := 0;
      while i < |rows| && |found| < 10 * limit
        invariant 0 <= i <= |rows| && |found| <= 10 * limit
        invariant found == Pending(rows[..i], line, published)
      {
        assert rows[..i + 1][..i] == rows[..i];
        if rows[i].line == line && rows[i].id !in published {
          found := found + [rows[i]];
        }
        i := i + 1;
      }
      PendingPrefix(rows, i, line, published);
      assert rows[..|rows|] == rows;
    }

    /**
     `publishLineBatch`. The marked rows are the selected ones up to the first that was not confirmed
     or could not be marked, and none if publishing failed; the call succeeds iff all were marked.
     A query that fails is no pass at all.
     */
    method PublishLineBatch(line: string, limit: nat, answers: Answers) returns (count: nat, ok: bool, ghost pass: Move)
      requires Valid()
      modifies this
      ensures Valid() && rows == old(rows)
      ensures !answers.queries ==> !ok && count == 0 && unchanged(this)
      ensures answers.queries ==>
        && log == old(log) + [pass] && IsPass(pass, line, limit)
        && published == old(published) + Ids(pass.selected[..pass.marks])
        && |pass.selected| == |Take(old(Window(Value(), line, limit)), limit)|
        && FairSelection(old(Window(Value(), line, limit)), limit, pass.selected)
        && (if |old(Window(Value(), line, limit))| <= limit then pass.selected == old(Window(Value(), line, limit))
            else InRounds(pass.selected))
        && (ok <==> pass.Succeeds()) && count == (if ok then |pass.selected| else 0)
        && answers.FineUpTo(pass.marks) && (!answers.publishes ==> pass.marks == 0)
        && (pass.marks < |pass.selected| && answers.publishes ==>
              !answers.confirms(pass.marks) || !answers.marks(pass.marks))
    {
      hide Run, Inv, FairSelection, Window;
      if !answers.queries { return 0, false, Insert(Row(0, line, [])); }
      ghost var start := Value();
      var found := Fetch(line, limit);
      var selected := SelectFairRows(found, limit);
      assert |found| > limit ==> InRounds(selected) by { OrderlyIsInRounds(selected); }
      assert |selected| == |Take(found, limit)| by { SelectionSize(found, limit, selected); }
      ghost var confirms;
      var i;
      i, confirms := MarkConfirmed(selected, answers);
      pass := Pass(line, limit, selected, confirms, i);
      Extend(log, start, pass);
      log := log + [pass];
      ok := i == |selected|;
      count := if ok then |selected| else 0;
    }

    /** Wait for the confirms in order, and mark each row as its confirm arrives; stop at the first problem. */
    method MarkConfirmed(selected: seq<Row>, answers: Answers) returns (i: nat, ghost confirms: nat)
      modifies this`published, this`confirmed
      ensures i <= confirms <= |selected| && answers.FineUpTo(i) && (!answers.publishes ==> i == 0)
      ensures i < |selected| && answers.publishes ==> !answers.confirms(i) || !answers.marks(i)
      ensures published == old(published) + Ids(selected[..i])
      ensures confirmed == old(confirmed) + Ids(selected[..confirms])
    {
      i, confirms := 0, 0;
      if !answers.publishes { return; }
      while i < |selected|
        invariant 0 <= i <= |selected| && confirms == i && answers.FineUpTo(i)
        invariant published == old(published) + Ids(selected[..i]) && confirmed == old(confirmed) + Ids(selected[..i])
      {
        if !answers.confirms(i) { break; }
        assert selected[..i + 1] == selected[..i] + [selected[i]];
        assert Ids(selected[..i + 1]) == Ids(selected[..i]) + {selected[i].id};
        confirmed, confirms := confirmed + {selected[i].id}, i + 1;
        if !answers.marks(i) { break; }
        published := published + {selected[i].id};
        i := i + 1;
      }
    }

    /**
     `publishFairBatch`: one bounded batch per line. The normal line gets its pass exactly if the
     express pass succeeds, so an express line that keeps failing holds the normal line up.
     */
    method PublishFairBatch(express: Answers, normal: Answers) returns (total: nat, ok: bool, ghost passes: seq<Move>)
      requires Valid()
      modifies this
      ensures Valid() && log == old(log) + passes && |passes| <= 2
      ensures 1 <= |passes| <==> express.queries
      ensures |passes| == 2 <==> express.queries && passes[0].Succeeds() && normal.queries
      ensures 1 <= |passes| ==> IsPass(passes[0], "express", 100)
      ensures 2 == |passes| ==> IsPass(passes[1], "normal", 100)
      ensures ok <==> |passes| == 2 && passes[0].Succeeds() && passes[1].Succeeds()
      ensures ok ==> total == |passes[0].selected| + |passes[1].selected|
    {
      hide Run, Inv, Window;
      ghost var first, second;
      total, ok, first := PublishLineBatch("express", 100, express);
      passes := if express.queries then [first] else [];
      if !ok {
        total := 0;
        return;
      }
      var count;
      count, ok, second := PublishLineBatch("normal", 100, normal);
      if normal.queries { passes := passes + [second]; }
      if !ok { return; }
      total := total + count;
    }
  }

  /** A pass over this line with this limit. */
  ghost predicate IsPass(e: Move, line: string, limit: nat) {
    e.Pass? && e.line == line && e.limit == limit && e.marks <= |e.selected|
  }

  lemma OrderlyIsInRounds(sel: seq<Row>)
    ensures (forall i, j :: 0 <= i < j < |sel| ==>
              var q, r := Share(sel[..i], sel[i].channel), Share(sel[..j], sel[j].channel);
              q < r || (q == r && Before(sel[i].channel, sel[j].channel)))
            ==> InRounds(sel)
  {
    hide Share, Before;
  }

  lemma SelectionSize(rows: seq<Row>, limit: nat, sel: seq<Row>)
    requires FairSelection(rows, limit, sel)
    ensures |sel| == |Take(rows, limit)|
  {
  }

  lemma {:induction false} PendingPrefix(rows: seq<Row>, n: nat, line: string, published: set<nat>)
    requires n <= |rows|
    ensures Pending(rows[..n], line, published) <= Pending(rows, line, published)
    decreases |rows| - n
  {
    if n < |rows| {
      PendingPrefix(rows, n + 1, line, published);
      assert rows[..n + 1][..n] == rows[..n];
    } else {
      assert rows[..n] == rows;
    }
  }
}
