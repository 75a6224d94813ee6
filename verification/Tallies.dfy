/** Counting what a table of sequences holds. */
module Tallies {

  function Tally<T>(rows: seq<seq<T>>): (m: multiset<T>)
  {
    if rows == [] then multiset{} else multiset(rows[0]) + Tally(rows[1..])
  }

  function Tally2<T>(tables: seq<seq<seq<T>>>): (m: multiset<T>)
  {
    if tables == [] then multiset{} else Tally(tables[0]) + Tally2(tables[1..])
  }

  lemma Regroup<T>(first: multiset<T>, a: multiset<T>, b: multiset<T>, c: multiset<T>, d: multiset<T>)
    requires a + b == c + d
    ensures first + a + b == first + c + d
  {
    assert first + a + b == first + (a + b);
    assert first + c + d == first + (c + d);
  }

  lemma {:induction false} TallyReplace<T>(rows: seq<seq<T>>, p: nat, row: seq<T>)
    requires p < |rows|
    ensures Tally(rows[p := row]) + multiset(rows[p]) == Tally(rows) + multiset(row)
  {
    var changed := rows[p := row];
    assert Tally(changed) == multiset(changed[0]) + Tally(changed[1..]);
    assert Tally(rows) == multiset(rows[0]) + Tally(rows[1..]);
    if p > 0 {
      assert changed[1..] == rows[1..][p - 1 := row];
      TallyReplace(rows[1..], p - 1, row);
      assert rows[1..][p - 1] == rows[p];
      Regroup(multiset(rows[0]), Tally(changed[1..]), multiset(rows[p]), Tally(rows[1..]), multiset(row));
    } else {
      assert changed[1..] == rows[1..];
    }
  }

  lemma {:induction false} Tally2Replace<T>(tables: seq<seq<seq<T>>>, p: nat, table: seq<seq<T>>)
    requires p < |tables|
    ensures Tally2(tables[p := table]) + Tally(tables[p]) == Tally2(tables) + Tally(table)
  {
    hide Tally;
    var changed := tables[p := table];
    assert Tally2(changed) == Tally(changed[0]) + Tally2(changed[1..]);
    assert Tally2(tables) == Tally(tables[0]) + Tally2(tables[1..]);
    if p > 0 {
      assert changed[1..] == tables[1..][p - 1 := table];
      Tally2Replace(tables[1..], p - 1, table);
      assert tables[1..][p - 1] == tables[p];
      Regroup(Tally(tables[0]), Tally2(changed[1..]), Tally(tables[p]), Tally2(tables[1..]), Tally(table));
    } else {
      assert changed[1..] == tables[1..];
    }
  }

  lemma Cancel<T>(a: multiset<T>, b: multiset<T>, c: multiset<T>)
    requires a + b == c + b
    ensures a == c
  {
    assert a == a + b - b == c + b - b == c;
  }

  lemma TallyEmptied<T>(rows: seq<seq<T>>, p: nat)
    requires p < |rows|
    ensures Tally(rows) == Tally(rows[p := []]) + multiset(rows[p])
  {
    hide Tally;
    TallyReplace(rows, p, []);
    assert Tally(rows) + multiset([]) == Tally(rows);
  }

  lemma TallyGrown<T>(rows: seq<seq<T>>, p: nat, x: T)
    requires p < |rows|
    ensures Tally(rows[p := rows[p] + [x]]) == Tally(rows) + multiset{x}
  {
    hide Tally;
    TallyReplace(rows, p, rows[p] + [x]);
    assert multiset(rows[p] + [x]) == multiset(rows[p]) + multiset{x};
    assert Tally(rows) + multiset(rows[p] + [x]) == Tally(rows) + multiset{x} + multiset(rows[p]);
    Cancel(Tally(rows[p := rows[p] + [x]]), multiset(rows[p]), Tally(rows) + multiset{x});
  }

  lemma TallyShrunk<T>(rows: seq<seq<T>>, p: nat)
    requires p < |rows| && rows[p] != []
    ensures Tally(rows) == Tally(rows[p := rows[p][1..]]) + multiset{rows[p][0]}
  {
    hide Tally;
    var fewer := rows[p := rows[p][1..]];
    TallyGrownFront(fewer, p, rows[p][0]);
    assert [rows[p][0]] + rows[p][1..] == rows[p];
    assert fewer[p := rows[p]] == rows;
  }

  lemma TallyGrownFront<T>(rows: seq<seq<T>>, p: nat, x: T)
    requires p < |rows|
    ensures Tally(rows[p := [x] + rows[p]]) == Tally(rows) + multiset{x}
  {
    hide Tally;
    TallyReplace(rows, p, [x] + rows[p]);
    assert multiset([x] + rows[p]) == multiset(rows[p]) + multiset{x};
    assert Tally(rows) + multiset([x] + rows[p]) == Tally(rows) + multiset{x} + multiset(rows[p]);
    Cancel(Tally(rows[p := [x] + rows[p]]), multiset(rows[p]), Tally(rows) + multiset{x});
  }

  /** Replacing one table by one with `x` more, or one `x` less, changes the whole count by that. */
  lemma Tally2Changed<T>(tables: seq<seq<seq<T>>>, p: nat, table: seq<seq<T>>, x: T)
    requires p < |tables|
    ensures Tally(table) == Tally(tables[p]) + multiset{x} ==>
      Tally2(tables[p := table]) == Tally2(tables) + multiset{x}
    ensures Tally(tables[p]) == Tally(table) + multiset{x} ==>
      Tally2(tables) == Tally2(tables[p := table]) + multiset{x}
  {
    hide Tally, Tally2;
    Tally2Replace(tables, p, table);
    var (after, before, new', old') := (Tally2(tables[p := table]), Tally2(tables), Tally(table), Tally(tables[p]));
    if new' == old' + multiset{x} {
      assert after + old' == before + multiset{x} + old';
      Cancel(after, old', before + multiset{x});
    }
    if old' == new' + multiset{x} {
      assert before + new' == after + multiset{x} + new';
      Cancel(before, new', after + multiset{x});
    }
  }

  lemma {:induction false} TallyOfEmpty<T>(rows: seq<seq<T>>)
    requires forall p :: 0 <= p < |rows| ==> rows[p] == []
    ensures Tally(rows) == multiset{}
  {
    if rows != [] {
      TallyOfEmpty(rows[1..]);
    }
  }

  /** The rows one after the other. */
  function Flat<T>(rows: seq<seq<T>>): (s: seq<T>)
  {
    if rows == [] then [] else rows[0] + Flat(rows[1..])
  }

  lemma FlatNothing<T>()
    ensures Flat<T>([]) == []
  {
  }

  lemma FlatFront<T>(rows: seq<seq<T>>, p: nat)
    requires p < |rows|
    ensures Flat(rows[p..]) == rows[p] + Flat(rows[p + 1..])
  {
    assert rows[p..][1..] == rows[p + 1..];
  }

  lemma {:induction false} FlatTally<T>(rows: seq<seq<T>>)
    ensures multiset(Flat(rows)) == Tally(rows)
  {
    if rows != [] {
      FlatTally(rows[1..]);
    }
  }
}
