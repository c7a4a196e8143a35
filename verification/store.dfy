/**
 The content store, seen only through the one query shape the sampler builds:
 select the node ids of the rows that pass some equality conditions, an id
 exclusion and an optional type restriction, in random order, optionally limited to
 the first `n` rows. The database, its access tag and its join are not modelled;
 the random order is a seed (see `Common.Shuffle`).
 */
module Store {
  import opened Common
  import opened Php

  /** One row of the node data: the node id, its type (bundle) and its properties
      (`status`, `langcode`, ...). A node with several translations has several rows. */
  datatype Row = Row(nid: int, bundle: string, props: map<string, Value>)

  /** A random node query: equality conditions on properties, ids it must not return,
      an optional `n.type IN (...)` restriction and an optional `range(0, n)`. */
  datatype Query = Query(
    conditions: map<string, Value>,
    exclude: seq<int>,
    types: Option<seq<Value>>,
    limit: Option<int>)

  /** The type column compared with one value; an integer is compared as its decimal
      spelling, and any other kind of value matches no type. */
  predicate TypeIs(bundle: string, v: Value) {
    match v
    case Str(s) => s == bundle
    case Int(i) => DecimalString(i) == bundle
    case _ => false
  }

  predicate TypeIn(bundle: string, vs: seq<Value>) {
    exists i :: 0 <= i < |vs| && TypeIs(bundle, vs[i])
  }

  /** The row carries every property the conditions ask for, with the asked value. */
  predicate SatisfiesConditions(row: Row, conditions: map<string, Value>) {
    forall k :: k in conditions ==> k in row.props && row.props[k] == conditions[k]
  }

  predicate Matches(row: Row, q: Query) {
    && SatisfiesConditions(row, q.conditions)
    && row.nid !in q.exclude
    && (q.types.Some? ==> TypeIn(row.bundle, q.types.value))
  }

  /** The rows the query selects, in store order. */
  function Filter(rows: seq<Row>, q: Query): seq<Row> {
    if |rows| == 0 then []
    else (if Matches(rows[0], q) then [rows[0]] else []) + Filter(rows[1..], q)
  }

  /** The query selects exactly the rows of the store it matches. */
  lemma {:induction false} FilterSelects(rows: seq<Row>, q: Query)
    ensures forall row :: row in Filter(rows, q) <==> row in rows && Matches(row, q)
  {
    if |rows| > 0 {
      FilterSelects(rows[1..], q);
      assert rows == [rows[0]] + rows[1..];
    }
  }

  function Nids(rows: seq<Row>): (ids: seq<int>)
    ensures |ids| == |rows|
    ensures forall i :: 0 <= i < |rows| ==> ids[i] == rows[i].nid
  {
    if |rows| == 0 then [] else [rows[0].nid] + Nids(rows[1..])
  }

  function Max0(n: int): nat {
    if n > 0 then n else 0
  }

  function Min(a: int, b: int): int {
    if a <= b then a else b
  }

  /** `range(0, n)`: at most the first `n` items; no limit when none was set. A limit
      that is zero or negative selects nothing. */
  function Limit<T>(xs: seq<T>, limit: Option<int>): (r: seq<T>)
    ensures limit.None? ==> r == xs
    ensures limit.Some? ==> |r| == Min(Max0(limit.value), |xs|)
    ensures r == xs[..|r|]
  {
    match limit
    case None => xs
    case Some(n) => if n <= 0 then [] else if n >= |xs| then xs else xs[..n]
  }

  /** What the store may answer to `q`: ids of selected rows, each no more often than
      selected rows carry it, exactly `min(limit, selected)` of them under a limit,
      and all of them without one. */
  ghost predicate Answers(rows: seq<Row>, q: Query, ids: seq<int>) {
    var all := Nids(Filter(rows, q));
    && multiset(ids) <= multiset(all)
    && (q.limit.Some? ==> |ids| == Min(Max0(q.limit.value), |all|))
    && (q.limit.None? ==> multiset(ids) == multiset(all))
  }

  /** Every id in an answer belongs to a row of the store that the query selects. */
  lemma AnswerIdsSelected(rows: seq<Row>, q: Query, ids: seq<int>, id: int)
    requires Answers(rows, q, ids)
    requires id in ids
    ensures exists row :: row in rows && row.nid == id && Matches(row, q)
  {
    var all := Nids(Filter(rows, q));
    assert id in multiset(all);
    var i :| 0 <= i < |all| && all[i] == id;
    assert Filter(rows, q)[i] in Filter(rows, q);
    FilterSelects(rows, q);
  }

  /** Runs `q` with the random order given by `seed`. */
  function Execute(rows: seq<Row>, q: Query, seed: seq<nat>): (ids: seq<int>)
    ensures Answers(rows, q, ids)
  {
    var all := Nids(Filter(rows, q));
    var shuffled := Shuffle(all, seed);
    LimitOfRearrangement(all, shuffled, q.limit);
    Limit(shuffled, q.limit)
  }

  /** The first rows of a rearrangement of `all`: a sub-multiset of `all`, of the
      limited size, and all of `all` without a limit. */
  lemma LimitOfRearrangement(all: seq<int>, shuffled: seq<int>, limit: Option<int>)
    requires multiset(shuffled) == multiset(all)
    ensures var ids := Limit(shuffled, limit);
            && multiset(ids) <= multiset(all)
            && (limit.Some? ==> |ids| == Min(Max0(limit.value), |all|))
            && (limit.None? ==> multiset(ids) == multiset(all))
  {
    var ids := Limit(shuffled, limit);
    assert shuffled == ids + shuffled[|ids|..];
    assert |shuffled| == |multiset(shuffled)| == |multiset(all)| == |all|;
  }
}
