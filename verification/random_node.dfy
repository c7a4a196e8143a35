/**
 The random node sampler (`RandomNode`): draws node ids from the store, either from
 a plain list of bundles (list mode) or following per-bundle quotas (keyed mode),
 never returning an id the same request already drew before the call.

 The sampler's per-request state (`drawnIds`) and the random source are threaded
 explicitly through a `Sampler` value. Every query that runs records itself and
 what it fetched in the returned `Draw`, so the contracts can speak of each
 sub-query the sampler issued.
 */
module RandomNode {
  import opened Common
  import opened Php
  import opened Store

  /** The random source: one seed per random ordering, used up in order. An exhausted
      source keeps producing the empty seed. */
  datatype Rng = Rng(seeds: seq<seq<nat>>) {
    function Seed(): seq<nat> {
      if |seeds| == 0 then [] else seeds[0]
    }

    function Next(): Rng {
      if |seeds| == 0 then this else Rng(seeds[1..])
    }

    /** The source after `n` random orderings. */
    function Skip(n: nat): Rng
      decreases n
    {
      if n == 0 then this else Next().Skip(n - 1)
    }
  }

  /** The state of one request's sampler: the ids drawn so far and the random source. */
  datatype Sampler = Sampler(drawn: seq<int>, rng: Rng)

  /** The answer of one executed query and the sampler after it. */
  datatype Fetch = Fetch(ids: seq<int>, sampler: Sampler)

  /** A query the sampler executed, with the ids it fetched. */
  datatype SubDraw = SubDraw(query: Query, fetched: seq<int>)

  /** The result of a draw: the ids returned, the sampler after the draw, and the
      queries executed, in execution order. */
  datatype Draw = Draw(ids: seq<int>, sampler: Sampler, queries: seq<SubDraw>)

  /** All fetched ids, in execution order. */
  function AllFetched(parts: seq<SubDraw>): seq<int> {
    if |parts| == 0 then [] else parts[0].fetched + AllFetched(parts[1..])
  }

  /** The ids collected by the keyed loop, where each query's answer is merged in
      front of the answers of the queries before it. */
  function MergedIds(parts: seq<SubDraw>): seq<int> {
    if |parts| == 0 then [] else MergedIds(parts[1..]) + parts[0].fetched
  }

  lemma AllFetchedCons(p: SubDraw, parts: seq<SubDraw>)
    ensures AllFetched([p] + parts) == p.fetched + AllFetched(parts)
  {
    assert ([p] + parts)[1..] == parts;
  }

  lemma {:induction false} AllFetchedAppend(parts: seq<SubDraw>, p: SubDraw)
    ensures AllFetched(parts + [p]) == AllFetched(parts) + p.fetched
  {
    if |parts| > 0 {
      assert (parts + [p])[1..] == parts[1..] + [p];
      AllFetchedAppend(parts[1..], p);
    }
  }

  /** Prepending the answers keeps the same ids as concatenating them in order. */
  lemma {:induction false} MergedIdsAreAllFetched(parts: seq<SubDraw>)
    ensures multiset(MergedIds(parts)) == multiset(AllFetched(parts))
  {
    if |parts| > 0 {
      MergedIdsAreAllFetched(parts[1..]);
    }
  }

  /** An id fetched by the draw was fetched by one particular query. */
  lemma {:induction false} FetchedBySomeQuery(parts: seq<SubDraw>, id: int)
    requires id in AllFetched(parts)
    ensures exists i :: 0 <= i < |parts| && id in parts[i].fetched
  {
    if id !in parts[0].fetched {
      FetchedBySomeQuery(parts[1..], id);
      var i :| 0 <= i < |parts[1..]| && id in parts[1..][i].fetched;
      assert id in parts[i + 1].fetched;
    }
  }

  /** `getBaseQuery`: the property conditions and the exclusion of the ids drawn so far,
      in random order, without type restriction or limit. */
  function BaseQuery(options: map<string, Value>, drawn: seq<int>): Query {
    Query(options, drawn, None, None)
  }

  /** The base query selects exactly the rows that carry the options and were not drawn. */
  lemma BaseQuerySelects(options: map<string, Value>, drawn: seq<int>, row: Row)
    ensures Matches(row, BaseQuery(options, drawn))
        <==> SatisfiesConditions(row, options) && row.nid !in drawn
  {
  }

  /** `acquireRandomIds`: runs the query and adds what it fetched to the drawn ids,
      keeping them free of duplicates. */
  function AcquireRandomIds(rows: seq<Row>, q: Query, s: Sampler): (r: Fetch)
    ensures Answers(rows, q, r.ids)
    ensures NoDup(r.sampler.drawn)
    ensures forall x :: x in r.sampler.drawn <==> x in s.drawn || x in r.ids
    ensures NoDup(s.drawn) ==>
      |s.drawn| <= |r.sampler.drawn| && r.sampler.drawn[..|s.drawn|] == s.drawn
    ensures r.sampler.rng == s.rng.Next()
  {
    var ids := Execute(rows, q, s.rng.Seed());
    DedupSpec(s.drawn + ids);
    DedupExtends(s.drawn, ids);
    Fetch(ids, Sampler(Dedup(s.drawn + ids), s.rng.Next()))
  }

  /** The number of bundle entries whose key is a string. */
  function CountStringKeys(bundles: seq<Entry>): nat {
    if |bundles| == 0 then 0
    else (if bundles[0].key.StrKey? then 1 else 0) + CountStringKeys(bundles[1..])
  }

  /** Keyed (quota) mode is used when the bundles array has a string key. */
  predicate HasStringKeys(bundles: seq<Entry>) {
    CountStringKeys(bundles) > 0
  }

  lemma {:induction false} HasStringKeysIff(bundles: seq<Entry>)
    ensures HasStringKeys(bundles) <==> exists i :: 0 <= i < |bundles| && bundles[i].key.StrKey?
  {
    if |bundles| > 0 {
      HasStringKeysIff(bundles[1..]);
      if exists i :: 0 <= i < |bundles| && bundles[i].key.StrKey? {
        var i :| 0 <= i < |bundles| && bundles[i].key.StrKey?;
        if i > 0 {
          assert bundles[1..][i - 1].key.StrKey?;
        }
      }
      if exists i :: 0 <= i < |bundles[1..]| && bundles[1..][i].key.StrKey? {
        var i :| 0 <= i < |bundles[1..]| && bundles[1..][i].key.StrKey?;
        assert bundles[i + 1].key.StrKey?;
      }
    }
  }

  /** The bundle entries whose value is an integer quota, in order. */
  function QuotaEntries(bundles: seq<Entry>): seq<Entry> {
    if |bundles| == 0 then []
    else (if bundles[0].value.Int? then [bundles[0]] else []) + QuotaEntries(bundles[1..])
  }

  /** The quotas themselves, one per quota entry. */
  function Quotas(bundles: seq<Entry>): (qs: seq<int>)
    ensures |qs| == |QuotaEntries(bundles)|
  {
    if |bundles| == 0 then []
    else (if bundles[0].value.Int? then [bundles[0].value.i] else []) + Quotas(bundles[1..])
  }

  /** The quota entries are the integer-valued entries of the bundles, each carrying
      its quota. */
  lemma {:induction false} QuotaEntriesSpec(bundles: seq<Entry>)
    ensures forall e :: e in QuotaEntries(bundles) <==> e in bundles && e.value.Int?
    ensures forall i :: 0 <= i < |QuotaEntries(bundles)| ==> QuotaEntries(bundles)[i].value == Int(Quotas(bundles)[i])
  {
    if |bundles| > 0 {
      QuotaEntriesSpec(bundles[1..]);
      assert bundles == [bundles[0]] + bundles[1..];
    }
  }

  /** The values of the bundle entries that are not integer quotas, in order. */
  function NamedValues(bundles: seq<Entry>): seq<Value> {
    if |bundles| == 0 then []
    else (if bundles[0].value.Int? then [] else [bundles[0].value]) + NamedValues(bundles[1..])
  }

  /** Each set-aside value is the value of a bundle entry that is not an integer quota. */
  lemma {:induction false} NamedValuesFromBundles(bundles: seq<Entry>, v: Value)
    requires v in NamedValues(bundles)
    ensures exists j :: 0 <= j < |bundles| && bundles[j].value == v && !v.Int?
  {
    if v != bundles[0].value || bundles[0].value.Int? {
      assert v in NamedValues(bundles[1..]);
      NamedValuesFromBundles(bundles[1..], v);
      var j :| 0 <= j < |bundles[1..]| && bundles[1..][j].value == v && !v.Int?;
      assert bundles[j + 1].value == v;
    }
  }

  /** Every bundle entry that is not an integer quota is set aside for the final query. */
  lemma {:induction false} BundlesReachNamedValues(bundles: seq<Entry>, j: int)
    requires 0 <= j < |bundles| && !bundles[j].value.Int?
    ensures bundles[j].value in NamedValues(bundles)
  {
    if j > 0 {
      assert bundles[1..][j - 1] == bundles[j];
      BundlesReachNamedValues(bundles[1..], j - 1);
    }
  }

  /** The row limit of one quota sub-query, as the source computes it: the quota while
      the remaining amount covers it, otherwise the quota minus the remaining amount. */
  function QueryAmount(amount: int, quota: int): int {
    if amount >= quota then quota else quota - amount
  }

  /** The limits the quota sub-queries get, in order, with the remaining amount
      decreased by each limit in turn. */
  function QuotaLimits(amount: int, quotas: seq<int>): (r: seq<int>)
    ensures |r| == |quotas|
    decreases |quotas|
  {
    if |quotas| == 0 then []
    else
      var limit := QueryAmount(amount, quotas[0]);
      [limit] + QuotaLimits(amount - limit, quotas[1..])
  }

  function Sum(xs: seq<int>): int {
    if |xs| == 0 then 0 else xs[0] + Sum(xs[1..])
  }

  /** The state of the loop over the bundles in keyed mode. */
  datatype Keyed = Keyed(amount: int, parts: seq<SubDraw>, sampler: Sampler, undefined: seq<Value>)

  /** The quota sub-query of one bundle: a copy of the base query restricted to that
      bundle and limited to the computed amount. */
  function QuotaQuery(base: Query, e: Entry, limit: int): Query {
    base.(types := Some([KeyValue(e.key)]), limit := Some(limit))
  }

  /** The `foreach` over the bundles in keyed mode: an integer-valued entry runs its
      own sub-query and decreases the amount by that sub-query's limit; any other
      entry is set aside for the final query. */
  function KeyedLoop(rows: seq<Row>, base: Query, bundles: seq<Entry>, amount: int, s: Sampler): Keyed
    decreases |bundles|
  {
    if |bundles| == 0 then Keyed(amount, [], s, [])
    else
      var e := bundles[0];
      if e.value.Int? then
        var limit := QueryAmount(amount, e.value.i);
        var q := QuotaQuery(base, e, limit);
        var f := AcquireRandomIds(rows, q, s);
        var rest := KeyedLoop(rows, base, bundles[1..], amount - limit, f.sampler);
        Keyed(rest.amount, [SubDraw(q, f.ids)] + rest.parts, rest.sampler, rest.undefined)
      else
        var rest := KeyedLoop(rows, base, bundles[1..], amount, s);
        Keyed(rest.amount, rest.parts, rest.sampler, [e.value] + rest.undefined)
  }

  /** The loop issues one sub-query per integer-valued entry, in order, each limited by
      the quota arithmetic applied to the amount left by the sub-queries before it;
      it ends with the amount decreased by all those limits and the other values set
      aside in order. */
  ghost predicate LoopPlan(rows: seq<Row>, base: Query, bundles: seq<Entry>, amount: int, s: Sampler) {
    Planned(base, bundles, amount, KeyedLoop(rows, base, bundles, amount, s))
  }

  /** The loop state `r` is the one the plan of `LoopPlan` describes. */
  ghost predicate Planned(base: Query, bundles: seq<Entry>, amount: int, r: Keyed) {
    var quota := QuotaEntries(bundles);
    var limits := QuotaLimits(amount, Quotas(bundles));
    && |r.parts| == |quota|
    && (forall i :: 0 <= i < |quota| ==> r.parts[i].query == QuotaQuery(base, quota[i], limits[i]))
    && r.amount == amount - Sum(limits)
    && r.undefined == NamedValues(bundles)
  }

  lemma {:induction false} KeyedLoopQueries(rows: seq<Row>, base: Query, bundles: seq<Entry>, amount: int, s: Sampler)
    ensures LoopPlan(rows, base, bundles, amount, s)
    decreases |bundles|, 1
  {
    if |bundles| > 0 {
      if bundles[0].value.Int? {
        QuotaEntryStep(rows, base, bundles, amount, s);
      } else {
        NamedEntryStep(rows, base, bundles, amount, s);
      }
    }
  }

  /** An integer-valued first entry adds its sub-query in front of the rest's. */
  lemma {:induction false} QuotaEntryStep(rows: seq<Row>, base: Query, bundles: seq<Entry>, amount: int, s: Sampler)
    requires |bundles| > 0 && bundles[0].value.Int?
    ensures LoopPlan(rows, base, bundles, amount, s)
    decreases |bundles|, 0
  {
    var e := bundles[0];
    var limit := QueryAmount(amount, e.value.i);
    var q := QuotaQuery(base, e, limit);
    var f := AcquireRandomIds(rows, q, s);
    var rest := KeyedLoop(rows, base, bundles[1..], amount - limit, f.sampler);
    KeyedLoopQueries(rows, base, bundles[1..], amount - limit, f.sampler);
    PlannedCons(base, bundles, amount, SubDraw(q, f.ids), rest);
  }

  /** The plan of the loop, one integer-valued entry further. */
  lemma PlannedCons(base: Query, bundles: seq<Entry>, amount: int, p: SubDraw, rest: Keyed)
    requires |bundles| > 0 && bundles[0].value.Int?
    requires p.query == QuotaQuery(base, bundles[0], QueryAmount(amount, bundles[0].value.i))
    requires Planned(base, bundles[1..], amount - QueryAmount(amount, bundles[0].value.i), rest)
    ensures Planned(base, bundles, amount, Keyed(rest.amount, [p] + rest.parts, rest.sampler, rest.undefined))
  {
    var e := bundles[0];
    var limit := QueryAmount(amount, e.value.i);
    var quota := QuotaEntries(bundles);
    var quota' := QuotaEntries(bundles[1..]);
    assert quota == [e] + quota';
    var limits := QuotaLimits(amount, Quotas(bundles));
    var limits' := QuotaLimits(amount - limit, Quotas(bundles[1..]));
    assert Quotas(bundles) == [e.value.i] + Quotas(bundles[1..]);
    assert limits == [limit] + limits';
    QuotaQueriesCons(base, p, rest.parts, e, quota', limit, limits');
  }

  /** One quota sub-query in front of a list of them, each matching its entry and limit. */
  lemma QuotaQueriesCons(base: Query, p: SubDraw, parts: seq<SubDraw>, e: Entry, quota: seq<Entry>, limit: int, limits: seq<int>)
    requires p.query == QuotaQuery(base, e, limit)
    requires |parts| == |quota| && |limits| == |quota|
    requires forall i :: 0 <= i < |quota| ==> parts[i].query == QuotaQuery(base, quota[i], limits[i])
    ensures var all := [e] + quota;
            forall i :: 0 <= i < |all| ==> ([p] + parts)[i].query == QuotaQuery(base, all[i], ([limit] + limits)[i])
  {
  }

  /** Any other first entry only joins the set-aside values. */
  lemma {:induction false} NamedEntryStep(rows: seq<Row>, base: Query, bundles: seq<Entry>, amount: int, s: Sampler)
    requires |bundles| > 0 && !bundles[0].value.Int?
    ensures LoopPlan(rows, base, bundles, amount, s)
    decreases |bundles|, 0
  {
    var e := bundles[0];
    var r := KeyedLoop(rows, base, bundles, amount, s);
    var quota := QuotaEntries(bundles);
    var quota' := QuotaEntries(bundles[1..]);
    KeyedLoopQueries(rows, base, bundles[1..], amount, s);
    var rest := KeyedLoop(rows, base, bundles[1..], amount, s);
    assert r == rest.(undefined := [e.value] + rest.undefined);
    assert quota == quota' by {
      assert quota == [] + quota';
    }
    assert Quotas(bundles) == Quotas(bundles[1..]) by {
      assert Quotas(bundles) == [] + Quotas(bundles[1..]);
    }
  }

  /** Each executed query got an answer the store may give to it. */
  ghost predicate Answered(rows: seq<Row>, parts: seq<SubDraw>) {
    forall i :: 0 <= i < |parts| ==> Answers(rows, parts[i].query, parts[i].fetched)
  }

  /** Every sub-query of the loop got an answer the store may give to it. */
  ghost predicate LoopAnswered(rows: seq<Row>, base: Query, bundles: seq<Entry>, amount: int, s: Sampler) {
    Answered(rows, KeyedLoop(rows, base, bundles, amount, s).parts)
  }

  lemma {:induction false} KeyedLoopAnswers(rows: seq<Row>, base: Query, bundles: seq<Entry>, amount: int, s: Sampler)
    ensures LoopAnswered(rows, base, bundles, amount, s)
    decreases |bundles|, 1
  {
    if |bundles| > 0 {
      if bundles[0].value.Int? {
        QuotaEntryAnswered(rows, base, bundles, amount, s);
      } else {
        NamedEntryAnswered(rows, base, bundles, amount, s);
      }
    }
  }

  lemma {:induction false} QuotaEntryAnswered(rows: seq<Row>, base: Query, bundles: seq<Entry>, amount: int, s: Sampler)
    requires |bundles| > 0 && bundles[0].value.Int?
    ensures LoopAnswered(rows, base, bundles, amount, s)
    decreases |bundles|, 0
  {
    var e := bundles[0];
    var limit := QueryAmount(amount, e.value.i);
    var q := QuotaQuery(base, e, limit);
    var f := AcquireRandomIds(rows, q, s);
    var rest := KeyedLoop(rows, base, bundles[1..], amount - limit, f.sampler);
    var r := KeyedLoop(rows, base, bundles, amount, s);
    assert r.parts == [SubDraw(q, f.ids)] + rest.parts;
    KeyedLoopAnswers(rows, base, bundles[1..], amount - limit, f.sampler);
    forall i | 0 <= i < |r.parts|
      ensures Answers(rows, r.parts[i].query, r.parts[i].fetched)
    {
      if i > 0 {
        assert r.parts[i] == rest.parts[i - 1];
      }
    }
  }

  lemma {:induction false} NamedEntryAnswered(rows: seq<Row>, base: Query, bundles: seq<Entry>, amount: int, s: Sampler)
    requires |bundles| > 0 && !bundles[0].value.Int?
    ensures LoopAnswered(rows, base, bundles, amount, s)
    decreases |bundles|, 0
  {
    var rest := KeyedLoop(rows, base, bundles[1..], amount, s);
    var r := KeyedLoop(rows, base, bundles, amount, s);
    assert r.parts == rest.parts;
    KeyedLoopAnswers(rows, base, bundles[1..], amount, s);
  }

  /** After the loop the drawn ids are the old ones followed by everything the loop
      fetched, deduplicated, and one seed was used per sub-query. */
  ghost predicate LoopDrawn(rows: seq<Row>, base: Query, bundles: seq<Entry>, amount: int, s: Sampler) {
    var r := KeyedLoop(rows, base, bundles, amount, s);
    && r.sampler.drawn == Dedup(s.drawn + AllFetched(r.parts))
    && r.sampler.rng == s.rng.Skip(|r.parts|)
  }

  lemma {:induction false} KeyedLoopDrawn(rows: seq<Row>, base: Query, bundles: seq<Entry>, amount: int, s: Sampler)
    requires Valid(s)
    ensures LoopDrawn(rows, base, bundles, amount, s)
    decreases |bundles|, 1
  {
    if |bundles| == 0 {
      assert s.drawn + [] == s.drawn;
      DedupOfNoDup(s.drawn);
    } else if bundles[0].value.Int? {
      QuotaEntryDrawn(rows, base, bundles, amount, s);
    } else {
      NamedEntryDrawn(rows, base, bundles, amount, s);
    }
  }

  lemma {:induction false} QuotaEntryDrawn(rows: seq<Row>, base: Query, bundles: seq<Entry>, amount: int, s: Sampler)
    requires Valid(s)
    requires |bundles| > 0 && bundles[0].value.Int?
    ensures LoopDrawn(rows, base, bundles, amount, s)
    decreases |bundles|, 0
  {
    var e := bundles[0];
    var r := KeyedLoop(rows, base, bundles, amount, s);
    var limit := QueryAmount(amount, e.value.i);
    var q := QuotaQuery(base, e, limit);
    var f := AcquireRandomIds(rows, q, s);
    var rest := KeyedLoop(rows, base, bundles[1..], amount - limit, f.sampler);
    KeyedLoopDrawn(rows, base, bundles[1..], amount - limit, f.sampler);
    assert r.parts == [SubDraw(q, f.ids)] + rest.parts;
    AllFetchedCons(SubDraw(q, f.ids), rest.parts);
    DedupAppend3(s.drawn, f.ids, AllFetched(rest.parts));
  }

  lemma {:induction false} NamedEntryDrawn(rows: seq<Row>, base: Query, bundles: seq<Entry>, amount: int, s: Sampler)
    requires Valid(s)
    requires |bundles| > 0 && !bundles[0].value.Int?
    ensures LoopDrawn(rows, base, bundles, amount, s)
    decreases |bundles|, 0
  {
    var rest := KeyedLoop(rows, base, bundles[1..], amount, s);
    var r := KeyedLoop(rows, base, bundles, amount, s);
    assert r.parts == rest.parts && r.sampler == rest.sampler;
    KeyedLoopDrawn(rows, base, bundles[1..], amount, s);
  }

  /** `array_unique` left the drawn ids free of duplicates; they start empty. */
  predicate Valid(s: Sampler) {
    NoDup(s.drawn)
  }

  /** What every draw keeps: each executed query got an answer the store may give,
      the result rearranges everything fetched, and everything fetched joined the
      drawn ids. */
  ghost predicate Consistent(rows: seq<Row>, s: Sampler, r: Draw) {
    && Answered(rows, r.queries)
    && multiset(r.ids) == multiset(AllFetched(r.queries))
    && r.sampler.drawn == Dedup(s.drawn + AllFetched(r.queries))
  }

  /** `shuffle($ids)` at the end of keyed mode, applied to the merged answers. */
  function Finish(parts: seq<SubDraw>, s: Sampler): (r: Draw)
    ensures multiset(r.ids) == multiset(AllFetched(parts))
    ensures r.queries == parts
    ensures r.sampler == s.(rng := s.rng.Next())
  {
    MergedIdsAreAllFetched(parts);
    Draw(Shuffle(MergedIds(parts), s.rng.Seed()), s.(rng := s.rng.Next()), parts)
  }

  /** The query runs with the base query's conditions and exclusion. */
  predicate FromBase(base: Query, q: Query) {
    q.conditions == base.conditions && q.exclude == base.exclude
  }

  /** The single query of list mode. */
  function ListQuery(base: Query, amount: int, bundles: seq<Entry>): Query {
    base.(
      types := if |bundles| > 0 then Some(Values(bundles)) else None,
      limit := if amount > 0 then Some(amount) else None)
  }

  /** List mode: one query, restricted to the listed bundles when there are any and
      limited to `amount` when it is positive; its answer is returned as it came. */
  function ListDraw(rows: seq<Row>, base: Query, amount: int, bundles: seq<Entry>, s: Sampler): (r: Draw)
    ensures |r.queries| == 1 && r.queries[0].query == ListQuery(base, amount, bundles)
    ensures r.ids == r.queries[0].fetched
    ensures Consistent(rows, s, r)
    ensures r.sampler.rng == s.rng.Next()
  {
    var q := ListQuery(base, amount, bundles);
    var f := AcquireRandomIds(rows, q, s);
    var r := Draw(f.ids, f.sampler, [SubDraw(q, f.ids)]);
    assert AllFetched(r.queries) == f.ids by {
      assert AllFetched(r.queries[1..]) == [];
    }
    r
  }

  /** The query over the set-aside bundles that ends keyed mode. */
  function RestQuery(base: Query, named: seq<Value>, remaining: int): Query {
    base.(types := Some(named), limit := Some(remaining))
  }

  /** Whether keyed mode ends with the query over the set-aside bundles: only when
      there are some and the loop left a positive amount. */
  predicate RunsRestQuery(k: Keyed) {
    |k.undefined| > 0 && k.amount > 0
  }

  /** Keyed mode: the quota sub-queries, then one query over the set-aside bundles if
      there are any and amount remains, then a shuffle of everything fetched. The
      result holds exactly the fetched ids, in a new order. */
  function KeyedDraw(rows: seq<Row>, base: Query, amount: int, bundles: seq<Entry>, s: Sampler): (r: Draw)
    ensures multiset(r.ids) == multiset(AllFetched(r.queries))
  {
    var k := KeyedLoop(rows, base, bundles, amount, s);
    if RunsRestQuery(k) then
      var q := RestQuery(base, k.undefined, k.amount);
      var f := AcquireRandomIds(rows, q, k.sampler);
      Finish(k.parts + [SubDraw(q, f.ids)], f.sampler)
    else
      Finish(k.parts, k.sampler)
  }

  /** The queries keyed mode issues: one per integer quota, in order, with the limit
      the quota arithmetic gives, then the query over the set-aside bundles limited to
      the amount left, when there are such bundles and that amount is positive. */
  predicate KeyedPlan(base: Query, amount: int, bundles: seq<Entry>, queries: seq<SubDraw>) {
    var quota := QuotaEntries(bundles);
    var limits := QuotaLimits(amount, Quotas(bundles));
    var remaining := amount - Sum(limits);
    var final := |NamedValues(bundles)| > 0 && remaining > 0;
    && |queries| == |quota| + (if final then 1 else 0)
    && (forall i :: 0 <= i < |quota| ==> queries[i].query == QuotaQuery(base, quota[i], limits[i]))
    && (final ==> queries[|quota|].query == RestQuery(base, NamedValues(bundles), remaining))
  }

  lemma KeyedDrawPlan(rows: seq<Row>, base: Query, amount: int, bundles: seq<Entry>, s: Sampler)
    ensures KeyedPlan(base, amount, bundles, KeyedDraw(rows, base, amount, bundles, s).queries)
  {
    var k := KeyedLoop(rows, base, bundles, amount, s);
    KeyedLoopQueries(rows, base, bundles, amount, s);
    assert LoopPlan(rows, base, bundles, amount, s);
    if RunsRestQuery(k) {
      var q := RestQuery(base, k.undefined, k.amount);
      var f := AcquireRandomIds(rows, q, k.sampler);
      assert KeyedDraw(rows, base, amount, bundles, s).queries == k.parts + [SubDraw(q, f.ids)];
      PlanWithRest(base, amount, bundles, k, f.ids);
    } else {
      assert KeyedDraw(rows, base, amount, bundles, s).queries == k.parts;
    }
  }

  /** The loop's plan followed by the query over the set-aside bundles is keyed mode's plan. */
  lemma PlanWithRest(base: Query, amount: int, bundles: seq<Entry>, k: Keyed, fetched: seq<int>)
    requires
      var quota := QuotaEntries(bundles);
      var limits := QuotaLimits(amount, Quotas(bundles));
      && |k.parts| == |quota|
      && (forall i :: 0 <= i < |quota| ==> k.parts[i].query == QuotaQuery(base, quota[i], limits[i]))
      && k.amount == amount - Sum(limits)
      && k.undefined == NamedValues(bundles)
    requires RunsRestQuery(k)
    ensures KeyedPlan(base, amount, bundles, k.parts + [SubDraw(RestQuery(base, k.undefined, k.amount), fetched)])
  {
    var parts := k.parts + [SubDraw(RestQuery(base, k.undefined, k.amount), fetched)];
    assert forall i :: 0 <= i < |k.parts| ==> parts[i] == k.parts[i];
  }

  /** Every query of keyed mode keeps the base query's conditions and exclusion. */
  lemma KeyedPlanFromBase(base: Query, amount: int, bundles: seq<Entry>, queries: seq<SubDraw>)
    requires KeyedPlan(base, amount, bundles, queries)
    ensures forall i :: 0 <= i < |queries| ==> FromBase(base, queries[i].query)
  {
  }

  /** Keyed mode answers every query validly, adds everything it fetched to the drawn
      ids, and uses one seed per query plus one for the final shuffle. */
  lemma KeyedDrawConsistent(rows: seq<Row>, base: Query, amount: int, bundles: seq<Entry>, s: Sampler)
    requires Valid(s)
    ensures var r := KeyedDraw(rows, base, amount, bundles, s);
            Consistent(rows, s, r) && r.sampler.rng == s.rng.Skip(|r.queries| + 1)
  {
    var k := KeyedLoop(rows, base, bundles, amount, s);
    KeyedLoopAnswers(rows, base, bundles, amount, s);
    KeyedLoopDrawn(rows, base, bundles, amount, s);
    if RunsRestQuery(k) {
      var q := RestQuery(base, k.undefined, k.amount);
      var f := AcquireRandomIds(rows, q, k.sampler);
      var parts := k.parts + [SubDraw(q, f.ids)];
      AcquireExtends(rows, s, k.parts, k.sampler, q);
      SkipNext(s.rng, |k.parts|);
      SkipNext(s.rng, |parts|);
      FinishConsistent(rows, s, parts, f.sampler);
    } else {
      SkipNext(s.rng, |k.parts|);
      FinishConsistent(rows, s, k.parts, k.sampler);
    }
  }

  /** One more query keeps every answer valid and its ids join the drawn ids. */
  lemma AcquireExtends(rows: seq<Row>, s: Sampler, parts: seq<SubDraw>, mid: Sampler, q: Query)
    requires Answered(rows, parts)
    requires mid.drawn == Dedup(s.drawn + AllFetched(parts))
    ensures var f := AcquireRandomIds(rows, q, mid);
            var parts' := parts + [SubDraw(q, f.ids)];
            && Answered(rows, parts')
            && f.sampler.drawn == Dedup(s.drawn + AllFetched(parts'))
            && f.sampler.rng == mid.rng.Next()
  {
    var f := AcquireRandomIds(rows, q, mid);
    AnsweredAppend(rows, parts, SubDraw(q, f.ids));
    AllFetchedAppend(parts, SubDraw(q, f.ids));
    DedupAppend3(s.drawn, AllFetched(parts), f.ids);
  }

  lemma AnsweredAppend(rows: seq<Row>, parts: seq<SubDraw>, p: SubDraw)
    requires Answered(rows, parts)
    requires Answers(rows, p.query, p.fetched)
    ensures Answered(rows, parts + [p])
  {
    var parts' := parts + [p];
    forall i | 0 <= i < |parts'|
      ensures Answers(rows, parts'[i].query, parts'[i].fetched)
    {
      if i < |parts| {
        assert parts'[i] == parts[i];
      }
    }
  }

  /** The final shuffle keeps a consistent history consistent. */
  lemma FinishConsistent(rows: seq<Row>, s: Sampler, parts: seq<SubDraw>, t: Sampler)
    requires Answered(rows, parts)
    requires t.drawn == Dedup(s.drawn + AllFetched(parts))
    ensures Consistent(rows, s, Finish(parts, t))
  {
  }

  /** `getRandomNodeIds`: the choice between list and keyed mode. The base query, and
      with it the exclusion of drawn ids, is built once, before any query runs. The
      result holds exactly the fetched ids. */
  function GetRandomNodeIds(rows: seq<Row>, amount: int, bundles: seq<Entry>, options: map<string, Value>, s: Sampler): (r: Draw)
    ensures multiset(r.ids) == multiset(AllFetched(r.queries))
  {
    var base := BaseQuery(options, s.drawn);
    if !HasStringKeys(bundles) then ListDraw(rows, base, amount, bundles, s)
    else KeyedDraw(rows, base, amount, bundles, s)
  }

  /** Every query carries the options and excludes exactly the ids drawn before the
      call; every answer is one the store may give, and the drawn ids gain everything
      fetched. */
  lemma GetRandomNodeIdsConsistent(rows: seq<Row>, amount: int, bundles: seq<Entry>, options: map<string, Value>, s: Sampler)
    requires Valid(s)
    ensures var r := GetRandomNodeIds(rows, amount, bundles, options, s);
            && (forall i :: 0 <= i < |r.queries| ==>
                  r.queries[i].query.conditions == options && r.queries[i].query.exclude == s.drawn)
            && Consistent(rows, s, r)
  {
    var base := BaseQuery(options, s.drawn);
    if HasStringKeys(bundles) {
      KeyedDrawPlan(rows, base, amount, bundles, s);
      KeyedPlanFromBase(base, amount, bundles, KeyedDraw(rows, base, amount, bundles, s).queries);
      KeyedDrawConsistent(rows, base, amount, bundles, s);
    }
  }

  /** List mode runs when no bundle key is a string: one query, restricted to the
      bundles only when the list is not empty and limited only when the amount is
      positive; its answer is returned as it came. */
  lemma ListMode(rows: seq<Row>, amount: int, bundles: seq<Entry>, options: map<string, Value>, s: Sampler)
    requires !HasStringKeys(bundles)
    ensures var r := GetRandomNodeIds(rows, amount, bundles, options, s);
            && |r.queries| == 1
            && r.queries[0].query.types == (if |bundles| > 0 then Some(Values(bundles)) else None)
            && r.queries[0].query.limit == (if amount > 0 then Some(amount) else None)
            && r.ids == r.queries[0].fetched
            && r.sampler.rng == s.rng.Next()
  {
  }

  /** Keyed mode runs when some bundle key is a string: the quota sub-queries, then
      the query over the set-aside bundles, and one shuffle after all of them. */
  lemma KeyedMode(rows: seq<Row>, amount: int, bundles: seq<Entry>, options: map<string, Value>, s: Sampler)
    requires HasStringKeys(bundles)
    requires Valid(s)
    ensures var r := GetRandomNodeIds(rows, amount, bundles, options, s);
            && KeyedPlan(BaseQuery(options, s.drawn), amount, bundles, r.queries)
            && r.sampler.rng == s.rng.Skip(|r.queries| + 1)
  {
    var base := BaseQuery(options, s.drawn);
    KeyedDrawPlan(rows, base, amount, bundles, s);
    KeyedDrawConsistent(rows, base, amount, bundles, s);
  }

  /** Some row of the store that `q` selects has node id `id`. */
  ghost predicate SelectedBy(rows: seq<Row>, q: Query, id: int) {
    exists row :: row in rows && row.nid == id && Matches(row, q)
  }

  /** Every returned id comes from a row that one of the issued queries selects, so it
      carries the options, passes that query's type restriction and was not among the
      ids drawn before the call. */
  lemma ReturnedIdsSelected(rows: seq<Row>, amount: int, bundles: seq<Entry>, options: map<string, Value>, s: Sampler, id: int)
    requires Valid(s)
    requires id in GetRandomNodeIds(rows, amount, bundles, options, s).ids
    ensures var r := GetRandomNodeIds(rows, amount, bundles, options, s);
            exists i :: 0 <= i < |r.queries| && SelectedBy(rows, r.queries[i].query, id)
    ensures id !in s.drawn
    ensures exists row :: row in rows && row.nid == id && SatisfiesConditions(row, options)
  {
    var r := GetRandomNodeIds(rows, amount, bundles, options, s);
    GetRandomNodeIdsConsistent(rows, amount, bundles, options, s);
    assert id in multiset(AllFetched(r.queries));
    FetchedBySomeQuery(r.queries, id);
    var i :| 0 <= i < |r.queries| && id in r.queries[i].fetched;
    AnswerIdsSelected(rows, r.queries[i].query, r.queries[i].fetched, id);
  }

  /** List mode with a positive amount returns at most that many ids; with an amount
      of zero or less it returns every id the query selects (no limit at all). */
  lemma ListModeAmount(rows: seq<Row>, amount: int, bundles: seq<Entry>, options: map<string, Value>, s: Sampler)
    requires !HasStringKeys(bundles)
    ensures var r := GetRandomNodeIds(rows, amount, bundles, options, s);
            && (amount > 0 ==> |r.ids| <= amount)
            && (amount <= 0 ==> multiset(r.ids) == multiset(Nids(Filter(rows, r.queries[0].query))))
  {
    var r := GetRandomNodeIds(rows, amount, bundles, options, s);
    ListMode(rows, amount, bundles, options, s);
    assert Answered(rows, r.queries);
    assert Answers(rows, r.queries[0].query, r.queries[0].fetched);
  }

  /** In keyed mode every quota sub-query fetches at most its computed limit (nothing
      for a limit of zero or less), and only nodes of its own bundle. */
  lemma QuotaContribution(rows: seq<Row>, amount: int, bundles: seq<Entry>, options: map<string, Value>, s: Sampler, i: int)
    requires HasStringKeys(bundles)
    requires Valid(s)
    requires 0 <= i < |QuotaEntries(bundles)|
    ensures var r := GetRandomNodeIds(rows, amount, bundles, options, s);
            var quota := QuotaEntries(bundles);
            var limits := QuotaLimits(amount, Quotas(bundles));
            && i < |r.queries|
            && |r.queries[i].fetched| <= Max0(limits[i])
            && forall id :: id in r.queries[i].fetched ==>
                 exists row :: row in rows && row.nid == id && TypeIs(row.bundle, KeyValue(quota[i].key))
  {
    var r := GetRandomNodeIds(rows, amount, bundles, options, s);
    KeyedMode(rows, amount, bundles, options, s);
    GetRandomNodeIdsConsistent(rows, amount, bundles, options, s);
    var quota := QuotaEntries(bundles);
    var limits := QuotaLimits(amount, Quotas(bundles));
    assert r.queries[i].query == QuotaQuery(BaseQuery(options, s.drawn), quota[i], limits[i]);
    assert Answered(rows, r.queries);
    SingleBundleAnswer(rows, r.queries[i].query, r.queries[i].fetched, KeyValue(quota[i].key), limits[i]);
  }

  /** An answer to a query restricted to one bundle and limited to `n` rows. */
  lemma SingleBundleAnswer(rows: seq<Row>, q: Query, ids: seq<int>, bundle: Value, n: int)
    requires Answers(rows, q, ids)
    requires q.types == Some([bundle]) && q.limit == Some(n)
    ensures |ids| <= Max0(n)
    ensures forall id :: id in ids ==> exists row :: row in rows && row.nid == id && TypeIs(row.bundle, bundle)
  {
    forall id | id in ids
      ensures exists row :: row in rows && row.nid == id && TypeIs(row.bundle, bundle)
    {
      AnswerIdsSelected(rows, q, ids, id);
      var row :| row in rows && row.nid == id && Matches(row, q);
      assert TypeIs(row.bundle, [bundle][0]);
    }
  }

  /** When the quotas are not negative and fit in the amount, each sub-query is limited
      to exactly its quota, and the amount left is the amount minus all quotas. */
  lemma {:induction false} QuotaLimitsWithinBudget(amount: int, quotas: seq<int>)
    requires forall i :: 0 <= i < |quotas| ==> quotas[i] >= 0
    requires Sum(quotas) <= amount
    ensures QuotaLimits(amount, quotas) == quotas
    decreases |quotas|
  {
    if |quotas| > 0 {
      assert amount >= quotas[0] by {
        SumNonNegative(quotas[1..]);
      }
      QuotaLimitsWithinBudget(amount - quotas[0], quotas[1..]);
      assert quotas == [quotas[0]] + quotas[1..];
    }
  }

  lemma {:induction false} SumNonNegative(xs: seq<int>)
    requires forall i :: 0 <= i < |xs| ==> xs[i] >= 0
    ensures Sum(xs) >= 0
  {
    if |xs| > 0 {
      SumNonNegative(xs[1..]);
    }
  }

  lemma {:induction false} QuotaEntriesAllInt(bundles: seq<Entry>)
    requires forall j :: 0 <= j < |bundles| ==> bundles[j].value.Int?
    ensures QuotaEntries(bundles) == bundles
    ensures forall j :: 0 <= j < |bundles| ==> Quotas(bundles)[j] == bundles[j].value.i
    ensures NamedValues(bundles) == []
  {
    if |bundles| > 0 {
      QuotaEntriesAllInt(bundles[1..]);
      assert bundles == [bundles[0]] + bundles[1..];
    }
  }

  /** Answers of the given sizes add up. */
  lemma {:induction false} AllFetchedLength(parts: seq<SubDraw>, sizes: seq<int>)
    requires |parts| == |sizes|
    requires forall j :: 0 <= j < |parts| ==> |parts[j].fetched| == sizes[j]
    ensures |AllFetched(parts)| == Sum(sizes)
  {
    if |parts| > 0 {
      AllFetchedLength(parts[1..], sizes[1..]);
    }
  }

  /** Quotas only, none negative, adding up to the amount, with enough matching nodes
      for each: every bundle gets exactly its quota and the draw returns exactly
      `amount` ids. */
  lemma ExactQuotas(rows: seq<Row>, amount: int, bundles: seq<Entry>, options: map<string, Value>, s: Sampler)
    requires Valid(s)
    requires HasStringKeys(bundles)
    requires forall j :: 0 <= j < |bundles| ==> bundles[j].value.Int? && bundles[j].value.i >= 0
    requires Sum(Quotas(bundles)) == amount
    requires forall j :: 0 <= j < |bundles| ==>
      |Filter(rows, QuotaQuery(BaseQuery(options, s.drawn), bundles[j], bundles[j].value.i))| >= bundles[j].value.i
    ensures var r := GetRandomNodeIds(rows, amount, bundles, options, s);
            && |r.queries| == |bundles|
            && (forall j :: 0 <= j < |bundles| ==> |r.queries[j].fetched| == bundles[j].value.i)
            && |r.ids| == amount
  {
    var r := GetRandomNodeIds(rows, amount, bundles, options, s);
    var base := BaseQuery(options, s.drawn);
    var qs := Quotas(bundles);
    QuotaEntriesAllInt(bundles);
    ExactQuotaPlan(rows, amount, bundles, options, s);
    GetRandomNodeIdsConsistent(rows, amount, bundles, options, s);
    forall j | 0 <= j < |bundles|
      ensures |r.queries[j].fetched| == qs[j]
    {
      FullAnswer(rows, r.queries[j].query, r.queries[j].fetched, qs[j]);
    }
    AllFetchedLength(r.queries, qs);
    assert |r.ids| == |multiset(r.ids)| == |multiset(AllFetched(r.queries))|;
  }

  /** Quotas only, adding up to the amount: one sub-query per bundle, limited to its quota. */
  lemma ExactQuotaPlan(rows: seq<Row>, amount: int, bundles: seq<Entry>, options: map<string, Value>, s: Sampler)
    requires Valid(s)
    requires HasStringKeys(bundles)
    requires forall j :: 0 <= j < |bundles| ==> bundles[j].value.Int? && bundles[j].value.i >= 0
    requires Sum(Quotas(bundles)) == amount
    ensures var r := GetRandomNodeIds(rows, amount, bundles, options, s);
            && |r.queries| == |bundles|
            && forall j :: 0 <= j < |bundles| ==>
                 r.queries[j].query == QuotaQuery(BaseQuery(options, s.drawn), bundles[j], bundles[j].value.i)
  {
    var qs := Quotas(bundles);
    QuotaEntriesAllInt(bundles);
    QuotaLimitsWithinBudget(amount, qs);
    KeyedMode(rows, amount, bundles, options, s);
  }

  /** A limited query with at least `n` matching rows is answered with exactly `n` ids. */
  lemma FullAnswer(rows: seq<Row>, q: Query, ids: seq<int>, n: int)
    requires Answers(rows, q, ids)
    requires q.limit == Some(n) && n >= 0
    requires |Filter(rows, q)| >= n
    ensures |ids| == n
  {
  }

  /** The quota arithmetic kept as written: with 3 left, a quota of 5 gets a limit of
      5 - 3 = 2 rather than 3, and a following quota of 2, with 1 left, gets 1. */
  lemma AsymmetricQuota()
    ensures QuotaLimits(3, [5, 2]) == [2, 1]
    ensures QuotaLimits(1, [10]) == [9]
    ensures QuotaLimits(5, [3, 2]) == [3, 2]
    // once the remaining amount is negative, a limit exceeds its quota
    ensures QuotaLimits(1, [3, 3]) == [2, 4]
  {
  }

  /** Within one call the sub-queries do not exclude each other's answers: a bundle
      given both a quota of one and as a plain name, in a store whose only row is of
      that bundle, returns that row's node twice. */
  lemma SameCallMayRepeat(rows: seq<Row>, options: map<string, Value>, s: Sampler)
    requires |rows| == 1
    requires SatisfiesConditions(rows[0], options) && rows[0].nid !in s.drawn
    ensures var bundles := [Entry(StrKey(rows[0].bundle), Int(1)), Entry(IntKey(0), Str(rows[0].bundle))];
            GetRandomNodeIds(rows, 2, bundles, options, s).ids == [rows[0].nid, rows[0].nid]
  {
    var bundles := [Entry(StrKey(rows[0].bundle), Int(1)), Entry(IntKey(0), Str(rows[0].bundle))];
    var r := GetRandomNodeIds(rows, 2, bundles, options, s);
    TwoBundleDraw(rows, rows[0].bundle, options, s);
    BothQueriesFindTheRow(rows, options, s);
    TwiceTheSameId(r, rows[0].nid);
  }

  /** Both queries of `TwoBundleDraw` find the one row of a store that carries the
      options and was not drawn before the call. */
  lemma BothQueriesFindTheRow(rows: seq<Row>, options: map<string, Value>, s: Sampler)
    requires |rows| == 1
    requires SatisfiesConditions(rows[0], options) && rows[0].nid !in s.drawn
    ensures var b := rows[0].bundle;
            var base := BaseQuery(options, s.drawn);
            var f1 := AcquireRandomIds(rows, QuotaQuery(base, Entry(StrKey(b), Int(1)), 1), s);
            var f2 := AcquireRandomIds(rows, RestQuery(base, [Str(b)], 1), f1.sampler);
            f1.ids == [rows[0].nid] && f2.ids == [rows[0].nid]
  {
    var row := rows[0];
    var base := BaseQuery(options, s.drawn);
    var q1 := QuotaQuery(base, Entry(StrKey(row.bundle), Int(1)), 1);
    assert TypeIs(row.bundle, q1.types.value[0]);
    SingleRowAnswer(rows, q1, s);
    var f1 := AcquireRandomIds(rows, q1, s);
    var q2 := RestQuery(base, [Str(row.bundle)], 1);
    assert TypeIs(row.bundle, q2.types.value[0]);
    SingleRowAnswer(rows, q2, f1.sampler);
  }

  /** A draw made of two answers that each hold `id` returns `id` twice. */
  lemma TwiceTheSameId(r: Draw, id: int)
    requires multiset(r.ids) == multiset(AllFetched(r.queries))
    requires |r.queries| == 2 && r.queries[0].fetched == [id] && r.queries[1].fetched == [id]
    ensures r.ids == [id, id]
  {
    var parts := r.queries;
    assert AllFetched(parts) == [id, id] by {
      AllFetchedCons(parts[0], parts[1..]);
      AllFetchedCons(parts[1], []);
      assert parts[1..] == [parts[1]] + [];
    }
    assert multiset(r.ids) == multiset{id, id};
    assert |r.ids| == 2 by {
      assert |r.ids| == |multiset(r.ids)|;
    }
    assert r.ids[0] in multiset(r.ids) && r.ids[1] in multiset(r.ids);
  }

  /** A quota of one for a bundle, then the same bundle by name: the quota sub-query,
      then the query over the named bundle for the one node left, both excluding only
      what was drawn before the call. */
  lemma TwoBundleDraw(rows: seq<Row>, b: string, options: map<string, Value>, s: Sampler)
    ensures var bundles := [Entry(StrKey(b), Int(1)), Entry(IntKey(0), Str(b))];
            var base := BaseQuery(options, s.drawn);
            var q1 := QuotaQuery(base, bundles[0], 1);
            var f1 := AcquireRandomIds(rows, q1, s);
            var q2 := RestQuery(base, [Str(b)], 1);
            var f2 := AcquireRandomIds(rows, q2, f1.sampler);
            GetRandomNodeIds(rows, 2, bundles, options, s).queries == [SubDraw(q1, f1.ids), SubDraw(q2, f2.ids)]
  {
    var bundles := [Entry(StrKey(b), Int(1)), Entry(IntKey(0), Str(b))];
    assert bundles[0].key.StrKey?;
    HasStringKeysIff(bundles);
    TwoBundleLoop(rows, BaseQuery(options, s.drawn), b, s);
  }

  /** The loop of `TwoBundleDraw`: the quota sub-query, then the named bundle set
      aside with one node still wanted. */
  lemma TwoBundleLoop(rows: seq<Row>, base: Query, b: string, s: Sampler)
    ensures var bundles := [Entry(StrKey(b), Int(1)), Entry(IntKey(0), Str(b))];
            var q1 := QuotaQuery(base, bundles[0], 1);
            var f1 := AcquireRandomIds(rows, q1, s);
            KeyedLoop(rows, base, bundles, 2, s) == Keyed(1, [SubDraw(q1, f1.ids)], f1.sampler, [Str(b)])
  {
    var bundles := [Entry(StrKey(b), Int(1)), Entry(IntKey(0), Str(b))];
    var f1 := AcquireRandomIds(rows, QuotaQuery(base, bundles[0], 1), s);
    assert bundles[1..] == [Entry(IntKey(0), Str(b))];
    OneNamedEntryLoop(rows, base, Entry(IntKey(0), Str(b)), 1, f1.sampler);
  }

  /** A single entry naming a bundle is only set aside. */
  lemma OneNamedEntryLoop(rows: seq<Row>, base: Query, e: Entry, amount: int, s: Sampler)
    requires !e.value.Int?
    ensures KeyedLoop(rows, base, [e], amount, s) == Keyed(amount, [], s, [e.value])
  {
    assert [e][1..] == [];
  }

  /** A store of one row that the query selects answers with that row's id. */
  lemma SingleRowAnswer(rows: seq<Row>, q: Query, s: Sampler)
    requires |rows| == 1 && Matches(rows[0], q)
    requires q.limit.None? || q.limit.value >= 1
    ensures AcquireRandomIds(rows, q, s).ids == [rows[0].nid]
  {
    assert Filter(rows, q) == rows;
    var all := Nids(Filter(rows, q));
    assert all == [rows[0].nid];
    ShuffleSingleton(rows[0].nid, s.rng.Seed());
  }

  /** A second draw in the same request returns none of the ids the first returned. */
  lemma SuccessiveDrawsDisjoint(rows: seq<Row>, a1: int, b1: seq<Entry>, o1: map<string, Value>,
                                a2: int, b2: seq<Entry>, o2: map<string, Value>, s: Sampler)
    requires Valid(s)
    ensures var r1 := GetRandomNodeIds(rows, a1, b1, o1, s);
            var r2 := GetRandomNodeIds(rows, a2, b2, o2, r1.sampler);
            forall id :: id in r2.ids ==> id !in r1.ids
  {
    var r1 := GetRandomNodeIds(rows, a1, b1, o1, s);
    var r2 := GetRandomNodeIds(rows, a2, b2, o2, r1.sampler);
    DrawnGrows(rows, a1, b1, o1, s);
    forall id | id in r2.ids
      ensures id !in r1.ids
    {
      ReturnedIdsSelected(rows, a2, b2, o2, r1.sampler, id);
    }
  }

  /** The drawn ids only grow: they stay free of duplicates, keep the old ones in front
      in their order, and gain exactly the ids returned. */
  lemma DrawnGrows(rows: seq<Row>, amount: int, bundles: seq<Entry>, options: map<string, Value>, s: Sampler)
    requires Valid(s)
    ensures var r := GetRandomNodeIds(rows, amount, bundles, options, s);
            && Valid(r.sampler)
            && |s.drawn| <= |r.sampler.drawn|
            && r.sampler.drawn[..|s.drawn|] == s.drawn
            && forall x :: x in r.sampler.drawn <==> x in s.drawn || x in r.ids
  {
    var r := GetRandomNodeIds(rows, amount, bundles, options, s);
    GetRandomNodeIdsConsistent(rows, amount, bundles, options, s);
    var fetched := AllFetched(r.queries);
    DedupSpec(s.drawn + fetched);
    DedupExtends(s.drawn, fetched);
    forall x
      ensures x in r.ids <==> x in fetched
    {
      assert x in r.ids <==> x in multiset(r.ids);
      assert x in fetched <==> x in multiset(fetched);
    }
  }

  lemma {:induction false} SkipNext(rng: Rng, n: nat)
    ensures rng.Skip(n).Next() == rng.Skip(n + 1)
    decreases n
  {
    if n > 0 {
      SkipNext(rng.Next(), n - 1);
    }
  }

  /** The PHP `+=` of `getRandomNodes`: published nodes in the current language unless
      the caller asked otherwise. */
  function WithDefaults(options: map<string, Value>, langcode: string): (r: map<string, Value>)
    ensures r.Keys == options.Keys + {"status", "langcode"}
    ensures forall k :: k in options ==> r[k] == options[k]
    ensures "status" !in options ==> r["status"] == Int(1)
    ensures "langcode" !in options ==> r["langcode"] == Str(langcode)
  {
    var defaults := map["status" := Int(1), "langcode" := Str(langcode)];
    options + (defaults - options.Keys)
  }

  /** `getRandomNodes`, up to the loading of the nodes: the ids drawn with the default
      options added under the caller's. */
  function GetRandomNodes(rows: seq<Row>, amount: int, bundles: seq<Entry>, options: map<string, Value>, langcode: string, s: Sampler): (r: Draw)
    requires Valid(s)
    ensures forall i :: 0 <= i < |r.queries| ==>
      r.queries[i].query.conditions == WithDefaults(options, langcode)
  {
    GetRandomNodeIdsConsistent(rows, amount, bundles, WithDefaults(options, langcode), s);
    GetRandomNodeIds(rows, amount, bundles, WithDefaults(options, langcode), s)
  }
}
