/** The pull-and-append step every feed shares (quantworks/feed/__init__.py):
    `BaseFeed` keeps one data series per key, grown on demand, and appends
    one `(dateTime, value)` pair per key each time its source produces
    values. Each series is a plain sequence of pairs; the bounded series
    class and its length cap are not part of this model. The abstract
    `getNextValues` is modelled as a queue of the pairs it will return. */
module Feeds {
  import opened Wrappers

  /** A data series: `(dateTime, value)` pairs in append order. */
  type Series<V> = seq<(int, V)>

  /** What `getNextValues` returns: a datetime, or `None` for no data, and
      the values by key. */
  type NextValues<K, V> = (Option<int>, map<K, V>)

  /** The lifecycle calls a feed receives, in order. */
  datatype Lifecycle = StartCall | StopCall | JoinCall

  /** The series map after appending `(t, values[k])` to the series of each
      key `k` of `values`, a key seen for the first time getting a new,
      empty series first. */
  function Appended<K, V>(ds: map<K, Series<V>>, t: int, values: map<K, V>): (r: map<K, Series<V>>)
    ensures r.Keys == ds.Keys + values.Keys
    ensures forall k :: k in values ==> r[k] == (if k in ds then ds[k] else []) + [(t, values[k])]
    ensures forall k :: k in ds && k !in values ==> r[k] == ds[k]
  {
    map k | k in ds.Keys + values.Keys :: if k in values then (if k in ds then ds[k] else []) + [(t, values[k])] else ds[k]
  }

  /** The series map after a sequence of steps; a step without a datetime
      changes nothing. */
  function AppendAll<K, V>(ds: map<K, Series<V>>, steps: seq<NextValues<K, V>>): map<K, Series<V>>
    decreases |steps|
  {
    if steps == [] then ds
    else
      var prev := AppendAll(ds, steps[..|steps| - 1]);
      var (dateTime, values) := steps[|steps| - 1];
      if dateTime.Some? then Appended(prev, dateTime.value, values) else prev
  }

  /** The number of steps that carry a datetime and a value for `k`. */
  function CountFor<K, V>(steps: seq<NextValues<K, V>>, k: K): nat
    decreases |steps|
  {
    if steps == [] then 0
    else
      var (dateTime, values) := steps[|steps| - 1];
      CountFor(steps[..|steps| - 1], k) + (if dateTime.Some? && k in values then 1 else 0)
  }

  /** A key has a series after the steps exactly when it had one before or
      some step with a datetime gave it a value, and its series grew by one
      pair per such step. */
  lemma {:induction false} AppendAllGrowth<K, V>(ds: map<K, Series<V>>, steps: seq<NextValues<K, V>>, k: K)
    ensures k in AppendAll(ds, steps) <==> k in ds || CountFor(steps, k) > 0
    ensures k in AppendAll(ds, steps) ==>
              |AppendAll(ds, steps)[k]| == (if k in ds then |ds[k]| else 0) + CountFor(steps, k)
    ensures k in ds ==> AppendAll(ds, steps)[k][..|ds[k]|] == ds[k]
    decreases |steps|
  {
    if steps != [] {
      var init := steps[..|steps| - 1];
      AppendAllGrowth(ds, init, k);
      var prev := AppendAll(ds, init);
      var (dateTime, values) := steps[|steps| - 1];
      if dateTime.Some? && k in values {
        var r := Appended(prev, dateTime.value, values);
        if k in ds {
          assert r[k][..|ds[k]|] == prev[k][..|ds[k]|];
        }
      }
    }
  }

  /** `BaseFeed`. `pending` holds what the next calls to `getNextValues`
      return; the feed is at its end when it is empty. `emitted` records the
      new-values events, `lifecycle` the start/stop/join calls. */
  class BaseFeed<K(==), V> {
    const maxLen: nat
    var ds: map<K, Series<V>>
    var pending: seq<NextValues<K, V>>
    var emitted: seq<(int, map<K, V>)>
    var lifecycle: seq<Lifecycle>

    constructor (maxLen: nat, pending: seq<NextValues<K, V>>)
      ensures this.maxLen == maxLen && this.pending == pending
      ensures ds == map[] && emitted == [] && lifecycle == []
    {
      this.maxLen := maxLen;
      this.pending := pending;
      ds := map[];
      emitted := [];
      lifecycle := [];
    }

    predicate Eof()
      reads this
    {
      pending == []
    }

    /** `getKeys`: the keys that have a series. */
    function GetKeys(): set<K>
      reads this
    {
      ds.Keys
    }

    /** `__contains__`. */
    predicate Contains(key: K)
      reads this
    {
      key in ds
    }

    /** `__getitem__`: the series of a key; `None` stands for the KeyError. */
    function Get(key: K): (r: Option<Series<V>>)
      reads this
      ensures r.Some? <==> Contains(key)
      ensures r.Some? ==> r.value == ds[key]
    {
      if key in ds then Some(ds[key]) else None
    }

    method Start()
      modifies this
      ensures lifecycle == old(lifecycle) + [StartCall]
      ensures ds == old(ds) && pending == old(pending) && emitted == old(emitted)
    {
      lifecycle := lifecycle + [StartCall];
    }

    method Stop()
      modifies this
      ensures lifecycle == old(lifecycle) + [StopCall]
      ensures ds == old(ds) && pending == old(pending) && emitted == old(emitted)
    {
      lifecycle := lifecycle + [StopCall];
    }

    method Join()
      modifies this
      ensures lifecycle == old(lifecycle) + [JoinCall]
      ensures ds == old(ds) && pending == old(pending) && emitted == old(emitted)
    {
      lifecycle := lifecycle + [JoinCall];
    }

    /** `getNextValues`: the next queued pair, or no data at the end. */
    method GetNextValues() returns (dateTime: Option<int>, values: map<K, V>)
      modifies this
      ensures old(pending) == [] ==> dateTime.None? && values == map[] && pending == []
      ensures old(pending) != [] ==> (dateTime, values) == old(pending)[0] && pending == old(pending)[1..]
      ensures ds == old(ds) && emitted == old(emitted) && lifecycle == old(lifecycle)
    {
      if pending == [] {
        dateTime, values := None, map[];
      } else {
        dateTime, values := pending[0].0, pending[0].1;
        pending := pending[1..];
      }
    }

    /** `registerDataSeries`: create a series only for an unknown key. */
    method RegisterDataSeries(key: K)
      modifies this
      ensures ds == if key in old(ds) then old(ds) else old(ds)[key := []]
      ensures pending == old(pending) && emitted == old(emitted) && lifecycle == old(lifecycle)
    {
      if key !in ds {
        ds := ds[key := []];
      }
    }

    /** `reset`: the same keys, each with a new, empty series. */
    method Reset()
      modifies this
      ensures ds == map k | k in old(ds) :: []
      ensures pending == old(pending) && emitted == old(emitted) && lifecycle == old(lifecycle)
    {
      var keys := ds.Keys;
      ghost var oldKeys := keys;
      ds := map[];
      while keys != {}
        invariant keys <= oldKeys
        invariant ds == map k | k in oldKeys - keys :: []
        invariant pending == old(pending) && emitted == old(emitted) && lifecycle == old(lifecycle)
        decreases keys
      {
        var key :| key in keys;
        RegisterDataSeries(key);
        keys := keys - {key};
      }
    }

    /** `getNextValuesAndUpdateDataSeries`: pull the next pair and, when it
        has a datetime, append one pair to the series of each of its keys. */
    method GetNextValuesAndUpdateDataSeries() returns (dateTime: Option<int>, values: map<K, V>)
      modifies this
      ensures (dateTime, values) == (if old(pending) == [] then (None, map[]) else old(pending)[0])
      ensures pending == if old(pending) == [] then [] else old(pending)[1..]
      ensures ds == AppendAll(old(ds), [(dateTime, values)])
      ensures dateTime.None? ==> ds == old(ds)
      ensures emitted == old(emitted) && lifecycle == old(lifecycle)
    {
      dateTime, values := GetNextValues();
      ghost var ds0 := ds;
      if dateTime.Some? {
        var t := dateTime.value;
        var keys := values.Keys;
        while keys != {}
          invariant keys <= values.Keys
          invariant ds.Keys == ds0.Keys + (values.Keys - keys)
          invariant forall k :: k in values && k !in keys ==> ds[k] == (if k in ds0 then ds0[k] else []) + [(t, values[k])]
          invariant forall k :: k in ds0 && (k !in values || k in keys) ==> ds[k] == ds0[k]
          invariant pending == if old(pending) == [] then [] else old(pending)[1..]
          invariant emitted == old(emitted) && lifecycle == old(lifecycle)
          decreases keys
        {
          var key :| key in keys;
          var series := if key in ds then ds[key] else [];
          ds := ds[key := series + [(t, values[key])]];
          keys := keys - {key};
        }
        ghost var expected := Appended(ds0, t, values);
        assert forall k :: k in ds ==> ds[k] == expected[k];
        assert ds == expected;
      }
      assert [(dateTime, values)][..0] == [];
    }

    /** `dispatch`: true exactly when the pulled pair has a datetime, and
        the new-values event is emitted in exactly that case. */
    method Dispatch() returns (produced: bool)
      modifies this
      ensures var next := if old(pending) == [] then (None, map[]) else old(pending)[0];
              && produced == next.0.Some?
              && ds == AppendAll(old(ds), [next])
              && emitted == (if produced then old(emitted) + [(next.0.value, next.1)] else old(emitted))
      ensures pending == if old(pending) == [] then [] else old(pending)[1..]
      ensures lifecycle == old(lifecycle)
    {
      var dateTime, values := GetNextValuesAndUpdateDataSeries();
      if dateTime.Some? {
        emitted := emitted + [(dateTime.value, values)];
      }
      produced := dateTime.Some?;
    }
  }

  /** `getKeys`, `__contains__` and `__getitem__` agree with the series map
      and with each other. */
  lemma KeyQueriesAgree<K, V>(feed: BaseFeed<K, V>, key: K)
    ensures key in feed.GetKeys() <==> feed.Contains(key)
    ensures feed.Get(key).Some? <==> key in feed.GetKeys()
    ensures key in feed.GetKeys() ==> feed.Get(key).value == feed.ds[key]
  {
  }

  function Min(a: nat, b: nat): nat { if a <= b then a else b }

  /** `feed_iterator`, driven by a consumer that asks for at most `limit`
      pairs. The generator's body runs only from the first request on: it
      starts the feed, yields pulled pairs until the feed is at its end or
      the consumer stops asking, then stops and joins the feed whatever way
      the iteration ended. A consumer that never asks causes no call. */
  method FeedIterator<K(==), V>(feed: BaseFeed<K, V>, limit: nat) returns (yielded: seq<NextValues<K, V>>)
    modifies feed
    ensures yielded == old(feed.pending)[..Min(limit, |old(feed.pending)|)]
    ensures feed.pending == old(feed.pending)[Min(limit, |old(feed.pending)|)..]
    ensures feed.ds == AppendAll(old(feed.ds), yielded)
    ensures limit > 0 ==> feed.lifecycle == old(feed.lifecycle) + [StartCall, StopCall, JoinCall]
    ensures limit == 0 ==> yielded == [] && feed.lifecycle == old(feed.lifecycle)
    ensures feed.emitted == old(feed.emitted)
  {
    if limit == 0 {
      return [];
    }
    feed.Start();
    ghost var p0 := feed.pending;
    ghost var ds0 := feed.ds;
    ghost var life := feed.lifecycle;
    yielded := [];
    while !feed.Eof() && |yielded| < limit
      invariant |yielded| <= limit && |yielded| <= |p0|
      invariant yielded == p0[..|yielded|]
      invariant feed.pending == p0[|yielded|..]
      invariant feed.ds == AppendAll(ds0, yielded)
      invariant feed.lifecycle == life
      invariant feed.emitted == old(feed.emitted)
      decreases |feed.pending|
    {
      ghost var before := yielded;
      var dateTime, values := feed.GetNextValuesAndUpdateDataSeries();
      yielded := yielded + [(dateTime, values)];
      AppendAllSnoc(ds0, before, (dateTime, values));
      assert p0[..|yielded|] == p0[..|before|] + [p0[|before|]];
    }
    feed.Stop();
    feed.Join();
  }

  lemma AppendAllSnoc<K, V>(ds: map<K, Series<V>>, steps: seq<NextValues<K, V>>, step: NextValues<K, V>)
    ensures AppendAll(ds, steps + [step]) == AppendAll(AppendAll(ds, steps), [step])
  {
    assert (steps + [step])[..|steps|] == steps;
    assert [step][..0] == [];
  }
}
