/**
  The exposure collector `findExperiments` and the session state it works on:
  the two per-channel dedup caches and the SPA flag, which the integration keeps
  in module-level variables for the lifetime of the page.
 */
module Collector {
  import opened Wrappers
  import opened Seqs
  import opened Vendor

  /** The reporting channel a pass collects for: identify traits or track events. */
  datatype Channel = ReplayChannel | ListenChannel {
    function Other(): (o: Channel)
      ensures o != this
    {
      if ReplayChannel? then ListenChannel else ReplayChannel
    }
  }

  /** The module-level state shared by every pass. */
  datatype Session = Session(replayCache: seq<Id>, listenCache: seq<Id>, spaMode: bool) {

    /** The cache a channel reads and extends. */
    function Cache(c: Channel): seq<Id> {
      match c
      case ReplayChannel => replayCache
      case ListenChannel => listenCache
    }

    /** Replaces one channel's cache, leaving everything else as it was. */
    function WithCache(c: Channel, ids: seq<Id>): (s: Session)
      ensures s.Cache(c) == ids
      ensures s.Cache(c.Other()) == Cache(c.Other())
      ensures s.spaMode == spaMode
    {
      match c
      case ReplayChannel => this.(replayCache := ids)
      case ListenChannel => this.(listenCache := ids)
    }

    /** Both caches hold each id at most once. */
    predicate Valid() {
      Distinct(replayCache) && Distinct(listenCache)
    }
  }

  /** The state at page load: both caches empty, SPA mode off. */
  const PageLoad := Session([], [], false)

  /** Reference definition: the keys not in the cache, in key order. */
  function Unseen(keys: seq<Id>, cache: seq<Id>): (r: seq<Id>)
    ensures forall k :: k in r <==> k in keys && k !in cache
    ensures Distinct(keys) ==> Distinct(r)
  {
    if |keys| == 0 then []
    else
      var rest := Unseen(keys[1..], cache);
      assert forall k :: k in keys[1..] ==> k in keys;
      if keys[0] in cache then rest else [keys[0]] + rest
  }

  /** Reference definition: the ids of settled entries not in the cache, in key order. */
  function Admitted(entries: seq<Entry>, cache: seq<Id>): (r: seq<Id>)
    ensures forall k :: k in r ==> k !in cache
    ensures |r| <= |entries|
  {
    if |entries| == 0 then []
    else
      var e := entries[0];
      var rest := Admitted(entries[1..], cache);
      if e.id !in cache && Settled(e.experiment) then [e.id] + rest else rest
  }

  /** Every admitted id belongs to a settled entry. */
  lemma {:induction false} AdmittedSound(entries: seq<Entry>, cache: seq<Id>, k: Id)
    ensures k in Admitted(entries, cache) ==>
      exists i :: 0 <= i < |entries| && entries[i].id == k && Settled(entries[i].experiment)
  {
    if |entries| > 0 && k in Admitted(entries, cache) {
      var tail := entries[1..];
      if k in Admitted(tail, cache) {
        AdmittedSound(tail, cache, k);
        var i :| 0 <= i < |tail| && tail[i].id == k && Settled(tail[i].experiment);
        assert entries[i + 1] == tail[i];
      } else {
        assert entries[0].id == k && Settled(entries[0].experiment);
      }
    }
  }

  /** Every uncached settled entry's id is admitted. */
  lemma {:induction false} AdmittedComplete(entries: seq<Entry>, cache: seq<Id>, i: nat)
    requires i < |entries|
    ensures entries[i].id !in cache && Settled(entries[i].experiment) ==> entries[i].id in Admitted(entries, cache)
  {
    if i > 0 {
      assert entries[i] == entries[1..][i - 1];
      AdmittedComplete(entries[1..], cache, i - 1);
    }
  }

  /** Distinct keys give distinct admitted ids. */
  lemma {:induction false} AdmittedDistinct(entries: seq<Entry>, cache: seq<Id>)
    requires Distinct(Ids(entries))
    ensures Distinct(Admitted(entries, cache))
  {
    if |entries| > 0 {
      var tail := entries[1..];
      HeadTail(entries);
      AdmittedDistinct(tail, cache);
      AdmittedSound(tail, cache, entries[0].id);
    }
  }

  /**
    The `forEach` loop of `findExperiments`: every key missing from the cache
    is returned, and a settled one is pushed onto the cache as it is met.
    Yields the returned keys and the cache after the loop.
   */
  function Sweep(entries: seq<Entry>, cache: seq<Id>): (seq<Id>, seq<Id>) {
    if |entries| == 0 then ([], cache)
    else
      var e := entries[0];
      if e.id in cache then Sweep(entries[1..], cache)
      else
        var cache' := if Settled(e.experiment) then cache + [e.id] else cache;
        var (clean, final) := Sweep(entries[1..], cache');
        ([e.id] + clean, final)
  }

  /** Extending the cache with a key that does not occur changes no filter. */
  lemma {:induction false} UnseenIgnores(keys: seq<Id>, cache: seq<Id>, x: Id)
    requires x !in keys
    ensures Unseen(keys, cache + [x]) == Unseen(keys, cache)
  {
    if |keys| > 0 {
      assert keys[0] in cache + [x] <==> keys[0] in cache;
      assert x !in keys[1..];
      UnseenIgnores(keys[1..], cache, x);
    }
  }

  lemma {:induction false} AdmittedIgnores(entries: seq<Entry>, cache: seq<Id>, x: Id)
    requires x !in Ids(entries)
    ensures Admitted(entries, cache + [x]) == Admitted(entries, cache)
  {
    if |entries| > 0 {
      assert Ids(entries) == [entries[0].id] + Ids(entries[1..]);
      assert entries[0].id in cache + [x] <==> entries[0].id in cache;
      AdmittedIgnores(entries[1..], cache, x);
    }
  }

  /** Splitting a list of entries into its head and its tail. */
  lemma HeadTail(entries: seq<Entry>)
    requires |entries| > 0
    requires Distinct(Ids(entries))
    ensures Ids(entries) == [entries[0].id] + Ids(entries[1..])
    ensures entries[0].id !in Ids(entries[1..])
    ensures Distinct(Ids(entries[1..]))
  {
    var tail := entries[1..];
    var ids := Ids(entries);
    assert ids[1..] == Ids(tail);
    assert ids == [ids[0]] + ids[1..];
  }

  /**
    On a table the loop computes the two reference filters: it returns the
    unseen keys and appends exactly the settled ones among them. The cache
    growing inside the loop never hides a later key, because keys are distinct.
   */
  lemma {:induction false} SweepFilters(entries: seq<Entry>, cache: seq<Id>)
    requires Distinct(Ids(entries))
    ensures Sweep(entries, cache) == (Unseen(Ids(entries), cache), cache + Admitted(entries, cache))
  {
    if |entries| == 0 {
      assert cache + Admitted(entries, cache) == cache;
    } else {
      var e := entries[0];
      var tail := entries[1..];
      HeadTail(entries);
      if e.id in cache {
        SweepFilters(tail, cache);
      } else if Settled(e.experiment) {
        SweepFilters(tail, cache + [e.id]);
        UnseenIgnores(Ids(tail), cache, e.id);
        AdmittedIgnores(tail, cache, e.id);
        assert cache + [e.id] + Admitted(tail, cache) == cache + ([e.id] + Admitted(tail, cache));
      } else {
        SweepFilters(tail, cache);
      }
    }
  }

  /**
    `findExperiments(window._vwo_exp, type)`. Yields the new session and the
    id list the reporters iterate (`None` when `_vwo_exp_ids` is undefined).
   */
  function Collect(s: Session, w: Window, c: Channel): (r: Result<(Session, Option<seq<Id>>), TypeError>)
    // Outside SPA mode the vendor's managed list passes through and nothing is cached.
    ensures !s.spaMode ==> r == Success((s, w.vwoExpIds))
    // In SPA mode a missing table makes `Object.keys` throw.
    ensures s.spaMode ==> (r.Failure? <==> w.vwoExp.None?)
    // In SPA mode the result is exactly the uncached keys, in key order, each once.
    ensures s.spaMode && r.Success? ==>
      && r.value.1.Some?
      && (forall k :: k in r.value.1.value <==> k in Ids(w.vwoExp.value) && k !in s.Cache(c))
      && Distinct(r.value.1.value)
      && r.value.1.value == Unseen(Ids(w.vwoExp.value), s.Cache(c))
    // The cache grows by exactly the settled ones among them.
    ensures s.spaMode && r.Success? ==>
      r.value.0.Cache(c) == s.Cache(c) + Admitted(w.vwoExp.value, s.Cache(c))
    ensures s.spaMode && r.Success? ==>
      forall k :: k in r.value.0.Cache(c) <==>
        || k in s.Cache(c)
        || (k in r.value.1.value && Settled(Find(w.vwoExp.value, k).value))
    // Only the chosen channel's cache changes, only by appending, and without duplicates.
    ensures r.Success? ==>
      && r.value.0.Cache(c.Other()) == s.Cache(c.Other())
      && r.value.0.spaMode == s.spaMode
      && s.Cache(c) <= r.value.0.Cache(c)
      && (Distinct(s.Cache(c)) ==> Distinct(r.value.0.Cache(c)))
  {
    if !s.spaMode then Success((s, w.vwoExpIds))
    else
      match w.vwoExp
      case None => Failure(KeysOfUndefined)
      case Some(t) =>
        var cache := s.Cache(c);
        var (clean, cache') := Sweep(t, cache);
        SweepFilters(t, cache);
        AdmittedMembers(t, cache);
        DistinctAppendAdmitted(t, cache);
        Success((s.WithCache(c, cache'), Some(clean)))
  }

  /** On a table, the admitted ids are exactly the uncached ids whose record is settled. */
  lemma AdmittedMembers(t: Table, cache: seq<Id>)
    ensures forall k :: k in Admitted(t, cache) <==> k !in cache && Find(t, k).Some? && Settled(Find(t, k).value)
  {
    forall k | k !in cache && Find(t, k).Some? && Settled(Find(t, k).value)
      ensures k in Admitted(t, cache)
    {
      var i :| 0 <= i < |t| && Ids(t)[i] == k;
      FindEntry(t, i);
      AdmittedComplete(t, cache, i);
    }
    forall k | k in Admitted(t, cache)
      ensures Find(t, k).Some? && Settled(Find(t, k).value)
    {
      AdmittedSound(t, cache, k);
      var i :| 0 <= i < |t| && t[i].id == k && Settled(t[i].experiment);
      FindEntry(t, i);
    }
  }

  lemma DistinctAppendAdmitted(t: Table, cache: seq<Id>)
    ensures Distinct(cache) ==> Distinct(cache + Admitted(t, cache))
  {
    if Distinct(cache) {
      AdmittedDistinct(t, cache);
      DistinctAppend(cache, Admitted(t, cache));
    }
  }
}
