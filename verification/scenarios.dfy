/**
  Properties over several passes: the dedup guarantees of the caches, the
  independence of the two channels, preview swallowing an exposure, and the
  worked "Blue Button" example.
 */
module Scenarios {
  import opened Wrappers
  import opened Seqs
  import opened Vendor
  import opened Collector
  import opened Resolver
  import opened JsObject
  import opened Reporters

  /** The snapshot's table holds `id` with a settled record. */
  predicate SettledIn(w: Window, id: Id) {
    w.vwoExp.Some? && Find(w.vwoExp.value, id).Some? && Settled(Find(w.vwoExp.value, id).value)
  }

  /**
    One SPA pass on a channel as a reporter sees it: the new session and the
    ids returned. Without a table `Object.keys` throws before any push, so the
    pass returns nothing and the session is kept.
   */
  function Pass(s: Session, w: Window, c: Channel): (r: (Session, seq<Id>))
    requires s.spaMode
    ensures r.0.spaMode
    ensures s.Cache(c) <= r.0.Cache(c)
    ensures r.0.Cache(c.Other()) == s.Cache(c.Other())
    ensures w.vwoExp.None? ==> r == (s, [])
    ensures w.vwoExp.Some? ==>
      && r.1 == Unseen(Ids(w.vwoExp.value), s.Cache(c))
      && r.0.Cache(c) == s.Cache(c) + Admitted(w.vwoExp.value, s.Cache(c))
  {
    match Collect(s, w, c)
    case Failure(_) => (s, [])
    case Success((s1, ids)) => (s1, ids.value)
  }

  /**
    Successive SPA passes on one channel, one per snapshot: the final session
    and the id list each pass returned.
   */
  function Passes(s: Session, ws: seq<Window>, c: Channel): (r: (Session, seq<seq<Id>>))
    requires s.spaMode
    ensures |r.1| == |ws|
    ensures r.0.spaMode
    ensures s.Cache(c) <= r.0.Cache(c)
    ensures r.0.Cache(c.Other()) == s.Cache(c.Other())
    decreases |ws|
  {
    if |ws| == 0 then (s, [])
    else
      var (s1, ids) := Pass(s, ws[0], c);
      var (sn, rest) := Passes(s1, ws[1..], c);
      (sn, [ids] + rest)
  }

  /** The first pass, then the remaining ones from the session it leaves. */
  lemma PassesStep(s: Session, ws: seq<Window>, c: Channel)
    requires s.spaMode && |ws| > 0
    ensures var s1 := Pass(s, ws[0], c).0;
      && s1.spaMode
      && Passes(s, ws, c).1[0] == Pass(s, ws[0], c).1
      && (forall j :: 0 < j < |ws| ==> Passes(s, ws, c).1[j] == Passes(s1, ws[1..], c).1[j - 1])
      && Passes(s, ws, c).0 == Passes(s1, ws[1..], c).0
  {
  }

  /**
    Once cached on a channel, an id is never returned on it again, whatever
    the later snapshots hold, including snapshots without a table.
   */
  lemma {:induction false} CachedNeverReturned(s: Session, ws: seq<Window>, c: Channel, id: Id)
    requires s.spaMode
    requires id in s.Cache(c)
    ensures forall i :: 0 <= i < |ws| ==> id !in Passes(s, ws, c).1[i]
    decreases |ws|
  {
    if |ws| > 0 {
      var s1 := Pass(s, ws[0], c).0;
      PassesStep(s, ws, c);
      CachedNeverReturned(s1, ws[1..], c, id);
    }
  }

  /** A returned id whose record is settled is in the channel's cache afterwards. */
  lemma SettledIsCached(s: Session, w: Window, c: Channel, id: Id)
    requires s.spaMode
    ensures id in Pass(s, w, c).1 && SettledIn(w, id) ==> id in Pass(s, w, c).0.Cache(c)
  {
    if id in Pass(s, w, c).1 && SettledIn(w, id) {
      AdmittedMembers(w.vwoExp.value, s.Cache(c));
    }
  }

  /** An id the first pass returns while settled is not returned by any later pass. */
  lemma FirstPassSettled(s: Session, ws: seq<Window>, c: Channel, id: Id)
    requires s.spaMode && |ws| > 0
    requires id in Pass(s, ws[0], c).1 && SettledIn(ws[0], id)
    ensures forall j :: 0 < j < |ws| ==> id !in Passes(s, ws, c).1[j]
  {
    var s1 := Pass(s, ws[0], c).0;
    SettledIsCached(s, ws[0], c, id);
    CachedNeverReturned(s1, ws[1..], c, id);
    PassesStep(s, ws, c);
  }

  /**
    An id returned by a pass in which its record is settled is never returned
    again on that channel, whatever the later snapshots hold.
   */
  lemma {:induction false} SettledReportedOnce(s: Session, ws: seq<Window>, c: Channel, i: nat, id: Id)
    requires s.spaMode
    requires i < |ws|
    ensures id in Passes(s, ws, c).1[i] && SettledIn(ws[i], id) ==>
      forall j :: i < j < |ws| ==> id !in Passes(s, ws, c).1[j]
    decreases i
  {
    var all := Passes(s, ws, c).1;
    if id in all[i] && SettledIn(ws[i], id) {
      PassesStep(s, ws, c);
      if i == 0 {
        FirstPassSettled(s, ws, c, id);
      } else {
        var s1 := Pass(s, ws[0], c).0;
        var rest := Passes(s1, ws[1..], c).1;
        assert ws[i] == ws[1..][i - 1] && all[i] == rest[i - 1];
        SettledReportedOnce(s1, ws[1..], c, i - 1, id);
        forall j | i < j < |ws| ensures id !in all[j] {
          assert all[j] == rest[j - 1];
        }
      }
    }
  }

  /** `n` passes over the same snapshot. */
  function Repeat(w: Window, n: nat): (ws: seq<Window>)
    ensures |ws| == n
    ensures forall i :: 0 <= i < n ==> ws[i] == w
  {
    seq(n, i => w)
  }

  /** One pass returns an uncached unsettled key and leaves it uncached. */
  lemma UnsettledStaysUncached(s: Session, w: Window, c: Channel, id: Id)
    requires s.spaMode && w.vwoExp.Some?
    requires id in Ids(w.vwoExp.value) && !Settled(Find(w.vwoExp.value, id).value)
    requires id !in s.Cache(c)
    ensures id in Pass(s, w, c).1
    ensures id !in Pass(s, w, c).0.Cache(c)
  {
    AdmittedMembers(w.vwoExp.value, s.Cache(c));
  }

  /** An id the first pass returns, and every later pass returns, is returned by every pass. */
  lemma ReturnedByEveryPass(s: Session, ws: seq<Window>, c: Channel, id: Id)
    requires s.spaMode && |ws| > 0
    requires id in Pass(s, ws[0], c).1
    requires forall i :: 0 <= i < |ws| - 1 ==> id in Passes(Pass(s, ws[0], c).0, ws[1..], c).1[i]
    ensures forall i :: 0 <= i < |ws| ==> id in Passes(s, ws, c).1[i]
    ensures Passes(s, ws, c).0 == Passes(Pass(s, ws[0], c).0, ws[1..], c).0
  {
    PassesStep(s, ws, c);
  }

  /**
    An experiment whose record is not settled stays uncached and is returned
    by every pass over an unchanged snapshot.
   */
  lemma {:induction false} UnsettledReturnedEveryPass(s: Session, w: Window, n: nat, c: Channel, id: Id)
    requires s.spaMode && w.vwoExp.Some?
    requires id in Ids(w.vwoExp.value) && !Settled(Find(w.vwoExp.value, id).value)
    requires id !in s.Cache(c)
    ensures forall i :: 0 <= i < n ==> id in Passes(s, Repeat(w, n), c).1[i]
    ensures id !in Passes(s, Repeat(w, n), c).0.Cache(c)
    decreases n
  {
    if n > 0 {
      var ws := Repeat(w, n);
      UnsettledStaysUncached(s, w, c, id);
      assert ws[1..] == Repeat(w, n - 1);
      UnsettledReturnedEveryPass(Pass(s, w, c).0, w, n - 1, c, id);
      ReturnedByEveryPass(s, ws, c, id);
    }
  }

  /** A pass on one channel does not change what the other channel collects next. */
  lemma ChannelsIndependent(s: Session, w: Window, w': Window, c: Channel)
    requires s.spaMode && w.vwoExp.Some?
    ensures Collect(s, w, c).Success?
    ensures var s1 := Collect(s, w, c).value.0;
      && Collect(s1, w', c.Other()).Success? == Collect(s, w', c.Other()).Success?
      && (Collect(s1, w', c.Other()).Success? ==>
            Collect(s1, w', c.Other()).value.1 == Collect(s, w', c.Other()).value.1)
  {
  }

  /**
    A settled experiment seen while the campaign is being previewed is cached
    on the replay channel without any trait for it, so no later replay pass
    reports it either.
   */
  lemma PreviewSwallowsExposure(s: Session, w: Window, later: Window, id: Id)
    requires s.spaMode && w.vwoExp.Some? && w.visDebug
    requires id in Ids(w.vwoExp.value) && Settled(Find(w.vwoExp.value, id).value)
    requires id !in s.replayCache
    ensures Replay(s, w).Success?
    ensures var (s1, call) := Replay(s, w).value;
      && call.Some? && call.value.Identify?
      && TraitKey(id) !in KeysOf(call.value.traits)
      && id in s1.replayCache
      && (Collect(s1, later, ReplayChannel).Success? ==> id !in Collected(s1, later, ReplayChannel).value)
  {
    var ids := Collected(s, w, ReplayChannel).value;
    assert id in ids;
    var traits := Replay(s, w).value.1.value.traits;
  }

  /** `calls` holds a track call for `id`. */
  predicate Tracked(calls: seq<Call>, id: Id) {
    exists i :: 0 <= i < |calls| && calls[i].Track? && calls[i].experimentId == id
  }

  /** An id the listen pass tracks is cached on the listen channel by that pass. */
  lemma TrackedIsCached(s: Session, w: Window, id: Id)
    requires s.spaMode
    ensures Roots(s, w).Success? && Tracked(Roots(s, w).value.1, id) ==> id in Roots(s, w).value.0.listenCache
  {
    if Roots(s, w).Success? && Tracked(Roots(s, w).value.1, id) {
      var calls := Roots(s, w).value.1;
      var i :| 0 <= i < |calls| && calls[i].Track? && calls[i].experimentId == id;
      assert Reportable(w, id);
      AdmittedMembers(w.vwoExp.value, s.listenCache);
    }
  }

  /** A listen pass never tracks an id already in the listen cache. */
  lemma CachedNotTracked(s: Session, w: Window, id: Id)
    requires s.spaMode
    requires id in s.listenCache
    ensures Roots(s, w).Success? ==> !Tracked(Roots(s, w).value.1, id)
  {
    if Roots(s, w).Success? {
      var calls := Roots(s, w).value.1;
      var ids := Collected(s, w, ListenChannel).value;
      assert id !in ids;
      forall j | 0 <= j < |calls| ensures calls[j].experimentId != id {
        assert calls[j].experimentId in ids;
      }
    }
  }

  /**
    In SPA mode no experiment is tracked twice: once a listen pass tracks an
    id, a listen pass from any later session whose cache extends the one it
    left tracks it no more, whatever the snapshot holds.
   */
  lemma NeverTrackedTwice(s: Session, w: Window, later: Session, w': Window, id: Id)
    requires s.spaMode && later.spaMode
    ensures
      && Roots(s, w).Success? && Tracked(Roots(s, w).value.1, id)
      && Roots(s, w).value.0.listenCache <= later.listenCache
      ==> Roots(later, w').Success? ==> !Tracked(Roots(later, w').value.1, id)
  {
    var first := Roots(s, w);
    if first.Success? && Tracked(first.value.1, id) && first.value.0.listenCache <= later.listenCache {
      TrackedIsCached(s, w, id);
      assert id in later.listenCache;
      CachedNotTracked(later, w', id);
    }
  }

  /** The traits of a replay pass, `{}` when identify is not called. */
  function Traits(r: (Session, Option<Call>)): Object {
    if r.1.Some? && r.1.value.Identify? then r.1.value.traits else []
  }

  /** An id given a trait by the replay pass is cached on the replay channel by that pass. */
  lemma TraitIsCached(s: Session, w: Window, id: Id)
    requires s.spaMode
    ensures Replay(s, w).Success? && TraitKey(id) in KeysOf(Traits(Replay(s, w).value)) ==>
      id in Replay(s, w).value.0.replayCache
  {
    if Replay(s, w).Success? && TraitKey(id) in KeysOf(Traits(Replay(s, w).value)) {
      var ids := Collected(s, w, ReplayChannel).value;
      var id' :| id' in ids && TraitKey(id') == TraitKey(id) && Display(w, id').Some?;
      TraitKeyInjective();
      assert id' == id;
      assert Reportable(w, id);
      AdmittedMembers(w.vwoExp.value, s.replayCache);
    }
  }

  /**
    In SPA mode no experiment is given a trait twice: once a replay pass
    identifies `'Experiment: ' + id`, a replay pass from any later session
    whose cache extends the one it left does not send that trait again.
   */
  lemma NeverTraitTwice(s: Session, w: Window, later: Session, w': Window, id: Id)
    requires s.spaMode && later.spaMode
    ensures
      && Replay(s, w).Success? && TraitKey(id) in KeysOf(Traits(Replay(s, w).value))
      && Replay(s, w).value.0.replayCache <= later.replayCache
      && Replay(later, w').Success?
      ==> TraitKey(id) !in KeysOf(Traits(Replay(later, w').value))
  {
    if && Replay(s, w).Success? && TraitKey(id) in KeysOf(Traits(Replay(s, w).value))
       && Replay(s, w).value.0.replayCache <= later.replayCache
       && Replay(later, w').Success?
    {
      TraitIsCached(s, w, id);
      assert id in later.replayCache;
      TraitKeyInjective();
      var traits := Traits(Replay(later, w').value);
      forall k | k in KeysOf(traits) ensures k != TraitKey(id) {
        var id' :| id' in Collected(later, w', ReplayChannel).value && TraitKey(id') == k;
      }
    }
  }

  /** The worked example: experiment 7, ready, variation 2 named "Blue Button". */
  const BlueButton: Window :=
    Window(Some([Entry("7", Experiment(true, Some("2"), map["2" := "Blue Button"]))]), None, false)

  /** The first collection on either channel returns and caches "7"; the next returns nothing. */
  lemma BlueButtonCollect(c: Channel)
    ensures Collect(Session([], [], true), BlueButton, c)
      == Success((Session([], [], true).WithCache(c, ["7"]), Some(["7"])))
    ensures Collect(Session([], [], true).WithCache(c, ["7"]), BlueButton, c)
      == Success((Session([], [], true).WithCache(c, ["7"]), Some([])))
  {
    var t := BlueButton.vwoExp.value;
    assert Ids(t) == ["7"];
    assert Settled(t[0].experiment);
    assert t[1..] == [];
    assert Sweep(t[1..], ["7"]) == ([], ["7"]);
    assert [] + ["7"] == ["7"] && ["7"] + [] == ["7"];
    assert Sweep(t, []) == (["7"], ["7"]);
    assert Sweep(t, ["7"]) == ([], ["7"]);
  }

  /** Experiment 7 resolves to "Blue Button". */
  lemma BlueButtonResolves()
    ensures Variation(BlueButton, "7") == Success(Some("Blue Button"))
    ensures Display(BlueButton, "7") == Some("Blue Button")
  {
    assert Find(BlueButton.vwoExp.value, "7").Some?;
  }

  /** Two replay passes: the first identifies the trait, the second sends `{}`. */
  lemma BlueButtonReplay()
    ensures var first := Replay(Session([], [], true), BlueButton);
      && first == Success((Session(["7"], [], true), Some(Identify([("Experiment: 7", "Blue Button")]))))
      && Replay(first.value.0, BlueButton) == Success((first.value.0, Some(Identify([]))))
  {
    BlueButtonCollect(ReplayChannel);
    BlueButtonResolves();
    TraitKeyInjective();
    assert TraitKey("7") == "Experiment: 7";
    assert ["7"][..0] == [];
    assert Gather(BlueButton, [], TraitKey) == Success([]);
    assert KeysOf([]) == [];
    assert Assign([], "Experiment: 7", "Blue Button") == [("Experiment: 7", "Blue Button")];
    assert Gather(BlueButton, ["7"], TraitKey) == Success([("Experiment: 7", "Blue Button")]);
  }

  /** Two listen passes: exactly one `'Experiment Viewed'` track in all. */
  lemma BlueButtonListen()
    ensures var first := Roots(Session([], [], true), BlueButton);
      && first == Success((Session([], ["7"], true), [Track(ViewedEvent, "7", "Blue Button", IntegrationContext)]))
      && Roots(first.value.0, BlueButton) == Success((first.value.0, []))
  {
    BlueButtonCollect(ListenChannel);
    BlueButtonResolves();
    assert ["7"][..0] == [];
    assert Gather(BlueButton, [], id => id) == Success([]);
    assert KeysOf([]) == [];
    assert Assign([], "7", "Blue Button") == [("7", "Blue Button")];
    assert Gather(BlueButton, ["7"], id => id) == Success([("7", "Blue Button")]);
    assert Tracks([("7", "Blue Button")]) == [Track(ViewedEvent, "7", "Blue Button", IntegrationContext)];
  }
}
