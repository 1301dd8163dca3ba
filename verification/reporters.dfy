/**
  The two reporters. `replay` turns the ids collected on the replay channel
  into one `identify` call with a trait per experiment; `roots` turns the ids
  collected on the listen channel into one `'Experiment Viewed'` track call
  per experiment. Calls to the analytics client are returned as records.
 */
module Reporters {
  import opened Wrappers
  import opened Seqs
  import opened Vendor
  import opened Collector
  import opened Resolver
  import opened JsObject

  const TraitPrefix: string := "Experiment: "
  const ViewedEvent: string := "Experiment Viewed"

  /** The context block attached to every track call. */
  datatype Context = Context(name: string, version: string)
  const IntegrationContext: Context := Context("visual-website-optimizer", "1.0.0")

  /** A call made on the analytics client. */
  datatype Call =
    | Identify(traits: Object)
    | Track(event: string, experimentId: Id, variationName: string, context: Context)

  /** The trait name of an experiment: `'Experiment: ' + id`. */
  function TraitKey(id: Id): string {
    TraitPrefix + id
  }

  /** Property names built from ids; distinct ids give distinct names. */
  ghost predicate Injective(keyOf: Id -> string) {
    forall a, b :: keyOf(a) == keyOf(b) ==> a == b
  }

  lemma TraitKeyInjective()
    ensures Injective(TraitKey)
  {
    forall a, b | TraitKey(a) == TraitKey(b) ensures a == b {
      assert a == TraitKey(a)[|TraitPrefix|..];
      assert b == TraitKey(b)[|TraitPrefix|..];
    }
  }

  /**
    `data` holds, under `keyOf(id)`, the display name of every id in `ids`
    that has one, and nothing else; no property occurs twice.
   */
  ghost predicate Describes(data: Object, w: Window, ids: seq<Id>, keyOf: Id -> string) {
    && Distinct(KeysOf(data))
    && (forall id :: id in ids && Display(w, id).Some? ==> Get(data, keyOf(id)) == Display(w, id))
    && (forall k :: k in KeysOf(data) ==> exists id :: id in ids && keyOf(id) == k && Display(w, id).Some?)
  }

  /** Every id of the list can be looked up without throwing. */
  predicate AllKnown(w: Window, ids: seq<Id>) {
    forall id :: id in ids ==> Known(w, id)
  }

  /**
    The `each` loop shared by `experiments` and `rootExperiments`: resolve
    every id in order and store each truthy name under `keyOf(id)`. The first
    unknown id throws.
   */
  function Gather(w: Window, ids: seq<Id>, keyOf: Id -> string): (r: Result<Object, TypeError>)
    requires Injective(keyOf)
    ensures r.Success? <==> AllKnown(w, ids)
    ensures r.Success? ==> Describes(r.value, w, ids, keyOf)
    decreases |ids|
  {
    if |ids| == 0 then Success([])
    else
      var init := ids[..|ids| - 1];
      var id := ids[|ids| - 1];
      assert ids == init + [id];
      match Gather(w, init, keyOf)
      case Failure(e) => Failure(e)
      case Success(data) =>
        match Variation(w, id)
        case Failure(e) => Failure(e)
        case Success(name) =>
          if Truthy(name) then Success(Assign(data, keyOf(id), name.value))
          else Success(data)
  }

  /** The ids a successful collection hands to a reporter; `None` for an undefined list. */
  function Collected(s: Session, w: Window, c: Channel): Option<seq<Id>>
    requires Collect(s, w, c).Success?
  {
    Collect(s, w, c).value.1
  }

  /**
    `VWO.prototype.replay` with `experiments`: collect on the replay channel,
    then identify with the traits, unless the collected list is undefined.
    An empty trait object is still sent.
   */
  function Replay(s: Session, w: Window): (r: Result<(Session, Option<Call>), TypeError>)
    ensures r.Success? <==>
      && Collect(s, w, ReplayChannel).Success?
      && (Collected(s, w, ReplayChannel).Some? ==> AllKnown(w, Collected(s, w, ReplayChannel).value))
    ensures r.Success? ==> r.value.0 == Collect(s, w, ReplayChannel).value.0
    ensures r.Success? ==> (r.value.1.None? <==> Collected(s, w, ReplayChannel).None?)
    ensures r.Success? && r.value.1.Some? ==>
      && r.value.1.value.Identify?
      && Describes(r.value.1.value.traits, w, Collected(s, w, ReplayChannel).value, TraitKey)
  {
    match Collect(s, w, ReplayChannel)
    case Failure(e) => Failure(e)
    case Success((s', ids)) =>
      match ids
      case None => Success((s', None))
      case Some(ids) =>
        TraitKeyInjective();
        match Gather(w, ids, TraitKey)
        case Failure(e) => Failure(e)
        case Success(traits) => Success((s', Some(Identify(traits))))
  }

  /** `each(data, ...)` in `roots`: one track call per property of `data`, in order. */
  function Tracks(data: Object): (calls: seq<Call>)
    ensures |calls| == |data|
    ensures forall i :: 0 <= i < |data| ==> calls[i] == Track(ViewedEvent, data[i].0, data[i].1, IntegrationContext)
  {
    seq(|data|, i requires 0 <= i < |data| => Track(ViewedEvent, data[i].0, data[i].1, IntegrationContext))
  }

  /**
    `calls` views each id of `ids` that has a display name exactly once, with
    that name, and nothing else.
   */
  ghost predicate ViewedOnce(calls: seq<Call>, w: Window, ids: seq<Id>) {
    && (forall i :: 0 <= i < |calls| ==>
          && calls[i].Track?
          && calls[i].event == ViewedEvent
          && calls[i].context == IntegrationContext
          && calls[i].experimentId in ids
          && Display(w, calls[i].experimentId) == Some(calls[i].variationName))
    && (forall i, j :: 0 <= i < j < |calls| ==> calls[i].experimentId != calls[j].experimentId)
    && (forall id :: id in ids && Display(w, id).Some? ==>
          exists i :: 0 <= i < |calls| && calls[i].experimentId == id)
  }

  /** `Object.keys(data)` are experiment ids: tracking them views each once. */
  lemma TracksViewOnce(data: Object, w: Window, ids: seq<Id>)
    requires Describes(data, w, ids, id => id)
    ensures ViewedOnce(Tracks(data), w, ids)
  {
    var calls := Tracks(data);
    forall i | 0 <= i < |calls|
      ensures calls[i].experimentId in ids && Display(w, calls[i].experimentId) == Some(calls[i].variationName)
    {
      assert KeysOf(data)[i] == data[i].0;
      assert data[i].0 in KeysOf(data);
      GetAt(data, i);
    }
    forall i, j | 0 <= i < j < |calls| ensures calls[i].experimentId != calls[j].experimentId {
      assert KeysOf(data)[i] != KeysOf(data)[j];
    }
    forall id | id in ids && Display(w, id).Some?
      ensures exists i :: 0 <= i < |calls| && calls[i].experimentId == id
    {
      assert Get(data, id).Some?;
      var i :| 0 <= i < |data| && KeysOf(data)[i] == id;
      assert calls[i].experimentId == id;
    }
  }

  /**
    `VWO.prototype.roots` with `rootExperiments`: collect on the listen
    channel, then track `'Experiment Viewed'` once per resolvable id.
   */
  function Roots(s: Session, w: Window): (r: Result<(Session, seq<Call>), TypeError>)
    ensures r.Success? <==>
      && Collect(s, w, ListenChannel).Success?
      && (Collected(s, w, ListenChannel).Some? ==> AllKnown(w, Collected(s, w, ListenChannel).value))
    ensures r.Success? ==> r.value.0 == Collect(s, w, ListenChannel).value.0
    ensures r.Success? && Collected(s, w, ListenChannel).None? ==> r.value.1 == []
    ensures r.Success? && Collected(s, w, ListenChannel).Some? ==>
      ViewedOnce(r.value.1, w, Collected(s, w, ListenChannel).value)
  {
    match Collect(s, w, ListenChannel)
    case Failure(e) => Failure(e)
    case Success((s', ids)) =>
      match ids
      case None => Success((s', []))
      case Some(ids) =>
        match Gather(w, ids, id => id)
        case Failure(e) => Failure(e)
        case Success(data) =>
          TracksViewOnce(data, w, ids);
          Success((s', Tracks(data)))
  }
}
