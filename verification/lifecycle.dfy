/**
  `initialize` and `page`: which reporters get scheduled for the next tick,
  and what running the scheduled reporters does to the session.
 */
module Lifecycle {
  import opened Wrappers
  import opened Seqs
  import opened Vendor
  import opened Collector
  import opened Reporters

  /** The integration options the core reads (`replay`, `listen`, `isSpa`). */
  datatype Options = Options(replay: bool, listen: bool, isSpa: bool)

  /** The declared defaults: replay on, listen off, SPA mode off. */
  const Defaults: Options := Options(true, false, false)

  /** A reporter scheduled with `tick`. */
  datatype Task = ReplayTask | RootsTask

  /** The reporters the options enable, in the order they are scheduled. */
  function Schedule(o: Options): (tasks: seq<Task>)
    ensures ReplayTask in tasks <==> o.replay
    ensures RootsTask in tasks <==> o.listen
    ensures Distinct(tasks)
    ensures o.replay && o.listen ==> tasks == [ReplayTask, RootsTask]
  {
    (if o.replay then [ReplayTask] else []) + (if o.listen then [RootsTask] else [])
  }

  /**
    `VWO.prototype.initialize`: sets the module-level SPA flag from the
    options and schedules the enabled reporters. The caches are left alone.
   */
  function Initialize(s: Session, o: Options): (r: (Session, seq<Task>))
    ensures r.0.spaMode == o.isSpa
    ensures r.0.replayCache == s.replayCache && r.0.listenCache == s.listenCache
    ensures ReplayTask in r.1 <==> o.replay
    ensures RootsTask in r.1 <==> o.listen
    ensures Distinct(r.1)
  {
    (s.(spaMode := o.isSpa), Schedule(o))
  }

  /**
    `VWO.prototype.page`: outside SPA mode a page call schedules nothing;
    in SPA mode it schedules what the options enable.
   */
  function Page(s: Session, o: Options): (tasks: seq<Task>)
    ensures !s.spaMode ==> tasks == []
    ensures s.spaMode ==> (ReplayTask in tasks <==> o.replay) && (RootsTask in tasks <==> o.listen)
    ensures s.spaMode ==> tasks == Schedule(o)
    ensures Distinct(tasks)
  {
    if s.spaMode then Schedule(o) else []
  }

  /** The caches of `s'` extend those of `s`, and the SPA flag is kept. */
  predicate Grows(s: Session, s': Session) {
    && s.replayCache <= s'.replayCache
    && s.listenCache <= s'.listenCache
    && s'.spaMode == s.spaMode
  }

  /** Runs one scheduled reporter on a snapshot of the vendor globals. */
  function Perform(s: Session, w: Window, t: Task): (r: Result<(Session, seq<Call>), TypeError>)
    ensures r.Success? ==> Grows(s, r.value.0)
    ensures r.Success? && s.Valid() ==> r.value.0.Valid()
    ensures r.Success? && !s.spaMode ==> r.value.0 == s
    ensures r.Success? && t == ReplayTask ==> |r.value.1| <= 1 && forall i :: 0 <= i < |r.value.1| ==> r.value.1[i].Identify?
    ensures r.Success? && t == RootsTask ==> forall i :: 0 <= i < |r.value.1| ==> r.value.1[i].Track?
  {
    match t
    case ReplayTask =>
      (match Replay(s, w)
       case Failure(e) => Failure(e)
       case Success((s', call)) => Success((s', if call.Some? then [call.value] else [])))
    case RootsTask => Roots(s, w)
  }

  /**
    Runs the scheduled reporters in order. Each tick callback runs on its own,
    so a reporter that throws emits nothing and the next one still runs. Every
    throw the model represents happens before the collector changes a cache,
    so a failing reporter leaves the session as it was.
   */
  function Run(s: Session, w: Window, tasks: seq<Task>): (r: (Session, seq<Call>))
    ensures Grows(s, r.0)
    ensures s.Valid() ==> r.0.Valid()
    ensures !s.spaMode ==> r.0 == s
    decreases |tasks|
  {
    if |tasks| == 0 then (s, [])
    else
      var (s', calls) := match Perform(s, w, tasks[0])
        case Failure(_) => (s, [])
        case Success(step) => step;
      var (s'', more) := Run(s', w, tasks[1..]);
      (s'', calls + more)
  }

  /**
    With the declared defaults on a fresh page, only the replay reporter is
    scheduled, and later page calls schedule nothing because SPA mode is off.
   */
  lemma DefaultsReplayOnly(o: Options)
    ensures Initialize(PageLoad, Defaults).1 == [ReplayTask]
    ensures Page(Initialize(PageLoad, Defaults).0, o) == []
  {
  }

  /** After `initialize`, `page` schedules the same reporters in SPA mode and none otherwise. */
  lemma PageRepeatsInitialize(s: Session, o: Options)
    ensures o.isSpa ==> Page(Initialize(s, o).0, o) == Initialize(s, o).1
    ensures !o.isSpa ==> Page(Initialize(s, o).0, o) == []
  {
  }
}
