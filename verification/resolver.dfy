/** The variation resolver `variation(id)`. */
module Resolver {
  import opened Wrappers
  import opened Vendor

  /** `comb_n[v]`: `None` when the record has no such variation. */
  function NameOf(e: Experiment, v: VariationId): Option<string> {
    if v in e.names then Some(e.names[v]) else None
  }

  /**
    Reference condition for reporting an experiment: the table exists and
    holds the id, the record is ready with a truthy chosen combination, and
    nobody is previewing the campaign.
   */
  predicate Reportable(w: Window, id: Id) {
    && w.vwoExp.Some?
    && Find(w.vwoExp.value, id).Some?
    && var e := Find(w.vwoExp.value, id).value;
       e.ready && !w.visDebug && Truthy(e.chosen)
  }

  /** The lookup `experiments[id]` cannot throw: no table, or the id is in it. */
  predicate Known(w: Window, id: Id) {
    w.vwoExp.None? || id in Ids(w.vwoExp.value)
  }

  /**
    `variation(id)`: the chosen variation's name, `None` for `null`. An unknown
    id makes the property read on `undefined` throw.
   */
  function Variation(w: Window, id: Id): (r: Result<Option<string>, TypeError>)
    ensures r.Failure? <==> !Known(w, id)
    ensures r.Failure? ==> r.error == PropertyOfUndefined(id)
    ensures Reportable(w, id) ==>
      var e := Find(w.vwoExp.value, id).value;
      r == Success(NameOf(e, e.chosen.value))
    ensures Known(w, id) && !Reportable(w, id) ==> r == Success(None)
  {
    match w.vwoExp
    case None => Success(None)
    case Some(t) =>
      match Find(t, id)
      case None => Failure(PropertyOfUndefined(id))
      case Some(e) =>
        if e.ready && !w.visDebug && Truthy(e.chosen) then Success(NameOf(e, e.chosen.value))
        else Success(None)
  }

  /**
    The name a reporter uses for an id: the resolved name when it is truthy
    (`if (name)` in both reporters), otherwise `None`.
   */
  function Display(w: Window, id: Id): (r: Option<string>)
    ensures r.Some? ==> r.value != "" && Reportable(w, id)
    ensures r.Some? ==> Variation(w, id) == Success(r)
    ensures r.Some? <==> Variation(w, id).Success? && Truthy(Variation(w, id).value)
  {
    match Variation(w, id)
    case Success(name) => if Truthy(name) then name else None
    case Failure(_) => None
  }
}
