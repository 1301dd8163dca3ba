/**
  The vendor's page globals, as the integration reads them: the experiment
  table `_vwo_exp`, the managed id list `_vwo_exp_ids` and the preview flag
  `_vis_debug`. They are filled in by the vendor's own script; the model takes
  one snapshot of them as an input to every pass.
 */
module Vendor {
  import opened Wrappers
  import opened Seqs

  /** Experiment ids are the own-property keys of `_vwo_exp`, i.e. strings. */
  type Id = string
  type VariationId = string

  /**
    JavaScript truthiness of a string-valued field: `None` stands for every
    falsy non-string (`undefined`, `null`, `0`), and the empty string is
    falsy too.
   */
  predicate Truthy(v: Option<string>) {
    v.Some? && v.value != ""
  }

  /**
    One record of `_vwo_exp`: `ready` is the truthiness of its `ready` field,
    `chosen` is `combination_chosen` and `names` is the `comb_n` table from
    variation id to display name.
   */
  datatype Experiment = Experiment(ready: bool, chosen: Option<VariationId>, names: map<VariationId, string>)

  /** Ready with a truthy chosen combination: a genuine exposure. */
  predicate Settled(e: Experiment) {
    e.ready && Truthy(e.chosen)
  }

  /** One own property of `_vwo_exp`. */
  datatype Entry = Entry(id: Id, experiment: Experiment)

  /** `Object.keys` of a list of entries, in order. */
  function Ids(entries: seq<Entry>): (ids: seq<Id>)
    ensures |ids| == |entries|
    ensures forall i :: 0 <= i < |entries| ==> ids[i] == entries[i].id
  {
    seq(|entries|, i requires 0 <= i < |entries| => entries[i].id)
  }

  /** A JavaScript object's own properties: keys in enumeration order, no key twice. */
  type Table = t: seq<Entry> | Distinct(Ids(t)) witness []

  /** Property lookup `experiments[id]`; `None` is `undefined`. */
  function Find(entries: seq<Entry>, id: Id): (r: Option<Experiment>)
    ensures r.Some? <==> id in Ids(entries)
    ensures r.Some? ==> Entry(id, r.value) in entries
  {
    if |entries| == 0 then None
    else if entries[0].id == id then Some(entries[0].experiment)
    else Find(entries[1..], id)
  }

  /** In a table every entry is what a lookup of its id returns. */
  lemma {:induction false} FindEntry(entries: seq<Entry>, i: nat)
    requires Distinct(Ids(entries))
    requires i < |entries|
    ensures Find(entries, entries[i].id) == Some(entries[i].experiment)
  {
    if i > 0 {
      assert Ids(entries)[0] != Ids(entries)[i];
      assert Distinct(Ids(entries[1..])) by {
        assert Ids(entries[1..]) == Ids(entries)[1..];
      }
      FindEntry(entries[1..], i - 1);
    }
  }

  /** A snapshot of the vendor's globals taken when a pass runs. */
  datatype Window = Window(vwoExp: Option<Table>, vwoExpIds: Option<seq<Id>>, visDebug: bool)

  /** The `TypeError`s the integration's code can raise. */
  datatype TypeError =
    | KeysOfUndefined                 // `Object.keys(undefined)`: no experiment table
    | PropertyOfUndefined(id: Id)     // `experiments[id].combination_chosen` for an unknown id
}
