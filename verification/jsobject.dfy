/**
  A plain JavaScript object with string values, as the reporters build it:
  own properties in insertion order, assignment to an existing key keeping
  that key's position.
 */
module JsObject {
  import opened Wrappers
  import opened Seqs

  type Object = seq<(string, string)>

  /** `Object.keys`. */
  function KeysOf(o: Object): (ks: seq<string>)
    ensures |ks| == |o|
    ensures forall i :: 0 <= i < |o| ==> ks[i] == o[i].0
  {
    seq(|o|, i requires 0 <= i < |o| => o[i].0)
  }

  /** Position of the first occurrence of `k`. */
  function IndexOf(ks: seq<string>, k: string): (i: nat)
    requires k in ks
    ensures i < |ks| && ks[i] == k
    ensures forall j :: 0 <= j < i ==> ks[j] != k
  {
    if ks[0] == k then 0 else 1 + IndexOf(ks[1..], k)
  }

  /** Property read `o[k]`; `None` is `undefined`. */
  function Get(o: Object, k: string): (r: Option<string>)
    ensures r.Some? <==> k in KeysOf(o)
    ensures r.Some? ==> (k, r.value) in o
  {
    if k in KeysOf(o) then Some(o[IndexOf(KeysOf(o), k)].1) else None
  }

  /** With distinct keys every property is what a read of its key returns. */
  lemma GetAt(o: Object, i: nat)
    requires Distinct(KeysOf(o))
    requires i < |o|
    ensures Get(o, o[i].0) == Some(o[i].1)
  {
    assert KeysOf(o)[i] == o[i].0;
  }

  /** Property write `o[k] = v`: an existing key keeps its position, a new one goes last. */
  function Assign(o: Object, k: string, v: string): (r: Object)
    ensures Get(r, k) == Some(v)
    ensures forall k' :: k' != k ==> Get(r, k') == Get(o, k')
    ensures k in KeysOf(o) ==> KeysOf(r) == KeysOf(o)
    ensures k !in KeysOf(o) ==> KeysOf(r) == KeysOf(o) + [k]
    ensures Distinct(KeysOf(o)) ==> Distinct(KeysOf(r))
  {
    if k in KeysOf(o) then
      var r := o[IndexOf(KeysOf(o), k) := (k, v)];
      assert KeysOf(r) == KeysOf(o);
      r
    else
      var r := o + [(k, v)];
      assert KeysOf(r) == KeysOf(o) + [k];
      assert forall k' :: k' in KeysOf(o) ==> IndexOf(KeysOf(r), k') == IndexOf(KeysOf(o), k') by {
        forall k' | k' in KeysOf(o) ensures IndexOf(KeysOf(r), k') == IndexOf(KeysOf(o), k') {
          var i, j := IndexOf(KeysOf(o), k'), IndexOf(KeysOf(r), k');
          assert KeysOf(r)[i] == k';
        }
      }
      r
  }
}
