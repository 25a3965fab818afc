/** Failure-compatible helper datatypes shared by every module of the model.
    `None` stands for the source's `null` / `undefined` / Python `None`. */
module Wrappers {

  datatype Option<+T> = None | Some(value: T) {

    /** The wrapped value, or `default` when there is none (the `??` operator). */
    function GetOr(default: T): T {
      match this
      case Some(v) => v
      case None => default
    }
  }

  /** A value read back from browser storage: never written (or the empty
      string), written but not valid JSON, or parsed. */
  datatype Stored<+T> = Absent | Unparsable | Parsed(value: T)

  /** The positions of the present entries of `opts`: exactly the present
      positions, in increasing order. */
  function PresentPositions<T>(opts: seq<Option<T>>): (ks: seq<nat>)
    ensures forall i :: 0 <= i < |ks| ==> ks[i] < |opts| && opts[ks[i]].Some?
    ensures forall i, j :: 0 <= i < j < |ks| ==> ks[i] < ks[j]
    ensures forall q :: 0 <= q < |opts| && opts[q].Some? ==> q in ks
    ensures |ks| <= |opts|
    decreases |opts|
  {
    if |opts| == 0 then []
    else
      var n := |opts| - 1;
      var front := PresentPositions(opts[..n]);
      assert forall i :: 0 <= i < |front| ==> opts[..n][front[i]] == opts[front[i]];
      assert forall q :: 0 <= q < n ==> opts[..n][q] == opts[q];
      if opts[n].Some? then front + [n] else front
  }

  /** The present entries of a list of optional values, in order. */
  function Present<T>(opts: seq<Option<T>>): (out: seq<T>)
    ensures |out| == |PresentPositions(opts)|
    ensures forall i :: 0 <= i < |out| ==> opts[PresentPositions(opts)[i]] == Some(out[i])
  {
    var ks := PresentPositions(opts);
    seq(|ks|, i requires 0 <= i < |ks| => opts[ks[i]].value)
  }
}
