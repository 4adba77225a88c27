/** Which positions of a sequence a filter keeps.  Both the price normaliser
    and the explanation list are "keep these elements, in input order"
    filters; their contracts are stated through `Kept`. */
module Selection {

  /** The positions `i` of `s` with `keep(s[i])`, in increasing order. */
  function Kept<T>(s: seq<T>, keep: T -> bool): (ix: seq<nat>)
    ensures |ix| <= |s|
    ensures forall j :: 0 <= j < |ix| ==> ix[j] < |s| && keep(s[ix[j]])
    ensures forall j, k :: 0 <= j < k < |ix| ==> ix[j] < ix[k]
    ensures forall i :: 0 <= i < |s| && keep(s[i]) ==> i in ix
    decreases |s|
  {
    if s == [] then []
    else
      var ix := Kept(s[..|s| - 1], keep);
      if keep(s[|s| - 1]) then ix + [|s| - 1] else ix
  }
}
