/** Sequence helpers shared by the loops of the model. */
module Seqs {

  /** The index at which a `for` loop that breaks on the first element
      satisfying `p` stops: that element's index, or `|s|` when there is none. */
  function FirstWhere<T>(s: seq<T>, p: T -> bool): (k: nat)
    ensures k <= |s|
    ensures forall j :: 0 <= j < k ==> !p(s[j])
    ensures k < |s| ==> p(s[k])
  {
    if s == [] then 0
    else if p(s[0]) then 0
    else 1 + FirstWhere(s[1..], p)
  }
}
