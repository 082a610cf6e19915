/** Stretches of a run of any step machine, and how they join. */
module Paths {

  ghost predicate Path<S(!new), E(!new)>(next: (S, E, S) -> bool, ss: seq<S>, es: seq<E>) {
    && |ss| == |es| + 1
    && forall i {:trigger es[i]} :: 0 <= i < |es| ==> next(ss[i], es[i], ss[i + 1])
  }

  /** Two stretches that meet make one; both can be found in it. */
  lemma Join<S(!new), E(!new)>(next: (S, E, S) -> bool, ss: seq<S>, es: seq<E>, tt: seq<S>, ds: seq<E>)
    returns (uu: seq<S>, cs: seq<E>)
    requires Path(next, ss, es) && Path(next, tt, ds) && tt[0] == ss[|es|]
    ensures Path(next, uu, cs) && |cs| == |es| + |ds| && uu[0] == ss[0] && uu[|cs|] == tt[|ds|]
    ensures forall i :: 0 <= i < |es| ==> cs[i] == es[i] && uu[i] == ss[i]
    ensures forall i :: |es| <= i < |cs| ==> cs[i] == ds[i - |es|] && uu[i] == tt[i - |es|]
  {
    uu, cs := ss + tt[1..], es + ds;
    forall i | 0 <= i < |cs| ensures next(uu[i], cs[i], uu[i + 1]) {
      if i < |es| {
        assert next(ss[i], es[i], ss[i + 1]);
      } else {
        var k := i - |es|;
        assert cs[i] == ds[k] && uu[i] == tt[k] && uu[i + 1] == tt[k + 1];
      }
    }
  }
}
