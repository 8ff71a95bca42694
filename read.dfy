/** Turning the stored message set into the list a `read_ok` carries. */
module Read {

  /** `r` lists exactly the values of `s`, each once, in some order. */
  ghost predicate Lists<T(!new)>(r: seq<T>, s: set<T>)
  {
    && (forall x :: x in r <==> x in s)
    && (forall i, j :: 0 <= i < j < |r| ==> r[i] != r[j])
  }

  /** Collects a hash set into a list; the set's iteration order is left unspecified. */
  method Collect<T(!new)>(s: set<T>) returns (r: seq<T>)
    ensures Lists(r, s)
    ensures |r| == |s|
  {
    r := [];
    var rest := s;
    while rest != {}
      invariant rest <= s
      invariant forall x :: x in r <==> x in s && x !in rest
      invariant forall i, j :: 0 <= i < j < |r| ==> r[i] != r[j]
      invariant |r| + |rest| == |s|
      decreases rest
    {
      var x :| x in rest;
      r := r + [x];
      rest := rest - {x};
    }
  }
}
