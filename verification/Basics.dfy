/** A value that may be absent. */
module Options {

  datatype Option<+T> = None | Some(value: T)
}

/** Products of reals, kept behind a name so that proofs about sums of them stay linear. */
module Products {

  function Times(c: real, d: real): real {
    c * d
  }

  lemma TimesSign(c: real, d: real)
    ensures c > 0.0 && d > 0.0 ==> Times(c, d) > 0.0
    ensures c < 0.0 && d < 0.0 ==> Times(c, d) > 0.0
    ensures c > 0.0 && d < 0.0 ==> Times(c, d) < 0.0
    ensures c < 0.0 && d > 0.0 ==> Times(c, d) < 0.0
    ensures c == 0.0 || d == 0.0 ==> Times(c, d) == 0.0
  {
  }
}
