/** Products of reals under a name. Structural proofs hide `Times`, so that non-linear reasoning stays in
    these lemmas. */
module Products {

  function Times(a: real, b: real): real { a * b }

  lemma TimesSign(w: real, d: real)
    requires w > 0.0
    ensures d < 0.0 <==> Times(w, d) < 0.0
    ensures d > 0.0 <==> Times(w, d) > 0.0
  {}

  lemma TimesNonNegative(w: real, d: real)
    requires w >= 0.0 && d >= 0.0
    ensures Times(w, d) >= 0.0
  {}

  lemma TimesSum(w: real, a: real, b: real, c: real)
    requires c == a + b
    ensures Times(w, c) == Times(w, a) + Times(w, b)
    ensures Times(c, w) == Times(a, w) + Times(b, w)
  {}

  lemma TimesNegated(w: real, d: real)
    ensures Times(w, -d) == -Times(w, d)
  {}

  lemma TimesZero(w: real)
    ensures Times(w, 0.0) == 0.0 && Times(0.0, w) == 0.0
  {}

  lemma TimesCommutes(a: real, b: real)
    ensures Times(a, b) == Times(b, a)
  {}
}
