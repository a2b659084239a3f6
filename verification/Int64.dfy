/** Go's int64 and PostgreSQL's bigint: the range, and Go's silent wrap-around. */
module Int64 {
  const MIN: int := -0x8000_0000_0000_0000
  const MAX: int := 0x7fff_ffff_ffff_ffff
  const SPAN: int := 0x1_0000_0000_0000_0000

  predicate Fits(x: int) {
    MIN <= x <= MAX
  }

  /** The int64 that Go computes when the exact result is x. */
  function Wrap(x: int): (r: int)
    ensures Fits(r)
    ensures Fits(x) ==> r == x
  {
    (x - MIN) % SPAN + MIN
  }

  lemma WrapIsCongruent(x: int)
    ensures Wrap(x) == x - SPAN * ((x - MIN) / SPAN)
  {
  }

  lemma WrapIsUnique(x: int, r: int, k: int)
    requires Fits(r) && x == r + SPAN * k
    ensures Wrap(x) == r
  {
    assert Wrap(x) - r == SPAN * (k - (x - MIN) / SPAN);
  }

  /** Wrapping early or late makes no difference. */
  lemma WrapAbsorbs(x: int, y: int)
    ensures Wrap(Wrap(x) + y) == Wrap(x + y)
  {
    var k := (x - MIN) / SPAN;
    var j := (x + y - MIN) / SPAN;
    WrapIsCongruent(x);
    WrapIsCongruent(x + y);
    WrapIsUnique(Wrap(x) + y, Wrap(x + y), j - k);
  }

  lemma WrapZero(x: int)
    ensures Wrap(x) == 0 <==> x % SPAN == 0
  {
    WrapIsCongruent(x);
    if x % SPAN == 0 {
      WrapIsUnique(x, 0, x / SPAN);
    }
  }
}
