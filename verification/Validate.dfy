/** internal/ledger/validate.go: the double-entry check, on Go's wrapping int64. */
module Validate {
  import opened Int64
  import opened Schema

  datatype Verdict = Balanced | TooFew | NonPositive | BadDirection | Unbalanced

  predicate WellFormed(l: Leg) {
    0 < l.amount && !l.direction.OtherDirection?
  }

  function Signed(l: Leg): int {
    if l.direction.Debit? then l.amount else -l.amount
  }

  /** Debits minus credits in currency c, as a mathematical integer. */
  function Net(legs: seq<Leg>, c: Currency): int {
    if legs == [] then 0
    else Net(legs[..|legs| - 1], c) + (if legs[|legs| - 1].currency == c then Signed(legs[|legs| - 1]) else 0)
  }

  ghost predicate Exact(legs: seq<Leg>) {
    forall c :: Net(legs, c) == 0
  }

  ghost predicate AllWellFormed(legs: seq<Leg>) {
    forall i :: 0 <= i < |legs| ==> WellFormed(legs[i])
  }

  /** What the wrapping arithmetic really accepts: sums are zero modulo 2^64. */
  ghost predicate Acceptable(legs: seq<Leg>) {
    |legs| >= 2 && AllWellFormed(legs) && forall c :: Net(legs, c) % SPAN == 0
  }

  /** The first leg at which the source's loop stops, if any. */
  ghost predicate FirstFlaw(legs: seq<Leg>, i: int) {
    0 <= i < |legs| && !WellFormed(legs[i]) && forall j :: 0 <= j < i ==> WellFormed(legs[j])
  }

  /** What the source's verdict means, error cases included. */
  ghost predicate Judged(legs: seq<Leg>, v: Verdict) {
    match v
    case TooFew => |legs| < 2
    case NonPositive => |legs| >= 2 && exists i :: FirstFlaw(legs, i) && legs[i].amount <= 0
    case BadDirection => |legs| >= 2 && exists i :: FirstFlaw(legs, i) && 0 < legs[i].amount
    case Unbalanced => |legs| >= 2 && AllWellFormed(legs) && exists c :: Net(legs, c) % SPAN != 0
    case Balanced => Acceptable(legs)
  }

  method ValidateBalanced(legs: seq<Leg>) returns (v: Verdict)
    ensures Judged(legs, v)
    ensures v.Balanced? <==> Acceptable(legs)
  {
    hide Wrap;
    if |legs| < 2 {
      return TooFew;
    }
    WrapZero(0);
    var sums: map<Currency, int> := map[];
    for i := 0 to |legs|
      invariant forall j :: 0 <= j < i ==> WellFormed(legs[j])
      invariant forall c :: (if c in sums then sums[c] else 0) == Wrap(Net(legs[..i], c))
    {
      var l := legs[i];
      if l.amount <= 0 {
        assert FirstFlaw(legs, i);
        return NonPositive;
      }
      var before := if l.currency in sums then sums[l.currency] else 0;
      match l.direction {
        case Debit => sums := sums[l.currency := Wrap(before + l.amount)];
        case Credit => sums := sums[l.currency := Wrap(before - l.amount)];
        case OtherDirection(_) =>
          assert FirstFlaw(legs, i);
          return BadDirection;
      }
      assert legs[..i + 1][..i] == legs[..i];
      WrapAbsorbs(Net(legs[..i], l.currency), Signed(l));
    }
    assert legs[..|legs|] == legs;
    var todo := sums.Keys;
    while todo != {}
      invariant todo <= sums.Keys
      invariant forall c :: c in sums.Keys - todo ==> sums[c] == 0
    {
      var c :| c in todo;
      WrapZero(Net(legs, c));
      if sums[c] != 0 {
        return Unbalanced;
      }
      todo := todo - {c};
    }
    forall c ensures Net(legs, c) % SPAN == 0 {
      WrapZero(Net(legs, c));
    }
    return Balanced;
  }

  function Count(legs: seq<Leg>, c: Currency, d: Direction): nat {
    if legs == [] then 0
    else
      var last := legs[|legs| - 1];
      Count(legs[..|legs| - 1], c, d) + (if last.currency == c && last.direction == d then 1 else 0)
  }

  lemma {:induction false} NetBounds(legs: seq<Leg>, c: Currency)
    requires AllWellFormed(legs) && forall i :: 0 <= i < |legs| ==> legs[i].amount <= MAX
    ensures -MAX * Count(legs, c, Credit) <= Net(legs, c) <= MAX * Count(legs, c, Debit)
  {
    if legs != [] {
      NetBounds(legs[..|legs| - 1], c);
    }
  }

  /**
   * With int64 amounts and at most two debit and two credit legs a currency, the wrapping check is
   * the exact one.
   */
  lemma TwoLegsASideAreExact(legs: seq<Leg>)
    requires forall i :: 0 <= i < |legs| ==> legs[i].amount <= MAX
    requires forall c :: Count(legs, c, Debit) <= 2 && Count(legs, c, Credit) <= 2
    ensures Acceptable(legs) <==> |legs| >= 2 && AllWellFormed(legs) && Exact(legs)
  {
    if AllWellFormed(legs) {
      forall c ensures Net(legs, c) % SPAN == 0 <==> Net(legs, c) == 0 {
        NetBounds(legs, c);
        assert Count(legs, c, Debit) <= 2 && Count(legs, c, Credit) <= 2;
        assert -2 * MAX <= Net(legs, c) <= 2 * MAX;
      }
    }
  }

  /**
   * Three legs on one side, whichever it is, are enough to slip 2^64 minor units past the check: the bound of
   * two legs a side is tight for debits and for credits.
   */
  lemma ThreeLegsSlipThrough(a: Uuid, b: Uuid, d: Direction, legs: seq<Leg>)
    requires !d.OtherDirection?
    requires var o := if d.Debit? then Credit else Debit;
      legs == [Leg(a, d, MAX, USD), Leg(a, d, MAX, USD), Leg(a, d, 3, USD), Leg(b, o, 1, USD)]
    ensures Count(legs, USD, d) == 3
    ensures Acceptable(legs) && Net(legs, USD) == if d.Debit? then SPAN else -SPAN
  {
    var sign := if d.Debit? then 1 else -1;
    assert legs[..3][..2] == legs[..2] && legs[..2][..1] == legs[..1] && legs[..1][..0] == [];
    assert Count(legs[..1], USD, d) == 1;
    assert Count(legs[..2], USD, d) == 2;
    assert Count(legs[..3], USD, d) == 3;
    forall c ensures Net(legs, c) == if c == USD then sign * SPAN else 0 {
      assert Net(legs[..1], c) == if c == USD then sign * MAX else 0;
      assert Net(legs[..2], c) == if c == USD then sign * 2 * MAX else 0;
      assert Net(legs[..3], c) == if c == USD then sign * (2 * MAX + 3) else 0;
    }
  }

  /** A two-leg posting of one positive amount, the only shape Capture and Deposit build, is accepted. */
  lemma PairIsBalanced(from: Uuid, to: Uuid, amount: int, c: Currency)
    ensures Exact([Leg(from, Debit, amount, c), Leg(to, Credit, amount, c)])
  {
    var legs := [Leg(from, Debit, amount, c), Leg(to, Credit, amount, c)];
    forall d ensures Net(legs, d) == 0 {
      assert legs[..1] == [Leg(from, Debit, amount, c)];
      assert legs[..1][..0] == [];
      assert Net(legs[..1], d) == if c == d then amount else 0;
    }
  }
}
