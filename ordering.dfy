/** The comparison of cell values with filter values. Numbers compare
    numerically; strings compare lexicographically by character code, as
    Python compares `str` values. */
module Ordering {
  import opened QueryTypes

  /** `s <= t` for Python strings: a prefix comes first, otherwise the first
      differing character decides. */
  predicate StrLe(s: string, t: string)
    ensures s <= t ==> StrLe(s, t)
  {
    s == [] || (t != [] && (s[0] < t[0] || (s[0] == t[0] && StrLe(s[1..], t[1..]))))
  }

  /** The order used for sorting a column and for the ordering operators.
      Cells of one column share a kind; ordering numbers before strings only
      keeps the relation total and is never reached on a uniform column. */
  predicate Le(a: Scalar, b: Scalar)
    ensures a == b ==> Le(a, b)
    ensures !Le(a, b) ==> a != b && (a.Str? && b.Str? ==> StrLe(b.s, a.s))
  {
    match (a, b)
    case (Num(x), Num(y)) => x <= y
    case (Str(s), Str(t)) =>
      StrLeReflexive(s);
      StrLeTotal(s, t);
      StrLe(s, t)
    case (Num(_), Str(_)) => true
    case (Str(_), Num(_)) => false
  }

  predicate SameKind(a: Scalar, b: Scalar) {
    a.Num? == b.Num?
  }

  /** `cell <op> value`, the operator mapping of the filter stage. */
  predicate Holds(op: FilterOperator, cell: Scalar, value: Scalar)
    ensures cell == value ==> (Holds(op, cell, value) <==> op in {EQ, GTE, LTE})
    ensures op in {GT, GTE} && Holds(op, cell, value) ==> Le(value, cell)
    ensures op in {LT, LTE} && Holds(op, cell, value) ==> Le(cell, value)
  {
    match op
    case EQ => cell == value
    case GT => !Le(cell, value)
    case LT => !Le(value, cell)
    case GTE => Le(value, cell)
    case LTE => Le(cell, value)
    case NEQ => cell != value
  }

  /** The operators that order values; on values of different kinds they
      raise a type error instead of answering. */
  predicate IsOrdering(op: FilterOperator) {
    op in {GT, LT, GTE, LTE}
  }

  lemma {:induction false} StrLeReflexive(s: string)
    ensures StrLe(s, s)
  {
    if s != [] {
      StrLeReflexive(s[1..]);
    }
  }

  lemma {:induction false} StrLeTotal(s: string, t: string)
    ensures StrLe(s, t) || StrLe(t, s)
  {
    if s != [] && t != [] && s[0] == t[0] {
      StrLeTotal(s[1..], t[1..]);
    }
  }

  lemma {:induction false} StrLeAntisymmetric(s: string, t: string)
    requires StrLe(s, t) && StrLe(t, s)
    ensures s == t
  {
    if s != [] && t != [] {
      StrLeAntisymmetric(s[1..], t[1..]);
      assert s == [s[0]] + s[1..] && t == [t[0]] + t[1..];
    }
  }

  lemma {:induction false} StrLeTransitive(s: string, t: string, u: string)
    requires StrLe(s, t) && StrLe(t, u)
    ensures StrLe(s, u)
  {
    if s != [] && t != [] && u != [] && s[0] == t[0] && t[0] == u[0] {
      StrLeTransitive(s[1..], t[1..], u[1..]);
    }
  }

  /** `Le` is a total order on scalars. */
  lemma LeTotalOrder(a: Scalar, b: Scalar, c: Scalar)
    ensures Le(a, a)
    ensures Le(a, b) || Le(b, a)
    ensures Le(a, b) && Le(b, a) ==> a == b
    ensures Le(a, b) && Le(b, c) ==> Le(a, c)
  {
    if a.Str? {
      StrLeReflexive(a.s);
      if b.Str? {
        StrLeTotal(a.s, b.s);
        if StrLe(a.s, b.s) && StrLe(b.s, a.s) {
          StrLeAntisymmetric(a.s, b.s);
        }
        if c.Str? && StrLe(a.s, b.s) && StrLe(b.s, c.s) {
          StrLeTransitive(a.s, b.s, c.s);
        }
      }
    }
  }

  /** On numbers the six operators are the arithmetic comparisons. */
  lemma NumericOperators(x: int, y: int)
    ensures Holds(EQ, Num(x), Num(y)) <==> x == y
    ensures Holds(GT, Num(x), Num(y)) <==> x > y
    ensures Holds(LT, Num(x), Num(y)) <==> x < y
    ensures Holds(GTE, Num(x), Num(y)) <==> x >= y
    ensures Holds(LTE, Num(x), Num(y)) <==> x <= y
    ensures Holds(NEQ, Num(x), Num(y)) <==> x != y
  {
  }

  /** On strings GT, LT, GTE and LTE are the strict and non-strict forms of
      one lexicographic order: exactly one of `<`, `==`, `>` holds. */
  lemma StringOperators(s: string, t: string)
    ensures Holds(LT, Str(s), Str(t)) <==> StrLe(s, t) && s != t
    ensures Holds(GT, Str(s), Str(t)) <==> StrLe(t, s) && s != t
    ensures Holds(GTE, Str(s), Str(t)) <==> Holds(GT, Str(s), Str(t)) || s == t
    ensures Holds(LTE, Str(s), Str(t)) <==> Holds(LT, Str(s), Str(t)) || s == t
  {
    StrLeTotal(s, t);
    StrLeReflexive(s);
    if StrLe(s, t) && StrLe(t, s) {
      StrLeAntisymmetric(s, t);
    }
  }

  /** Equality between a number and a string is false, inequality true. */
  lemma MixedKindEquality(cell: Scalar, value: Scalar)
    requires !SameKind(cell, value)
    ensures !Holds(EQ, cell, value) && Holds(NEQ, cell, value)
  {
  }
}
