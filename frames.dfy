/** The part of a data frame the engine relies on: a schema of typed
    columns, an ordered sequence of rows, and the row selection, sorting
    and truncation the engine applies to them. */
module Frames {
  import opened QueryTypes
  import opened Ordering

  /** The dtype of a column, as far as comparisons are concerned. */
  datatype Kind = NumKind | StrKind

  function KindOf(v: Scalar): Kind {
    if v.Num? then NumKind else StrKind
  }

  type Row = map<string, Scalar>
  type Schema = map<string, Kind>

  /** Every row has exactly the schema's columns, each holding a value of
      the column's kind. */
  ghost predicate WellFormed(schema: Schema, rows: seq<Row>) {
    forall r | r in rows :: r.Keys == schema.Keys && forall c | c in r :: KindOf(r[c]) == schema[c]
  }

  /** Rows drawn from a well-formed table are well formed. */
  lemma WellFormedSubset(schema: Schema, a: seq<Row>, b: seq<Row>)
    requires WellFormed(schema, b) && forall x | x in a :: x in b
    ensures WellFormed(schema, a)
  {
  }

  // ----- Row selection (boolean masks) -----

  /** The row has the condition's column and its cell satisfies the
      condition. */
  predicate Satisfies(row: Row, f: FilterCondition)
    ensures f.column in row && row[f.column] == f.value ==> (Satisfies(row, f) <==> f.operator in {EQ, GTE, LTE})
  {
    f.column in row && Holds(f.operator, row[f.column], f.value)
  }

  /** The conditions are AND-ed: the row satisfies each listed condition,
      wherever and however often it is listed. */
  predicate SatisfiesAll(row: Row, fs: seq<FilterCondition>)
    ensures SatisfiesAll(row, fs) <==> forall f | f in fs :: Satisfies(row, f)
  {
    forall i | 0 <= i < |fs| :: Satisfies(row, fs[i])
  }

  /** The rows satisfying every condition, in their original order. */
  function Select(rows: seq<Row>, fs: seq<FilterCondition>): (r: seq<Row>)
    ensures |r| <= |rows|
  {
    if rows == [] then []
    else if SatisfiesAll(rows[0], fs) then [rows[0]] + Select(rows[1..], fs)
    else Select(rows[1..], fs)
  }

  /** `a` is `b` with some elements left out and the rest in order. */
  predicate IsSubsequence<T(==)>(a: seq<T>, b: seq<T>)
    decreases |b|
  {
    a == [] || (b != [] && ((a[0] == b[0] && IsSubsequence(a[1..], b[1..])) || IsSubsequence(a, b[1..])))
  }

  /** Selection keeps exactly the satisfying rows, each as often as it
      occurs in the input. */
  lemma {:induction false} SelectCount(rows: seq<Row>, fs: seq<FilterCondition>, x: Row)
    ensures multiset(Select(rows, fs))[x] == if SatisfiesAll(x, fs) then multiset(rows)[x] else 0
  {
    if rows != [] {
      SelectCount(rows[1..], fs, x);
      assert rows == [rows[0]] + rows[1..];
    }
  }

  /** Selection never repeats a row more often than the input holds it. */
  lemma SelectSubMultiset(rows: seq<Row>, fs: seq<FilterCondition>)
    ensures multiset(Select(rows, fs)) <= multiset(rows)
  {
    forall x ensures multiset(Select(rows, fs))[x] <= multiset(rows)[x] {
      SelectCount(rows, fs, x);
    }
  }

  /** A row is selected iff it is a row of the input satisfying every
      condition. */
  lemma SelectMembership(rows: seq<Row>, fs: seq<FilterCondition>, x: Row)
    ensures x in Select(rows, fs) <==> x in rows && SatisfiesAll(x, fs)
  {
    SelectCount(rows, fs, x);
  }

  /** Selection keeps the relative order of the rows it keeps. */
  lemma {:induction false} SelectIsSubsequence(rows: seq<Row>, fs: seq<FilterCondition>)
    ensures IsSubsequence(Select(rows, fs), rows)
  {
    if rows != [] {
      SelectIsSubsequence(rows[1..], fs);
      if SatisfiesAll(rows[0], fs) {
        assert Select(rows, fs) == [rows[0]] + Select(rows[1..], fs);
      }
    }
  }

  /** Narrowing by one more condition is selecting by the longer list. */
  lemma {:induction false} SelectNarrowing(rows: seq<Row>, fs: seq<FilterCondition>, f: FilterCondition)
    ensures Select(Select(rows, fs), [f]) == Select(rows, fs + [f])
  {
    if rows != [] {
      SelectNarrowing(rows[1..], fs, f);
      assert SatisfiesAll(rows[0], fs + [f]) <==> SatisfiesAll(rows[0], fs) && Satisfies(rows[0], f) by {
        var g := fs + [f];
        assert forall i | 0 <= i < |fs| :: g[i] == fs[i];
        assert g[|fs|] == f;
      }
      if SatisfiesAll(rows[0], fs) {
        assert Select(rows, fs) == [rows[0]] + Select(rows[1..], fs);
      }
    }
  }

  /** The conditions are commutative: selection depends only on which
      conditions are listed, not on their order or repetition. */
  lemma {:induction false} SelectOrderIrrelevant(rows: seq<Row>, fs: seq<FilterCondition>, gs: seq<FilterCondition>)
    requires forall f :: f in fs <==> f in gs
    ensures Select(rows, fs) == Select(rows, gs)
  {
    if rows != [] {
      SelectOrderIrrelevant(rows[1..], fs, gs);
    }
  }

  // ----- Sorting -----

  /** The value a row is sorted on. Every row carries the sort column (the
      engine checks it against the schema before sorting); the default only
      keeps the function total. */
  function Key(row: Row, col: string): Scalar {
    if col in row then row[col] else Num(0)
  }

  /** `a` may come before `b` in the requested direction. */
  predicate InOrder(a: Scalar, b: Scalar, ascending: bool) {
    if ascending then Le(a, b) else Le(b, a)
  }

  /** Non-decreasing (ascending) or non-increasing (descending) by `col`. */
  ghost predicate SortedBy(rows: seq<Row>, col: string, ascending: bool) {
    forall i, j | 0 <= i < j < |rows| :: InOrder(Key(rows[i], col), Key(rows[j], col), ascending)
  }

  lemma InOrderTotal(a: Scalar, b: Scalar, c: Scalar, ascending: bool)
    ensures InOrder(a, b, ascending) || InOrder(b, a, ascending)
    ensures InOrder(a, b, ascending) && InOrder(b, c, ascending) ==> InOrder(a, c, ascending)
  {
    LeTotalOrder(a, b, c);
    LeTotalOrder(c, b, a);
  }

  /** Places `x` before the first row it may precede. */
  function Insert(x: Row, s: seq<Row>, col: string, ascending: bool): (r: seq<Row>)
    ensures multiset(r) == multiset(s) + multiset{x}
  {
    if s == [] then [x]
    else if InOrder(Key(x, col), Key(s[0], col), ascending) then [x] + s
    else
      assert s == [s[0]] + s[1..];
      [s[0]] + Insert(x, s[1..], col, ascending)
  }

  lemma SortedTail(s: seq<Row>, col: string, ascending: bool)
    requires s != [] && SortedBy(s, col, ascending)
    ensures SortedBy(s[1..], col, ascending)
  {
    var tail := s[1..];
    forall i, j | 0 <= i < j < |tail|
      ensures InOrder(Key(tail[i], col), Key(tail[j], col), ascending)
    {
      assert tail[i] == s[i + 1] && tail[j] == s[j + 1];
    }
  }

  /** A row that may precede the head of a sorted sequence may precede all of it. */
  lemma ConsSorted(x: Row, s: seq<Row>, col: string, ascending: bool)
    requires SortedBy(s, col, ascending)
    requires forall y | y in s :: InOrder(Key(x, col), Key(y, col), ascending)
    ensures SortedBy([x] + s, col, ascending)
  {
    var r := [x] + s;
    forall i, j | 0 <= i < j < |r|
      ensures InOrder(Key(r[i], col), Key(r[j], col), ascending)
    {
      if i == 0 {
        assert r[j] in s;
      } else {
        assert r[i] == s[i - 1] && r[j] == s[j - 1];
      }
    }
  }

  /** Inserting into a sorted sequence keeps it sorted. */
  lemma {:induction false} InsertSorted(x: Row, s: seq<Row>, col: string, ascending: bool)
    requires SortedBy(s, col, ascending)
    ensures SortedBy(Insert(x, s, col, ascending), col, ascending)
  {
    if s != [] {
      var kx, k0 := Key(x, col), Key(s[0], col);
      if InOrder(kx, k0, ascending) {
        forall y | y in s ensures InOrder(kx, Key(y, col), ascending) {
          var k :| 0 <= k < |s| && s[k] == y;
          if k > 0 {
            InOrderTotal(kx, k0, Key(y, col), ascending);
          }
        }
        ConsSorted(x, s, col, ascending);
      } else {
        var tail := s[1..];
        SortedTail(s, col, ascending);
        InsertSorted(x, tail, col, ascending);
        var t := Insert(x, tail, col, ascending);
        InOrderTotal(kx, k0, k0, ascending);
        forall y | y in t ensures InOrder(k0, Key(y, col), ascending) {
          assert y in multiset(t);
          if y != x {
            assert y in multiset(tail);
            var k :| 0 <= k < |tail| && tail[k] == y;
            assert s[k + 1] == y;
          }
        }
        ConsSorted(s[0], t, col, ascending);
      }
    }
  }

  /** Reorders the rows by `col`: a permutation of the input, sorted in the
      requested direction. Ties are placed in no promised order. */
  function SortRows(rows: seq<Row>, col: string, ascending: bool): (r: seq<Row>)
    ensures multiset(r) == multiset(rows)
    ensures SortedBy(r, col, ascending)
  {
    if rows == [] then []
    else
      assert rows == [rows[0]] + rows[1..];
      var t := SortRows(rows[1..], col, ascending);
      InsertSorted(rows[0], t, col, ascending);
      Insert(rows[0], t, col, ascending)
  }

  // ----- Truncation -----

  function Min(a: int, b: int): int { if a <= b then a else b }
  function Max(a: int, b: int): int { if a >= b then a else b }

  /** The first `n` rows; a negative `n` drops the last `-n` rows instead. */
  function HeadRows(rows: seq<Row>, n: int): (r: seq<Row>)
    ensures |r| <= |rows| && r == rows[..|r|]
    ensures n >= 0 ==> |r| == Min(n, |rows|)
    ensures n < 0 ==> |r| == Max(0, |rows| + n)
  {
    if n >= 0 then rows[..Min(n, |rows|)] else rows[..Max(0, |rows| + n)]
  }

  // ----- The data frame -----

  /** A table: its columns with their kinds and its rows, addressed by
      position 0 .. |rows| - 1. Every operation below returns a new frame
      and leaves this one as it was. */
  class DataFrame {
    var schema: Schema
    var rows: seq<Row>

    ghost predicate Valid()
      reads this
    {
      WellFormed(schema, rows)
    }

    constructor (schema: Schema, rows: seq<Row>)
      requires WellFormed(schema, rows)
      ensures Valid()
      ensures this.schema == schema && this.rows == rows
    {
      this.schema := schema;
      this.rows := rows;
    }

    /** A new frame with the same columns and rows. */
    method Copy() returns (c: DataFrame)
      requires Valid()
      ensures fresh(c) && c.Valid()
      ensures c.schema == schema && c.rows == rows
    {
      c := new DataFrame(schema, rows);
    }

    /** `df[df[f.column] <op> f.value]`: the rows whose cell satisfies the
        condition, in their order. The column must be one of the frame's
        and, for an ordering operator, of the value's kind. */
    method Where(f: FilterCondition) returns (c: DataFrame)
      requires Valid() && f.column in schema
      requires IsOrdering(f.operator) ==> KindOf(f.value) == schema[f.column]
      ensures fresh(c) && c.Valid()
      ensures c.schema == schema && c.rows == Select(rows, [f])
    {
      var kept := Select(rows, [f]);
      forall x | x in kept ensures x in rows {
        SelectMembership(rows, [f], x);
      }
      WellFormedSubset(schema, kept, rows);
      c := new DataFrame(schema, kept);
    }

    /** `df.sort_values(by=col, ascending=ascending)`. */
    method SortValues(col: string, ascending: bool) returns (c: DataFrame)
      requires Valid() && col in schema
      ensures fresh(c) && c.Valid()
      ensures c.schema == schema && c.rows == SortRows(rows, col, ascending)
    {
      var sorted := SortRows(rows, col, ascending);
      PermutationMembers(sorted, rows);
      WellFormedSubset(schema, sorted, rows);
      c := new DataFrame(schema, sorted);
    }

    /** `df.head(n)`. */
    method Head(n: int) returns (c: DataFrame)
      requires Valid()
      ensures fresh(c) && c.Valid()
      ensures c.schema == schema && c.rows == HeadRows(rows, n)
    {
      var head := HeadRows(rows, n);
      assert forall x | x in head :: x in rows;
      WellFormedSubset(schema, head, rows);
      c := new DataFrame(schema, head);
    }

    /** `df.reset_index(drop=True)`: the same rows, numbered from zero. Rows
        are addressed by position in this model, so only a new frame is
        made. */
    method ResetIndex() returns (c: DataFrame)
      requires Valid()
      ensures fresh(c) && c.Valid()
      ensures c.schema == schema && c.rows == rows
    {
      c := new DataFrame(schema, rows);
    }
  }

  lemma PermutationMembers(a: seq<Row>, b: seq<Row>)
    requires multiset(a) == multiset(b)
    ensures forall x | x in a :: x in b
  {
    forall x | x in a ensures x in b {
      assert x in multiset(a);
    }
  }
}
