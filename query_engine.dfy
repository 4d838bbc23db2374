/** The query engine: validation of an intent against a table's columns and
    the filter, sort, limit pipeline that executes it. */
module Engine {
  import opened QueryTypes
  import opened Ordering
  import opened Frames

  datatype Outcome<+E> = Pass | Fail(error: E)
  datatype Result<+T, +E> = Ok(value: T) | Err(error: E)

  /** The two `ValueError`s validation raises. */
  datatype ValidationError = MissingFilterColumn(column: string) | MissingSortColumn(column: string)

  /** The text of the raised error: its leading words, which tell the filter
      and sort cases apart, then the missing column, quoted. */
  function Message(e: ValidationError): (r: string)
    ensures var lead := if e.MissingFilterColumn? then "Column '" else "Sort column '";
      |lead| + |e.column| + 1 <= |r| && r[..|lead|] == lead &&
      r[|lead|..|lead| + |e.column|] == e.column && r[|lead| + |e.column|] == '\''
    ensures var lead := if e.MissingFilterColumn? then "Column '" else "Sort column '";
      lead + e.column + "' does not exist" <= r
  {
    var lead := if e.MissingFilterColumn? then "Column '" else "Sort column '";
    var tail := "' does not exist in the data.";
    assert (lead + e.column + tail)[|lead| + |e.column|] == tail[0];
    PrefixOfConcat(lead + e.column, "' does not exist", " in the data.");
    lead + e.column + tail
  }

  lemma PrefixOfConcat(a: string, b: string, c: string)
    ensures a + b <= a + (b + c)
  {
    assert (a + (b + c))[..|a + b|] == a + b;
  }

  /** What executing an intent raises when a condition can not be evaluated:
      a column the table lacks, or an ordering comparison between a column
      and a value of the other kind. */
  datatype ExecError =
    | KeyError(column: string)
    | TypeMismatch(column: string, operator: FilterOperator, value: Scalar)

  /** The sort column when `sort_by` is set and not empty; an empty name
      counts as no sort, as an empty string is false in a condition. */
  function SortColumn(intent: QueryIntent): (r: Option<string>)
    ensures r.Some? <==> intent.sortBy.Some? && intent.sortBy.value != ""
    ensures r.Some? ==> r.value == intent.sortBy.value
  {
    match intent.sortBy
    case Some(c) => if c != "" then Some(c) else None
    case None => None
  }

  // ----- Validation -----

  /** The position of the first condition whose column is missing. */
  function FirstMissingFilter(columns: set<string>, fs: seq<FilterCondition>): (r: Option<nat>)
    ensures r.None? <==> forall i | 0 <= i < |fs| :: fs[i].column in columns
    ensures r.Some? ==> r.value < |fs| && fs[r.value].column !in columns
    ensures r.Some? ==> forall i | 0 <= i < r.value :: fs[i].column in columns
  {
    if fs == [] then None
    else if fs[0].column !in columns then Some(0)
    else
      match FirstMissingFilter(columns, fs[1..])
      case None => None
      case Some(k) => Some(k + 1)
  }

  /** Validation of an intent against the table's columns: the filters in
      order, failing on the first missing column, then the sort column.
      It passes exactly when every filter column and the sort column, if
      any, are columns of the table; a missing sort column is reported only
      when every filter column exists. */
  function Validate(columns: set<string>, intent: QueryIntent): (r: Outcome<ValidationError>)
    ensures r == Pass <==>
      (forall i | 0 <= i < |intent.filters| :: intent.filters[i].column in columns) &&
      (intent.sortBy.None? || intent.sortBy.value == "" || intent.sortBy.value in columns)
    ensures r.Fail? && r.error.MissingSortColumn? ==>
      (forall i | 0 <= i < |intent.filters| :: intent.filters[i].column in columns) &&
      intent.sortBy == Some(r.error.column) && r.error.column != "" && r.error.column !in columns
    ensures r.Fail? && r.error.MissingFilterColumn? ==>
      exists k | 0 <= k < |intent.filters| :: intent.filters[k].column == r.error.column && r.error.column !in columns
  {
    match FirstMissingFilter(columns, intent.filters)
    case Some(k) => Fail(MissingFilterColumn(intent.filters[k].column))
    case None =>
      if SortColumn(intent).Some? && SortColumn(intent).value !in columns then
        Fail(MissingSortColumn(SortColumn(intent).value))
      else Pass
  }

  /** A failure names the first missing filter column; a missing sort column
      is reported only when every filter column exists. */
  lemma ValidateErrorOrder(columns: set<string>, intent: QueryIntent, k: nat)
    requires k < |intent.filters| && intent.filters[k].column !in columns
    requires forall i | 0 <= i < k :: intent.filters[i].column in columns
    ensures Validate(columns, intent) == Fail(MissingFilterColumn(intent.filters[k].column))
  {
  }

  // ----- Execution -----

  /** The error evaluating one condition raises, if any. */
  function StepError(schema: Schema, f: FilterCondition): (r: Option<ExecError>)
    ensures r.None? <==> f.column in schema && (IsOrdering(f.operator) ==> KindOf(f.value) == schema[f.column])
  {
    if f.column !in schema then Some(KeyError(f.column))
    else if IsOrdering(f.operator) && KindOf(f.value) != schema[f.column] then
      Some(TypeMismatch(f.column, f.operator, f.value))
    else None
  }

  /** The position of the first condition that can not be evaluated. */
  function FirstStepError(schema: Schema, fs: seq<FilterCondition>): (r: Option<nat>)
    ensures r.None? <==> forall i | 0 <= i < |fs| :: StepError(schema, fs[i]).None?
    ensures r.Some? ==> r.value < |fs| && StepError(schema, fs[r.value]).Some?
    ensures r.Some? ==> forall i | 0 <= i < r.value :: StepError(schema, fs[i]).None?
  {
    if fs == [] then None
    else if StepError(schema, fs[0]).Some? then Some(0)
    else
      match FirstStepError(schema, fs[1..])
      case None => None
      case Some(k) => Some(k + 1)
  }

  /** The filter stage: the error of the first condition that can not be
      evaluated, or else the rows satisfying every condition. */
  function ApplyFilters(schema: Schema, rows: seq<Row>, fs: seq<FilterCondition>): (r: Result<seq<Row>, ExecError>)
    ensures r.Ok? <==> forall i | 0 <= i < |fs| :: StepError(schema, fs[i]).None?
    ensures r.Ok? ==> r.value == Select(rows, fs)
    ensures r.Err? ==> exists i | 0 <= i < |fs| :: StepError(schema, fs[i]) == Some(r.error)
  {
    match FirstStepError(schema, fs)
    case Some(k) => Err(StepError(schema, fs[k]).value)
    case None => Ok(Select(rows, fs))
  }

  /** The sort stage: ascending only for `ASC`, descending for `DESC` and
      for `NONE`. */
  function SortStage(schema: Schema, rows: seq<Row>, intent: QueryIntent): (r: Result<seq<Row>, ExecError>)
    ensures r.Err? <==> SortColumn(intent).Some? && SortColumn(intent).value !in schema
    ensures r.Err? ==> r.error == KeyError(SortColumn(intent).value)
    ensures r.Ok? ==> multiset(r.value) == multiset(rows)
    ensures r.Ok? && SortColumn(intent).Some? ==> SortedBy(r.value, SortColumn(intent).value, intent.sortOrder == ASC)
    ensures SortColumn(intent).None? ==> r == Ok(rows)
  {
    match SortColumn(intent)
    case None => Ok(rows)
    case Some(c) =>
      if c !in schema then Err(KeyError(c))
      else Ok(SortRows(rows, c, intent.sortOrder == ASC))
  }

  /** The limit stage: the leading rows, as many as the limit allows. */
  function LimitStage(rows: seq<Row>, limit: Option<int>): (r: seq<Row>)
    ensures |r| == LimitedLength(|rows|, limit) && r == rows[..|r|]
  {
    match limit
    case None => rows
    case Some(n) => HeadRows(rows, n)
  }

  /** The result of executing `intent` over a table. */
  function Execute(schema: Schema, rows: seq<Row>, intent: QueryIntent): (r: Result<seq<Row>, ExecError>)
    ensures r.Err? <==>
      (exists i | 0 <= i < |intent.filters| :: StepError(schema, intent.filters[i]).Some?) ||
      (SortColumn(intent).Some? && SortColumn(intent).value !in schema)
    ensures r.Err? && r.error.KeyError? ==> r.error.column !in schema
  {
    match ApplyFilters(schema, rows, intent.filters)
    case Err(e) => Err(e)
    case Ok(filtered) =>
      match SortStage(schema, filtered, intent)
      case Err(e) => Err(e)
      case Ok(sorted) => Ok(LimitStage(sorted, intent.limit))
  }

  /** Every ordering condition compares its column with a value of the
      column's kind. */
  predicate TypeCompatible(schema: Schema, fs: seq<FilterCondition>) {
    forall i | 0 <= i < |fs| ::
      fs[i].column in schema && IsOrdering(fs[i].operator) ==> KindOf(fs[i].value) == schema[fs[i].column]
  }

  /** The length of a result: the limit cut to the filtered length; a
      negative limit drops that many rows from the end. */
  function LimitedLength(n: nat, limit: Option<int>): nat {
    match limit
    case None => n
    case Some(k) => if k >= 0 then Min(k, n) else Max(0, n + k)
  }

  // ----- The engine -----

  class QueryEngine {
    var data: DataFrame

    ghost predicate Valid()
      reads this, data
    {
      data.Valid()
    }

    constructor (data: DataFrame)
      requires data.Valid()
      ensures Valid() && this.data == data
    {
      this.data := data;
    }

    /** Checks the filter columns in order, then the sort column. */
    method ValidateQueryIntent(intent: QueryIntent) returns (r: Outcome<ValidationError>)
      requires Valid()
      ensures r == Validate(data.schema.Keys, intent)
    {
      var i := 0;
      while i < |intent.filters|
        invariant 0 <= i <= |intent.filters|
        invariant forall k | 0 <= k < i :: intent.filters[k].column in data.schema
      {
        if intent.filters[i].column !in data.schema {
          return Fail(MissingFilterColumn(intent.filters[i].column));
        }
        i := i + 1;
      }
      if intent.sortBy.Some? && intent.sortBy.value != "" && intent.sortBy.value !in data.schema {
        return Fail(MissingSortColumn(intent.sortBy.value));
      }
      return Pass;
    }

    /** The filter stage of `execute_query`: copies the table and narrows
        the copy by one condition at a time, in list order. */
    method FilterCopy(fs: seq<FilterCondition>) returns (r: Result<DataFrame, ExecError>)
      requires Valid()
      ensures r.Ok? ==> fresh(r.value) && r.value.Valid() && r.value.schema == data.schema
      ensures r.Ok? ==> ApplyFilters(data.schema, data.rows, fs) == Ok(r.value.rows)
      ensures r.Err? ==> ApplyFilters(data.schema, data.rows, fs) == Err(r.error)
    {
      ghost var schema, rows := data.schema, data.rows;
      var df := data.Copy();
      var i := 0;
      SelectAllOfNone(rows);
      assert fs[..0] == [];
      while i < |fs|
        invariant 0 <= i <= |fs|
        invariant fresh(df) && df.Valid() && df.schema == schema
        invariant forall k | 0 <= k < i :: StepError(schema, fs[k]).None?
        invariant df.rows == Select(rows, fs[..i])
      {
        var condition := fs[i];
        if condition.column !in df.schema {
          FilterStageErrors(schema, rows, fs, i);
          return Err(KeyError(condition.column));
        }
        if IsOrdering(condition.operator) && KindOf(condition.value) != df.schema[condition.column] {
          FilterStageErrors(schema, rows, fs, i);
          return Err(TypeMismatch(condition.column, condition.operator, condition.value));
        }
        df := df.Where(condition);
        NarrowingStep(rows, fs, i);
        i := i + 1;
      }
      WholePrefix(fs);
      FilterStageSucceeds(schema, rows, fs);
      return Ok(df);
    }

    /** `execute_query`: filters a copy of the table, then sorts and
        truncates it, and returns it as a new frame numbered from zero.
        The engine's own table is left as it was. */
    method ExecuteQuery(intent: QueryIntent) returns (r: Result<DataFrame, ExecError>)
      requires Valid()
      ensures unchanged(this, data) && Valid()
      ensures r.Ok? ==> fresh(r.value) && r.value.Valid() && r.value.schema == data.schema
      ensures r.Ok? ==> Execute(data.schema, data.rows, intent) == Ok(r.value.rows)
      ensures r.Err? ==> Execute(data.schema, data.rows, intent) == Err(r.error)
    {
      var filtered := FilterCopy(intent.filters);
      if filtered.Err? {
        return Err(filtered.error);
      }
      var df := filtered.value;
      var sortColumn := SortColumn(intent);
      if sortColumn.Some? {
        if sortColumn.value !in df.schema {
          return Err(KeyError(sortColumn.value));
        }
        df := df.SortValues(sortColumn.value, intent.sortOrder == ASC);
      }
      if intent.limit.Some? {
        df := df.Head(intent.limit.value);
      }
      var result := df.ResetIndex();
      return Ok(result);
    }
  }

  // ----- Properties of execution -----

  /** Narrowing the rows selected by the first `i` conditions by condition
      `i` selects by the first `i + 1`. */
  lemma NarrowingStep(rows: seq<Row>, fs: seq<FilterCondition>, i: nat)
    requires i < |fs|
    ensures Select(Select(rows, fs[..i]), [fs[i]]) == Select(rows, fs[..i + 1])
  {
    SelectNarrowing(rows, fs[..i], fs[i]);
    assert fs[..i] + [fs[i]] == fs[..i + 1];
  }

  /** After the filter stage, a row is kept iff it is a row of the table
      satisfying every condition, and kept rows keep their relative order. */
  lemma FilterStageSemantics(schema: Schema, rows: seq<Row>, fs: seq<FilterCondition>, x: Row)
    requires ApplyFilters(schema, rows, fs).Ok?
    ensures x in ApplyFilters(schema, rows, fs).value <==>
      x in rows && forall i | 0 <= i < |fs| :: Satisfies(x, fs[i])
    ensures IsSubsequence(ApplyFilters(schema, rows, fs).value, rows)
  {
    SelectMembership(rows, fs, x);
    SelectIsSubsequence(rows, fs);
  }

  /** The filter stage fails exactly when some condition can not be
      evaluated, and then with the error of the first such condition. */
  lemma FilterStageErrors(schema: Schema, rows: seq<Row>, fs: seq<FilterCondition>, k: nat)
    requires k < |fs| && StepError(schema, fs[k]).Some?
    requires forall i | 0 <= i < k :: StepError(schema, fs[i]).None?
    ensures ApplyFilters(schema, rows, fs) == Err(StepError(schema, fs[k]).value)
  {
  }

  lemma WholePrefix<T>(s: seq<T>)
    ensures s[..|s|] == s
  {
  }

  /** The filter stage succeeds with the selected rows when every condition
      can be evaluated. */
  lemma FilterStageSucceeds(schema: Schema, rows: seq<Row>, fs: seq<FilterCondition>)
    requires forall i | 0 <= i < |fs| :: StepError(schema, fs[i]).None?
    ensures ApplyFilters(schema, rows, fs) == Ok(Select(rows, fs))
  {
  }

  /** Executing a validated intent never raises a missing-column error,
      and raises nothing at all when its ordering conditions are
      type-compatible with their columns. */
  lemma ValidatedIntentExecutes(schema: Schema, rows: seq<Row>, intent: QueryIntent)
    requires Validate(schema.Keys, intent) == Pass
    ensures !(Execute(schema, rows, intent).Err? && Execute(schema, rows, intent).error.KeyError?)
    ensures TypeCompatible(schema, intent.filters) ==> Execute(schema, rows, intent).Ok?
  {
    var k := FirstStepError(schema, intent.filters);
    if k.Some? {
      assert intent.filters[k.value].column in schema;
    }
  }

  /** A missing column met while executing an unvalidated intent is the very
      column validation would have reported. */
  lemma KeyErrorMatchesValidation(schema: Schema, rows: seq<Row>, intent: QueryIntent, c: string)
    requires Execute(schema, rows, intent) == Err(KeyError(c))
    ensures Validate(schema.Keys, intent) == Fail(MissingFilterColumn(c)) ||
            Validate(schema.Keys, intent) == Fail(MissingSortColumn(c))
  {
    var fs := intent.filters;
    var k := FirstStepError(schema, fs);
    if k.Some? {
      assert fs[k.value].column == c && c !in schema;
      ValidateErrorOrder(schema.Keys, intent, k.value);
    } else {
      assert forall i | 0 <= i < |fs| :: fs[i].column in schema.Keys;
    }
  }

  lemma SortedPrefix(s: seq<Row>, m: nat, col: string, ascending: bool)
    requires m <= |s| && SortedBy(s, col, ascending)
    ensures SortedBy(s[..m], col, ascending)
  {
    var p := s[..m];
    forall i, j | 0 <= i < j < |p| ensures InOrder(Key(p[i], col), Key(p[j], col), ascending) {
      assert p[i] == s[i] && p[j] == s[j];
    }
  }

  lemma PrefixMultiset(s: seq<Row>, m: nat)
    requires m <= |s|
    ensures multiset(s) == multiset(s[..m]) + multiset(s[m..])
  {
    assert s == s[..m] + s[m..];
  }

  /** With a sort column the result is ordered by it: non-decreasing for
      `ASC`, non-increasing for `DESC` and `NONE`. */
  lemma ExecuteSorted(schema: Schema, rows: seq<Row>, intent: QueryIntent)
    requires Execute(schema, rows, intent).Ok? && SortColumn(intent).Some?
    ensures SortedBy(Execute(schema, rows, intent).value, SortColumn(intent).value, intent.sortOrder == ASC)
  {
    var c := SortColumn(intent).value;
    var s := SortRows(Select(rows, intent.filters), c, intent.sortOrder == ASC);
    var r := Execute(schema, rows, intent).value;
    assert r == s[..|r|];
    SortedPrefix(s, |r|, c, intent.sortOrder == ASC);
  }

  /** The result holds the first rows of the filtered (and sorted) rows: as
      many as the limit allows, all of them without a limit. */
  lemma ExecuteLength(schema: Schema, rows: seq<Row>, intent: QueryIntent)
    requires Execute(schema, rows, intent).Ok?
    ensures |Execute(schema, rows, intent).value| == LimitedLength(|Select(rows, intent.filters)|, intent.limit)
    ensures |Execute(schema, rows, intent).value| <= |rows|
  {
    var f := Select(rows, intent.filters);
    var s := SortStage(schema, f, intent).value;
    assert |s| == |f| by {
      if SortColumn(intent).Some? {
        assert |multiset(s)| == |multiset(f)|;
      }
    }
  }

  /** Every result row is a row of the table, no more often than there. With
      a sort column and no truncation the result is a permutation of the
      filtered rows; without a sort column it is a prefix of them. */
  lemma ExecuteRows(schema: Schema, rows: seq<Row>, intent: QueryIntent)
    requires Execute(schema, rows, intent).Ok?
    ensures multiset(Execute(schema, rows, intent).value) <= multiset(Select(rows, intent.filters))
    ensures multiset(Select(rows, intent.filters)) <= multiset(rows)
    ensures SortColumn(intent).None? ==>
      Execute(schema, rows, intent).value == Select(rows, intent.filters)[..|Execute(schema, rows, intent).value|]
    ensures intent.limit.None? || intent.limit.value >= |Select(rows, intent.filters)| ==>
      multiset(Execute(schema, rows, intent).value) == multiset(Select(rows, intent.filters))
  {
    var f := Select(rows, intent.filters);
    var s := SortStage(schema, f, intent).value;
    var r := Execute(schema, rows, intent).value;
    assert multiset(s) == multiset(f);
    assert r == s[..|r|];
    PrefixMultiset(s, |r|);
    if intent.limit.None? || intent.limit.value >= |f| {
      assert r == s;
    }
    SelectSubMultiset(rows, intent.filters);
  }

  /** In a sorted sequence every row of a prefix may precede every row
      after it. */
  lemma SortedPrefixPrecedes(s: seq<Row>, m: nat, col: string, ascending: bool, x: Row, y: Row)
    requires m <= |s| && SortedBy(s, col, ascending)
    requires x in s[..m] && y in multiset(s) - multiset(s[..m])
    ensures InOrder(Key(x, col), Key(y, col), ascending)
  {
    PrefixMultiset(s, m);
    assert y in multiset(s[m..]);
    var j :| 0 <= j < |s[m..]| && s[m..][j] == y;
    var i :| 0 <= i < m && s[..m][i] == x;
    assert s[i] == x && s[m + j] == y;
  }

  /** A truncated sorted result keeps the leading rows: every kept row may
      precede every filtered row that was cut off. */
  lemma ExecuteKeepsLeadingRows(schema: Schema, rows: seq<Row>, intent: QueryIntent, x: Row, y: Row)
    requires Execute(schema, rows, intent).Ok? && SortColumn(intent).Some?
    requires x in Execute(schema, rows, intent).value
    requires y in multiset(Select(rows, intent.filters)) - multiset(Execute(schema, rows, intent).value)
    ensures InOrder(Key(x, SortColumn(intent).value), Key(y, SortColumn(intent).value), intent.sortOrder == ASC)
  {
    var c := SortColumn(intent).value;
    var s := SortRows(Select(rows, intent.filters), c, intent.sortOrder == ASC);
    var r := Execute(schema, rows, intent).value;
    assert r == s[..|r|];
    SortedPrefixPrecedes(s, |r|, c, intent.sortOrder == ASC, x, y);
  }

  /** A limit of zero gives an empty result. */
  lemma LimitZeroIsEmpty(schema: Schema, rows: seq<Row>, intent: QueryIntent)
    requires Execute(schema, rows, intent).Ok? && intent.limit == Some(0)
    ensures Execute(schema, rows, intent).value == []
  {
  }

  /** A set sort column with order `NONE` sorts exactly as `DESC` does. */
  lemma NoneSortsDescending(schema: Schema, rows: seq<Row>, intent: QueryIntent)
    requires intent.sortOrder == NONE
    ensures Execute(schema, rows, intent) == Execute(schema, rows, intent.(sortOrder := DESC))
  {
  }

  /** The query plan never affects the result. */
  lemma QueryPlanIrrelevant(schema: Schema, rows: seq<Row>, intent: QueryIntent, plan: string)
    ensures Execute(schema, rows, intent) == Execute(schema, rows, intent.(queryPlan := plan))
  {
  }

  /** An intent with every field at its default returns the whole table in
      its original order; so does an empty sort column name. */
  lemma DefaultIntentReturnsTable(schema: Schema, rows: seq<Row>, plan: string, order: SortOrder)
    ensures Execute(schema, rows, QueryIntent(plan)) == Ok(rows)
    ensures Execute(schema, rows, QueryIntent(plan, sortBy := Some(""), sortOrder := order)) == Ok(rows)
  {
    assert Select(rows, []) == rows by {
      SelectAllOfNone(rows);
    }
  }

  lemma {:induction false} SelectAllOfNone(rows: seq<Row>)
    ensures Select(rows, []) == rows
  {
    if rows != [] {
      SelectAllOfNone(rows[1..]);
    }
  }
}
