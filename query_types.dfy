/** The query intent data model: the enumerations of sort orders and
    filter operators, the filter condition record and the query intent
    record with its field defaults. */
module QueryTypes {

  datatype Option<+T> = None | Some(value: T)

  /** The direction of a sort. */
  datatype SortOrder = ASC | DESC | NONE

  /** The six comparison operators a filter may use. */
  datatype FilterOperator = EQ | GT | LT | GTE | LTE | NEQ

  /** A filter value: a number or a string. Python floats and ints both map
      to `Num`; a fractional quantity is kept as a fixed-point integer in the
      unit of its column (tenths of a percent for battery health). */
  datatype Scalar = Num(n: int) | Str(s: string)

  /** One AND-ed condition: `row[column] <operator> value`. */
  datatype FilterCondition = FilterCondition(column: string, operator: FilterOperator, value: Scalar)

  /** The structured intent. Only `queryPlan` has no default; the other
      fields take the defaults of the record declaration when omitted. */
  datatype QueryIntent = QueryIntent(
    queryPlan: string,
    filters: seq<FilterCondition> := [],
    sortBy: Option<string> := None,
    sortOrder: SortOrder := DESC,
    limit: Option<int> := None)

  const AllSortOrders: seq<SortOrder> := [ASC, DESC, NONE]
  const AllOperators: seq<FilterOperator> := [EQ, GT, LT, GTE, LTE, NEQ]

  /** The enumeration value carried by each sort order. */
  function SortOrderValue(o: SortOrder): string {
    match o
    case ASC => "asc"
    case DESC => "desc"
    case NONE => "none"
  }

  /** Looking a sort order up by its value, as the enumeration's constructor does. */
  function SortOrderOf(v: string): (r: Option<SortOrder>)
    ensures r.Some? ==> SortOrderValue(r.value) == v
  {
    if v == "asc" then Some(ASC)
    else if v == "desc" then Some(DESC)
    else if v == "none" then Some(NONE)
    else None
  }

  /** The enumeration value carried by each operator. */
  function OperatorSymbol(op: FilterOperator): string {
    match op
    case EQ => "=="
    case GT => ">"
    case LT => "<"
    case GTE => ">="
    case LTE => "<="
    case NEQ => "!="
  }

  /** Looking an operator up by its symbol, as the enumeration's constructor does. */
  function OperatorOf(v: string): (r: Option<FilterOperator>)
    ensures r.Some? ==> OperatorSymbol(r.value) == v
  {
    if v == "==" then Some(EQ)
    else if v == ">" then Some(GT)
    else if v == "<" then Some(LT)
    else if v == ">=" then Some(GTE)
    else if v == "<=" then Some(LTE)
    else if v == "!=" then Some(NEQ)
    else None
  }

  /** Every sort order is one of three distinct values, and each one is
      found again from its value. */
  lemma SortOrderClosed(o: SortOrder)
    ensures o in AllSortOrders
    ensures |AllSortOrders| == 3
    ensures forall i, j :: 0 <= i < j < |AllSortOrders| ==> AllSortOrders[i] != AllSortOrders[j]
    ensures SortOrderOf(SortOrderValue(o)) == Some(o)
  {
  }

  /** Every operator is one of six distinct values, each found again from
      its symbol, and no two operators share a symbol. */
  lemma OperatorClosed(op: FilterOperator)
    ensures op in AllOperators
    ensures |AllOperators| == 6
    ensures forall i, j :: 0 <= i < j < |AllOperators| ==> AllOperators[i] != AllOperators[j]
    ensures OperatorOf(OperatorSymbol(op)) == Some(op)
  {
  }

  /** A value that is not one of the six symbols names no operator. */
  lemma OperatorOfRejectsOthers(v: string)
    requires forall op :: op in AllOperators ==> OperatorSymbol(op) != v
    ensures OperatorOf(v) == None
  {
  }

  /** An intent built from a query plan alone has no filters, no sort
      column, descending order and no limit. */
  lemma IntentDefaults(plan: string)
    ensures QueryIntent(plan).queryPlan == plan
    ensures QueryIntent(plan).filters == []
    ensures QueryIntent(plan).sortBy == None
    ensures QueryIntent(plan).sortOrder == DESC
    ensures QueryIntent(plan).limit == None
  {
  }
}
