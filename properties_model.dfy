/**
 * models/properties.models.js: the property listing query. The filters
 * become `$n` placeholders bound, in order, to the request's values; a
 * property type is first looked up in property_types; the ORDER BY clause
 * comes from a fixed whitelist; the rows' numeric columns are converted with
 * Number. Running the SQL is a parameter, `execute`.
 */
module PropertiesModel {
  import opened Js
  import opened Schema
  import opened Http
  import opened Utils

  /** The arguments of fetchAllProperties, as the controller passes them from the query string. */
  datatype ListingRequest = ListingRequest(
    minprice: Option<string>,
    maxprice: Option<string>,
    property_type: Option<string>,
    sort: Option<string>,
    order: Option<string>)

  /** Parameterised SQL: the text and the values bound to $1, $2, ... */
  datatype Query = Query(text: string, values: seq<string>)

  const ListingSelect: string :=
    "SELECT p.property_id, p.name AS property_name, p.location, p.price_per_night AS cost_per_night, " +
    "p.price_per_night AS price_per_night, p.property_type, u.first_name || ' ' || u.surname AS host, " +
    "COUNT(f.favourite_id) AS popularity FROM properties p JOIN users u ON p.host_id = u.user_id " +
    "LEFT JOIN favourites f ON p.property_id = f.property_id"

  const ListingGroupBy: string :=
    " GROUP BY p.property_id, p.name, p.location, p.price_per_night, u.first_name, u.surname, p.property_type"

  // ---------------------------------------------------------------------------
  // Filters and their placeholders
  // ---------------------------------------------------------------------------

  /** One filter of the WHERE clause, with the value bound to its placeholder. */
  datatype Condition = MinPrice(arg: string) | MaxPrice(arg: string) | TypeIs(arg: string)

  /** The position of a filter kind in the clause: minimum price, maximum price, type. */
  function Rank(c: Condition): nat {
    match c
    case MinPrice(_) => 0
    case MaxPrice(_) => 1
    case TypeIs(_) => 2
  }

  /** The filters a request asks for: one per truthy argument, in the fixed order. */
  function Conditions(req: ListingRequest): (cs: seq<Condition>)
    ensures |cs| <= 3
  {
    var afterMin := if Truthy(req.minprice) then [MinPrice(req.minprice.value)] else [];
    var afterMax := if Truthy(req.maxprice) then afterMin + [MaxPrice(req.maxprice.value)] else afterMin;
    if Truthy(req.property_type) then afterMax + [TypeIs(req.property_type.value)] else afterMax
  }

  /** Each truthy argument contributes exactly its own filter, and the filters come in the fixed order. */
  lemma ConditionsOfRequest(req: ListingRequest)
    ensures forall v :: MinPrice(v) in Conditions(req) <==> Truthy(req.minprice) && v == req.minprice.value
    ensures forall v :: MaxPrice(v) in Conditions(req) <==> Truthy(req.maxprice) && v == req.maxprice.value
    ensures forall v :: TypeIs(v) in Conditions(req) <==> Truthy(req.property_type) && v == req.property_type.value
    ensures forall i, j :: 0 <= i < j < |Conditions(req)| ==> Rank(Conditions(req)[i]) < Rank(Conditions(req)[j])
  {
  }

  const MinPriceTest: string := "p.price_per_night >= $"
  const MaxPriceTest: string := "p.price_per_night <= $"
  const TypeTest: string := "p.property_type = $"

  /** The comparison a filter makes, up to its placeholder number. */
  function Test(c: Condition): string {
    match c
    case MinPrice(_) => MinPriceTest
    case MaxPrice(_) => MaxPriceTest
    case TypeIs(_) => TypeTest
  }

  /** The SQL condition for a filter whose value is bound to placeholder $n. */
  function ConditionText(c: Condition, n: nat): string {
    Test(c) + NatToString(n)
  }

  /** The word that introduces the filter after `count` others. */
  function Connective(count: nat): string {
    if count == 0 then " WHERE " else " AND "
  }

  /** The values bound to the placeholders, one per filter, in order. */
  function Args(cs: seq<Condition>): (vs: seq<string>)
    ensures |vs| == |cs|
    ensures forall k :: 0 <= k < |cs| ==> vs[k] == cs[k].arg
  {
    if cs == [] then [] else Args(cs[..|cs| - 1]) + [cs[|cs| - 1].arg]
  }

  /**
   * The WHERE clause built one filter at a time: the first filter is
   * introduced by WHERE, each later one by AND, and the k-th (from 1) uses $k.
   */
  function WhereClause(cs: seq<Condition>): (w: string)
    ensures w == "" <==> cs == []
  {
    if cs == [] then ""
    else
      WhereClause(cs[..|cs| - 1]) + Connective(|cs| - 1) + ConditionText(cs[|cs| - 1], |cs|)
  }

  lemma WhereClauseSnoc(cs: seq<Condition>, c: Condition)
    ensures WhereClause(cs + [c]) == WhereClause(cs) + Connective(|cs|) + ConditionText(c, |cs| + 1)
    ensures Args(cs + [c]) == Args(cs) + [c.arg]
  {
    assert (cs + [c])[..|cs|] == cs;
  }

  lemma ConcatAssoc(a: string, b: string, c: string, d: string, e: string)
    ensures a + b + c + d + e == a + (b + c + (d + e))
  {
  }

  /** One more filter, appended the way fetchAllProperties appends it. */
  lemma AppendCondition(prefix: string, cs: seq<Condition>, c: Condition, connective: string, n: nat)
    requires connective == Connective(|cs|) && n == |cs| + 1
    ensures prefix + WhereClause(cs) + connective + Test(c) + NatToString(n) == prefix + WhereClause(cs + [c])
    ensures Args(cs) + [c.arg] == Args(cs + [c])
  {
    WhereClauseSnoc(cs, c);
    ConcatAssoc(prefix, WhereClause(cs), connective, Test(c), NatToString(n));
  }

  function Join(parts: seq<string>, sep: string): string {
    if parts == [] then ""
    else if |parts| == 1 then parts[0]
    else Join(parts[..|parts| - 1], sep) + sep + parts[|parts| - 1]
  }

  /** The texts of the filters, the k-th (from 0) bound to $k+1. */
  function ConditionTexts(cs: seq<Condition>): (ts: seq<string>)
    ensures |ts| == |cs|
    ensures forall k :: 0 <= k < |cs| ==> ts[k] == ConditionText(cs[k], k + 1)
  {
    seq(|cs|, k requires 0 <= k < |cs| => ConditionText(cs[k], k + 1))
  }

  /** Built incrementally, the clause is one WHERE followed by the filters joined with AND. */
  lemma {:induction false} WhereClauseIsJoin(cs: seq<Condition>)
    ensures WhereClause(cs) == if cs == [] then "" else " WHERE " + Join(ConditionTexts(cs), " AND ")
  {
    if |cs| > 1 {
      var p := cs[..|cs| - 1];
      WhereClauseIsJoin(p);
      var ts := ConditionTexts(cs);
      assert ts[..|ts| - 1] == ConditionTexts(p);
      var j := Join(ConditionTexts(p), " AND ");
      var last := ConditionText(cs[|cs| - 1], |cs|);
      assert WhereClause(cs) == " WHERE " + j + " AND " + last;
      assert Join(ts, " AND ") == j + " AND " + last;
      Assoc4(" WHERE ", j, " AND ", last);
    }
  }

  lemma Assoc4(a: string, b: string, c: string, d: string)
    ensures a + b + c + d == a + (b + c + d)
  {
  }

  /** The kinds of a sequence of filters. */
  function Ranks(cs: seq<Condition>): (rs: seq<nat>)
    ensures |rs| == |cs|
    ensures forall k :: 0 <= k < |cs| ==> rs[k] == Rank(cs[k])
  {
    seq(|cs|, k requires 0 <= k < |cs| => Rank(cs[k]))
  }

  lemma RanksOfConditions(req: ListingRequest)
    ensures Ranks(Conditions(req)) ==
            (if Truthy(req.minprice) then [0] else []) +
            (if Truthy(req.maxprice) then [1] else []) +
            (if Truthy(req.property_type) then [2] else [])
  {
  }

  /** Filters of the same kinds give the same clause, whatever their values. */
  lemma {:induction false} WhereClauseIgnoresValues(cs: seq<Condition>, ds: seq<Condition>)
    requires Ranks(cs) == Ranks(ds)
    ensures WhereClause(cs) == WhereClause(ds)
  {
    if cs != [] {
      var n := |cs| - 1;
      assert Ranks(cs[..n]) == Ranks(cs)[..n] && Ranks(ds[..n]) == Ranks(ds)[..n];
      WhereClauseIgnoresValues(cs[..n], ds[..n]);
      assert Rank(cs[n]) == Ranks(cs)[n] == Ranks(ds)[n] == Rank(ds[n]);
      assert Test(cs[n]) == Test(ds[n]);
    }
  }

  // ---------------------------------------------------------------------------
  // ORDER BY
  // ---------------------------------------------------------------------------

  /** `const sorting = { ... }`. */
  const Sorting: map<string, string> :=
    map["cost_per_night" := "cost_per_night", "price_per_night" := "price_per_night", "popularity" := "popularity"]

  /** `const ordering = { ... }`. */
  const Ordering: map<string, string> := map["ascending" := "ASC", "descending" := "DESC"]

  /** ` ORDER BY column direction`. */
  function OrderByText(column: string, direction: string): string {
    " ORDER BY " + column + " " + direction
  }

  const DefaultOrderBy: string := OrderByText("popularity", "DESC")

  /** A sort or order argument that names one of the whitelist's own keys. */
  function OwnLookup(table: map<string, string>, key: Option<string>): Option<string> {
    if key.Some? && key.value in table then Some(table[key.value]) else None
  }

  /** The clause orders by a whitelisted column in a whitelisted direction. */
  predicate Whitelisted(clause: string) {
    exists column, direction :: column in Sorting.Values && direction in Ordering.Values &&
                                clause == OrderByText(column, direction)
  }

  /**
   * The ORDER BY clause, with `sorting[sort] && ordering[order]` read as a
   * lookup of the whitelists' own keys: a known column and direction are
   * used, anything else falls back to the most popular first.
   */
  function OrderBy(sort: Option<string>, order: Option<string>): (r: string)
    ensures Whitelisted(r)
    ensures OwnLookup(Sorting, sort).None? || OwnLookup(Ordering, order).None? ==> r == DefaultOrderBy
  {
    var column := OwnLookup(Sorting, sort);
    var direction := OwnLookup(Ordering, order);
    assert "popularity" in Sorting.Values && "DESC" in Ordering.Values by {
      assert Sorting["popularity"] == "popularity" && Ordering["descending"] == "DESC";
    }
    if column.Some? && direction.Some? then OrderByText(column.value, direction.value)
    else DefaultOrderBy
  }

  /** A whitelisted column and direction are what the query orders by. */
  lemma OrderByRequested(sort: string, order: string)
    requires sort in Sorting && order in Ordering
    ensures OrderBy(Some(sort), Some(order)) == OrderByText(Sorting[sort], Ordering[order])
  {
  }

  // The source indexes the object literals with `sorting[sort]`, which also
  // finds the members every object inherits from Object.prototype.

  const PrototypeMethods: set<string> := {
    "hasOwnProperty", "isPrototypeOf", "propertyIsEnumerable", "toLocaleString", "toString", "valueOf",
    "__defineGetter__", "__defineSetter__", "__lookupGetter__", "__lookupSetter__" }

  /**
   * The inherited member a key names, as a template string renders it:
   * `__proto__` is Object.prototype itself, `constructor` is the Object
   * function, and the rest are built-in functions.
   */
  function InheritedMember(key: string): Option<string> {
    if key == "__proto__" then Some("[object Object]")
    else if key == "constructor" then Some("function Object() { [native code] }")
    else if key in PrototypeMethods then Some("function " + key + "() { [native code] }")
    else None
  }

  /** `table[key]` on an object literal: own keys first, then Object.prototype. */
  function PropertyLookup(table: map<string, string>, key: Option<string>): Option<string> {
    if key.None? then None
    else if key.value in table then Some(table[key.value])
    else InheritedMember(key.value)
  }

  /**
   * Lines 80-85 as written: every member found is truthy and is interpolated
   * into the SQL. Whitelisted keys order as the whitelist says; an inherited
   * member name puts that member's text into the clause.
   */
  function OrderByAsWritten(sort: Option<string>, order: Option<string>): (r: string)
    ensures sort.Some? && sort.value in Sorting && order.Some? && order.value in Ordering ==>
              r == OrderByText(Sorting[sort.value], Ordering[order.value])
    ensures sort.Some? && sort.value !in Sorting && InheritedMember(sort.value).Some? &&
            order.Some? && order.value in Ordering ==>
              r == OrderByText(InheritedMember(sort.value).value, Ordering[order.value])
    ensures sort.Some? && sort.value in Sorting &&
            order.Some? && order.value !in Ordering && InheritedMember(order.value).Some? ==>
              r == OrderByText(Sorting[sort.value], InheritedMember(order.value).value)
    ensures sort.Some? && sort.value !in Sorting && InheritedMember(sort.value).Some? &&
            order.Some? && order.value !in Ordering && InheritedMember(order.value).Some? ==>
              r == OrderByText(InheritedMember(sort.value).value, InheritedMember(order.value).value)
    ensures PropertyLookup(Sorting, sort).None? || PropertyLookup(Ordering, order).None? ==> r == DefaultOrderBy
  {
    var column := PropertyLookup(Sorting, sort);
    var direction := PropertyLookup(Ordering, order);
    if column.Some? && direction.Some? then OrderByText(column.value, direction.value)
    else DefaultOrderBy
  }

  /** As written, `sort=constructor`, or `order=constructor`, puts the text of the Object function into the SQL. */
  lemma OrderByAsWrittenLeaksPrototype()
    ensures OrderByAsWritten(Some("constructor"), Some("ascending")) ==
            OrderByText("function Object() { [native code] }", "ASC")
    ensures !Whitelisted(OrderByAsWritten(Some("constructor"), Some("ascending")))
    ensures OrderBy(Some("constructor"), Some("ascending")) == DefaultOrderBy
    ensures OrderByAsWritten(Some("cost_per_night"), Some("constructor")) ==
            OrderByText("cost_per_night", "function Object() { [native code] }")
  {
    var leaked := OrderByText("function Object() { [native code] }", "ASC");
    assert leaked[10] == 'f';
    forall column, direction | column in Sorting.Values && direction in Ordering.Values
      ensures leaked != OrderByText(column, direction)
    {
      assert column[0] != 'f';
      assert OrderByText(column, direction)[10] == column[0];
    }
  }

  /** The two readings differ only on keys that name an inherited member. */
  lemma OrderByAgreesOffPrototype(sort: Option<string>, order: Option<string>)
    requires sort.None? || InheritedMember(sort.value).None?
    requires order.None? || InheritedMember(order.value).None?
    ensures OrderByAsWritten(sort, order) == OrderBy(sort, order)
  {
  }

  // ---------------------------------------------------------------------------
  // Row conversion
  // ---------------------------------------------------------------------------

  const NumericColumns: set<string> := {"cost_per_night", "price_per_night", "popularity"}

  /** `{ ...row, cost_per_night: Number(...), price_per_night: Number(...), popularity: Number(...) }`. */
  function CoerceRow(row: JsObject): (r: JsObject)
    ensures r.Keys == row.Keys + NumericColumns
    ensures forall k :: k in row && k !in NumericColumns ==> r[k] == row[k]
    ensures forall k :: k in NumericColumns ==> r[k] == JNum(NumberOf(row, k))
  {
    row["cost_per_night" := JNum(NumberOf(row, "cost_per_night"))]
       ["price_per_night" := JNum(NumberOf(row, "price_per_night"))]
       ["popularity" := JNum(NumberOf(row, "popularity"))]
  }

  function CoerceRows(rows: seq<JsObject>): seq<JsObject> {
    seq(|rows|, i requires 0 <= i < |rows| => CoerceRow(rows[i]))
  }

  /** Converting a converted row again changes nothing. */
  lemma CoerceRowIdempotent(row: JsObject)
    ensures CoerceRow(CoerceRow(row)) == CoerceRow(row)
  {
    var r := CoerceRow(row);
    assert forall k :: k in NumericColumns ==> NumberOf(r, k) == NumberOf(row, k);
  }

  /** A count the driver returns as decimal text becomes that number. */
  lemma CoerceCount(row: JsObject, n: nat)
    requires "popularity" in row && row["popularity"] == JStr(NatToString(n))
    ensures CoerceRow(row)["popularity"] == JNum(Finite(n as real))
  {
    IntToStringToNumber(n);
  }

  // ---------------------------------------------------------------------------
  // The query and its result
  // ---------------------------------------------------------------------------

  /** `SELECT * FROM property_types WHERE LOWER(property_type) = LOWER($1)` finds a row. */
  predicate TypeKnown(propertyTypes: seq<PropertyType>, t: string) {
    exists i :: 0 <= i < |propertyTypes| && EqualsIgnoringCase(propertyTypes[i].property_type, t)
  }

  const TypeNotFound: JsError := StatusError(404, "property_type not found")

  /** The query fetchAllProperties runs, or the rejection of an unknown type. */
  function ListingQuery(req: ListingRequest, propertyTypes: seq<PropertyType>): (r: Result<Query>)
    ensures r.Err? <==> Truthy(req.property_type) && !TypeKnown(propertyTypes, req.property_type.value)
    ensures r.Err? ==> r.error == TypeNotFound
  {
    if Truthy(req.property_type) && !TypeKnown(propertyTypes, req.property_type.value) then Err(TypeNotFound)
    else
      var cs := Conditions(req);
      Ok(Query(ListingSelect + WhereClause(cs) + ListingGroupBy + OrderBy(req.sort, req.order), Args(cs)))
  }

  /**
   * What fetchAllProperties resolves or rejects with: an unknown type is
   * rejected before any query runs; otherwise the query's rejection is
   * passed on, or its rows come back one for one, in order, converted.
   */
  function ListingResult(req: ListingRequest, propertyTypes: seq<PropertyType>,
                         execute: Query -> Result<seq<JsObject>>): (r: Result<seq<JsObject>>)
    ensures Truthy(req.property_type) && !TypeKnown(propertyTypes, req.property_type.value) ==> r == Err(TypeNotFound)
    ensures ListingQuery(req, propertyTypes).Ok? ==>
              var q := ListingQuery(req, propertyTypes).value;
              (r.Err? <==> execute(q).Err?) &&
              (r.Err? ==> r.error == execute(q).error) &&
              (r.Ok? ==> |r.value| == |execute(q).value| &&
                         forall i :: 0 <= i < |r.value| ==> r.value[i] == CoerceRow(execute(q).value[i]))
  {
    match ListingQuery(req, propertyTypes)
    case Err(e) => Err(e)
    case Ok(q) =>
      match execute(q)
      case Err(e) => Err(e)
      case Ok(rows) => Ok(CoerceRows(rows))
  }

  /**
   * Each filter value is bound to the placeholder of its own filter: the
   * k-th value is the argument of the condition whose text uses $k+1.
   */
  lemma ListingPlaceholders(req: ListingRequest, propertyTypes: seq<PropertyType>)
    requires ListingQuery(req, propertyTypes).Ok?
    ensures var q := ListingQuery(req, propertyTypes).value;
            var cs := Conditions(req);
            |q.values| == |cs| <= 3 &&
            (forall k :: 0 <= k < |cs| ==> q.values[k] == cs[k].arg) &&
            q.text == ListingSelect + (if cs == [] then "" else " WHERE " + Join(ConditionTexts(cs), " AND "))
                      + ListingGroupBy + OrderBy(req.sort, req.order)
  {
    var cs := Conditions(req);
    WhereClauseIsJoin(cs);
    ListingQueryBuilt(req, propertyTypes);
  }

  /**
   * The SQL text depends only on which filters are present and on sort and
   * order, never on the filter values: those travel only as parameters.
   */
  lemma ListingTextIgnoresValues(req1: ListingRequest, req2: ListingRequest, propertyTypes: seq<PropertyType>)
    requires Truthy(req1.minprice) == Truthy(req2.minprice)
    requires Truthy(req1.maxprice) == Truthy(req2.maxprice)
    requires Truthy(req1.property_type) == Truthy(req2.property_type)
    requires req1.sort == req2.sort && req1.order == req2.order
    requires ListingQuery(req1, propertyTypes).Ok? && ListingQuery(req2, propertyTypes).Ok?
    ensures ListingQuery(req1, propertyTypes).value.text == ListingQuery(req2, propertyTypes).value.text
  {
    RanksOfConditions(req1);
    RanksOfConditions(req2);
    WhereClauseIgnoresValues(Conditions(req1), Conditions(req2));
  }

  /**
   * Pushes a filter's value and appends its test with the number of the new
   * placeholder, introduced by WHERE when it is the first filter and by AND
   * otherwise.
   */
  method AppendFilter(queryString: string, queryValues: seq<string>, ghost select: string, ghost cs: seq<Condition>,
                      c: Condition)
    returns (qs: string, qv: seq<string>)
    requires queryString == select + WhereClause(cs) && queryValues == Args(cs)
    ensures qs == select + WhereClause(cs + [c]) && qv == Args(cs + [c])
  {
    qv := queryValues + [c.arg];
    if |qv| == 1 {
      AppendCondition(select, cs, c, " WHERE ", |qv|);
      qs := queryString + " WHERE " + Test(c) + NatToString(|qv|);
    } else {
      AppendCondition(select, cs, c, " AND ", |qv|);
      qs := queryString + " AND " + Test(c) + NatToString(|qv|);
    }
  }

  /**
   * The filter section of fetchAllProperties: appends the truthy filters to
   * the query text in a fixed order, and stops when the property type is
   * unknown.
   */
  method ApplyFilters(select: string, req: ListingRequest, propertyTypes: seq<PropertyType>)
    returns (known: bool, queryString: string, queryValues: seq<string>)
    ensures known <==> !(Truthy(req.property_type) && !TypeKnown(propertyTypes, req.property_type.value))
    ensures known ==> queryString == select + WhereClause(Conditions(req)) && queryValues == Args(Conditions(req))
  {
    queryValues := [];
    ghost var cs: seq<Condition> := [];
    ghost var afterMin := if Truthy(req.minprice) then [MinPrice(req.minprice.value)] else [];
    ghost var afterMax := if Truthy(req.maxprice) then afterMin + [MaxPrice(req.maxprice.value)] else afterMin;
    queryString := select;
    assert queryString == select + WhereClause(cs);

    if Truthy(req.minprice) {
      queryString, queryValues := AppendFilter(queryString, queryValues, select, cs, MinPrice(req.minprice.value));
      cs := cs + [MinPrice(req.minprice.value)];
    }
    assert cs == afterMin;
    if Truthy(req.maxprice) {
      queryString, queryValues := AppendFilter(queryString, queryValues, select, cs, MaxPrice(req.maxprice.value));
      cs := cs + [MaxPrice(req.maxprice.value)];
    }
    assert cs == afterMax;
    if Truthy(req.property_type) {
      if !TypeKnown(propertyTypes, req.property_type.value) {
        return false, queryString, queryValues;
      }
      queryString, queryValues := AppendFilter(queryString, queryValues, select, cs, TypeIs(req.property_type.value));
      cs := cs + [TypeIs(req.property_type.value)];
    }
    assert cs == Conditions(req);
    known := true;
  }

  /**
   * fetchAllProperties: pushes each truthy filter's value and appends its
   * condition, rejects an unknown property type, appends GROUP BY and
   * ORDER BY, runs the query and converts the rows.
   */
  method FetchAllProperties(req: ListingRequest, propertyTypes: seq<PropertyType>,
                            execute: Query -> Result<seq<JsObject>>)
    returns (r: Result<seq<JsObject>>)
    ensures r == ListingResult(req, propertyTypes, execute)
  {
    var known, queryString, queryValues := ApplyFilters(ListingSelect, req, propertyTypes);
    if !known {
      return Err(TypeNotFound);
    }
    queryString := queryString + ListingGroupBy;
    queryString := queryString + OrderBy(req.sort, req.order);
    ListingQueryBuilt(req, propertyTypes);
    ghost var q := Query(queryString, queryValues);
    assert ListingQuery(req, propertyTypes) == Ok(q);

    var result := execute(Query(queryString, queryValues));
    ListingResultOf(req, propertyTypes, execute, q);
    match result
    case Err(e) => r := Err(e);
    case Ok(rows) => r := Ok(CoerceRows(rows));
  }

  /** The query text and values once the type check has passed. */
  lemma ListingQueryBuilt(req: ListingRequest, propertyTypes: seq<PropertyType>)
    requires !(Truthy(req.property_type) && !TypeKnown(propertyTypes, req.property_type.value))
    ensures ListingQuery(req, propertyTypes) ==
            Ok(Query(ListingSelect + WhereClause(Conditions(req)) + ListingGroupBy + OrderBy(req.sort, req.order),
                     Args(Conditions(req))))
  {
  }

  /** Once the query is built, the result is what running it gives, with numeric columns coerced. */
  lemma ListingResultOf(req: ListingRequest, propertyTypes: seq<PropertyType>,
                        execute: Query -> Result<seq<JsObject>>, q: Query)
    requires ListingQuery(req, propertyTypes) == Ok(q)
    ensures execute(q).Err? ==> ListingResult(req, propertyTypes, execute) == Err(execute(q).error)
    ensures execute(q).Ok? ==> ListingResult(req, propertyTypes, execute) == Ok(CoerceRows(execute(q).value))
  {
  }
}
