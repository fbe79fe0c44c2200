/**
 * The request pipeline chains the extractor into the synthesizer
 * (`build_sql(parse_query(text, schema))`). These lemmas state what the
 * chain as a whole guarantees: when it rejects, and that a statement it
 * produces names only schema identifiers, fixed keywords and digits.
 */
module Pipeline {
  import opened Wrappers
  import opened Strings
  import opened NlpEngine
  import opened NlpProperties
  import opened QueryBuilder

  /** The statement for a request. */
  function Translate(text: Option<string>, schema: Schema): Result<string, InvalidQueryError> {
    BuildSql(Parse(text, schema))
  }

  /** The operators the extractor produces are their own upper-case forms. */
  lemma OperatorsUpper()
    ensures Upper("SUM") == "SUM" && Upper("AVG") == "AVG" && Upper("COUNT") == "COUNT"
  {
  }

  /** Facts about a parsed intent that the synthesizer's behaviour depends on. */
  lemma ParsedShape(text: Option<string>, schema: Schema)
    ensures var p := Parse(text, schema);
            && p.agg in {None, Some("SUM"), Some("COUNT"), Some("AVG")}
            && (p.field.Some? ==> p.field.value != "")
  {
    AggIsKnown(text, schema);
    FieldShape(text, schema);
  }

  /** What the synthesizer rejects, for an intent shaped like a parsed one. */
  lemma RejectsParsedShape(p: Intent)
    requires p.agg in {None, Some("SUM"), Some("COUNT"), Some("AVG")}
    requires p.field.Some? ==> p.field.value != ""
    ensures (BuildSql(p).Failure? && BuildSql(p).error.MissingNumericField?) <==>
              Truthy(p.entity) && p.agg in {Some("SUM"), Some("AVG")} && p.field == None
  {
    OperatorsUpper();
  }

  /**
   * A request is rejected for a missing entity exactly when no entity
   * resolves to a non-empty name, and for a missing field exactly when a
   * resolved request asks for SUM or AVG and no field was found; a request
   * mentioning "amount" is never rejected for a missing field.
   */
  lemma TranslateRejects(text: Option<string>, schema: Schema)
    ensures var p := Parse(text, schema);
            Translate(text, schema) == Failure(NoTargetEntity) <==> !Truthy(p.entity)
    ensures var p := Parse(text, schema);
            (Translate(text, schema).Failure? && Translate(text, schema).error.MissingNumericField?) <==>
              Truthy(p.entity) && p.agg in {Some("SUM"), Some("AVG")} && p.field == None
    ensures Contains("amount", LowerText(text)) ==>
              !(Translate(text, schema).Failure? && Translate(text, schema).error.MissingNumericField?)
  {
    ParsedShape(text, schema);
    RejectsParsedShape(Parse(text, schema));
    if Contains("amount", LowerText(text)) {
      AmountShortcut(text, schema);
    }
  }

  /** The select lists a request can produce over entity `e`. */
  ghost predicate SafeSelect(sel: string, e: Entity) {
    || sel == "*"
    || sel == "COUNT(*) AS value"
    || sel == AggSelect("SUM", "orders.amount")
    || sel == AggSelect("AVG", "orders.amount")
    || exists k :: 0 <= k < |e.fields| &&
                   (sel == AggSelect("SUM", Column(e.name, e.fields[k])) ||
                    sel == AggSelect("AVG", Column(e.name, e.fields[k])))
  }

  /** The `WHERE` clauses a request can produce: none, one day, or a digit count of days. */
  ghost predicate SafeWhere(w: string) {
    || w == ""
    || w == " WHERE " + Since(OneDayAgo)
    || exists n :: |n| > 0 && AllDigits(n) && w == " WHERE " + Since(DaysAgo(n))
  }

  lemma WhereIsSafe(low: string)
    ensures SafeWhere(WhereClause(TimeFilter(low)))
  {
    FilterIsDigitsOnly(low);
    if TimeFilter(low) != "" && TimeFilter(low) != Since(OneDayAgo) {
      var n :| |n| > 0 && AllDigits(n) && TimeFilter(low) == Since(DaysAgo(n));
      assert WhereClause(TimeFilter(low)) == " WHERE " + Since(DaysAgo(n));
    }
  }

  /** The select list of an intent shaped like a parsed one is a safe one. */
  lemma SelectIsSafeFor(p: Intent, schema: Schema, i: int)
    requires 0 <= i < |schema| && Truthy(p.entity) && schema[i].name == p.entity.value
    requires p.agg in {None, Some("SUM"), Some("COUNT"), Some("AVG")}
    requires || p.field == None
             || p.field == Some("orders.amount")
             || exists k :: 0 <= k < |schema[i].fields| && p.field == Some(Column(p.entity.value, schema[i].fields[k]))
    requires SelectList(p.agg, p.field).Success?
    ensures SafeSelect(SelectList(p.agg, p.field).value, schema[i])
  {
    OperatorsUpper();
  }

  lemma SelectIsSafe(text: Option<string>, schema: Schema)
    requires var p := Parse(text, schema); Truthy(p.entity) && SelectList(p.agg, p.field).Success?
    ensures var p := Parse(text, schema);
            exists i :: 0 <= i < |schema| && schema[i].name == p.entity.value &&
                        SafeSelect(SelectList(p.agg, p.field).value, schema[i])
  {
    var p := Parse(text, schema);
    ParsedShape(text, schema);
    FieldShape(text, schema);
    EntityIsKey(text, schema);
    if p.field == None || p.field == Some("orders.amount") {
      var i :| 0 <= i < |schema| && schema[i].name == p.entity.value;
      SelectIsSafeFor(p, schema, i);
    } else {
      var i, k :| 0 <= i < |schema| && 0 <= k < |schema[i].fields| &&
                  schema[i].name == p.entity.value &&
                  p.field == Some(Column(p.entity.value, schema[i].fields[k]));
      SelectIsSafeFor(p, schema, i);
    }
  }

  /**
   * The safety boundary: every statement the pipeline produces is
   * `SELECT <sel> FROM <entity> <where> LIMIT 100` where the entity is a key
   * of the schema, the select list is `*`, `COUNT(*)` or SUM/AVG of a column
   * of that entity (or the fixed `orders.amount`), and the only text taken
   * from the request is a run of digits inside the `WHERE` clause.
   */
  lemma TranslateUsesSchemaOnly(text: Option<string>, schema: Schema)
    requires Translate(text, schema).Success?
    ensures exists i, sel, w :: 0 <= i < |schema| && SafeSelect(sel, schema[i]) && SafeWhere(w) &&
                                Translate(text, schema).value == "SELECT " + sel + " FROM " + schema[i].name + w + RowCap
  {
    var p := Parse(text, schema);
    SelectIsSafe(text, schema);
    WhereIsSafe(LowerText(text));
    var i :| 0 <= i < |schema| && schema[i].name == p.entity.value &&
             SafeSelect(SelectList(p.agg, p.field).value, schema[i]);
    var sel, w := SelectList(p.agg, p.field).value, WhereClause(p.filter);
    assert Translate(text, schema).value == "SELECT " + sel + " FROM " + schema[i].name + w + RowCap;
  }
}
