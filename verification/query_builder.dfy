/**
 * The query synthesizer: turns an extracted intent into one single-table
 * `SELECT` with an optional `WHERE` and a fixed row cap, or rejects it.
 * Entity, aggregation, field and filter are interpolated verbatim.
 */
module QueryBuilder {
  import opened Wrappers
  import opened Strings
  import opened NlpEngine

  /** The two ways an intent is rejected (both are `InvalidQueryError` in the service). */
  datatype InvalidQueryError = NoTargetEntity | MissingNumericField(agg: string)

  /** The message each rejection carries. */
  function Message(e: InvalidQueryError): string {
    match e
    case NoTargetEntity => "No target entity (table) identified."
    case MissingNumericField(agg) => "Aggregation " + agg + " requires a numeric field; none detected."
  }

  /** The mandatory last clause: at most 100 rows. */
  const RowCap := " LIMIT 100"

  /** An aggregation that needs a numeric operand: present, and not COUNT in any casing. */
  predicate NeedsField(agg: Option<string>) {
    Truthy(agg) && Upper(agg.value) != "COUNT"
  }

  /** The select list of an aggregate over one column. */
  function AggSelect(agg: string, column: string): string {
    agg + "(" + column + ") AS value"
  }

  /** The select list: `*`, `COUNT(*) AS value`, `AGG(field) AS value`, or the missing-field error. */
  function SelectList(agg: Option<string>, field: Option<string>): Result<string, InvalidQueryError> {
    if Truthy(agg) then
      if Upper(agg.value) == "COUNT" then Success("COUNT(*) AS value")
      else if !Truthy(field) then Failure(MissingNumericField(agg.value))
      else Success(AggSelect(agg.value, field.value))
    else Success("*")
  }

  /** The `WHERE` clause, present only for a non-empty filter. */
  function WhereClause(filter: string): string {
    if filter != "" then " WHERE " + filter else ""
  }

  /**
   * The statement for an intent. A missing entity is rejected before
   * anything else; an aggregation other than COUNT without a field is
   * rejected and never downgraded to `*`; every statement produced starts
   * with `SELECT ` and ends with the row cap.
   */
  function BuildSql(p: Intent): (r: Result<string, InvalidQueryError>)
    ensures r == Failure(NoTargetEntity) <==> !Truthy(p.entity)
    ensures (r.Failure? && r.error.MissingNumericField?) <==>
              Truthy(p.entity) && NeedsField(p.agg) && !Truthy(p.field)
    ensures r.Failure? && r.error.MissingNumericField? ==> r.error.agg == p.agg.value
    ensures r.Success? ==> IsPrefix("SELECT ", r.value) && IsSuffix(RowCap, r.value)
  {
    if !Truthy(p.entity) then Failure(NoTargetEntity)
    else
      match SelectList(p.agg, p.field)
      case Failure(e) => Failure(e)
      case Success(select) =>
        Success("SELECT " + select + " FROM " + p.entity.value + WhereClause(p.filter) + RowCap)
  }

  /**
   * With COUNT in any casing the field is ignored: the statement is the one
   * for the upper-case "COUNT" with no field, and for a resolved entity it
   * counts the rows of that entity, followed only by the filter and the cap.
   */
  lemma CountIgnoresField(p: Intent, f: Option<string>)
    requires Truthy(p.agg) && Upper(p.agg.value) == "COUNT"
    ensures BuildSql(p) == BuildSql(p.(agg := Some("COUNT"), field := f))
    ensures BuildSql(p).Success? <==> Truthy(p.entity)
    ensures Truthy(p.entity) ==>
              BuildSql(p) == Success("SELECT COUNT(*) AS value FROM " + p.entity.value + WhereClause(p.filter) + RowCap)
  {
    assert Upper("COUNT") == "COUNT";
    if Truthy(p.entity) {
      assert "SELECT " + "COUNT(*) AS value" + " FROM " + p.entity.value
          == "SELECT COUNT(*) AS value FROM " + p.entity.value;
    }
  }

  /**
   * Without an aggregation the field is ignored, the intent is rejected only
   * for a missing entity, and the statement selects `*` from the entity,
   * followed only by the filter and the cap.
   */
  lemma NoAggregationSelectsAll(p: Intent, f: Option<string>)
    requires !Truthy(p.agg)
    ensures BuildSql(p) == BuildSql(p.(agg := None, field := f))
    ensures BuildSql(p).Success? <==> Truthy(p.entity)
    ensures Truthy(p.entity) ==>
              BuildSql(p) == Success("SELECT * FROM " + p.entity.value + WhereClause(p.filter) + RowCap)
  {
    if Truthy(p.entity) {
      assert "SELECT " + "*" + " FROM " + p.entity.value == "SELECT * FROM " + p.entity.value;
    }
  }

  /**
   * An aggregation other than COUNT with a field always succeeds for a
   * resolved entity, and selects `AGG(field) AS value` from that entity,
   * followed only by the filter and the cap.
   */
  lemma AggregateSelectsField(p: Intent)
    requires Truthy(p.entity) && NeedsField(p.agg) && Truthy(p.field)
    ensures BuildSql(p) == Success("SELECT " + AggSelect(p.agg.value, p.field.value) + " FROM " + p.entity.value
                                   + WhereClause(p.filter) + RowCap)
  {
  }

  /**
   * The filter never causes a rejection, and a non-empty filter only inserts
   * ` WHERE filter` just before the row cap of the unfiltered statement.
   */
  lemma FilterInsertsWhere(p: Intent)
    ensures BuildSql(p).Success? <==> BuildSql(p.(filter := "")).Success?
    ensures BuildSql(p).Success? && p.filter == "" ==> BuildSql(p) == BuildSql(p.(filter := ""))
    ensures BuildSql(p).Success? && p.filter != "" ==>
              var q := BuildSql(p.(filter := "")).value;
              BuildSql(p).value == q[..|q| - |RowCap|] + " WHERE " + p.filter + RowCap
  {
    if BuildSql(p).Success? && p.filter != "" {
      var q := BuildSql(p.(filter := "")).value;
      var head := "SELECT " + SelectList(p.agg, p.field).value + " FROM " + p.entity.value;
      assert q == head + RowCap;
      assert q[..|q| - |RowCap|] == head;
    }
  }

  lemma SumSelectList(p: Intent)
    requires p.agg == Some("SUM") && p.field == Some("orders.amount")
    ensures SelectList(p.agg, p.field) == Success("SUM(orders.amount) AS value")
  {
    assert Upper("SUM") != "COUNT";
    assert AggSelect("SUM", "orders.amount") == "SUM(orders.amount) AS value";
  }

  /**
   * A sum of order amounts under a filter `f` (such as the seven-day
   * condition `created_at >= NOW() - INTERVAL '7 days'`).
   */
  lemma SumOfAmountsExample(p: Intent, f: string)
    requires p == Intent(Some("orders"), Some("SUM"), Some("orders.amount"), f) && f != ""
    ensures BuildSql(p) == Success("SELECT SUM(orders.amount) AS value FROM orders" + " WHERE " + f + " LIMIT 100")
  {
    SumSelectList(p);
    assert "SELECT " + "SUM(orders.amount) AS value" + " FROM " + "orders"
        == "SELECT SUM(orders.amount) AS value FROM orders";
    var head := "SELECT SUM(orders.amount) AS value FROM orders";
    assert head + WhereClause(f) + RowCap == head + " WHERE " + f + " LIMIT 100";
  }

  /** A count of orders, with no filter. */
  lemma CountOfOrdersExample(p: Intent)
    requires p == Intent(Some("orders"), Some("COUNT"), None, "")
    ensures BuildSql(p) == Success("SELECT COUNT(*) AS value FROM orders LIMIT 100")
  {
    assert Upper("COUNT") == "COUNT";
    assert SelectList(p.agg, p.field) == Success("COUNT(*) AS value");
    assert "SELECT " + "COUNT(*) AS value" + " FROM " + "orders" + "" + RowCap
        == "SELECT COUNT(*) AS value FROM orders LIMIT 100";
  }
}
