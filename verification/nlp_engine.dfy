/**
 * The intent extractor: from a short English request and a schema description
 * it finds the target entity, an aggregation, a numeric field and a relative
 * time filter. `Parse` states the result; `ParseQuery` is the step-by-step
 * procedure (ordered loops that stop at the first hit) proved to compute it.
 */
module NlpEngine {
  import opened Wrappers
  import opened Strings
  import opened FirstMatch
  import opened TimeRegex

  /** One entity of the schema: its key, its column names and its synonyms. */
  datatype Entity = Entity(name: string, fields: seq<string>, synonyms: seq<string>)

  /** The schema's entities in their declared order (a missing entity table is the empty one). */
  type Schema = seq<Entity>

  /** The extracted intent; `filter` is a rendered SQL condition, or "" when none. */
  datatype Intent = Intent(entity: Option<string>, agg: Option<string>, field: Option<string>, filter: string)

  /** The aggregation triggers in their declared order, each with its operator. */
  const AggMap: seq<(string, string)> := [
    ("total", "SUM"),
    ("sum", "SUM"),
    ("number of", "COUNT"),
    ("count", "COUNT"),
    ("average", "AVG"),
    ("avg", "AVG"),
    ("mean", "AVG")
  ]

  /** Substrings that make a column name look numeric. */
  const NumericHints: seq<string> := ["amount", "price", "total", "value", "cost"]

  /** The time patterns, in their declared order. */
  datatype TimePattern = LastDays | LastWeeks | Yesterday

  const TimePatterns: seq<TimePattern> := [LastDays, LastWeeks, Yesterday]

  // ---------------------------------------------------------------------------
  // Entity resolution

  /** The entity's lower-cased name or one of its lower-cased synonyms occurs in `low`. */
  predicate EntityMatches(e: Entity, low: string) {
    Contains(Lower(e.name), low) ||
    exists k :: 0 <= k < |e.synonyms| && Contains(Lower(e.synonyms[k]), low)
  }

  function EntityTest(low: string): Entity -> bool {
    e => EntityMatches(e, low)
  }

  /**
   * The first entity in schema order that matches, with its original casing;
   * None exactly when no entity matches.
   */
  function ResolveEntity(schema: Schema, low: string): (r: Option<string>)
    ensures r.None? <==> forall i :: 0 <= i < |schema| ==> !EntityMatches(schema[i], low)
    ensures r.Some? ==> exists i :: IsFirst(schema, EntityTest(low), i) && r.value == schema[i].name
  {
    match FirstIndex(schema, EntityTest(low))
    case Some(i) => Some(schema[i].name)
    case None => None
  }

  // ---------------------------------------------------------------------------
  // Aggregation

  function TriggerTest(low: string): ((string, string)) -> bool {
    (kv: (string, string)) => Contains(kv.0, low)
  }

  /**
   * The operator of the first trigger, in declared order, that occurs in
   * `low`; None exactly when no trigger occurs.
   */
  function DetectAgg(low: string): (r: Option<string>)
    ensures r.None? <==> forall k :: 0 <= k < |AggMap| ==> !Contains(AggMap[k].0, low)
    ensures r.Some? ==> exists k :: IsFirst(AggMap, TriggerTest(low), k) && r.value == AggMap[k].1
  {
    match FirstIndex(AggMap, TriggerTest(low))
    case Some(k) => Some(AggMap[k].1)
    case None => None
  }

  // ---------------------------------------------------------------------------
  // Field

  /** Some numeric hint occurs in the lower-cased column name. */
  predicate LooksNumeric(f: string) {
    exists m :: 0 <= m < |NumericHints| && Contains(NumericHints[m], Lower(f))
  }

  function NumericTest(): string -> bool {
    f => LooksNumeric(f)
  }

  function NameTest(name: string): Entity -> bool {
    (e: Entity) => e.name == name
  }

  /** The qualified column name `entity.f`. */
  function Column(entity: string, f: string): string {
    entity + "." + f
  }

  /** The columns of the entity keyed `name` (none when there is no such key). */
  function FieldsOf(schema: Schema, name: string): (r: seq<string>)
    ensures (forall i :: 0 <= i < |schema| ==> schema[i].name != name) ==> r == []
    ensures (exists i :: 0 <= i < |schema| && schema[i].name == name) ==>
              exists i :: IsFirst(schema, NameTest(name), i) && r == schema[i].fields
  {
    match FirstIndex(schema, NameTest(name))
    case Some(i) => schema[i].fields
    case None => []
  }

  /**
   * The field phase: the hard-wired `orders.amount` when "amount" occurs;
   * otherwise, for a resolved entity and an aggregation other than COUNT,
   * `entity.f` for the first numeric-looking column `f` of that entity.
   */
  function PickField(schema: Schema, low: string, entity: Option<string>, agg: Option<string>): Option<string> {
    if Contains("amount", low) then Some("orders.amount")
    else if Truthy(entity) && Truthy(agg) && agg.value != "COUNT" then
      var fields := FieldsOf(schema, entity.value);
      match FirstIndex(fields, NumericTest())
      case Some(k) => Some(Column(entity.value, fields[k]))
      case None => None
    else None
  }

  // ---------------------------------------------------------------------------
  // Time filter

  /**
   * `re.search` with one time pattern: the captured digits for the two
   * `last N ...` patterns, "" for `yesterday` (which has no group), None when
   * the pattern does not occur.
   */
  function SearchPattern(t: TimePattern, low: string): Option<string> {
    match t
    case LastDays => Search(low, Days)
    case LastWeeks => Search(low, Weeks)
    case Yesterday => if Contains("yesterday", low) then Some("") else None
  }

  /** The SQL interval expression for `n` days before now. */
  function DaysAgo(n: string): string {
    "NOW() - INTERVAL '" + n + " days'"
  }

  const OneDayAgo := "NOW() - INTERVAL '1 day'"

  /** The interval each pattern renders from its captured argument. */
  function Interval(t: TimePattern, arg: string): string {
    match t
    case LastDays => DaysAgo(arg)
    case LastWeeks => DaysAgo(NatToString(DigitsValue(arg) * 7))
    case Yesterday => OneDayAgo
  }

  /** The filter condition over the creation time. */
  function Since(interval: string): string {
    "created_at >= " + interval
  }

  function PatternTest(low: string): TimePattern -> bool {
    t => SearchPattern(t, low).Some?
  }

  /** The condition rendered by the first pattern, in declared order, that occurs; "" if none. */
  function TimeFilter(low: string): string {
    match FirstIndex(TimePatterns, PatternTest(low))
    case Some(k) =>
      var t := TimePatterns[k];
      Since(Interval(t, SearchPattern(t, low).value))
    case None => ""
  }

  // ---------------------------------------------------------------------------
  // The whole extraction

  /** The lower-cased request; a missing request reads as "". */
  function LowerText(text: Option<string>): string {
    Lower(text.GetOr(""))
  }

  /** The intent extracted from `text` against `schema`. */
  function Parse(text: Option<string>, schema: Schema): Intent {
    var low := LowerText(text);
    var entity := ResolveEntity(schema, low);
    var agg := DetectAgg(low);
    Intent(entity, agg, PickField(schema, low, entity, agg), TimeFilter(low))
  }

  /** `parse_query`'s entity loop: direct name first, then the synonyms, entity by entity in schema order. */
  method FindEntity(schema: Schema, low: string) returns (targetEntity: Option<string>)
    ensures targetEntity == ResolveEntity(schema, low)
  {
    ContainsEmpty(low);
    targetEntity := None;
    var i := 0;
    while i < |schema|
      invariant 0 <= i <= |schema|
      invariant targetEntity == None
      invariant forall k :: 0 <= k < i ==> !EntityMatches(schema[k], low)
    {
      var e := schema[i];
      if Contains(Lower(e.name), low) {
        targetEntity := Some(e.name);
        break;
      }
      var j := 0;
      while j < |e.synonyms|
        invariant 0 <= j <= |e.synonyms|
        invariant targetEntity == None
        invariant forall k :: 0 <= k < j ==> !Contains(Lower(e.synonyms[k]), low)
      {
        if Contains(Lower(e.synonyms[j]), low) {
          targetEntity := Some(e.name);
          break;
        }
        j := j + 1;
      }
      // The name is not "" here (an empty name occurs in every text), so a
      // synonym hit leaves a truthy entity and the outer loop stops.
      if Truthy(targetEntity) {
        break;
      }
      i := i + 1;
    }
    if targetEntity.Some? {
      FirstIsUnique(schema, EntityTest(low), i);
    }
  }

  /** `parse_query`'s aggregation loop: the first trigger of the aggregation table, in declared order. */
  method FindAgg(low: string) returns (agg: Option<string>)
    ensures agg == DetectAgg(low)
  {
    agg := None;
    var k := 0;
    while k < |AggMap|
      invariant 0 <= k <= |AggMap|
      invariant agg == None
      invariant forall m :: 0 <= m < k ==> !Contains(AggMap[m].0, low)
    {
      if Contains(AggMap[k].0, low) {
        agg := Some(AggMap[k].1);
        break;
      }
      k := k + 1;
    }
    if agg.Some? {
      FirstIsUnique(AggMap, TriggerTest(low), k);
    }
  }

  /** `parse_query`'s field step: the "amount" shortcut, else the first numeric-looking column. */
  method FindField(schema: Schema, low: string, targetEntity: Option<string>, agg: Option<string>)
    returns (field: Option<string>)
    ensures field == PickField(schema, low, targetEntity, agg)
  {
    field := None;
    if Contains("amount", low) {
      field := Some("orders.amount");
    } else if Truthy(targetEntity) {
      if Truthy(agg) && agg.value != "COUNT" {
        var fields := FieldsOf(schema, targetEntity.value);
        var n := 0;
        while n < |fields|
          invariant 0 <= n <= |fields|
          invariant field == None
          invariant forall m :: 0 <= m < n ==> !LooksNumeric(fields[m])
        {
          if LooksNumeric(fields[n]) {
            field := Some(Column(targetEntity.value, fields[n]));
            break;
          }
          n := n + 1;
        }
        if field.Some? {
          FirstIsUnique(fields, NumericTest(), n);
        }
      }
    }
  }

  /** `parse_query`'s time-pattern loop: the first time pattern, in declared order, that occurs. */
  method FindFilter(low: string) returns (filter: string)
    ensures filter == TimeFilter(low)
  {
    filter := "";
    var t := 0;
    while t < |TimePatterns|
      invariant 0 <= t <= |TimePatterns|
      invariant filter == ""
      invariant forall m :: 0 <= m < t ==> SearchPattern(TimePatterns[m], low).None?
    {
      var found := SearchPattern(TimePatterns[t], low);
      if found.Some? {
        filter := Since(Interval(TimePatterns[t], found.value));
        break;
      }
      t := t + 1;
    }
    if filter != "" {
      FirstIsUnique(TimePatterns, PatternTest(low), t);
    }
  }

  /**
   * The extraction procedure: the four phases, in order, over the lower-cased
   * text. It has no precondition and yields an intent for every request and
   * schema; the interpreter's limit on integer-string conversion, which can
   * make `int(N)*7` raise for a week count of thousands of digits, is not
   * part of this model.
   */
  method ParseQuery(text: Option<string>, schema: Schema) returns (r: Intent)
    ensures r == Parse(text, schema)
  {
    var low := LowerText(text);
    var targetEntity := FindEntity(schema, low);
    var agg := FindAgg(low);
    var field := FindField(schema, low, targetEntity, agg);
    var filter := FindFilter(low);
    r := Intent(targetEntity, agg, field, filter);
  }
}
