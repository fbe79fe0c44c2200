/** What the intent extractor promises about the intent it returns. */
module NlpProperties {
  import opened Wrappers
  import opened Strings
  import opened FirstMatch
  import opened TimeRegex
  import opened NlpEngine

  /** The aggregation is always absent, SUM, COUNT or AVG. */
  lemma AggIsKnown(text: Option<string>, schema: Schema)
    ensures Parse(text, schema).agg in {None, Some("SUM"), Some("COUNT"), Some("AVG")}
  {
    assert forall k :: 0 <= k < |AggMap| ==> AggMap[k].1 in {"SUM", "COUNT", "AVG"};
  }

  /**
   * Declared order decides between triggers, not their place in the text:
   * a text with "total" is a SUM whatever else it contains ("count" included).
   */
  lemma TotalWinsOverCount(text: Option<string>, schema: Schema)
    requires Contains("total", LowerText(text))
    ensures Parse(text, schema).agg == Some("SUM")
  {
    FirstIsUnique(AggMap, TriggerTest(LowerText(text)), 0);
  }

  /** "amount" in the text forces the field `orders.amount`, whatever the entity and aggregation. */
  lemma AmountShortcut(text: Option<string>, schema: Schema)
    requires Contains("amount", LowerText(text))
    ensures Parse(text, schema).field == Some("orders.amount")
  {
  }

  /**
   * Without "amount", a field is set only for a resolved entity and a SUM or
   * AVG, and it is `entity.f` for a numeric-looking column `f` of the first
   * schema entry with that key, the first such in column order.
   */
  lemma FieldIsSchemaColumn(text: Option<string>, schema: Schema)
    requires !Contains("amount", LowerText(text))
    requires Parse(text, schema).field.Some?
    ensures var p := Parse(text, schema);
            && Truthy(p.entity) && p.agg in {Some("SUM"), Some("AVG")}
            && exists i, k :: IsFirst(schema, NameTest(p.entity.value), i) &&
                              IsFirst(schema[i].fields, NumericTest(), k) &&
                              p.field.value == Column(p.entity.value, schema[i].fields[k])
  {
    AggIsKnown(text, schema);
    var p := Parse(text, schema);
    var fields := FieldsOf(schema, p.entity.value);
    var i := FirstIndex(schema, NameTest(p.entity.value)).value;
    var k := FirstIndex(fields, NumericTest()).value;
    assert fields == schema[i].fields;
    assert IsFirst(schema[i].fields, NumericTest(), k);
  }

  /** A resolved entity is one of the schema's keys. */
  lemma EntityIsKey(text: Option<string>, schema: Schema)
    requires Parse(text, schema).entity.Some?
    ensures exists i :: 0 <= i < |schema| && schema[i].name == Parse(text, schema).entity.value
  {
  }

  /**
   * Every field the extractor sets is the fixed `orders.amount` or
   * `entity.f` for a column `f` that the resolved entity's key has in the schema.
   */
  lemma FieldShape(text: Option<string>, schema: Schema)
    ensures var p := Parse(text, schema);
            || p.field == None
            || p.field == Some("orders.amount")
            || (p.entity.Some? &&
                exists i, k :: 0 <= i < |schema| && 0 <= k < |schema[i].fields| &&
                               schema[i].name == p.entity.value &&
                               p.field == Some(Column(p.entity.value, schema[i].fields[k])))
  {
    var p := Parse(text, schema);
    if !Contains("amount", LowerText(text)) && p.field.Some? {
      FieldIsSchemaColumn(text, schema);
    }
  }

  /**
   * Without "amount", for a resolved entity and an aggregation other than
   * COUNT, a field is found exactly when some column of that entity looks
   * numeric.
   */
  lemma FieldFoundWhenNumericColumn(text: Option<string>, schema: Schema)
    requires !Contains("amount", LowerText(text))
    requires var p := Parse(text, schema); Truthy(p.entity) && Truthy(p.agg) && p.agg.value != "COUNT"
    ensures var p := Parse(text, schema);
            p.field.Some? <==> exists k :: 0 <= k < |FieldsOf(schema, p.entity.value)| &&
                                           LooksNumeric(FieldsOf(schema, p.entity.value)[k])
  {
  }

  /** COUNT or no aggregation never carries a field unless "amount" forces one. */
  lemma NoFieldWithoutSumOrAvg(text: Option<string>, schema: Schema)
    requires !Contains("amount", LowerText(text))
    requires Parse(text, schema).agg in {None, Some("COUNT")}
    ensures Parse(text, schema).field == None
  {
  }

  /** Once pattern `k` is the first that occurs, the filter is rendered from its capture. */
  lemma FilterFromFirstPattern(low: string, k: nat)
    requires IsFirst(TimePatterns, PatternTest(low), k)
    ensures TimeFilter(low) == Since(Interval(TimePatterns[k], SearchPattern(TimePatterns[k], low).value))
  {
    FirstIsUnique(TimePatterns, PatternTest(low), k);
  }

  /**
   * The time filter follows the declared order of the patterns: a
   * `last N days` anywhere wins, then `last N weeks` (as 7N days), then
   * `yesterday` (one day); otherwise there is no filter.
   */
  lemma TimeFilterPrecedence(low: string)
    ensures Search(low, Days).Some? ==> TimeFilter(low) == Since(DaysAgo(Search(low, Days).value))
    ensures Search(low, Days).None? && Search(low, Weeks).Some? ==>
              TimeFilter(low) == Since(DaysAgo(NatToString(DigitsValue(Search(low, Weeks).value) * 7)))
    ensures Search(low, Days).None? && Search(low, Weeks).None? && Contains("yesterday", low) ==>
              TimeFilter(low) == Since(OneDayAgo)
    ensures Search(low, Days).None? && Search(low, Weeks).None? && !Contains("yesterday", low) ==>
              TimeFilter(low) == ""
  {
    var test := PatternTest(low);
    if Search(low, Days).Some? {
      assert test(TimePatterns[0]);
      FilterFromFirstPattern(low, 0);
    } else if Search(low, Weeks).Some? {
      assert !test(TimePatterns[0]) && test(TimePatterns[1]);
      FilterFromFirstPattern(low, 1);
    } else if Contains("yesterday", low) {
      assert !test(TimePatterns[0]) && !test(TimePatterns[1]) && test(TimePatterns[2]);
      FilterFromFirstPattern(low, 2);
    } else {
      assert !test(TimePatterns[0]) && !test(TimePatterns[1]) && !test(TimePatterns[2]);
    }
  }

  /**
   * The only text that reaches the filter is a run of digits: the filter is
   * empty, one day, or a whole number of days written in digits.
   */
  lemma FilterIsDigitsOnly(low: string)
    ensures || TimeFilter(low) == ""
            || TimeFilter(low) == Since(OneDayAgo)
            || exists n :: |n| > 0 && AllDigits(n) && TimeFilter(low) == Since(DaysAgo(n))
  {
    TimeFilterPrecedence(low);
    if Search(low, Days).Some? {
      SearchCapturesDigits(low, Days);
    } else if Search(low, Weeks).Some? {
      var n := NatToString(DigitsValue(Search(low, Weeks).value) * 7);
      assert TimeFilter(low) == Since(DaysAgo(n));
    }
  }

  /** A `last N days` match ends with the word "days" at `c`. */
  lemma DaysMatchHasD(s: string, p: int, a: int, b: int, c: int)
    requires SplitAt(s, p, a, b, c, Days)
    ensures c < |s| && s[c] == 'd'
  {
    assert s[c..c + 4][0] == s[c];
  }

  /** A text without the letter 'd' has no `last N days` match. */
  lemma NoDaysWithoutD(s: string)
    requires forall i :: 0 <= i < |s| ==> s[i] != 'd'
    ensures Search(s, Days).None?
  {
    forall p | 0 <= p <= |s| ensures !MatchesAt(s, p, Days) {
      forall a, b, c | SplitAt(s, p, a, b, c, Days) ensures c < |s| && s[c] == 'd' {
        DaysMatchHasD(s, p, a, b, c);
      }
    }
    SearchNone(s, Days);
  }

  /** In "last 2 weeks" the weeks expression matches at the start and captures "2". */
  lemma TwoWeeksCapture(s: string)
    requires s == "last 2 weeks"
    ensures Search(s, Weeks) == Some("2")
  {
    assert SplitAt(s, 0, 5, 6, 7, Weeks) by {
      assert s[0..4] == "last" && s[4..5] == " " && s[5..6] == "2" && s[6..7] == " ";
      assert s[7..12] == "weeks";
    }
    MatchAtComplete(s, 0, Weeks, 5, 6, 7);
    assert s[5..6] == "2";
  }

  /** "last 2 weeks" has no `last N days` match. */
  lemma TwoWeeksHasNoDays(s: string)
    requires s == "last 2 weeks"
    ensures Search(s, Days).None?
  {
    assert forall i :: 0 <= i < |s| ==> s[i] != 'd';
    NoDaysWithoutD(s);
  }

  /** The request "last 2 weeks" filters on fourteen days, not two. */
  lemma TwoWeeksIsFourteenDays(s: string)
    requires s == "last 2 weeks"
    ensures TimeFilter(s) == Since(DaysAgo("14"))
  {
    var n := NatToString(DigitsValue("2") * 7);
    assert n == "14";
    assert TimeFilter(s) == Since(DaysAgo(n)) by {
      TwoWeeksHasNoDays(s);
      TwoWeeksCapture(s);
      TimeFilterPrecedence(s);
    }
  }

  /** Only the lower-cased text matters: lower-casing the request first changes nothing. */
  lemma LowerCaseInvariant(text: string, schema: Schema)
    ensures Parse(Some(text), schema) == Parse(Some(Lower(text)), schema)
  {
    LowerIdempotent(text);
  }
}
