# DataSense natural-language-to-SQL core, modelled in Dafny

This project models the translation core of DataSense. The core turns a short English request and a schema description into one bounded SQL `SELECT`. It has two stateless stages:

- **Intent extraction** (`parse_query`). It works on the lower-cased request and finds four things:
  - the target entity: the first entity, in schema order, whose name or one of whose synonyms occurs in the text;
  - an aggregation: the first trigger of the ordered aggregation table (`total`, `sum` → SUM, `number of`, `count` → COUNT, `average`, `avg`, `mean` → AVG);
  - a numeric field: the hard-wired `orders.amount` when the text says "amount"; otherwise, for SUM or AVG, the first column of the entity whose name contains `amount`, `price`, `total`, `value` or `cost`;
  - a relative time filter: `last N days`, `last N weeks` or `yesterday`, tried in that order and rendered as `created_at >= NOW() - INTERVAL '…'`.
- **SQL synthesis** (`build_sql`). It rejects an intent with no entity. It also rejects SUM or AVG without a field. Otherwise it emits `SELECT <select> FROM <entity> [WHERE <filter>] LIMIT 100`. It interpolates every part verbatim.

Layout:

| file | module | role |
|---|---|---|
| wrappers.dfy | `Wrappers` | `Option`, `Result` |
| strings.dfy | `Strings` | the Python string built-ins used, over ASCII: `lower`, `upper`, `in`, `\d`, `\s`, `int(s)`, `str(n)`, truthiness of an optional string |
| first_match.dfy | `FirstMatch` | ordered first-match dispatch: the shape of each `for … break` search |
| time_regex.dfy | `TimeRegex` | `last\s+(\d+)\s+(days\|weeks)` and `re.search` with it |
| nlp_engine.dfy | `NlpEngine` | the schema, the intent and the tables. `Parse` is the reference definition; `ParseQuery` and its four phase methods are the loop-by-loop procedure, each proved equal to it |
| nlp_properties.dfy | `NlpProperties` | what the extractor promises about its result |
| query_builder.dfy | `QueryBuilder` | `build_sql` and its two rejections |
| pipeline.dfy | `Pipeline` | `build_sql(parse_query(text, schema))` as one request |

Modelling decisions:

- **Schema.** The schema is the ordered sequence of its entities. Python dict order decides which entity wins, so the order is kept. A schema without an `entities` table is the empty sequence. A missing `synonyms` or `fields` list is the empty sequence.
- **Missing request.** A missing request text is `None`. It reads as `""`.
- **Truthiness.** Python truthiness of an optional string is `Truthy`: present and non-empty. It is used wherever the source tests `if target_entity`, `if agg`, `not table` or `not field`.
- **Empty entity name.** An empty entity name occurs in every text. So the fall-through after a synonym hit at app/nlp_engine.py:36 can never meet a falsy entity. `FindEntity` proves this instead of assuming it.
- **Regular expressions.** The two `last …` expressions are matched by a greedy hand-written matcher. `\s` and `\d` are disjoint classes, so a match never needs to backtrack. `RegexMatch` states the language of the expression independently as a split of the text, and the matcher is proved equal to it.
- **The `re.search` argument.** `SearchPattern` returns the captured digits for the two `last N …` patterns. It returns `""` for `yesterday`, which has no group; this mirrors `m.group(1) if m.groups() else ""`.
- **The model follows the code as written:**
  - For `last N days` the digits are copied verbatim, so `last 007 days` gives `'007 days'`. They are not parsed as an integer; only the weeks pattern goes through `int(N)*7`.
  - The aggregation is kept as a string. `build_sql` compares `agg.upper()` with `"COUNT"` and writes `agg` in its original casing.
  - The error is one exception type, `InvalidQueryError`, with two messages. It is modelled as two constructors, `NoTargetEntity` and `MissingNumericField(agg)`, and `Message` gives each one's text.

## Model

| member | source | states |
|---|---|---|
| `Strings.NatToStringRoundTrip` | app/nlp_engine.py:15 | `int(str(n)) == n`: the decimal rendering of the week count multiplied by 7 reads back as that number |
| `Strings.Lower` | app/nlp_engine.py:21 | `str.lower()` over ASCII: same length, no upper-case letter left, each capital replaced by its small letter, every other character unchanged |
| `Strings.Upper` | app/query_builder.py:15 | `str.upper()` over ASCII: same length, no lower-case letter left, each small letter replaced by its capital, every other character unchanged |
| `Strings.Contains` | app/nlp_engine.py:27 | Python's `needle in hay` on strings: some position of `hay` starts with `needle` (the empty needle occurs everywhere, by `ContainsEmpty`) |
| `Strings.DigitsValue` | app/nlp_engine.py:15 | `int(n)` on the captured digit string: its decimal value (stated by `NatToStringRoundTrip`) |
| `Strings.NatToString` | app/nlp_engine.py:15 | `str()` of `int(n)*7` in the f-string: a non-empty digit string with no leading zero, and exactly `0` for zero |
| `Strings.Truthy` | app/query_builder.py:9-20 | Python's truth value of an optional string, as in `if not table`, `if agg` and `if not field` (and `if target_entity` at app/nlp_engine.py:36 and :50): present and non-empty; definition |
| `Strings.IsDigit` | app/nlp_engine.py:14-15 | the regular-expression class `\d` over ASCII: '0'..'9'; definition |
| `Strings.IsSpace` | app/nlp_engine.py:14-15 | the regular-expression class `\s` over ASCII: space, tab, line feed, vertical tab, form feed, carriage return and the separators 0x1C-0x1F; definition |
| `Strings.LowerIdempotent` | app/nlp_engine.py:21 | lower-casing an already lower-cased text changes nothing |
| `FirstMatch.FirstIndex` | app/nlp_engine.py:41-44 | the ordered search with `break`: it returns the least position whose entry passes the test, or none exactly when no entry passes |
| `TimeRegex.RunEnd` | app/nlp_engine.py:14-15 | the greedy `\s+` / `\d+` run: every character up to the returned end is in the class, and the character at the end is not |
| `TimeRegex.MatchAtSound` | app/nlp_engine.py:14-15 | where the matcher succeeds at a position, the text there is `last`, whitespace, digits, whitespace, then the unit word, and the capture is those digits |
| `TimeRegex.MatchAtComplete` | app/nlp_engine.py:14-15 | every way the expression can match at a position is found by the matcher, with the same captured digits |
| `TimeRegex.MatchAtIsRegexMatch` | app/nlp_engine.py:14-15 | the matcher succeeds at a position exactly when the expression matches there, and its capture is the unique group text |
| `TimeRegex.SearchNone` | app/nlp_engine.py:63-64 | `re.search` finds nothing exactly when the expression matches at no position of the text |
| `TimeRegex.MatchAt` | app/nlp_engine.py:14-15 | the matcher for one start position (no contract of its own; `MatchAtIsRegexMatch` states what it computes) |
| `TimeRegex.SearchFrom` | app/nlp_engine.py:63 | `re.search`'s left-to-right scan over start positions (no contract of its own; the two lemmas below state it) |
| `TimeRegex.SearchFromNone` | app/nlp_engine.py:63 | the scan from a position finds nothing exactly when the matcher fails at every position from there to the end |
| `TimeRegex.SearchFromFirst` | app/nlp_engine.py:63 | the scan from a position returns a capture exactly when the matcher captures it at some position from there on and fails at every position before it |
| `TimeRegex.Search` | app/nlp_engine.py:63 | `re.search(pattern, text_low)`: the scan from position 0 (stated by `SearchNone` and `SearchIsLeftmost`) |
| `TimeRegex.SearchIsLeftmost` | app/nlp_engine.py:63-65 | `re.search` returns the group of the match at the least start position, and nothing else |
| `TimeRegex.SearchCapturesDigits` | app/nlp_engine.py:65 | the captured group is a non-empty run of ASCII digits |
| `NlpEngine.AggMap` | app/nlp_engine.py:3-11 | AGG_MAP: definition; triggers, operators and their order as in the source |
| `NlpEngine.NumericHints` | app/nlp_engine.py:56 | the numeric-looking hints: definition; contents and order as in the source |
| `NlpEngine.TimePatterns` | app/nlp_engine.py:13-17 | TIME_PATTERNS: definition; the three patterns in the source's order (days, weeks, yesterday) |
| `NlpEngine.ResolveEntity` | app/nlp_engine.py:24-37 | the entity is the first in schema order whose lower-cased name or some lower-cased synonym occurs in the lower-cased text; it keeps its original casing; it is absent exactly when no entity matches |
| `NlpEngine.DetectAgg` | app/nlp_engine.py:40-44 | the aggregation is the operator of the first trigger, in declared table order, that occurs in the text; it is absent exactly when none occurs |
| `NlpEngine.EntityMatches` | app/nlp_engine.py:27-33 | the entity test: the lower-cased name occurs in the text, or some lower-cased synonym does (stated by `ResolveEntity` and `FindEntity`) |
| `NlpEngine.LooksNumeric` | app/nlp_engine.py:56 | the `any(...)` test: some numeric hint (`amount`, `price`, `total`, `value`, `cost`) occurs in the lower-cased column name (stated by `FieldFoundWhenNumericColumn` and `FieldIsSchemaColumn`) |
| `NlpEngine.Column` | app/nlp_engine.py:57 | the qualified column `f"{target_entity}.{f}"`; definition |
| `NlpEngine.FieldsOf` | app/nlp_engine.py:53 | `schema["entities"].get(e, {}).get("fields", [])`: no columns when no entity has the key; otherwise exactly the columns of the first entity with that key |
| `NlpEngine.FindEntity` | app/nlp_engine.py:24-37 | the nested name/synonym loops with their breaks and the truthiness check compute exactly `ResolveEntity` |
| `NlpEngine.FindAgg` | app/nlp_engine.py:40-44 | the loop over the aggregation table computes exactly `DetectAgg` |
| `NlpEngine.FindField` | app/nlp_engine.py:47-58 | the "amount" shortcut and the loop over the entity's columns compute exactly `PickField` |
| `NlpEngine.FindFilter` | app/nlp_engine.py:61-67 | the loop over the time patterns computes exactly `TimeFilter` |
| `NlpEngine.PickField` | app/nlp_engine.py:47-58 | the field phase as a definition (stated by `FieldIsSchemaColumn`, `FieldShape`, `FieldFoundWhenNumericColumn`, `NoFieldWithoutSumOrAvg`, `AmountShortcut`) |
| `NlpEngine.SearchPattern` | app/nlp_engine.py:63-65 | `re.search(pattern, text_low)` with `m.group(1) if m.groups() else ""`: the captured digits for the two `last N …` patterns, `""` for `yesterday`, none when the pattern does not occur (stated by `TimeFilterPrecedence` and `FilterFromFirstPattern`) |
| `NlpEngine.DaysAgo` | app/nlp_engine.py:14-15 | `NOW() - INTERVAL 'n days'`; definition, text as in the source |
| `NlpEngine.OneDayAgo` | app/nlp_engine.py:16 | `NOW() - INTERVAL '1 day'`; definition, text as in the source |
| `NlpEngine.Since` | app/nlp_engine.py:66 | `created_at >= <interval>`; definition, text as in the source |
| `NlpEngine.Interval` | app/nlp_engine.py:14-16 | the interval each time pattern renders from its capture: `N days` verbatim, `int(N)*7 days`, or `1 day` |
| `NlpEngine.TimeFilter` | app/nlp_engine.py:61-67 | the time-filter phase as a definition (stated by `TimeFilterPrecedence`, `FilterFromFirstPattern`, `FilterIsDigitsOnly`) |
| `NlpEngine.LowerText` | app/nlp_engine.py:21 | `(text or "").lower()`: a missing request reads as the empty text (stated by `LowerCaseInvariant` and `Strings.Lower`) |
| `NlpEngine.Parse` | app/nlp_engine.py:20-74 | the whole extraction as a definition: the four phases over the lower-cased request (stated by the `NlpProperties` lemmas) |
| `NlpEngine.ParseQuery` | app/nlp_engine.py:20-74 | for every request (a missing one included) and every schema, with no precondition, the procedure returns the intent `Parse` defines |
| `NlpProperties.AggIsKnown` | app/nlp_engine.py:3-11 | the aggregation is always absent, SUM, COUNT or AVG |
| `NlpProperties.TotalWinsOverCount` | app/nlp_engine.py:40-44 | a text containing "total" yields SUM whatever else it contains, "count" included |
| `NlpProperties.AmountShortcut` | app/nlp_engine.py:47-49 | "amount" in the text forces the field `orders.amount` whatever the entity and aggregation |
| `NlpProperties.EntityIsKey` | app/nlp_engine.py:28-34 | a resolved entity is one of the schema's keys |
| `NlpProperties.FieldIsSchemaColumn` | app/nlp_engine.py:50-58 | without "amount", a field is set only for a resolved entity and SUM or AVG; it is `entity.f`, where `f` is the first column, in column order, that looks numeric, of the first schema entry with that key |
| `NlpProperties.FieldShape` | app/nlp_engine.py:47-58 | every field is absent, `orders.amount`, or `entity.f` for a column `f` of the resolved entity's key |
| `NlpProperties.FieldFoundWhenNumericColumn` | app/nlp_engine.py:52-58 | without "amount", for a resolved entity and an aggregation other than COUNT, a field is found exactly when some column of the entity contains one of the numeric hints (case-insensitively) |
| `NlpProperties.NoFieldWithoutSumOrAvg` | app/nlp_engine.py:50-52 | without "amount", COUNT or no aggregation leaves the field absent |
| `NlpProperties.FilterFromFirstPattern` | app/nlp_engine.py:62-67 | once a pattern is the first in declared order that occurs, the filter is `created_at >= ` followed by that pattern's interval for its capture |
| `NlpProperties.TimeFilterPrecedence` | app/nlp_engine.py:13-17 | `last N days` anywhere gives `N days` with N verbatim; otherwise `last N weeks` gives `int(N)*7 days`; otherwise `yesterday` gives `1 day`; otherwise the filter is empty |
| `NlpProperties.FilterIsDigitsOnly` | app/nlp_engine.py:61-67 | the filter is empty, one day, or `created_at >= NOW() - INTERVAL 'n days'` for a non-empty digit string n |
| `NlpProperties.TwoWeeksHasNoDays` | app/nlp_engine.py:14 | the request "last 2 weeks" has no match for the days expression |
| `NlpProperties.TwoWeeksCapture` | app/nlp_engine.py:15 | in "last 2 weeks" the weeks expression matches and captures "2" |
| `NlpProperties.TwoWeeksIsFourteenDays` | app/nlp_engine.py:13-17 | "last 2 weeks" filters on `'14 days'`, not two |
| `NlpProperties.LowerCaseInvariant` | app/nlp_engine.py:21 | the intent depends on the text only through its lower-cased form |
| `QueryBuilder.Message` | app/query_builder.py:10-22 | the two `InvalidQueryError` texts: `No target entity (table) identified.` and `Aggregation <agg> requires a numeric field; none detected.` |
| `QueryBuilder.NeedsField` | app/query_builder.py:13-17 | an aggregation that needs a numeric field: present and not COUNT in any casing; definition |
| `QueryBuilder.AggSelect` | app/query_builder.py:23 | `f"{agg}({field}) AS value"`; definition, text as in the source |
| `QueryBuilder.RowCap` | app/query_builder.py:31 | the ` LIMIT 100` row cap; definition, text as in the source |
| `QueryBuilder.SelectList` | app/query_builder.py:13-25 | the select list as a definition: `*`, `COUNT(*) AS value`, `AGG(field) AS value`, or the missing-field error (stated by the three case lemmas below) |
| `QueryBuilder.WhereClause` | app/query_builder.py:29-30 | the `WHERE` clause as a definition, present only for a non-empty filter (stated by `FilterInsertsWhere`) |
| `QueryBuilder.BuildSql` | app/query_builder.py:4-32 | rejects with no-entity exactly when the entity is missing or empty; rejects with missing-field (carrying the aggregation) exactly for a resolved entity with a present non-COUNT aggregation and no field; every statement starts with `SELECT ` and ends with ` LIMIT 100` |
| `QueryBuilder.CountIgnoresField` | app/query_builder.py:15-16 | with COUNT in any casing, the field is ignored; only a missing entity rejects; and the statement is exactly `SELECT COUNT(*) AS value FROM <entity>`, then the `WHERE` clause of the filter, then ` LIMIT 100` |
| `QueryBuilder.NoAggregationSelectsAll` | app/query_builder.py:24-25 | with no aggregation, the field is ignored; only a missing entity rejects; and the statement is exactly `SELECT * FROM <entity>`, then the `WHERE` clause of the filter, then ` LIMIT 100` |
| `QueryBuilder.AggregateSelectsField` | app/query_builder.py:17-23 | a non-COUNT aggregation with a field never rejects for a resolved entity, and the statement is exactly `SELECT AGG(field) AS value FROM <entity>`, then the `WHERE` clause of the filter, then ` LIMIT 100` |
| `QueryBuilder.FilterInsertsWhere` | app/query_builder.py:28-32 | the filter never causes a rejection; an empty filter changes nothing; a non-empty one inserts exactly ` WHERE <filter>` before the row cap |
| `QueryBuilder.SumSelectList` | app/query_builder.py:23 | SUM over `orders.amount` selects `SUM(orders.amount) AS value` |
| `QueryBuilder.SumOfAmountsExample` | app/query_builder.py:13-32 | SUM of `orders.amount` over orders with a filter gives `SELECT SUM(orders.amount) AS value FROM orders WHERE <filter> LIMIT 100` |
| `QueryBuilder.CountOfOrdersExample` | app/query_builder.py:13-32 | COUNT over orders with no filter gives exactly `SELECT COUNT(*) AS value FROM orders LIMIT 100` |
| `Pipeline.Translate` | app/server.py:64-68 | one request end to end, `build_sql(parse_query(text, schema))` (stated by `TranslateRejects` and `TranslateUsesSchemaOnly`) |
| `Pipeline.RejectsParsedShape` | app/query_builder.py:17-22 | for an intent with a known operator and a non-empty field when present, a missing-field rejection happens exactly for a resolved entity with SUM or AVG and no field |
| `Pipeline.TranslateRejects` | app/server.py:64-68 | a request is rejected for no entity exactly when none resolves to a non-empty name; it is rejected for a missing field exactly when SUM or AVG found no field; "amount" rules out the second rejection |
| `Pipeline.SelectIsSafe` | app/server.py:64-68 | the select list of a produced statement is `*`, `COUNT(*) AS value`, or SUM/AVG of `orders.amount` or of a column of the entity's key |
| `Pipeline.WhereIsSafe` | app/nlp_engine.py:61-67 | the `WHERE` clause built from any filter is absent, one day, or a digit count of days |
| `Pipeline.TranslateUsesSchemaOnly` | app/server.py:64-68 | every produced statement is `SELECT <sel> FROM <schema key> <where> LIMIT 100` with a safe select list and where clause: the request contributes only digits |

## Left out

- Unicode: `str.lower()`, `str.upper()`, `\s` and `\d` are modelled over ASCII only. Non-ASCII characters are left unchanged and are neither whitespace nor digits. Python's full Unicode tables are not modelled; this includes case mappings that change a string's length.
- Dynamic typing: schema values that are not dicts or lists of strings (which Python would reject or mishandle at run time) cannot be expressed in the model's types.
- The schema's outer JSON object: its `entities` key is represented directly by the entity sequence. Duplicate entity keys cannot occur in a Python dict. The model allows them, and `FieldsOf` then uses the first entry with the key, as a lookup would.
- The `InvalidQueryError` exception class and the HTTP 400 shaping in app/server.py: these become the `Failure` case of `Result`. `Message` gives the texts.
- General regular expressions: only the three fixed patterns of the time table are modelled.
- No lemma states that a statement is free of JOIN, GROUP BY or ORDER BY: entity names are interpolated verbatim and may contain any text. `TranslateUsesSchemaOnly` states what does hold: only schema keys, schema columns, fixed keywords and digits reach the statement.
- NlpEngine.ParseQuery: does not model CPython's limit on integer-string conversion (4300 digits by default since 3.11 and in the security releases of 3.7-3.10, adjustable at run time). Under that limit, `int(N)` raises ValueError out of `parse_query` for a `last N weeks` count of more than 4300 digits, and so does the rendering of `int(N)*7` when it has more than 4300 digits. The model returns a filter for every request. The limit is an interpreter setting, not part of the source.
- app/db.py (`run_sql`, engine creation), app/connections.py (connection persistence), app/schema_manager.py (schema storage, introspection, process-wide registries) and the routing in app/server.py: database I/O and library calls, outside this core.
