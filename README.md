# go-redisearch command builders in Dafny

This project models the command-building core of the Go library
`go-redisearch`. The library assembles RediSearch commands as argument lists
for a Redis client. It has four parts:

- `FtQuery` (redisearch/query.go). Word transforms (`Generate*`) and a
  clause list that the `Add*` methods extend and `Serialize` space-joins into a
  query string.
- `FtCreate` (redisearch/create.go). A builder for `FT.CREATE`: index options
  and a schema of TEXT, NUMERIC, TAG and GEO fields.
- `FtSearch` (redisearch/search.go). A builder for `FT.SEARCH`: flags, numeric
  filters, a geo filter, key and field lists, summarize and highlight blocks,
  tuning words, sorting and the result window.
- `SearchBuilder` (redisearch/searchbuilder.go). `Encode` writes a flat
  key/value list as `@key:value` fragments. `Decode` and `Decode2Map` read
  fragments back with the pattern `([^@:]+):([^@]+)?`.

The modules are:

- `Wrappers` holds `Option`, which stands for Go's nil slices and pointers.
- `Strings` holds `Join`, `Split`, decimal rendering (`%d`) and `TrimSpace`.
- `Args` holds the argument values. An argument is a string `S`, an integer
  `I` or a float `F`. A float is a `Num`: a real, an infinity or NaN. `FmtF`
  renders a `Num` as Go's `%.f` does (round half to even, `+Inf`, `-Inf`,
  `NaN`).
- `Query`, `Create`, `Search` and `SearchBuilder` follow the four source
  files.

Each builder is a `class` with the Go struct's fields. Each setter promises the
exact new state, `Config() == old(Config()).(field := value)`. Each
`Serialize` is a method whose loops and appends are proved to produce what a
specification function of the configuration describes (`CreateArgs`,
`SearchArgs`, `Join(query, " ")`).

Each specification function has a partner. `CreateGrammar` and
`SearchGrammar` hold readers for the two command grammars, and the lemmas
prove that reading back a serialized command recovers every option the command
carries. As a consequence, two builders with equal commands agree on all of
those options, within the domains listed under "## Left out". `QueryGrammar` does the same for each clause format of
`FtQuery`. `SearchBuilder` proves `Decode` and `Encode` inverse on the lists
`Decode` can return. `Scenarios` drives the builders as the repository's
example programs do and states the exact command each one produces.

The model follows the code where the code differs from the RediSearch command
reference:

- `FT.CREATE ... SCORE` carries the language string, not the score
  (redisearch/create.go:277-279).
- The summarize keyword is spelled `SUMMIRIZE` (redisearch/search.go:377).
- The payload, `INFIELDS` and `INORDER` are stored but never sent
  (`Search.NotSent`).
- An infinite numeric query bound is written `inf` on both sides
  (redisearch/query.go:131-141).

## Model

| member | source | states |
|---|---|---|
| Strings.SplitJoin | redisearch/query.go:61-73 | when no part holds the one-character separator: splitting a join of at least one part on it gives the parts back, and no parts join to `""`, which splits into one empty part |
| Strings.DecimalRoundTrip | redisearch/query.go:127-141 | the `%d` rendering of an integer reads back as that integer |
| Strings.DecimalInjective | redisearch/query.go:127-141 | distinct integers render differently |
| Strings.TrimSpaceOfTrimmed | redisearch/searchbuilder.go:52 | trimming a string with no surrounding white space after appending white space to it gives the string back |
| Args.RoundHalfEven | redisearch/search.go:341 | the rounded integer is within one half of the value, and a tie goes to the even integer, as `%.f` rounds |
| Args.FmtFWhole | redisearch/search.go:345 | a float holding a whole number renders as its decimal and reads back as that integer |
| Args.Strs | redisearch/create.go:260-262 | a string list becomes string arguments of the same length, element by element |
| Args.AppendStrings | redisearch/create.go:260-262 | the append loop adds the list's strings after what is there, in order |
| Args.Counted | redisearch/search.go:363-366 | a counted block is the count followed by the strings |
| Args.CountedRoundTrip | redisearch/search.go:362-374 | reading a counted block gives back the strings and the remaining arguments |
| Query.GenerateSingleWordQuery | redisearch/query.go:33-58 | each mode's result: `-w`, `(w)`, `-(w)`, the word less one or two characters then `*`, and the word itself for mode 1 and unlisted modes |
| Query.GenerateMultipleWordQuery | redisearch/query.go:61-73 | when there is at least one word and no word holds the separator, splitting the result on `\|` (mode 7), `~` (mode 8) or a space (otherwise) gives the words back; no words give `""` |
| Query.FuzzyWords | redisearch/query.go:79-85 | each word is wrapped in `ld` percent signs on both sides, one entry per word in order |
| Query.GenerateFuzzyMatchQuery | redisearch/query.go:76-88 | the nested loops compute the space join of the wrapped words |
| Query.FuzzyNonPositive | redisearch/query.go:80-82 | a non-positive distance adds no padding |
| Query.FuzzySplit | redisearch/query.go:76-88 | when no word holds a space: for at least one word, splitting the fuzzy query on spaces gives the wrapped words back; for no words the query is `""`, which splits into one empty word |
| Query.GenerateFieldModifyQuery | redisearch/query.go:90-92 | the result is `@`, the field, `:`, then the query, position by position |
| Query.GenerateMultiFieldsModifyQuery | redisearch/query.go:94-96 | the result is `@`, the `\|`-joined fields, `:`, then the query, position by position |
| Query.FtQuery.constructor | redisearch/query.go:25-30 | a new query keeps the raw text and has no clauses |
| Query.FtQuery.AddWildcardQuery | redisearch/query.go:99-104 | the clause list becomes `["*"]` |
| Query.FtQuery.AddPureNegativeQuery | redisearch/query.go:106-114 | appends `-q` after the earlier clauses |
| Query.FtQuery.AddNumericFilterQuery | redisearch/query.go:120-151 | appends the numeric clause after the earlier clauses |
| Query.FtQuery.AddTagFilterQuery | redisearch/query.go:154-171 | appends the tag clause after the earlier clauses |
| Query.FtQuery.AddGeoFilterQuery | redisearch/query.go:174-186 | appends the geo clause after the earlier clauses |
| Query.FtQuery.AddPrefixMatchQuery | redisearch/query.go:189-205 | appends the prefix clause after the earlier clauses |
| Query.FtQuery.AddMultiFieldsPrefixMatchQuery | redisearch/query.go:208-224 | appends the multi-field prefix clause after the earlier clauses |
| Query.FtQuery.AddAttributeQuery | redisearch/query.go:227-229 | changes nothing |
| Query.FtQuery.Serialize | redisearch/query.go:231-234 | stores in `raw` and returns the space join of the clauses, leaving them as they were |
| Query.SerializeTwice | redisearch/query.go:231-234 | two calls in a row return the same string; no clauses give `""` |
| QueryGrammar.FieldModifyRoundTrip | redisearch/query.go:90-92 | for a field name without `:` or `\|`, a one-field scope reads back as the field and the query |
| QueryGrammar.MultiFieldsModifyRoundTrip | redisearch/query.go:94-96 | for field names without `:` or `\|`: at least one field reads back as the fields in order and the query; no fields give the scope `@:`, which reads back as one empty field and the query |
| QueryGrammar.RangeBoundRoundTrip | redisearch/query.go:127-141 | a bound reads back as exclusive when excluded (even if flagged infinite), else unbounded when infinite, else inclusive of the very number |
| QueryGrammar.RangeRoundTrip | redisearch/query.go:133-151 | a bracketed pair of bounds reads back as both bounds |
| QueryGrammar.NumericFilterClauseRoundTrip | redisearch/query.go:120-151 | a numeric clause reads back as its sign, field and two bounds |
| QueryGrammar.TagFilterClauseRoundTrip | redisearch/query.go:154-171 | a tag clause reads back as its sign, field and tags in order |
| QueryGrammar.GeoFilterClauseRoundTrip | redisearch/query.go:174-186 | a geo clause reads back as its sign, field, the three rendered numbers and the unit |
| QueryGrammar.PrefixMatchClauseRoundTrip | redisearch/query.go:189-205 | with no field the clause is the sign and the query; otherwise, for a field name without `:` or `\|`, it reads back as the sign, the field and the query |
| QueryGrammar.MultiFieldsPrefixMatchClauseRoundTrip | redisearch/query.go:208-224 | with no fields the clause is the sign and the query; otherwise, for field names without `:` or `\|`, it reads back as the sign, the fields and the query |
| Create.NewConfig | redisearch/create.go:82-86 | a new index has the given name and no prefixes, stop words or fields |
| Create.FieldsArgsSnoc | redisearch/create.go:324-407 | a field added last is serialized last, after the earlier fields |
| Create.FtCreate.constructor | redisearch/create.go:82-86 | the builder starts from the default configuration with the index name |
| Create.FtCreate.AddIndexName | redisearch/create.go:88-92 | replaces the index name and nothing else |
| Create.FtCreate.AddDataType | redisearch/create.go:94-98 | replaces the data type and nothing else |
| Create.FtCreate.AddPrefix | redisearch/create.go:100-104 | appends the prefixes after the earlier ones |
| Create.FtCreate.AddFilterExp | redisearch/create.go:106-110 | replaces the filter expression and nothing else |
| Create.FtCreate.AddLanguage | redisearch/create.go:114-118 | replaces the language and nothing else |
| Create.FtCreate.AddLanguageField | redisearch/create.go:120-124 | replaces the language field and nothing else |
| Create.FtCreate.AddScore | redisearch/create.go:126-130 | replaces the score and nothing else |
| Create.FtCreate.AddScoreField | redisearch/create.go:132-136 | replaces the score field and nothing else |
| Create.FtCreate.AddPayloadField | redisearch/create.go:138-142 | replaces the payload field and nothing else |
| Create.FtCreate.AddMaxTextFields | redisearch/create.go:144-148 | replaces the MAXTEXTFIELDS flag and nothing else |
| Create.FtCreate.AddTemporarySeconds | redisearch/create.go:150-155 | replaces the temporary flag and its seconds and nothing else |
| Create.FtCreate.AddNoOffsets | redisearch/create.go:157-161 | replaces the NOOFFSETS flag and nothing else |
| Create.FtCreate.AddNoFields | redisearch/create.go:163-167 | replaces the NOFIELDS flag and nothing else |
| Create.FtCreate.AddNoFreqs | redisearch/create.go:169-173 | replaces the NOFREQS flag and nothing else |
| Create.FtCreate.AddSkipInitialScan | redisearch/create.go:175-179 | replaces the SKIPINITIALSCAN flag and nothing else |
| Create.FtCreate.AddStopWords | redisearch/create.go:181-185 | appends the stop words after the earlier ones |
| Create.FtCreate.AddSchemaTextOption | redisearch/create.go:187-197 | the option carries weight, nostem, noindex and phonetic, with unf and casesensitive off and no separator |
| Create.FtCreate.AddSchemaTagOption | redisearch/create.go:199-209 | the option carries noindex and the separator, with every other setting at its zero value |
| Create.FtCreate.AddSchemaNumericOption | redisearch/create.go:211-221 | the option carries noindex, with every other setting at its zero value |
| Create.FtCreate.AddSchemaGeoOption | redisearch/create.go:223-233 | the option carries noindex, with every other setting at its zero value |
| Create.FtCreate.AddSchema | redisearch/create.go:235-245 | appends the field after the earlier ones |
| Create.AppendText | redisearch/create.go:329-355 | appends the TEXT field words the text specification gives |
| Create.AppendNumeric | redisearch/create.go:357-371 | appends the NUMERIC field words |
| Create.AppendTag | redisearch/create.go:373-391 | appends the TAG field words |
| Create.AppendGeo | redisearch/create.go:393-399 | appends the GEO field words |
| Create.AppendField | redisearch/create.go:326-405 | appends the identifier, the type's words and NOINDEX when set |
| Create.AppendFields | redisearch/create.go:324-407 | the schema loop appends every field in call order |
| Create.FtCreate.AppendSource | redisearch/create.go:257-267 | appends PREFIX with the count and the prefixes when there are any, then FILTER when set |
| Create.FtCreate.AppendLanguage | redisearch/create.go:269-287 | appends LANGUAGE, LANGUAGE_FIELD, SCORE, SCORE_FIELD and PAYLOAD_FIELD when set |
| Create.FtCreate.AppendFlags | redisearch/create.go:289-311 | appends the six flags in their fixed order, with TEMPORARY only when set and positive |
| Create.FtCreate.AppendStopWords | redisearch/create.go:313-319 | appends STOPWORDS with the count and the words when there are any |
| Create.FtCreate.AppendSchema | redisearch/create.go:321-408 | appends SCHEMA and the fields when there are any |
| Create.FtCreate.Serialize | redisearch/create.go:247-411 | returns the FT.CREATE command the configuration describes, header first, leaving the builder unchanged |
| CreateGrammar.Denote | redisearch/create.go:326-405 | what a field's words state: its identifier and NOINDEX always; UNF only with SORTABLE; WEIGHT only for text, and only when the weight is neither 0 nor 1 |
| CreateGrammar.FieldRoundTrip | redisearch/create.go:326-405 | a field's words start with its identifier and read back as what `Denote` states |
| CreateGrammar.FieldsRoundTrip | redisearch/create.go:321-408 | when no identifier is spelled like a field option word, the schema reads back as the field views in call order |
| CreateGrammar.SourceStep | redisearch/create.go:257-267 | the PREFIX and FILTER words read back as the prefixes and the filter |
| CreateGrammar.LanguageStep | redisearch/create.go:269-287 | the language words read back; SCORE is present exactly when the score is positive, and it carries the language |
| CreateGrammar.FlagsStep | redisearch/create.go:289-311 | the flag words read back as the six flags; TEMPORARY as its seconds exactly when set and positive |
| CreateGrammar.OptionsRoundTrip | redisearch/create.go:257-408 | when no identifier is spelled like a field option word, everything after the header reads back as the index's options and fields |
| CreateGrammar.CreateRoundTrip | redisearch/create.go:247-411 | reading the serialized command back gives the configuration's view: name, data type, options and every schema field as its words state it |
| CreateGrammar.CreateArgsDetermineView | redisearch/create.go:247-411 | two builders whose field identifiers are not spelled like field option words and whose commands are equal agree on everything the command carries |
| CreateGrammar.KeywordIdentifierCollision | redisearch/create.go:321-339 | outside that domain equal commands can hide a difference: a TEXT field with NOSTEM and a TEXT field followed by an untyped field named `NOSTEM` give the same command and different views |
| Search.NewConfig | redisearch/search.go:133-137 | a new search has the index name, no query, filters, return list or slop, and a zero window |
| Search.FiltersArgs | redisearch/search.go:335-356 | each filter gives exactly four words |
| Search.FiltersArgsSnoc | redisearch/search.go:187-197 | a filter added last is serialized last |
| Search.FmtFShape | redisearch/search.go:341-353 | a rendered float is never empty, never starts with `(` and is never `+inf` or `-inf` |
| Search.FilterBounds | redisearch/search.go:340-354 | a bound starts with `(` exactly when exclusive; `+inf` and `-inf` come exactly from an inclusive infinite bound; otherwise the bound is the rendered number |
| Search.SearchArgsEnds | redisearch/search.go:298-444 | the command starts with FT.SEARCH, the index and the query when it is non-empty, and ends with LIMIT and the window, or `0 10` when `num` is not positive |
| Search.NotSent | redisearch/search.go:424 | the in-fields, in-order flag and payload do not change the command |
| Search.AppendFilter | redisearch/search.go:338-354 | appends FILTER, the field and the two bounds |
| Search.AppendSummarizeOptions | redisearch/search.go:384-394 | appends FRAGS and LEN when positive and SEPARATOR when set |
| Search.FtSearch.constructor | redisearch/search.go:133-137 | the builder starts from the default configuration with the index name |
| Search.FtSearch.AddIndexName | redisearch/search.go:139-143 | replaces the index name and nothing else |
| Search.FtSearch.AddQuery | redisearch/search.go:145-149 | replaces the query and nothing else |
| Search.FtSearch.AddNoContent | redisearch/search.go:151-155 | replaces the NOCONTENT flag and nothing else |
| Search.FtSearch.AddVerbatim | redisearch/search.go:157-161 | replaces the VERBATIM flag and nothing else |
| Search.FtSearch.AddNoStopWords | redisearch/search.go:163-167 | replaces the NOSTOPWORDS flag and nothing else |
| Search.FtSearch.AddWithScores | redisearch/search.go:169-173 | replaces the WITHSCORES flag and nothing else |
| Search.FtSearch.AddWithPayloads | redisearch/search.go:175-179 | replaces the WITHPAYLOADS flag and nothing else |
| Search.FtSearch.AddWithSortKeys | redisearch/search.go:181-185 | replaces the WITHSORTKEYS flag and nothing else |
| Search.FtSearch.AddFilter | redisearch/search.go:187-197 | appends the filter after the earlier ones |
| Search.FtSearch.AddGeoFilter | redisearch/search.go:199-207 | replaces the geo filter and nothing else |
| Search.FtSearch.AddInKeys | redisearch/search.go:209-213 | replaces the key list; it does not accumulate |
| Search.FtSearch.AddInFields | redisearch/search.go:215-219 | replaces the field list and nothing else |
| Search.FtSearch.AddReturnFields | redisearch/search.go:221-225 | replaces the return list, nil or not; it does not accumulate |
| Search.FtSearch.AddSummarize | redisearch/search.go:227-234 | replaces the summarize settings and nothing else |
| Search.FtSearch.AddHighlight | redisearch/search.go:236-242 | replaces the highlight fields and tags and nothing else |
| Search.FtSearch.AddSlop | redisearch/search.go:244-248 | replaces the slop, nil or not, and nothing else |
| Search.FtSearch.AddInOrder | redisearch/search.go:250-254 | replaces the INORDER flag and nothing else |
| Search.FtSearch.AddLanguage | redisearch/search.go:256-260 | replaces the language and nothing else |
| Search.FtSearch.AddExpander | redisearch/search.go:262-266 | replaces the expander and nothing else |
| Search.FtSearch.AddScorer | redisearch/search.go:268-272 | replaces the scorer and nothing else |
| Search.FtSearch.AddPayload | redisearch/search.go:278-282 | replaces the payload and nothing else |
| Search.FtSearch.AddSortBy | redisearch/search.go:284-289 | replaces the sort attribute and direction and nothing else |
| Search.FtSearch.AddLimit | redisearch/search.go:291-296 | replaces the window and nothing else |
| Search.FtSearch.AppendFlags | redisearch/search.go:311-333 | appends the six flags in their fixed order, each when set |
| Search.FtSearch.AppendFilters | redisearch/search.go:335-356 | appends every filter block in call order |
| Search.FtSearch.AppendGeoAndKeys | redisearch/search.go:358-374 | appends GEOFILTER when it has a field, INKEYS when there are keys, and RETURN whenever the list is not nil |
| Search.FtSearch.AppendSummarize | redisearch/search.go:376-395 | appends the SUMMIRIZE block when there are fields |
| Search.FtSearch.AppendHighlight | redisearch/search.go:397-406 | appends the HIGHLIGHT block with its tags when there are fields |
| Search.FtSearch.AppendTuning | redisearch/search.go:408-422 | appends SLOP, LANGUAGE, EXPANDER and SCORER when set |
| Search.FtSearch.AppendSort | redisearch/search.go:426-433 | appends SORTBY with ASC or DESC when there is an attribute |
| Search.FtSearch.Serialize | redisearch/search.go:298-444 | returns the FT.SEARCH command the configuration describes, leaving the builder unchanged |
| SearchGrammar.View | redisearch/search.go:298-444 | what the command carries: the window is always positive, and the geo, summarize, highlight and sort parts are present exactly when their guards hold |
| SearchGrammar.FlagsStep | redisearch/search.go:311-333 | the flag words read back as the six flags |
| SearchGrammar.FiltersStep | redisearch/search.go:335-356 | the filter words read back as the filters in call order, with their rendered bounds |
| SearchGrammar.GeoAndKeysStep | redisearch/search.go:358-374 | the GEOFILTER, INKEYS and RETURN words read back as the geo filter, the keys and the return list |
| SearchGrammar.SummarizeStep | redisearch/search.go:376-395 | the summarize words read back as the fields and the positive counts and separator |
| SearchGrammar.HighlightStep | redisearch/search.go:397-406 | the highlight words read back as the fields and the two tags |
| SearchGrammar.TuningStep | redisearch/search.go:408-422 | the tuning words read back as the slop, language, expander and scorer |
| SearchGrammar.SortAndLimitStep | redisearch/search.go:426-440 | the SORTBY and LIMIT words read back as the sort order and the window |
| SearchGrammar.OptionsRoundTrip | redisearch/search.go:311-440 | everything after the header reads back as the search's options |
| SearchGrammar.SearchRoundTrip | redisearch/search.go:298-444 | reading the serialized command back gives the configuration's view |
| SearchGrammar.SearchArgsDetermineView | redisearch/search.go:298-444 | two builders whose queries are not spelled like search option words and whose commands are equal agree on everything the command carries |
| SearchGrammar.KeywordQueryCollision | redisearch/search.go:302-313 | outside that domain equal commands can hide a difference: the query `NOCONTENT` and the NOCONTENT flag give the same command and different views |
| SearchGrammar.ReturnNilDiffersFromEmpty | redisearch/search.go:369-374 | for every search, a nil return list and an empty one give different commands: the empty one adds RETURN 0 |
| SearchBuilder.EncodedPairs | redisearch/searchbuilder.go:37-39 | one `@key:value` fragment per pair, the first being the first pair's |
| SearchBuilder.Encode | redisearch/searchbuilder.go:35-42 | the loop computes the space join of the pair fragments |
| SearchBuilder.FindAllShape | redisearch/searchbuilder.go:46-47 | every match has a non-empty key without `@` or `:` and a value without `@` |
| SearchBuilder.Decode | redisearch/searchbuilder.go:44-59 | the loop computes the keys and trimmed values of the matches in order, and nil when nothing matches |
| SearchBuilder.DecodedShape | redisearch/searchbuilder.go:44-59 | a non-nil result is a non-empty list of whole pairs with plain keys and trimmed values free of `@` |
| SearchBuilder.Decode2Map | redisearch/searchbuilder.go:61-76 | the loop computes the map of the matches, and nil when nothing matches |
| SearchBuilder.DecodedMapLastWins | redisearch/searchbuilder.go:68-70 | the map's keys are exactly the matched keys, each holding the trimmed value of its last occurrence |
| SearchBuilder.Decode2MapAgreesWithDecode | redisearch/searchbuilder.go:44-76 | the map is nil exactly when the list is, and otherwise holds the list's pairs with later keys overwriting earlier ones |
| SearchBuilder.DecodeEncodeRoundTrip | redisearch/searchbuilder.go:35-59 | decoding an encoded decodable list gives the list back, or nil for the empty list |
| SearchBuilder.EncodeDecodeRoundTrip | redisearch/searchbuilder.go:35-59 | whatever Decode returns encodes and decodes back to itself |
| SearchBuilder.EncodeTestCase | redisearch/searchbuilder_test.go:22-31 | the encode test's list encodes to its expected string |
| SearchBuilder.DecodeTestCase | redisearch/searchbuilder_test.go:61-70 | the decode test's string decodes to its expected list |
| SearchBuilder.Decode2MapTestCase | redisearch/searchbuilder_test.go:100-109 | the map test's string decodes to its expected map |
| Scenarios.DeployTermsIndex | examples/deploy/main.go:97-119 | the terms index builds `FT.CREATE name ON HASH PREFIX 1 drd: SCHEMA uid TEXT cats TAG SEPARATOR , tags TAG SEPARATOR , updated NUMERIC SORTABLE` |
| Scenarios.TermsFieldsArgs | examples/deploy/main.go:104-117 | the terms index's four fields serialize to their words in call order |
| Scenarios.DreamsQuery | examples/simple/main.go:175-192 | a single word becomes `@name\|slug\|description\|cats\|tags:` and the word less its last character, then `*` |
| Scenarios.DreamsSearch | examples/simple/main.go:195-207 | the dreams search sends the query when non-empty, NOCONTENT, NOSTOPWORDS, SORTBY updated DESC when newest first is asked for, and the window or `LIMIT 0 10` |

## Left out

- redisearch/client.go is not part of this model. It passes argument lists to a Redis client: network I/O over a library not modelled here.
- redisearch/aggregate.go holds an empty struct, and there is nothing in it to model.
- `SearchBuilder.MarshalBinary` and `UnmarshalBinary` use JSON encoding, which is not modelled.
- The `SearchBuilder` struct (its fields `Raw`, `Query`, `Cats`, `Tags`, `SortBy` and `Attr`) and `NewSearchBuilder` are not modelled: `Encode`, `Decode` and `Decode2Map` never read the receiver, so they are module-level methods here.
- The example programs appear only as scenarios. Their network calls, clocks, JSON handling and the multi-word branch of the dreams query are not modelled.
- Floats are the abstract `Num`, and a float32 schema weight is the same type. Negative zero is not told apart from zero. `FmtF` follows `%.f` on exact reals, not on binary floating point.
- Go's int64 arguments (numeric query bounds, LIMIT) are unbounded integers here; the builders never do arithmetic on them.
- Strings are sequences of characters. The byte-wise slicing of query modes 5 and 6 is character-wise here. `TrimSpace` trims the Unicode White_Space characters, the set Go's `unicode.IsSpace` tests.
- The builders' methods return the receiver for chaining in Go; the model drops the returned pointer.
- The slop pointer is an `Option<int>`. Aliasing of the slop and of the slices the setters store is not modelled.
- Query.GenerateSingleWordQuery: requires a word of at least one character for mode 5 and two for mode 6, where Go panics on a shorter word.
- SearchBuilder.Encode: requires an even-length list, where Go indexes past the end of an odd-length one.
- SearchBuilder.DecodeEncodeRoundTrip: holds for lists whose keys are non-empty without `@` or `:` and whose values have no `@` and no surrounding white space; other lists do not round-trip.
- QueryGrammar.NumericFilterClauseRoundTrip: the field-scope round trips hold for field names without `:` or `|`.
- QueryGrammar.FieldModifyRoundTrip: holds for a field name without `:` or `|`; a name holding `:` ends the scope early, and one holding `|` reads back as several fields.
- QueryGrammar.PrefixMatchClauseRoundTrip: the scoped case holds for a field name without `:` or `|`; the unscoped case holds for every input.
- QueryGrammar.MultiFieldsPrefixMatchClauseRoundTrip: the scoped case holds for field names without `:` or `|`; the unscoped case holds for every input.
- Strings.SplitJoin: the parts come back when none holds the separator; a part holding it splits into several.
- QueryGrammar.TagFilterClauseRoundTrip: holds for at least one tag, each free of `|`; no tags give `@f:{}`, which reads back as one empty tag, and a tag holding `|` reads back as several.
- QueryGrammar.GeoFilterClauseRoundTrip: holds for units without a space; every unit constant of redisearch/search.go meets this.
- CreateGrammar.CreateRoundTrip: holds when no field identifier is spelled like a field option word.
- CreateGrammar.FieldsRoundTrip: holds when no field identifier is spelled like a field option word; otherwise a field's words can read as options of the field before it.
- CreateGrammar.OptionsRoundTrip: holds when no field identifier is spelled like a field option word, for the same reason.
- SearchGrammar.SearchRoundTrip: holds when the query is not spelled like a search option word.
- SearchGrammar.SearchArgsDetermineView: holds when neither query is spelled like a search option word; `SearchGrammar.KeywordQueryCollision` shows two different searches with equal commands outside that domain.
- CreateGrammar.CreateArgsDetermineView: holds when no field identifier of either builder is spelled like a field option word; `CreateGrammar.KeywordIdentifierCollision` shows two different schemas with equal commands outside that domain.
- Query.GenerateMultipleWordQuery: the split round trip is stated for at least one word with no word holding the separator; a word holding it splits into several, and for such lists the contract says nothing about the result.
- Query.FuzzySplit: the split round trip needs words without a space; with no words the query is `""`, which splits into `[""]`, not into no words.
- QueryGrammar.MultiFieldsModifyRoundTrip: holds for field names without `:` or `|`; with no fields the scope `@:` reads back as one empty field, not as no fields.
- Create.FtCreate.Serialize and Search.FtSearch.Serialize are split into one helper method per block of the Go function; together they make the same appends in the same order.
