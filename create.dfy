/** The FT.CREATE builder (redisearch/create.go): an FtCreate object collects
    the index options and schema fields through its setters, and Serialize
    writes the argument list of the command. */
module Create {
  import opened Strings
  import opened Args

  /** The ON data type the library offers. */
  const HASH: string := "HASH"

  /** The phonetic matchers. */
  const PhoneticDoubleMetaphoneEnglish: string := "dm:en"
  const PhoneticDoubleMetaphoneFrench: string := "dm:fr"
  const PhoneticDoubleMetaphonePortuguese: string := "dm:pt"
  const PhoneticDoubleMetaphoneSpanish: string := "dm:es"

  /** The field types. */
  const FieldTypeText: string := "TEXT"
  const FieldTypeNumeric: string := "NUMERIC"
  const FieldTypeTag: string := "TAG"
  const FieldTypeGeo: string := "GEO"

  /** The per-field options (the weight is a Go float32). */
  datatype FtSchemaOption = FtSchemaOption(
    unf: bool, nostem: bool, noindex: bool, phonetic: string,
    weight: Num, separator: string, casesensitive: bool)

  /** One schema field: its name, its AS alias, its type, SORTABLE, and options. */
  datatype FtSchema = FtSchema(
    identifier: string, attribute: string, fieldtype: string, sortable: bool, option: FtSchemaOption)

  /** The state of an FtCreate, field by field (`datatype` is named
      `dataType` here, since `datatype` is a reserved word of Dafny). */
  datatype CreateConfig = CreateConfig(
    indexname: string, dataType: string, prefix: seq<string>, filterexp: string,
    language: string, languagefield: string, score: Num, scorefield: string,
    payloadfiled: string, maxtextfields: bool, temporary: bool, temporaryseconds: int,
    nooffsets: bool, nofields: bool, nofreqs: bool, skipinitialscan: bool,
    stopwords: seq<string>, schema: seq<FtSchema>)

  /** The Go zero value of every field but the index name. */
  function NewConfig(indexName: string): (c: CreateConfig)
    ensures c.indexname == indexName && c.prefix == [] && c.stopwords == [] && c.schema == []
  {
    CreateConfig(indexName, "", [], "", "", "", Finite(0.0), "", "", false, false, 0,
                 false, false, false, false, [], [])
  }

  // ---------------------------------------------------------------------------
  // The argument list

  /** `AS alias`, when the alias is set. */
  function AsArgs(attribute: string): seq<Arg> {
    When(attribute != "", [S("AS"), S(attribute)])
  }

  /** `SORTABLE [UNF]`, when the field is sortable. */
  function SortableArgs(f: FtSchema): seq<Arg> {
    When(f.sortable, [S("SORTABLE")] + When(f.option.unf, [S("UNF")]))
  }

  function TextArgs(f: FtSchema): seq<Arg> {
    AsArgs(f.attribute) + [S("TEXT")]
    + When(f.option.nostem, [S("NOSTEM")])
    + SortableArgs(f)
    + When(!EqualsConst(f.option.weight, 0.0) && !EqualsConst(f.option.weight, 1.0), [S("WEIGHT"), F(f.option.weight)])
    + When(f.option.phonetic != "", [S("PHONETIC"), S(f.option.phonetic)])
  }

  function NumericArgs(f: FtSchema): seq<Arg> {
    AsArgs(f.attribute) + [S("NUMERIC")] + SortableArgs(f)
  }

  function TagArgs(f: FtSchema): seq<Arg> {
    AsArgs(f.attribute) + [S("TAG")]
    + When(f.option.separator != "", [S("SEPARATOR"), S(f.option.separator)])
    + SortableArgs(f)
  }

  function GeoArgs(f: FtSchema): seq<Arg> {
    AsArgs(f.attribute) + [S("GEO")]
  }

  /** The type clause of one field; an unknown type string has none. */
  function TypeArgs(f: FtSchema): seq<Arg> {
    if f.fieldtype == FieldTypeText then TextArgs(f)
    else if f.fieldtype == FieldTypeNumeric then NumericArgs(f)
    else if f.fieldtype == FieldTypeTag then TagArgs(f)
    else if f.fieldtype == FieldTypeGeo then GeoArgs(f)
    else []
  }

  /** One field of SCHEMA: its name, its type clause, then NOINDEX if set. */
  function FieldArgs(f: FtSchema): seq<Arg> {
    [S(f.identifier)] + TypeArgs(f) + When(f.option.noindex, [S("NOINDEX")])
  }

  /** The fields of SCHEMA, in order. */
  function FieldsArgs(fs: seq<FtSchema>): seq<Arg>
    decreases |fs|
  {
    if fs == [] then [] else FieldArgs(fs[0]) + FieldsArgs(fs[1..])
  }

  lemma {:induction false} FieldsArgsSnoc(fs: seq<FtSchema>, f: FtSchema)
    ensures FieldsArgs(fs + [f]) == FieldsArgs(fs) + FieldArgs(f)
    decreases |fs|
  {
    if fs == [] {
      assert [f][1..] == [];
    } else {
      assert (fs + [f])[1..] == fs[1..] + [f];
      FieldsArgsSnoc(fs[1..], f);
    }
  }

  lemma FieldsArgsPrefix(fs: seq<FtSchema>, i: nat)
    requires i < |fs|
    ensures FieldsArgs(fs[..i + 1]) == FieldsArgs(fs[..i]) + FieldArgs(fs[i])
  {
    assert fs[..i + 1] == fs[..i] + [fs[i]];
    FieldsArgsSnoc(fs[..i], fs[i]);
  }

  /** The index definition: PREFIX with its count, then FILTER. */
  function SourceArgs(c: CreateConfig): seq<Arg> {
    When(|c.prefix| > 0, [S("PREFIX"), I(|c.prefix|)] + Strs(c.prefix))
    + When(c.filterexp != "", [S("FILTER"), S(c.filterexp)])
  }

  /** LANGUAGE, LANGUAGE_FIELD, SCORE (which carries the language, not the
      score), SCORE_FIELD and PAYLOAD_FIELD. */
  function LanguageArgs(c: CreateConfig): seq<Arg> {
    When(c.language != "", [S("LANGUAGE"), S(c.language)])
    + When(c.languagefield != "", [S("LANGUAGE_FIELD"), S(c.languagefield)])
    + When(Positive(c.score), [S("SCORE"), S(c.language)])
    + When(c.scorefield != "", [S("SCORE_FIELD"), S(c.scorefield)])
    + When(c.payloadfiled != "", [S("PAYLOAD_FIELD"), S(c.payloadfiled)])
  }

  /** The flags, TEMPORARY only with a positive number of seconds. */
  function FlagArgs(c: CreateConfig): seq<Arg> {
    When(c.maxtextfields, [S("MAXTEXTFIELDS")])
    + When(c.temporary && c.temporaryseconds > 0, [S("TEMPORARY"), I(c.temporaryseconds)])
    + When(c.nooffsets, [S("NOOFFSETS")])
    + When(c.nofields, [S("NOFIELDS")])
    + When(c.nofreqs, [S("NOFREQS")])
    + When(c.skipinitialscan, [S("SKIPINITIALSCAN")])
  }

  /** STOPWORDS with its count. */
  function StopWordsArgs(c: CreateConfig): seq<Arg> {
    When(|c.stopwords| > 0, [S("STOPWORDS"), I(|c.stopwords|)] + Strs(c.stopwords))
  }

  /** SCHEMA and the fields. */
  function SchemaArgs(c: CreateConfig): seq<Arg> {
    When(|c.schema| > 0, [S("SCHEMA")] + FieldsArgs(c.schema))
  }

  /** The command, the index name, ON and the data type. */
  function HeaderArgs(c: CreateConfig): seq<Arg> {
    [S("FT.CREATE"), S(c.indexname), S("ON"), S(c.dataType)]
  }

  /** The FT.CREATE argument list that Serialize builds from a configuration. */
  function CreateArgs(c: CreateConfig): seq<Arg> {
    HeaderArgs(c) + SourceArgs(c) + LanguageArgs(c) + FlagArgs(c) + StopWordsArgs(c) + SchemaArgs(c)
  }

  /** The TEXT arm of the switch in Serialize's loop over the schema. */
  method AppendText(queryCode0: seq<Arg>, sc: FtSchema) returns (queryCode: seq<Arg>)
    ensures queryCode == queryCode0 + TextArgs(sc)
  {
    queryCode := queryCode0;
    if sc.attribute != "" {
      queryCode := queryCode + [S("AS"), S(sc.attribute)];
    }
    assert queryCode == queryCode0 + AsArgs(sc.attribute);
    queryCode := queryCode + [S("TEXT")];
    ghost var q1 := queryCode;
    if sc.option.nostem {
      queryCode := queryCode + [S("NOSTEM")];
    }
    ghost var n := When(sc.option.nostem, [S("NOSTEM")]);
    assert queryCode == q1 + n;
    ghost var q2 := queryCode;
    if sc.sortable {
      queryCode := queryCode + [S("SORTABLE")];
      if sc.option.unf {
        queryCode := queryCode + [S("UNF")];
      }
    }
    assert queryCode == q2 + SortableArgs(sc);
    ghost var q3 := queryCode;
    if !EqualsConst(sc.option.weight, 0.0) && !EqualsConst(sc.option.weight, 1.0) {
      queryCode := queryCode + [S("WEIGHT"), F(sc.option.weight)];
    }
    ghost var w := When(!EqualsConst(sc.option.weight, 0.0) && !EqualsConst(sc.option.weight, 1.0), [S("WEIGHT"), F(sc.option.weight)]);
    assert queryCode == q3 + w;
    ghost var q4 := queryCode;
    if sc.option.phonetic != "" {
      queryCode := queryCode + [S("PHONETIC"), S(sc.option.phonetic)];
    }
    ghost var p := When(sc.option.phonetic != "", [S("PHONETIC"), S(sc.option.phonetic)]);
    assert queryCode == q4 + p;
    Chain6(queryCode0, queryCode0 + AsArgs(sc.attribute), q1, q2, q3, q4, queryCode,
           AsArgs(sc.attribute), [S("TEXT")], n, SortableArgs(sc), w, p);
  }

  /** The NUMERIC arm. */
  method AppendNumeric(queryCode0: seq<Arg>, sc: FtSchema) returns (queryCode: seq<Arg>)
    ensures queryCode == queryCode0 + NumericArgs(sc)
  {
    queryCode := queryCode0;
    if sc.attribute != "" {
      queryCode := queryCode + [S("AS"), S(sc.attribute)];
    }
    assert queryCode == queryCode0 + AsArgs(sc.attribute);
    queryCode := queryCode + [S("NUMERIC")];
    ghost var q1 := queryCode;
    if sc.sortable {
      queryCode := queryCode + [S("SORTABLE")];
      if sc.option.unf {
        queryCode := queryCode + [S("UNF")];
      }
    }
    assert queryCode == q1 + SortableArgs(sc);
  }

  /** The TAG arm. */
  method AppendTag(queryCode0: seq<Arg>, sc: FtSchema) returns (queryCode: seq<Arg>)
    ensures queryCode == queryCode0 + TagArgs(sc)
  {
    queryCode := queryCode0;
    if sc.attribute != "" {
      queryCode := queryCode + [S("AS"), S(sc.attribute)];
    }
    ghost var q1 := queryCode;
    queryCode := queryCode + [S("TAG")];
    ghost var q2 := queryCode;
    if sc.option.separator != "" {
      queryCode := queryCode + [S("SEPARATOR"), S(sc.option.separator)];
    }
    ghost var q3 := queryCode;
    if sc.sortable {
      queryCode := queryCode + [S("SORTABLE")];
      if sc.option.unf {
        queryCode := queryCode + [S("UNF")];
      }
    }
    assert queryCode == q3 + SortableArgs(sc);
    Chain4(queryCode0, q1, q2, q3, queryCode, AsArgs(sc.attribute), [S("TAG")],
      When(sc.option.separator != "", [S("SEPARATOR"), S(sc.option.separator)]), SortableArgs(sc));
  }

  /** The GEO arm. */
  method AppendGeo(queryCode0: seq<Arg>, sc: FtSchema) returns (queryCode: seq<Arg>)
    ensures queryCode == queryCode0 + GeoArgs(sc)
  {
    queryCode := queryCode0;
    if sc.attribute != "" {
      queryCode := queryCode + [S("AS"), S(sc.attribute)];
    }
    assert queryCode == queryCode0 + AsArgs(sc.attribute);
    queryCode := queryCode + [S("GEO")];
  }

  /** The body of Serialize's loop over the schema: one field appended. */
  method AppendField(queryCode0: seq<Arg>, sc: FtSchema) returns (queryCode: seq<Arg>)
    ensures queryCode == queryCode0 + FieldArgs(sc)
  {
    queryCode := queryCode0 + [S(sc.identifier)];
    ghost var q1 := queryCode;
    if sc.fieldtype == FieldTypeText {
      queryCode := AppendText(queryCode, sc);
    } else if sc.fieldtype == FieldTypeNumeric {
      queryCode := AppendNumeric(queryCode, sc);
    } else if sc.fieldtype == FieldTypeTag {
      queryCode := AppendTag(queryCode, sc);
    } else if sc.fieldtype == FieldTypeGeo {
      queryCode := AppendGeo(queryCode, sc);
    }
    assert queryCode == q1 + TypeArgs(sc);
    ghost var q2 := queryCode;
    if sc.option.noindex {
      queryCode := queryCode + [S("NOINDEX")];
    }
    assert queryCode == q2 + When(sc.option.noindex, [S("NOINDEX")]);
    Chain3(queryCode0, q1, q2, queryCode, [S(sc.identifier)], TypeArgs(sc), When(sc.option.noindex, [S("NOINDEX")]));
  }

  /** Serialize's loop over the schema: each field appended in turn. */
  method AppendFields(queryCode0: seq<Arg>, schema: seq<FtSchema>) returns (queryCode: seq<Arg>)
    ensures queryCode == queryCode0 + FieldsArgs(schema)
  {
    queryCode := queryCode0;
    for i := 0 to |schema|
      invariant queryCode == queryCode0 + FieldsArgs(schema[..i])
    {
      var sc := schema[i];
      queryCode := AppendField(queryCode, sc);
      FieldsArgsPrefix(schema, i);
      Assoc(queryCode0, FieldsArgs(schema[..i]), FieldArgs(sc));
    }
    assert schema[..|schema|] == schema;
  }

  // ---------------------------------------------------------------------------
  // The builder

  class FtCreate {
    var indexname: string
    var dataType: string
    var prefix: seq<string>
    var filterexp: string
    var language: string
    var languagefield: string
    var score: Num
    var scorefield: string
    var payloadfiled: string
    var maxtextfields: bool
    var temporary: bool
    var temporaryseconds: int
    var nooffsets: bool
    var nofields: bool
    var nofreqs: bool
    var skipinitialscan: bool
    var stopwords: seq<string>
    var schema: seq<FtSchema>

    function Config(): CreateConfig
      reads this
    {
      CreateConfig(indexname, dataType, prefix, filterexp, language, languagefield, score,
                   scorefield, payloadfiled, maxtextfields, temporary, temporaryseconds,
                   nooffsets, nofields, nofreqs, skipinitialscan, stopwords, schema)
    }

    /** NewFtCreate. */
    constructor (indexName: string)
      ensures Config() == NewConfig(indexName)
    {
      indexname := indexName;
      dataType := "";
      prefix := [];
      filterexp := "";
      language := "";
      languagefield := "";
      score := Finite(0.0);
      scorefield := "";
      payloadfiled := "";
      maxtextfields := false;
      temporary := false;
      temporaryseconds := 0;
      nooffsets := false;
      nofields := false;
      nofreqs := false;
      skipinitialscan := false;
      stopwords := [];
      schema := [];
    }

    method AddIndexName(name: string)
      modifies this
      ensures Config() == old(Config()).(indexname := name)
    {
      indexname := name;
    }

    method AddDataType(dt: string)
      modifies this
      ensures Config() == old(Config()).(dataType := dt)
    {
      dataType := dt;
    }

    /** Appends to the prefixes already given. */
    method AddPrefix(fields: seq<string>)
      modifies this
      ensures Config() == old(Config()).(prefix := old(prefix) + fields)
    {
      prefix := prefix + fields;
    }

    method AddFilterExp(value: string)
      modifies this
      ensures Config() == old(Config()).(filterexp := value)
    {
      filterexp := value;
    }

    method AddLanguage(lang: string)
      modifies this
      ensures Config() == old(Config()).(language := lang)
    {
      language := lang;
    }

    method AddLanguageField(field: string)
      modifies this
      ensures Config() == old(Config()).(languagefield := field)
    {
      languagefield := field;
    }

    method AddScore(s: Num)
      modifies this
      ensures Config() == old(Config()).(score := s)
    {
      score := s;
    }

    method AddScoreField(field: string)
      modifies this
      ensures Config() == old(Config()).(scorefield := field)
    {
      scorefield := field;
    }

    method AddPayloadField(field: string)
      modifies this
      ensures Config() == old(Config()).(payloadfiled := field)
    {
      payloadfiled := field;
    }

    method AddMaxTextFields(active: bool)
      modifies this
      ensures Config() == old(Config()).(maxtextfields := active)
    {
      maxtextfields := active;
    }

    method AddTemporarySeconds(active: bool, seconds: int)
      modifies this
      ensures Config() == old(Config()).(temporary := active, temporaryseconds := seconds)
    {
      temporary := active;
      temporaryseconds := seconds;
    }

    method AddNoOffsets(active: bool)
      modifies this
      ensures Config() == old(Config()).(nooffsets := active)
    {
      nooffsets := active;
    }

    method AddNoFields(active: bool)
      modifies this
      ensures Config() == old(Config()).(nofields := active)
    {
      nofields := active;
    }

    method AddNoFreqs(active: bool)
      modifies this
      ensures Config() == old(Config()).(nofreqs := active)
    {
      nofreqs := active;
    }

    method AddSkipInitialScan(active: bool)
      modifies this
      ensures Config() == old(Config()).(skipinitialscan := active)
    {
      skipinitialscan := active;
    }

    /** Appends to the stop words already given. */
    method AddStopWords(values: seq<string>)
      modifies this
      ensures Config() == old(Config()).(stopwords := old(stopwords) + values)
    {
      stopwords := stopwords + values;
    }

    // The option constructors: UNF is never set, and each leaves the options
    // that do not apply to its field type at their zero value. They read no
    // state of the builder.


    function AddSchemaTextOption(weight: Num, nostem: bool, noindex: bool, phonetic: string): (o: FtSchemaOption)
      ensures !o.unf && !o.casesensitive && o.separator == ""
      ensures o.weight == weight && o.nostem == nostem && o.noindex == noindex && o.phonetic == phonetic
    {
      FtSchemaOption(false, nostem, noindex, phonetic, weight, "", false)
    }

    function AddSchemaTagOption(noindex: bool, separator: string): (o: FtSchemaOption)
      ensures !o.unf && !o.casesensitive && !o.nostem && o.phonetic == "" && EqualsConst(o.weight, 0.0)
      ensures o.noindex == noindex && o.separator == separator
    {
      FtSchemaOption(false, false, noindex, "", Finite(0.0), separator, false)
    }

    function AddSchemaNumericOption(noindex: bool): (o: FtSchemaOption)
      ensures !o.unf && !o.casesensitive && !o.nostem && o.phonetic == "" && o.separator == ""
      ensures EqualsConst(o.weight, 0.0) && o.noindex == noindex
    {
      FtSchemaOption(false, false, noindex, "", Finite(0.0), "", false)
    }

    function AddSchemaGeoOption(noindex: bool): (o: FtSchemaOption)
      ensures !o.unf && !o.casesensitive && !o.nostem && o.phonetic == "" && o.separator == ""
      ensures EqualsConst(o.weight, 0.0) && o.noindex == noindex
    {
      FtSchemaOption(false, false, noindex, "", Finite(0.0), "", false)
    }

    /** Appends one field to the schema. */
    method AddSchema(fieldType: string, identifier: string, attr: string, sortable: bool, option: FtSchemaOption)
      modifies this
      ensures Config() == old(Config()).(schema := old(schema) + [FtSchema(identifier, attr, fieldType, sortable, option)])
    {
      schema := schema + [FtSchema(identifier, attr, fieldType, sortable, option)];
    }

    /** The PREFIX and FILTER part of Serialize. */
    method AppendSource(queryCode0: seq<Arg>) returns (queryCode: seq<Arg>)
      ensures queryCode == queryCode0 + SourceArgs(Config())
    {
      queryCode := queryCode0;
      if |prefix| > 0 {
        queryCode := queryCode + [S("PREFIX"), I(|prefix|)];
        queryCode := AppendStrings(queryCode, prefix);
        Assoc(queryCode0, [S("PREFIX"), I(|prefix|)], Strs(prefix));
      }
      ghost var q1 := queryCode;
      if filterexp != "" {
        queryCode := queryCode + [S("FILTER"), S(filterexp)];
      }
      assert queryCode == q1 + When(filterexp != "", [S("FILTER"), S(filterexp)]);
    }

    /** The LANGUAGE to PAYLOAD_FIELD part of Serialize. */
    method AppendLanguage(queryCode0: seq<Arg>) returns (queryCode: seq<Arg>)
      ensures queryCode == queryCode0 + LanguageArgs(Config())
    {
      queryCode := queryCode0;
      if language != "" {
        queryCode := queryCode + [S("LANGUAGE"), S(language)];
      }
      ghost var q1 := queryCode;
      if languagefield != "" {
        queryCode := queryCode + [S("LANGUAGE_FIELD"), S(languagefield)];
      }
      ghost var q2 := queryCode;
      if Positive(score) {
        queryCode := queryCode + [S("SCORE"), S(language)];
      }
      ghost var q3 := queryCode;
      if scorefield != "" {
        queryCode := queryCode + [S("SCORE_FIELD"), S(scorefield)];
      }
      ghost var q4 := queryCode;
      if payloadfiled != "" {
        queryCode := queryCode + [S("PAYLOAD_FIELD"), S(payloadfiled)];
      }
      ghost var c := Config();
      Chain5(queryCode0, q1, q2, q3, q4, queryCode,
        When(c.language != "", [S("LANGUAGE"), S(c.language)]),
        When(c.languagefield != "", [S("LANGUAGE_FIELD"), S(c.languagefield)]),
        When(Positive(c.score), [S("SCORE"), S(c.language)]),
        When(c.scorefield != "", [S("SCORE_FIELD"), S(c.scorefield)]),
        When(c.payloadfiled != "", [S("PAYLOAD_FIELD"), S(c.payloadfiled)]));
    }

    /** The MAXTEXTFIELDS to SKIPINITIALSCAN part of Serialize. */
    method AppendFlags(queryCode0: seq<Arg>) returns (queryCode: seq<Arg>)
      ensures queryCode == queryCode0 + FlagArgs(Config())
    {
      queryCode := queryCode0;
      if maxtextfields {
        queryCode := queryCode + [S("MAXTEXTFIELDS")];
      }
      ghost var q1 := queryCode;
      if temporary && temporaryseconds > 0 {
        queryCode := queryCode + [S("TEMPORARY"), I(temporaryseconds)];
      }
      ghost var q2 := queryCode;
      if nooffsets {
        queryCode := queryCode + [S("NOOFFSETS")];
      }
      ghost var q3 := queryCode;
      if nofields {
        queryCode := queryCode + [S("NOFIELDS")];
      }
      ghost var q4 := queryCode;
      if nofreqs {
        queryCode := queryCode + [S("NOFREQS")];
      }
      ghost var q5 := queryCode;
      if skipinitialscan {
        queryCode := queryCode + [S("SKIPINITIALSCAN")];
      }
      ghost var c := Config();
      Chain6(queryCode0, q1, q2, q3, q4, q5, queryCode,
        When(c.maxtextfields, [S("MAXTEXTFIELDS")]),
        When(c.temporary && c.temporaryseconds > 0, [S("TEMPORARY"), I(c.temporaryseconds)]),
        When(c.nooffsets, [S("NOOFFSETS")]), When(c.nofields, [S("NOFIELDS")]),
        When(c.nofreqs, [S("NOFREQS")]), When(c.skipinitialscan, [S("SKIPINITIALSCAN")]));
    }

    /** The STOPWORDS part of Serialize. */
    method AppendStopWords(queryCode0: seq<Arg>) returns (queryCode: seq<Arg>)
      ensures queryCode == queryCode0 + StopWordsArgs(Config())
    {
      queryCode := queryCode0;
      if |stopwords| > 0 {
        queryCode := queryCode + [S("STOPWORDS"), I(|stopwords|)];
        queryCode := AppendStrings(queryCode, stopwords);
        Assoc(queryCode0, [S("STOPWORDS"), I(|stopwords|)], Strs(stopwords));
      }
    }

    /** The SCHEMA part of Serialize. */
    method AppendSchema(queryCode0: seq<Arg>) returns (queryCode: seq<Arg>)
      ensures queryCode == queryCode0 + SchemaArgs(Config())
    {
      queryCode := queryCode0;
      if |schema| > 0 {
        queryCode := queryCode + [S("SCHEMA")];
        queryCode := AppendFields(queryCode, schema);
        Assoc(queryCode0, [S("SCHEMA")], FieldsArgs(schema));
      }
    }

    /** Serialize: the FT.CREATE arguments, built by appending part after part. */
    method Serialize() returns (queryCode: seq<Arg>)
      ensures queryCode == CreateArgs(Config())
    {
      queryCode := [S("FT.CREATE")];
      queryCode := queryCode + [S(indexname)];
      queryCode := queryCode + [S("ON"), S(dataType)];
      assert queryCode == HeaderArgs(Config());
      queryCode := AppendSource(queryCode);
      queryCode := AppendLanguage(queryCode);
      queryCode := AppendFlags(queryCode);
      queryCode := AppendStopWords(queryCode);
      queryCode := AppendSchema(queryCode);
    }
  }
}
