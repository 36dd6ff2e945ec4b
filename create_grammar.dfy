/** A reader for the FT.CREATE argument lists that Create.CreateArgs describes.
    It is the partner of Serialize: reading back what FtCreate.Serialize wrote
    recovers every option of the builder that reaches the command, so two
    builders that serialize alike agree on all of them. */
module CreateGrammar {
  import opened Wrappers
  import opened Args
  import opened Create

  // ---------------------------------------------------------------------------
  // What an FT.CREATE command says

  /** One schema field as the command states it: the alias and the type are
      empty for a type the builder does not know, and each option is present
      only where the command can carry it. */
  datatype FieldView = FieldView(
    identifier: string, attribute: string, fieldtype: string, nostem: bool,
    sortable: bool, unf: bool, weight: Option<Num>, phonetic: string,
    separator: string, noindex: bool)

  /** The index as the command states it: SCORE carries a language, and
      TEMPORARY a number of seconds. */
  datatype CreateView = CreateView(
    indexname: string, dataType: string, prefix: seq<string>, filter: string,
    language: string, languagefield: string, score: Option<string>, scorefield: string,
    payloadfield: string, maxtextfields: bool, temporary: Option<int>,
    nooffsets: bool, nofields: bool, nofreqs: bool, skipinitialscan: bool,
    stopwords: seq<string>, fields: seq<FieldView>)

  predicate IsKnownType(t: string) {
    t == FieldTypeText || t == FieldTypeNumeric || t == FieldTypeTag || t == FieldTypeGeo
  }

  /** What the command says about one field of the builder. */
  function Denote(f: FtSchema): (v: FieldView)
    ensures v.identifier == f.identifier && v.noindex == f.option.noindex
    ensures v.unf ==> v.sortable && f.option.unf
    ensures v.weight.Some? ==> f.fieldtype == FieldTypeText && v.weight == Some(f.option.weight)
  {
    var text := f.fieldtype == FieldTypeText;
    var sorts := text || f.fieldtype == FieldTypeNumeric || f.fieldtype == FieldTypeTag;
    var known := IsKnownType(f.fieldtype);
    FieldView(
      f.identifier,
      if known then f.attribute else "",
      if known then f.fieldtype else "",
      text && f.option.nostem,
      sorts && f.sortable,
      sorts && f.sortable && f.option.unf,
      if text && !EqualsConst(f.option.weight, 0.0) && !EqualsConst(f.option.weight, 1.0)
      then Some(f.option.weight) else None,
      if text then f.option.phonetic else "",
      if f.fieldtype == FieldTypeTag then f.option.separator else "",
      f.option.noindex)
  }

  function Denotes(fs: seq<FtSchema>): (vs: seq<FieldView>)
    ensures |vs| == |fs|
    decreases |fs|
  {
    if fs == [] then [] else [Denote(fs[0])] + Denotes(fs[1..])
  }

  /** What the command says about a builder configuration. */
  function View(c: CreateConfig): CreateView {
    CreateView(
      c.indexname, c.dataType, c.prefix, c.filterexp, c.language, c.languagefield,
      if Positive(c.score) then Some(c.language) else None,
      c.scorefield, c.payloadfiled, c.maxtextfields,
      if c.temporary && c.temporaryseconds > 0 then Some(c.temporaryseconds) else None,
      c.nooffsets, c.nofields, c.nofreqs, c.skipinitialscan, c.stopwords, Denotes(c.schema))
  }

  // ---------------------------------------------------------------------------
  // Reading the schema

  /** The words that open a field option. */
  predicate IsFieldKeyword(w: string) {
    w in ["AS", "TEXT", "NUMERIC", "TAG", "GEO", "NOSTEM", "SORTABLE", "UNF",
          "WEIGHT", "PHONETIC", "SEPARATOR", "NOINDEX"]
  }

  /** Where the options of a field end: the end, or the next field's name. */
  predicate EndsField(args: seq<Arg>) {
    args == [] || !args[0].S? || !IsFieldKeyword(args[0].s)
  }

  function EmptyField(identifier: string): FieldView {
    FieldView(identifier, "", "", false, false, false, None, "", "", false)
  }

  /** The field options that are a single word; a type word sets the type. */
  predicate IsFieldFlag(w: string) {
    w in ["TEXT", "NUMERIC", "TAG", "GEO", "NOSTEM", "SORTABLE", "UNF", "NOINDEX"]
  }

  function SetFieldFlag(v: FieldView, w: string): FieldView
    requires IsFieldFlag(w)
  {
    if w == "NOSTEM" then v.(nostem := true)
    else if w == "SORTABLE" then v.(sortable := true)
    else if w == "UNF" then v.(unf := true)
    else if w == "NOINDEX" then v.(noindex := true)
    else v.(fieldtype := w)
  }

  /** The field options that take a string: AS, PHONETIC and SEPARATOR. */
  function SetFieldValue(v: FieldView, w: string, x: string): FieldView {
    if w == "AS" then v.(attribute := x)
    else if w == "PHONETIC" then v.(phonetic := x)
    else v.(separator := x)
  }

  /** Reads the options of one field, in any order, up to the next field. */
  function ParseFieldOptions(args: seq<Arg>, v: FieldView): (r: Option<(FieldView, seq<Arg>)>)
    ensures r.Some? ==> |r.value.1| <= |args|
    decreases |args|
  {
    if EndsField(args) then Some((v, args))
    else
      var w := args[0].s;
      if IsFieldFlag(w) then ParseFieldOptions(args[1..], SetFieldFlag(v, w))
      else if w == "WEIGHT" then
        if |args| >= 2 && args[1].F? then ParseFieldOptions(args[2..], v.(weight := Some(args[1].f)))
        else None
      else if |args| >= 2 && args[1].S? then ParseFieldOptions(args[2..], SetFieldValue(v, w, args[1].s))
      else None
  }

  /** Reads the fields of SCHEMA up to the end of the command. */
  function ParseFields(args: seq<Arg>): Option<seq<FieldView>>
    decreases |args|
  {
    if args == [] then Some([])
    else if !args[0].S? then None
    else
      match ParseFieldOptions(args[1..], EmptyField(args[0].s))
      case None => None
      case Some((v, rest)) =>
        match ParseFields(rest)
        case None => None
        case Some(vs) => Some([v] + vs)
  }

  // ---------------------------------------------------------------------------
  // Reading the index options

  /** The index options that are a single word. */
  datatype IndexFlag = MaxTextFields | NoOffsets | NoFields | NoFreqs | SkipInitialScan

  /** The index options that take a string. */
  datatype IndexValue = FilterValue | LanguageValue | LanguageFieldValue | ScoreValue | ScoreFieldValue | PayloadFieldValue

  /** What an option word opens. */
  datatype IndexKeyword =
    | SchemaKw | PrefixKw | StopWordsKw | TemporaryKw
    | ValueKw(value: IndexValue) | FlagKw(flag: IndexFlag) | NotKw

  /** The option word `w` names, if any (the length and the first letter are
      compared before the word itself). */
  function IndexKeywordOf(w: string): IndexKeyword {
    if |w| == 6 && w[0] == 'S' && w == "SCHEMA" then SchemaKw
    else if |w| == 6 && w[0] == 'P' && w == "PREFIX" then PrefixKw
    else if |w| == 9 && w[0] == 'S' && w == "STOPWORDS" then StopWordsKw
    else if |w| == 9 && w[0] == 'T' && w == "TEMPORARY" then TemporaryKw
    else if |w| == 6 && w[0] == 'F' && w == "FILTER" then ValueKw(FilterValue)
    else if |w| == 8 && w[0] == 'L' && w == "LANGUAGE" then ValueKw(LanguageValue)
    else if |w| == 14 && w[0] == 'L' && w == "LANGUAGE_FIELD" then ValueKw(LanguageFieldValue)
    else if |w| == 5 && w[0] == 'S' && w == "SCORE" then ValueKw(ScoreValue)
    else if |w| == 11 && w[0] == 'S' && w == "SCORE_FIELD" then ValueKw(ScoreFieldValue)
    else if |w| == 13 && w[0] == 'P' && w == "PAYLOAD_FIELD" then ValueKw(PayloadFieldValue)
    else if |w| == 13 && w[0] == 'M' && w == "MAXTEXTFIELDS" then FlagKw(MaxTextFields)
    else if |w| == 9 && w[0] == 'N' && w == "NOOFFSETS" then FlagKw(NoOffsets)
    else if |w| == 8 && w[0] == 'N' && w == "NOFIELDS" then FlagKw(NoFields)
    else if |w| == 7 && w[0] == 'N' && w == "NOFREQS" then FlagKw(NoFreqs)
    else if |w| == 15 && w[0] == 'S' && w == "SKIPINITIALSCAN" then FlagKw(SkipInitialScan)
    else NotKw
  }

  /** The word Serialize writes for a one-word option. */
  function FlagWord(f: IndexFlag): (w: string)
    ensures IndexKeywordOf(w) == FlagKw(f)
  {
    match f
    case MaxTextFields => "MAXTEXTFIELDS"
    case NoOffsets => "NOOFFSETS"
    case NoFields => "NOFIELDS"
    case NoFreqs => "NOFREQS"
    case SkipInitialScan => "SKIPINITIALSCAN"
  }

  /** The word Serialize writes for an option that takes a string. */
  function ValueWord(x: IndexValue): (w: string)
    ensures IndexKeywordOf(w) == ValueKw(x)
  {
    match x
    case FilterValue => "FILTER"
    case LanguageValue => "LANGUAGE"
    case LanguageFieldValue => "LANGUAGE_FIELD"
    case ScoreValue => "SCORE"
    case ScoreFieldValue => "SCORE_FIELD"
    case PayloadFieldValue => "PAYLOAD_FIELD"
  }

  function SetValue(v: CreateView, k: IndexValue, x: string): CreateView {
    match k
    case FilterValue => v.(filter := x)
    case LanguageValue => v.(language := x)
    case LanguageFieldValue => v.(languagefield := x)
    case ScoreValue => v.(score := Some(x))
    case ScoreFieldValue => v.(scorefield := x)
    case PayloadFieldValue => v.(payloadfield := x)
  }

  function SetFlag(v: CreateView, f: IndexFlag): CreateView {
    match f
    case MaxTextFields => v.(maxtextfields := true)
    case NoOffsets => v.(nooffsets := true)
    case NoFields => v.(nofields := true)
    case NoFreqs => v.(nofreqs := true)
    case SkipInitialScan => v.(skipinitialscan := true)
  }

  /** Reads the index options in any order; SCHEMA takes the rest. */
  function ParseOptions(args: seq<Arg>, v: CreateView): Option<CreateView>
    decreases |args|
  {
    if args == [] then Some(v)
    else if !args[0].S? then None
    else
      match IndexKeywordOf(args[0].s)
      case SchemaKw =>
        (match ParseFields(args[1..])
         case None => None
         case Some(fs) => Some(v.(fields := fs)))
      case PrefixKw =>
        (match ParseCounted(args[1..])
         case None => None
         case Some((xs, rest)) => ParseOptions(rest, v.(prefix := xs)))
      case StopWordsKw =>
        (match ParseCounted(args[1..])
         case None => None
         case Some((xs, rest)) => ParseOptions(rest, v.(stopwords := xs)))
      case TemporaryKw =>
        if |args| >= 2 && args[1].I? then ParseOptions(args[2..], v.(temporary := Some(args[1].i)))
        else None
      case ValueKw(k) =>
        if |args| >= 2 && args[1].S? then ParseOptions(args[2..], SetValue(v, k, args[1].s))
        else None
      case FlagKw(f) => ParseOptions(args[1..], SetFlag(v, f))
      case NotKw => None
  }

  function InitialView(indexname: string, dataType: string): CreateView {
    CreateView(indexname, dataType, [], "", "", "", None, "", "", false, None,
               false, false, false, false, [], [])
  }

  /** Reads an FT.CREATE command: the header, then the options. */
  function ParseCreate(args: seq<Arg>): Option<CreateView> {
    if |args| >= 4 && args[0] == S("FT.CREATE") && args[1].S? && args[2] == S("ON") && args[3].S?
    then ParseOptions(args[4..], InitialView(args[1].s, args[3].s))
    else None
  }

  // ---------------------------------------------------------------------------
  // Reading back one field

  /** An optional single-word field option is read back when present. */
  lemma {:induction false} FieldFlagStep(b: bool, w: string, rest: seq<Arg>, v: FieldView)
    requires IsFieldFlag(w)
    ensures ParseFieldOptions(When(b, [S(w)]) + rest, v)
         == ParseFieldOptions(rest, if b then SetFieldFlag(v, w) else v)
  {
    if b {
      assert ([S(w)] + rest)[1..] == rest;
    } else {
      assert When(b, [S(w)]) + rest == rest;
    }
  }

  /** An optional AS, PHONETIC or SEPARATOR option is read back when present. */
  lemma {:induction false} FieldValueStep(b: bool, w: string, x: string, rest: seq<Arg>, v: FieldView)
    requires w == "AS" || w == "PHONETIC" || w == "SEPARATOR"
    ensures ParseFieldOptions(When(b, [S(w), S(x)]) + rest, v)
         == ParseFieldOptions(rest, if b then SetFieldValue(v, w, x) else v)
  {
    if b {
      assert ([S(w), S(x)] + rest)[2..] == rest;
    } else {
      assert When(b, [S(w), S(x)]) + rest == rest;
    }
  }

  /** An optional WEIGHT is read back when present. */
  lemma {:induction false} WeightStep(b: bool, x: Num, rest: seq<Arg>, v: FieldView)
    ensures ParseFieldOptions(When(b, [S("WEIGHT"), F(x)]) + rest, v)
         == ParseFieldOptions(rest, if b then v.(weight := Some(x)) else v)
  {
    if b {
      assert ([S("WEIGHT"), F(x)] + rest)[2..] == rest;
    } else {
      assert When(b, [S("WEIGHT"), F(x)]) + rest == rest;
    }
  }

  /** `SORTABLE [UNF]` is read back. */
  lemma {:induction false} SortableStep(f: FtSchema, rest: seq<Arg>, v: FieldView)
    ensures ParseFieldOptions(SortableArgs(f) + rest, v)
         == ParseFieldOptions(rest, if f.sortable then v.(sortable := true, unf := v.unf || f.option.unf) else v)
  {
    if f.sortable {
      var u := When(f.option.unf, [S("UNF")]);
      assert SortableArgs(f) + rest == [S("SORTABLE")] + (u + rest);
      assert ([S("SORTABLE")] + (u + rest))[1..] == u + rest;
      FieldFlagStep(f.option.unf, "UNF", rest, v.(sortable := true));
    } else {
      assert SortableArgs(f) + rest == rest;
    }
  }

  /** The type word is read back. */
  lemma {:induction false} TypeWordStep(w: string, rest: seq<Arg>, v: FieldView)
    requires IsKnownType(w)
    ensures ParseFieldOptions([S(w)] + rest, v) == ParseFieldOptions(rest, v.(fieldtype := w))
  {
    FieldFlagStep(true, w, rest, v);
  }

  /** The type clause of a field is read back into what the command says
      about the field, but for NOINDEX, which follows it. */
  lemma {:induction false} TextStep(f: FtSchema, rest: seq<Arg>)
    requires f.fieldtype == FieldTypeText
    ensures ParseFieldOptions(TextArgs(f) + rest, EmptyField(f.identifier))
         == ParseFieldOptions(rest, Denote(f).(noindex := false))
  {
    var a, t, n, so := AsArgs(f.attribute), [S("TEXT")], When(f.option.nostem, [S("NOSTEM")]), SortableArgs(f);
    var wc := !EqualsConst(f.option.weight, 0.0) && !EqualsConst(f.option.weight, 1.0);
    var w := When(wc, [S("WEIGHT"), F(f.option.weight)]);
    var p := When(f.option.phonetic != "", [S("PHONETIC"), S(f.option.phonetic)]);
    AssocRight6(a, t, n, so, w, p, rest);
    var v0 := EmptyField(f.identifier);
    FieldValueStep(f.attribute != "", "AS", f.attribute, t + (n + (so + (w + (p + rest)))), v0);
    var v1 := v0.(attribute := f.attribute);
    TypeWordStep(FieldTypeText, n + (so + (w + (p + rest))), v1);
    var v2 := v1.(fieldtype := FieldTypeText);
    FieldFlagStep(f.option.nostem, "NOSTEM", so + (w + (p + rest)), v2);
    var v3 := v2.(nostem := f.option.nostem);
    SortableStep(f, w + (p + rest), v3);
    var v4 := v3.(sortable := f.sortable, unf := f.sortable && f.option.unf);
    WeightStep(wc, f.option.weight, p + rest, v4);
    var v5 := v4.(weight := if wc then Some(f.option.weight) else None);
    FieldValueStep(f.option.phonetic != "", "PHONETIC", f.option.phonetic, rest, v5);
  }

  lemma {:induction false} NumericStep(f: FtSchema, rest: seq<Arg>)
    requires f.fieldtype == FieldTypeNumeric
    ensures ParseFieldOptions(NumericArgs(f) + rest, EmptyField(f.identifier))
         == ParseFieldOptions(rest, Denote(f).(noindex := false))
  {
    var a, t, so := AsArgs(f.attribute), [S("NUMERIC")], SortableArgs(f);
    AssocRight3(a, t, so, rest);
    var v0 := EmptyField(f.identifier);
    FieldValueStep(f.attribute != "", "AS", f.attribute, t + (so + rest), v0);
    var v1 := v0.(attribute := f.attribute);
    TypeWordStep(FieldTypeNumeric, so + rest, v1);
    SortableStep(f, rest, v1.(fieldtype := FieldTypeNumeric));
  }

  lemma {:induction false} TagStep(f: FtSchema, rest: seq<Arg>)
    requires f.fieldtype == FieldTypeTag
    ensures ParseFieldOptions(TagArgs(f) + rest, EmptyField(f.identifier))
         == ParseFieldOptions(rest, Denote(f).(noindex := false))
  {
    var a, t, se, so := AsArgs(f.attribute), [S("TAG")],
      When(f.option.separator != "", [S("SEPARATOR"), S(f.option.separator)]), SortableArgs(f);
    AssocRight4(a, t, se, so, rest);
    var v0 := EmptyField(f.identifier);
    FieldValueStep(f.attribute != "", "AS", f.attribute, t + (se + (so + rest)), v0);
    var v1 := v0.(attribute := f.attribute);
    TypeWordStep(FieldTypeTag, se + (so + rest), v1);
    var v2 := v1.(fieldtype := FieldTypeTag);
    FieldValueStep(f.option.separator != "", "SEPARATOR", f.option.separator, so + rest, v2);
    SortableStep(f, rest, v2.(separator := f.option.separator));
  }

  lemma {:induction false} GeoStep(f: FtSchema, rest: seq<Arg>)
    requires f.fieldtype == FieldTypeGeo
    ensures ParseFieldOptions(GeoArgs(f) + rest, EmptyField(f.identifier))
         == ParseFieldOptions(rest, Denote(f).(noindex := false))
  {
    var a, t := AsArgs(f.attribute), [S("GEO")];
    AssocRight(a, t, rest);
    var v0 := EmptyField(f.identifier);
    FieldValueStep(f.attribute != "", "AS", f.attribute, t + rest, v0);
    TypeWordStep(FieldTypeGeo, rest, v0.(attribute := f.attribute));
  }

  lemma {:induction false} TypeStep(f: FtSchema, rest: seq<Arg>)
    ensures ParseFieldOptions(TypeArgs(f) + rest, EmptyField(f.identifier))
         == ParseFieldOptions(rest, Denote(f).(noindex := false))
  {
    if f.fieldtype == FieldTypeText {
      TextStep(f, rest);
    } else if f.fieldtype == FieldTypeNumeric {
      NumericStep(f, rest);
    } else if f.fieldtype == FieldTypeTag {
      TagStep(f, rest);
    } else if f.fieldtype == FieldTypeGeo {
      GeoStep(f, rest);
    } else {
      assert TypeArgs(f) + rest == rest;
    }
  }

  /** A field name that is no option word. */
  predicate PlainIdentifiers(fs: seq<FtSchema>) {
    forall i :: 0 <= i < |fs| ==> !IsFieldKeyword(fs[i].identifier)
  }

  /** One field is read back, up to where the next field begins. */
  lemma {:induction false} FieldRoundTrip(f: FtSchema, tail: seq<Arg>)
    requires EndsField(tail)
    ensures (FieldArgs(f) + tail)[0] == S(f.identifier)
    ensures ParseFieldOptions((FieldArgs(f) + tail)[1..], EmptyField(f.identifier)) == Some((Denote(f), tail))
  {
    var ni := When(f.option.noindex, [S("NOINDEX")]);
    var args := FieldArgs(f) + tail;
    assert args == [S(f.identifier)] + (TypeArgs(f) + (ni + tail)) by {
      AssocRight3([S(f.identifier)], TypeArgs(f), ni, tail);
    }
    assert args[1..] == TypeArgs(f) + (ni + tail);
    TypeStep(f, ni + tail);
    FieldFlagStep(f.option.noindex, "NOINDEX", tail, Denote(f).(noindex := false));
  }

  /** The fields of SCHEMA are read back, in order, when no field is named
      like a field option. */
  lemma {:induction false} FieldsRoundTrip(fs: seq<FtSchema>)
    requires PlainIdentifiers(fs)
    ensures ParseFields(FieldsArgs(fs)) == Some(Denotes(fs))
    decreases |fs|
  {
    if fs != [] {
      var f, tail := fs[0], FieldsArgs(fs[1..]);
      assert PlainIdentifiers(fs[1..]) by {
        forall i | 0 <= i < |fs[1..]| ensures !IsFieldKeyword(fs[1..][i].identifier) {
          assert fs[1..][i] == fs[i + 1];
        }
      }
      if fs[1..] != [] {
        assert tail[0] == S(fs[1].identifier);
      }
      FieldRoundTrip(f, tail);
      FieldsRoundTrip(fs[1..]);
      assert FieldsArgs(fs) == FieldArgs(f) + tail;
      assert Denotes(fs) == [Denote(f)] + Denotes(fs[1..]);
    }
  }

  // ---------------------------------------------------------------------------
  // Reading back the index options

  lemma {:induction false} ValueStep(b: bool, k: IndexValue, x: string, rest: seq<Arg>, v: CreateView)
    ensures ParseOptions(When(b, [S(ValueWord(k)), S(x)]) + rest, v)
         == ParseOptions(rest, if b then SetValue(v, k, x) else v)
  {
    if b {
      assert ([S(ValueWord(k)), S(x)] + rest)[2..] == rest;
    } else {
      assert When(b, [S(ValueWord(k)), S(x)]) + rest == rest;
    }
  }

  lemma {:induction false} FlagStep(b: bool, f: IndexFlag, rest: seq<Arg>, v: CreateView)
    ensures ParseOptions(When(b, [S(FlagWord(f))]) + rest, v) == ParseOptions(rest, if b then SetFlag(v, f) else v)
  {
    if b {
      assert ([S(FlagWord(f))] + rest)[1..] == rest;
    } else {
      assert When(b, [S(FlagWord(f))]) + rest == rest;
    }
  }

  /** A counted list is read back whole. */
  lemma {:induction false} CountedStep(b: bool, w: string, xs: seq<string>, rest: seq<Arg>, v: CreateView)
    requires w == "PREFIX" || w == "STOPWORDS"
    ensures ParseOptions(When(b, [S(w), I(|xs|)] + Strs(xs)) + rest, v)
         == ParseOptions(rest, if !b then v else if w == "PREFIX" then v.(prefix := xs) else v.(stopwords := xs))
  {
    if b {
      if w == "PREFIX" {
        CountedHead(w, PrefixKw, xs, rest, v);
      } else {
        CountedHead(w, StopWordsKw, xs, rest, v);
      }
    } else {
      assert When(b, [S(w), I(|xs|)] + Strs(xs)) + rest == rest;
    }
  }

  lemma {:induction false} CountedHead(w: string, k: IndexKeyword, xs: seq<string>, rest: seq<Arg>, v: CreateView)
    requires IndexKeywordOf(w) == k && (k == PrefixKw || k == StopWordsKw)
    ensures ParseOptions([S(w), I(|xs|)] + Strs(xs) + rest, v)
         == ParseOptions(rest, if k == PrefixKw then v.(prefix := xs) else v.(stopwords := xs))
  {
    CountedAfter(S(w), xs, rest);
    CountedRoundTrip(xs, rest);
  }

  lemma {:induction false} TemporaryStep(b: bool, n: int, rest: seq<Arg>, v: CreateView)
    ensures ParseOptions(When(b, [S("TEMPORARY"), I(n)]) + rest, v)
         == ParseOptions(rest, if b then v.(temporary := Some(n)) else v)
  {
    if b {
      assert ([S("TEMPORARY"), I(n)] + rest)[2..] == rest;
    } else {
      assert When(b, [S("TEMPORARY"), I(n)]) + rest == rest;
    }
  }

  /** PREFIX and FILTER are read back into the view t that holds them. */
  lemma {:induction false} SourceStep(c: CreateConfig, rest: seq<Arg>, t: CreateView)
    requires t.prefix == c.prefix && t.filter == c.filterexp
    ensures ParseOptions(SourceArgs(c) + rest, t.(prefix := [], filter := ""))
         == ParseOptions(rest, t)
  {
    var p := When(|c.prefix| > 0, [S("PREFIX"), I(|c.prefix|)] + Strs(c.prefix));
    var f := When(c.filterexp != "", [S("FILTER"), S(c.filterexp)]);
    AssocRight(p, f, rest);
    var v0, v1 := t.(prefix := [], filter := ""), t.(filter := "");
    CountedStep(|c.prefix| > 0, "PREFIX", c.prefix, f + rest, v0);
    assert (if |c.prefix| == 0 then v0 else v0.(prefix := c.prefix)) == v1;
    ValueStep(c.filterexp != "", FilterValue, c.filterexp, rest, v1);
    assert (if c.filterexp != "" then SetValue(v1, FilterValue, c.filterexp) else v1) == t;
  }

  /** LANGUAGE, LANGUAGE_FIELD and SCORE are read back into the view t that
      holds them; SCORE gives the language. */
  lemma {:induction false} LanguageHeadStep(c: CreateConfig, rest: seq<Arg>, t: CreateView)
    requires t.language == c.language && t.languagefield == c.languagefield
    requires t.score == (if Positive(c.score) then Some(c.language) else None)
    ensures ParseOptions(When(c.language != "", [S("LANGUAGE"), S(c.language)])
                         + (When(c.languagefield != "", [S("LANGUAGE_FIELD"), S(c.languagefield)])
                         + (When(Positive(c.score), [S("SCORE"), S(c.language)]) + rest)),
                         t.(language := "", languagefield := "", score := None))
         == ParseOptions(rest, t)
  {
    var lf := When(c.languagefield != "", [S("LANGUAGE_FIELD"), S(c.languagefield)]);
    var sc := When(Positive(c.score), [S("SCORE"), S(c.language)]);
    var v0 := t.(language := "", languagefield := "", score := None);
    var v1 := t.(languagefield := "", score := None);
    var v2 := t.(score := None);
    ValueStep(c.language != "", LanguageValue, c.language, lf + (sc + rest), v0);
    assert (if c.language != "" then SetValue(v0, LanguageValue, c.language) else v0) == v1;
    ValueStep(c.languagefield != "", LanguageFieldValue, c.languagefield, sc + rest, v1);
    assert (if c.languagefield != "" then SetValue(v1, LanguageFieldValue, c.languagefield) else v1) == v2;
    ValueStep(Positive(c.score), ScoreValue, c.language, rest, v2);
    assert (if Positive(c.score) then SetValue(v2, ScoreValue, c.language) else v2) == t;
  }

  /** SCORE_FIELD and PAYLOAD_FIELD are read back into the view t that holds them. */
  lemma {:induction false} LanguageTailStep(c: CreateConfig, rest: seq<Arg>, t: CreateView)
    requires t.scorefield == c.scorefield && t.payloadfield == c.payloadfiled
    ensures ParseOptions(When(c.scorefield != "", [S("SCORE_FIELD"), S(c.scorefield)])
                         + (When(c.payloadfiled != "", [S("PAYLOAD_FIELD"), S(c.payloadfiled)]) + rest),
                         t.(scorefield := "", payloadfield := ""))
         == ParseOptions(rest, t)
  {
    var pf := When(c.payloadfiled != "", [S("PAYLOAD_FIELD"), S(c.payloadfiled)]);
    var v3 := t.(scorefield := "", payloadfield := "");
    var v4 := t.(payloadfield := "");
    ValueStep(c.scorefield != "", ScoreFieldValue, c.scorefield, pf + rest, v3);
    assert (if c.scorefield != "" then SetValue(v3, ScoreFieldValue, c.scorefield) else v3) == v4;
    ValueStep(c.payloadfiled != "", PayloadFieldValue, c.payloadfiled, rest, v4);
    assert (if c.payloadfiled != "" then SetValue(v4, PayloadFieldValue, c.payloadfiled) else v4) == t;
  }

  /** LANGUAGE to PAYLOAD_FIELD are read back into the view t that holds them. */
  lemma {:induction false} LanguageStep(c: CreateConfig, rest: seq<Arg>, t: CreateView)
    requires t.language == c.language && t.languagefield == c.languagefield
    requires t.score == (if Positive(c.score) then Some(c.language) else None)
    requires t.scorefield == c.scorefield && t.payloadfield == c.payloadfiled
    ensures ParseOptions(LanguageArgs(c) + rest,
                         t.(language := "", languagefield := "", score := None, scorefield := "", payloadfield := ""))
         == ParseOptions(rest, t)
  {
    var l := When(c.language != "", [S("LANGUAGE"), S(c.language)]);
    var lf := When(c.languagefield != "", [S("LANGUAGE_FIELD"), S(c.languagefield)]);
    var sc := When(Positive(c.score), [S("SCORE"), S(c.language)]);
    var sf := When(c.scorefield != "", [S("SCORE_FIELD"), S(c.scorefield)]);
    var pf := When(c.payloadfiled != "", [S("PAYLOAD_FIELD"), S(c.payloadfiled)]);
    var v3 := t.(scorefield := "", payloadfield := "");
    assert t.(language := "", languagefield := "", score := None, scorefield := "", payloadfield := "")
        == v3.(language := "", languagefield := "", score := None);
    AssocRight5(l, lf, sc, sf, pf, rest);
    LanguageHeadStep(c, sf + (pf + rest), v3);
    LanguageTailStep(c, rest, t);
  }

  /** MAXTEXTFIELDS, TEMPORARY and NOOFFSETS are read back into the view t that holds them. */
  lemma {:induction false} FlagsHeadStep(c: CreateConfig, rest: seq<Arg>, t: CreateView)
    requires t.maxtextfields == c.maxtextfields && t.nooffsets == c.nooffsets
    requires t.temporary == (if c.temporary && c.temporaryseconds > 0 then Some(c.temporaryseconds) else None)
    ensures ParseOptions(When(c.maxtextfields, [S("MAXTEXTFIELDS")])
                         + (When(c.temporary && c.temporaryseconds > 0, [S("TEMPORARY"), I(c.temporaryseconds)])
                         + (When(c.nooffsets, [S("NOOFFSETS")]) + rest)),
                         t.(maxtextfields := false, temporary := None, nooffsets := false))
         == ParseOptions(rest, t)
  {
    var tb := c.temporary && c.temporaryseconds > 0;
    var tm := When(tb, [S("TEMPORARY"), I(c.temporaryseconds)]);
    var no := When(c.nooffsets, [S("NOOFFSETS")]);
    var v0 := t.(maxtextfields := false, temporary := None, nooffsets := false);
    var v1 := t.(temporary := None, nooffsets := false);
    var v2 := t.(nooffsets := false);
    FlagStep(c.maxtextfields, MaxTextFields, tm + (no + rest), v0);
    assert (if c.maxtextfields then SetFlag(v0, MaxTextFields) else v0) == v1;
    TemporaryStep(tb, c.temporaryseconds, no + rest, v1);
    assert (if tb then v1.(temporary := Some(c.temporaryseconds)) else v1) == v2;
    FlagStep(c.nooffsets, NoOffsets, rest, v2);
    assert (if c.nooffsets then SetFlag(v2, NoOffsets) else v2) == t;
  }

  /** NOFIELDS, NOFREQS and SKIPINITIALSCAN are read back into the view t that holds them. */
  lemma {:induction false} FlagsTailStep(c: CreateConfig, rest: seq<Arg>, t: CreateView)
    requires t.nofields == c.nofields && t.nofreqs == c.nofreqs && t.skipinitialscan == c.skipinitialscan
    ensures ParseOptions(When(c.nofields, [S("NOFIELDS")])
                         + (When(c.nofreqs, [S("NOFREQS")]) + (When(c.skipinitialscan, [S("SKIPINITIALSCAN")]) + rest)),
                         t.(nofields := false, nofreqs := false, skipinitialscan := false))
         == ParseOptions(rest, t)
  {
    var nq := When(c.nofreqs, [S("NOFREQS")]);
    var sk := When(c.skipinitialscan, [S("SKIPINITIALSCAN")]);
    var v3 := t.(nofields := false, nofreqs := false, skipinitialscan := false);
    var v4 := t.(nofreqs := false, skipinitialscan := false);
    var v5 := t.(skipinitialscan := false);
    FlagStep(c.nofields, NoFields, nq + (sk + rest), v3);
    assert (if c.nofields then SetFlag(v3, NoFields) else v3) == v4;
    FlagStep(c.nofreqs, NoFreqs, sk + rest, v4);
    assert (if c.nofreqs then SetFlag(v4, NoFreqs) else v4) == v5;
    FlagStep(c.skipinitialscan, SkipInitialScan, rest, v5);
    assert (if c.skipinitialscan then SetFlag(v5, SkipInitialScan) else v5) == t;
  }

  /** The flags and TEMPORARY are read back into the view t that holds them. */
  lemma {:induction false} FlagsStep(c: CreateConfig, rest: seq<Arg>, t: CreateView)
    requires t.maxtextfields == c.maxtextfields && t.nooffsets == c.nooffsets
    requires t.temporary == (if c.temporary && c.temporaryseconds > 0 then Some(c.temporaryseconds) else None)
    requires t.nofields == c.nofields && t.nofreqs == c.nofreqs && t.skipinitialscan == c.skipinitialscan
    ensures ParseOptions(FlagArgs(c) + rest,
                         t.(maxtextfields := false, temporary := None, nooffsets := false,
                            nofields := false, nofreqs := false, skipinitialscan := false))
         == ParseOptions(rest, t)
  {
    var m := When(c.maxtextfields, [S("MAXTEXTFIELDS")]);
    var tm := When(c.temporary && c.temporaryseconds > 0, [S("TEMPORARY"), I(c.temporaryseconds)]);
    var no := When(c.nooffsets, [S("NOOFFSETS")]);
    var nf := When(c.nofields, [S("NOFIELDS")]);
    var nq := When(c.nofreqs, [S("NOFREQS")]);
    var sk := When(c.skipinitialscan, [S("SKIPINITIALSCAN")]);
    var v3 := t.(nofields := false, nofreqs := false, skipinitialscan := false);
    assert t.(maxtextfields := false, temporary := None, nooffsets := false,
              nofields := false, nofreqs := false, skipinitialscan := false)
        == v3.(maxtextfields := false, temporary := None, nooffsets := false);
    AssocRight6(m, tm, no, nf, nq, sk, rest);
    FlagsHeadStep(c, nf + (nq + (sk + rest)), v3);
    FlagsTailStep(c, rest, t);
  }

  /** SCHEMA is read back to the end of the command. */
  lemma {:induction false} SchemaStep(c: CreateConfig, v: CreateView)
    requires PlainIdentifiers(c.schema) && v.fields == []
    ensures ParseOptions(SchemaArgs(c), v) == Some(v.(fields := Denotes(c.schema)))
  {
    if |c.schema| > 0 {
      var args := [S("SCHEMA")] + FieldsArgs(c.schema);
      assert args[1..] == FieldsArgs(c.schema);
      FieldsRoundTrip(c.schema);
    } else {
      assert Denotes(c.schema) == [];
    }
  }

  /** The options after the header are read back into what the builder holds. */
  lemma {:induction false} OptionsRoundTrip(c: CreateConfig)
    requires PlainIdentifiers(c.schema)
    ensures ParseOptions(SourceArgs(c) + (LanguageArgs(c) + (FlagArgs(c) + (StopWordsArgs(c) + SchemaArgs(c)))),
                         InitialView(c.indexname, c.dataType))
         == Some(View(c))
  {
    var la, fl, st, sc := LanguageArgs(c), FlagArgs(c), StopWordsArgs(c), SchemaArgs(c);
    var v4 := View(c).(fields := []);
    var v3 := v4.(stopwords := []);
    var v2 := v3.(maxtextfields := false, temporary := None, nooffsets := false,
                  nofields := false, nofreqs := false, skipinitialscan := false);
    var v1 := v2.(language := "", languagefield := "", score := None, scorefield := "", payloadfield := "");
    var v0 := InitialView(c.indexname, c.dataType);
    assert v0 == v1.(prefix := [], filter := "");
    SourceStep(c, la + (fl + (st + sc)), v1);
    LanguageStep(c, fl + (st + sc), v2);
    FlagsStep(c, st + sc, v3);
    StopWordsAndSchemaStep(c);
  }

  /** STOPWORDS and SCHEMA, the last options, complete the view. */
  lemma {:induction false} StopWordsAndSchemaStep(c: CreateConfig)
    requires PlainIdentifiers(c.schema)
    ensures ParseOptions(StopWordsArgs(c) + SchemaArgs(c), View(c).(fields := [], stopwords := [])) == Some(View(c))
  {
    var v4 := View(c).(fields := []);
    var v3 := v4.(stopwords := []);
    assert View(c).(fields := [], stopwords := []) == v3;
    CountedStep(|c.stopwords| > 0, "STOPWORDS", c.stopwords, SchemaArgs(c), v3);
    assert (if |c.stopwords| == 0 then v3 else v3.(stopwords := c.stopwords)) == v4;
    SchemaStep(c, v4);
    assert v4.(fields := Denotes(c.schema)) == View(c);
  }

  /** Reading back what Serialize writes gives what the builder holds, as far
      as the command carries it, when no field is named like a field option. */
  lemma {:induction false} CreateRoundTrip(c: CreateConfig)
    requires PlainIdentifiers(c.schema)
    ensures ParseCreate(CreateArgs(c)) == Some(View(c))
  {
    SplitCreateHeader(c);
    ParseCreateHeader(c.indexname, c.dataType,
      SourceArgs(c) + (LanguageArgs(c) + (FlagArgs(c) + (StopWordsArgs(c) + SchemaArgs(c)))));
    OptionsRoundTrip(c);
  }

  lemma SplitCreateHeader(c: CreateConfig)
    ensures CreateArgs(c)
         == [S("FT.CREATE"), S(c.indexname), S("ON"), S(c.dataType)]
            + (SourceArgs(c) + (LanguageArgs(c) + (FlagArgs(c) + (StopWordsArgs(c) + SchemaArgs(c)))))
  {
    AssocRight5(HeaderArgs(c), SourceArgs(c), LanguageArgs(c), FlagArgs(c), StopWordsArgs(c), SchemaArgs(c));
  }

  lemma ParseCreateHeader(name: string, dataType: string, tail: seq<Arg>)
    ensures ParseCreate([S("FT.CREATE"), S(name), S("ON"), S(dataType)] + tail)
         == ParseOptions(tail, InitialView(name, dataType))
  {
    var args := [S("FT.CREATE"), S(name), S("ON"), S(dataType)] + tail;
    assert args[4..] == tail;
  }

  /** Two builders whose commands are equal agree on everything the command
      carries: Serialize loses nothing else. */
  lemma CreateArgsDetermineView(c1: CreateConfig, c2: CreateConfig)
    requires PlainIdentifiers(c1.schema) && PlainIdentifiers(c2.schema)
    requires CreateArgs(c1) == CreateArgs(c2)
    ensures View(c1) == View(c2)
  {
    CreateRoundTrip(c1);
    CreateRoundTrip(c2);
  }

  /** Outside that domain the command can lose the difference: an untyped
      field named NOSTEM reads as the option of the field before it. */
  lemma KeywordIdentifierCollision()
    ensures var o := FtSchemaOption(false, false, false, "", Finite(0.0), "", false);
      var c1 := NewConfig("i").(schema := [FtSchema("a", "", FieldTypeText, false, o.(nostem := true))]);
      var c2 := NewConfig("i").(schema := [FtSchema("a", "", FieldTypeText, false, o), FtSchema("NOSTEM", "", "", false, o)]);
      CreateArgs(c1) == CreateArgs(c2) && View(c1) != View(c2)
  {
    var o := FtSchemaOption(false, false, false, "", Finite(0.0), "", false);
    var c1 := NewConfig("i").(schema := [FtSchema("a", "", FieldTypeText, false, o.(nostem := true))]);
    var c2 := NewConfig("i").(schema := [FtSchema("a", "", FieldTypeText, false, o), FtSchema("NOSTEM", "", "", false, o)]);
    var f1, f2, f3 := c1.schema[0], c2.schema[0], c2.schema[1];
    assert FieldArgs(f1) == [S("a"), S("TEXT"), S("NOSTEM")];
    assert FieldArgs(f2) == [S("a"), S("TEXT")] && FieldArgs(f3) == [S("NOSTEM")];
    assert c2.schema[1..] == [f3] && [f3][1..] == [];
    assert FieldsArgs(c2.schema) == FieldArgs(f2) + (FieldArgs(f3) + FieldsArgs([]));
    assert FieldsArgs(c1.schema) == FieldArgs(f1) + FieldsArgs([]);
    assert SchemaArgs(c1) == SchemaArgs(c2);
    assert |View(c1).fields| != |View(c2).fields|;
  }
}
