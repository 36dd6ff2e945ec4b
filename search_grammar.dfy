/** Reading an FT.SEARCH argument list back. ParseSearch is the counterpart
    of FtSearch.Serialize: it reads the header and then the options by their
    keywords, and SearchRoundTrip shows that it recovers from Serialize's
    output everything the builder holds that the command carries. */
module SearchGrammar {
  import opened Wrappers
  import opened Args
  import opened Search

  /** A FILTER as the command carries it: the bounds as rendered. */
  datatype FilterView = FilterView(field: string, min: string, max: string)

  datatype SearchFlags = SearchFlags(nocontent: bool, verbatim: bool, nostopwords: bool,
                                     withscores: bool, withpayloads: bool, withsortkeys: bool)

  /** What an FT.SEARCH command says: absent blocks are None (or empty), the
      summarize options that were not sent are 0 and "". */
  datatype SearchView = SearchView(
    indexname: string, query: string, flags: SearchFlags,
    filters: seq<FilterView>, geofilter: Option<GeoFilter>,
    inkeys: seq<string>, returnfields: Option<seq<string>>,
    summarize: Option<Summarize>, highlight: Option<Highlight>,
    slop: Option<int>, language: string, expander: string, scorer: string,
    sortby: Option<SortBy>, limit: Limit)

  function FilterViews(fs: seq<FtFilter>): (r: seq<FilterView>)
    ensures |r| == |fs|
    decreases |fs|
  {
    if fs == [] then [] else [FilterView(fs[0].field, MinBound(fs[0]), MaxBound(fs[0]))] + FilterViews(fs[1..])
  }

  /** What the command built from c carries. */
  function View(c: SearchConfig): (v: SearchView)
    ensures v.limit.num > 0
    ensures v.returnfields == c.returnfields && v.slop == c.slop
    ensures v.geofilter.Some? <==> c.geofilter.field != ""
    ensures v.summarize.Some? <==> |c.summarize.fields| > 0
    ensures v.highlight.Some? <==> |c.highlight.fields| > 0
    ensures v.sortby.Some? <==> c.sortby.attribute != ""
  {
    var s := c.summarize;
    SearchView(
      c.indexname, c.query,
      SearchFlags(c.nocontent, c.verbatim, c.nostopwords, c.withscores, c.withpayloads, c.withsortkeys),
      FilterViews(c.filters),
      if c.geofilter.field != "" then Some(c.geofilter) else None,
      c.inkeys, c.returnfields,
      if |s.fields| > 0
      then Some(Summarize(s.fields, if s.fragnum > 0 then s.fragnum else 0,
                          if s.fragsize > 0 then s.fragsize else 0, s.separator))
      else None,
      if |c.highlight.fields| > 0 then Some(c.highlight) else None,
      c.slop, c.language, c.expander, c.scorer,
      if c.sortby.attribute != "" then Some(c.sortby) else None,
      if c.limit.num > 0 then c.limit else Limit(0, 10))
  }

  // ---------------------------------------------------------------------------
  // The parser

  datatype FlagWord = NoContent | Verbatim | NoStopWords | WithScores | WithPayloads | WithSortKeys

  datatype ValueWord = Language | Expander | Scorer

  /** The words that open an option, by the shape of what follows them. */
  datatype Keyword = FlagKw(flag: FlagWord) | ValueKw(value: ValueWord)
                   | FilterKw | GeoFilterKw | InKeysKw | ReturnKw | SummarizeKw | HighlightKw
                   | FragsKw | LenKw | SeparatorKw | SlopKw | SortByKw | LimitKw | NotKw

  /** Which option a word opens; the length and a letter are looked at first. */
  function KeywordOf(w: string): Keyword {
    if |w| == 3 && w == "LEN" then LenKw
    else if |w| == 4 && w == "SLOP" then SlopKw
    else if |w| == 5 && w[0] == 'F' && w == "FRAGS" then FragsKw
    else if |w| == 5 && w[0] == 'L' && w == "LIMIT" then LimitKw
    else if |w| == 6 && w[0] == 'F' && w == "FILTER" then FilterKw
    else if |w| == 6 && w[0] == 'I' && w == "INKEYS" then InKeysKw
    else if |w| == 6 && w[0] == 'R' && w == "RETURN" then ReturnKw
    else if |w| == 6 && w[1] == 'O' && w == "SORTBY" then SortByKw
    else if |w| == 6 && w[1] == 'C' && w == "SCORER" then ValueKw(Scorer)
    else if |w| == 8 && w[0] == 'V' && w == "VERBATIM" then FlagKw(Verbatim)
    else if |w| == 8 && w[0] == 'L' && w == "LANGUAGE" then ValueKw(Language)
    else if |w| == 8 && w[0] == 'E' && w == "EXPANDER" then ValueKw(Expander)
    else if |w| == 9 && w[0] == 'N' && w == "NOCONTENT" then FlagKw(NoContent)
    else if |w| == 9 && w[0] == 'G' && w == "GEOFILTER" then GeoFilterKw
    else if |w| == 9 && w[0] == 'H' && w == "HIGHLIGHT" then HighlightKw
    else if |w| == 9 && w[1] == 'U' && w == "SUMMIRIZE" then SummarizeKw
    else if |w| == 9 && w[1] == 'E' && w == "SEPARATOR" then SeparatorKw
    else if |w| == 10 && w == "WITHSCORES" then FlagKw(WithScores)
    else if |w| == 11 && w == "NOSTOPWORDS" then FlagKw(NoStopWords)
    else if |w| == 12 && w[4] == 'P' && w == "WITHPAYLOADS" then FlagKw(WithPayloads)
    else if |w| == 12 && w[4] == 'S' && w == "WITHSORTKEYS" then FlagKw(WithSortKeys)
    else NotKw
  }

  /** A query spelled like an option word cannot be told from that option. */
  predicate IsSearchKeyword(w: string) {
    KeywordOf(w) != NotKw
  }

  function FlagName(f: FlagWord): (w: string)
    ensures KeywordOf(w) == FlagKw(f)
  {
    match f
    case NoContent => "NOCONTENT"
    case Verbatim => "VERBATIM"
    case NoStopWords => "NOSTOPWORDS"
    case WithScores => "WITHSCORES"
    case WithPayloads => "WITHPAYLOADS"
    case WithSortKeys => "WITHSORTKEYS"
  }

  function ValueName(x: ValueWord): (w: string)
    ensures KeywordOf(w) == ValueKw(x)
  {
    match x
    case Language => "LANGUAGE"
    case Expander => "EXPANDER"
    case Scorer => "SCORER"
  }

  function SetFlag(f: SearchFlags, w: FlagWord): SearchFlags {
    match w
    case NoContent => f.(nocontent := true)
    case Verbatim => f.(verbatim := true)
    case NoStopWords => f.(nostopwords := true)
    case WithScores => f.(withscores := true)
    case WithPayloads => f.(withpayloads := true)
    case WithSortKeys => f.(withsortkeys := true)
  }

  function SetValue(v: SearchView, w: ValueWord, x: string): SearchView {
    match w
    case Language => v.(language := x)
    case Expander => v.(expander := x)
    case Scorer => v.(scorer := x)
  }

  /** Reads the options by keyword up to the closing LIMIT offset num, which
      must end the command. FRAGS, LEN and SEPARATOR set the summarize block
      read before them. */
  function ParseOptions(args: seq<Arg>, v: SearchView): Option<SearchView>
    decreases |args|
  {
    if args == [] || !args[0].S? then None
    else
      match KeywordOf(args[0].s)
      case LimitKw =>
        if |args| == 3 && args[1].I? && args[2].I? then Some(v.(limit := Limit(args[1].i, args[2].i)))
        else None
      case FlagKw(f) => ParseOptions(args[1..], v.(flags := SetFlag(v.flags, f)))
      case FilterKw =>
        if |args| >= 4 && args[1].S? && args[2].S? && args[3].S?
        then ParseOptions(args[4..], v.(filters := v.filters + [FilterView(args[1].s, args[2].s, args[3].s)]))
        else None
      case GeoFilterKw =>
        if |args| >= 6 && args[1].S? && args[2].F? && args[3].F? && args[4].F? && args[5].S?
        then ParseOptions(args[6..], v.(geofilter := Some(GeoFilter(args[1].s, args[2].f, args[3].f, args[4].f, args[5].s))))
        else None
      case InKeysKw =>
        (match ParseCounted(args[1..])
         case None => None
         case Some((xs, rest)) => ParseOptions(rest, v.(inkeys := xs)))
      case ReturnKw =>
        (match ParseCounted(args[1..])
         case None => None
         case Some((xs, rest)) => ParseOptions(rest, v.(returnfields := Some(xs))))
      case SummarizeKw =>
        if |args| >= 2 && args[1] == S("FIELDS") then
          (match ParseCounted(args[2..])
           case None => None
           case Some((xs, rest)) => ParseOptions(rest, v.(summarize := Some(Summarize(xs, 0, 0, "")))))
        else None
      case HighlightKw =>
        if |args| >= 2 && args[1] == S("FIELDS") then
          (match ParseCounted(args[2..])
           case None => None
           case Some((xs, rest)) =>
             if |rest| >= 3 && rest[0] == S("TAGS") && rest[1].S? && rest[2].S?
             then ParseOptions(rest[3..], v.(highlight := Some(Highlight(xs, Tags(rest[1].s, rest[2].s)))))
             else None)
        else None
      case FragsKw =>
        if |args| >= 2 && args[1].I? && v.summarize.Some?
        then ParseOptions(args[2..], v.(summarize := Some(v.summarize.value.(fragnum := args[1].i))))
        else None
      case LenKw =>
        if |args| >= 2 && args[1].I? && v.summarize.Some?
        then ParseOptions(args[2..], v.(summarize := Some(v.summarize.value.(fragsize := args[1].i))))
        else None
      case SeparatorKw =>
        if |args| >= 2 && args[1].S? && v.summarize.Some?
        then ParseOptions(args[2..], v.(summarize := Some(v.summarize.value.(separator := args[1].s))))
        else None
      case SlopKw =>
        if |args| >= 2 && args[1].I? then ParseOptions(args[2..], v.(slop := Some(args[1].i)))
        else None
      case ValueKw(x) =>
        if |args| >= 2 && args[1].S? then ParseOptions(args[2..], SetValue(v, x, args[1].s))
        else None
      case SortByKw =>
        if |args| >= 3 && args[1].S? && (args[2] == S("ASC") || args[2] == S("DESC"))
        then ParseOptions(args[3..], v.(sortby := Some(SortBy(args[1].s, args[2] == S("ASC")))))
        else None
      case NotKw => None
  }

  function InitialView(indexname: string, query: string): SearchView {
    SearchView(indexname, query, SearchFlags(false, false, false, false, false, false), [], None,
               [], None, None, None, None, "", "", "", None, Limit(0, 10))
  }

  /** Reads an FT.SEARCH command: the index, the query when the next word
      opens no option, then the options. */
  function ParseSearch(args: seq<Arg>): Option<SearchView> {
    if |args| >= 2 && args[0] == S("FT.SEARCH") && args[1].S? then
      if |args| >= 3 && args[2].S? && !IsSearchKeyword(args[2].s)
      then ParseOptions(args[3..], InitialView(args[1].s, args[2].s))
      else ParseOptions(args[2..], InitialView(args[1].s, ""))
    else None
  }

  // ---------------------------------------------------------------------------
  // Reading back one option

  /** The flags with f set when b holds. */
  function FlagIf(fl: SearchFlags, b: bool, f: FlagWord): SearchFlags {
    if b then SetFlag(fl, f) else fl
  }

  lemma FlagIfFields(fl: SearchFlags, b: bool)
    ensures FlagIf(fl, b, NoContent) == fl.(nocontent := fl.nocontent || b)
    ensures FlagIf(fl, b, Verbatim) == fl.(verbatim := fl.verbatim || b)
    ensures FlagIf(fl, b, NoStopWords) == fl.(nostopwords := fl.nostopwords || b)
    ensures FlagIf(fl, b, WithScores) == fl.(withscores := fl.withscores || b)
    ensures FlagIf(fl, b, WithPayloads) == fl.(withpayloads := fl.withpayloads || b)
    ensures FlagIf(fl, b, WithSortKeys) == fl.(withsortkeys := fl.withsortkeys || b)
  {
  }

  lemma {:induction false} FlagStep(b: bool, f: FlagWord, rest: seq<Arg>, v: SearchView)
    ensures ParseOptions(When(b, [S(FlagName(f))]) + rest, v)
         == ParseOptions(rest, v.(flags := FlagIf(v.flags, b, f)))
  {
    if b {
      assert ([S(FlagName(f))] + rest)[1..] == rest;
    } else {
      assert When(b, [S(FlagName(f))]) + rest == rest;
      assert v.(flags := v.flags) == v;
    }
  }

  /** Three flags in a row. */
  lemma {:induction false} Flag3Step(b1: bool, f1: FlagWord, b2: bool, f2: FlagWord, b3: bool, f3: FlagWord,
                                     rest: seq<Arg>, v: SearchView)
    ensures ParseOptions(When(b1, [S(FlagName(f1))]) + (When(b2, [S(FlagName(f2))]) + (When(b3, [S(FlagName(f3))]) + rest)), v)
         == ParseOptions(rest, v.(flags := FlagIf(FlagIf(FlagIf(v.flags, b1, f1), b2, f2), b3, f3)))
  {
    var t2 := When(b2, [S(FlagName(f2))]) + (When(b3, [S(FlagName(f3))]) + rest);
    var t3 := When(b3, [S(FlagName(f3))]) + rest;
    var v1 := v.(flags := FlagIf(v.flags, b1, f1));
    var v2 := v1.(flags := FlagIf(v1.flags, b2, f2));
    FlagStep(b1, f1, t2, v);
    FlagStep(b2, f2, t3, v1);
    FlagStep(b3, f3, rest, v2);
  }

  lemma {:induction false} ValueStep(b: bool, w: ValueWord, x: string, rest: seq<Arg>, v: SearchView)
    ensures ParseOptions(When(b, [S(ValueName(w)), S(x)]) + rest, v)
         == ParseOptions(rest, if b then SetValue(v, w, x) else v)
  {
    if b {
      assert ([S(ValueName(w)), S(x)] + rest)[2..] == rest;
    } else {
      assert When(b, [S(ValueName(w)), S(x)]) + rest == rest;
    }
  }

  lemma {:induction false} FilterHead(f: FtFilter, rest: seq<Arg>, v: SearchView)
    ensures ParseOptions(FilterArgs(f) + rest, v)
         == ParseOptions(rest, v.(filters := v.filters + [FilterView(f.field, MinBound(f), MaxBound(f))]))
  {
    var args := FilterArgs(f) + rest;
    assert KeywordOf("FILTER") == FilterKw;
    assert args[0] == S("FILTER") && args[1] == S(f.field) && args[2] == S(MinBound(f)) && args[3] == S(MaxBound(f));
    assert args[4..] == rest;
  }

  /** A counted list after INKEYS or RETURN is read back whole. */
  lemma {:induction false} InKeysHead(xs: seq<string>, rest: seq<Arg>, v: SearchView)
    ensures ParseOptions([S("INKEYS"), I(|xs|)] + Strs(xs) + rest, v) == ParseOptions(rest, v.(inkeys := xs))
  {
    CountedAfter(S("INKEYS"), xs, rest);
    assert KeywordOf("INKEYS") == InKeysKw;
    CountedRoundTrip(xs, rest);
  }

  lemma {:induction false} ReturnHead(xs: seq<string>, rest: seq<Arg>, v: SearchView)
    ensures ParseOptions([S("RETURN"), I(|xs|)] + Strs(xs) + rest, v) == ParseOptions(rest, v.(returnfields := Some(xs)))
  {
    CountedAfter(S("RETURN"), xs, rest);
    assert KeywordOf("RETURN") == ReturnKw;
    CountedRoundTrip(xs, rest);
  }

  lemma {:induction false} GeoHead(g: GeoFilter, rest: seq<Arg>, v: SearchView)
    ensures ParseOptions([S("GEOFILTER"), S(g.field), F(g.lon), F(g.lat), F(g.radius), S(g.unit)] + rest, v)
         == ParseOptions(rest, v.(geofilter := Some(g)))
  {
    var args := [S("GEOFILTER"), S(g.field), F(g.lon), F(g.lat), F(g.radius), S(g.unit)] + rest;
    assert KeywordOf("GEOFILTER") == GeoFilterKw;
    assert args[6..] == rest;
  }

  lemma {:induction false} SummarizeHead(xs: seq<string>, rest: seq<Arg>, v: SearchView)
    ensures ParseOptions([S("SUMMIRIZE"), S("FIELDS")] + (Counted(xs) + rest), v)
         == ParseOptions(rest, v.(summarize := Some(Summarize(xs, 0, 0, ""))))
  {
    var args := [S("SUMMIRIZE"), S("FIELDS")] + (Counted(xs) + rest);
    assert args[0] == S("SUMMIRIZE") && args[1] == S("FIELDS") && args[2..] == Counted(xs) + rest;
    assert KeywordOf("SUMMIRIZE") == SummarizeKw;
    CountedRoundTrip(xs, rest);
    assert ParseCounted(args[2..]) == Some((xs, rest));
  }

  lemma {:induction false} HighlightHead(xs: seq<string>, open: string, close: string, rest: seq<Arg>, v: SearchView)
    ensures ParseOptions([S("HIGHLIGHT"), S("FIELDS")] + (Counted(xs) + ([S("TAGS"), S(open), S(close)] + rest)), v)
         == ParseOptions(rest, v.(highlight := Some(Highlight(xs, Tags(open, close)))))
  {
    var tags := [S("TAGS"), S(open), S(close)] + rest;
    var args := [S("HIGHLIGHT"), S("FIELDS")] + (Counted(xs) + tags);
    assert args[0] == S("HIGHLIGHT") && args[1] == S("FIELDS") && args[2..] == Counted(xs) + tags;
    assert KeywordOf("HIGHLIGHT") == HighlightKw;
    CountedRoundTrip(xs, tags);
    assert ParseCounted(args[2..]) == Some((xs, tags));
    assert tags[0] == S("TAGS") && tags[1] == S(open) && tags[2] == S(close) && tags[3..] == rest;
  }

  /** FRAGS, LEN and SEPARATOR, each when it is sent, set the summarize block. */
  lemma {:induction false} FragsStep(b: bool, n: int, rest: seq<Arg>, v: SearchView, s: Summarize)
    requires v.summarize == Some(s)
    ensures ParseOptions(When(b, [S("FRAGS"), I(n)]) + rest, v)
         == ParseOptions(rest, if b then v.(summarize := Some(s.(fragnum := n))) else v)
  {
    if b {
      assert KeywordOf("FRAGS") == FragsKw;
      assert ([S("FRAGS"), I(n)] + rest)[2..] == rest;
    } else {
      assert When(b, [S("FRAGS"), I(n)]) + rest == rest;
    }
  }

  lemma {:induction false} LenStep(b: bool, n: int, rest: seq<Arg>, v: SearchView, s: Summarize)
    requires v.summarize == Some(s)
    ensures ParseOptions(When(b, [S("LEN"), I(n)]) + rest, v)
         == ParseOptions(rest, if b then v.(summarize := Some(s.(fragsize := n))) else v)
  {
    if b {
      assert KeywordOf("LEN") == LenKw;
      assert ([S("LEN"), I(n)] + rest)[2..] == rest;
    } else {
      assert When(b, [S("LEN"), I(n)]) + rest == rest;
    }
  }

  lemma {:induction false} SeparatorStep(b: bool, x: string, rest: seq<Arg>, v: SearchView, s: Summarize)
    requires v.summarize == Some(s)
    ensures ParseOptions(When(b, [S("SEPARATOR"), S(x)]) + rest, v)
         == ParseOptions(rest, if b then v.(summarize := Some(s.(separator := x))) else v)
  {
    if b {
      assert KeywordOf("SEPARATOR") == SeparatorKw;
      assert ([S("SEPARATOR"), S(x)] + rest)[2..] == rest;
    } else {
      assert When(b, [S("SEPARATOR"), S(x)]) + rest == rest;
    }
  }

  lemma {:induction false} SlopStep(slop: Option<int>, rest: seq<Arg>, v: SearchView)
    ensures ParseOptions((match slop case None => [] case Some(n) => [S("SLOP"), I(n)]) + rest, v)
         == ParseOptions(rest, if slop.Some? then v.(slop := slop) else v)
  {
    match slop {
      case None =>
        assert [] + rest == rest;
      case Some(n) =>
        assert KeywordOf("SLOP") == SlopKw;
        assert ([S("SLOP"), I(n)] + rest)[2..] == rest;
    }
  }

  lemma {:induction false} LimitHead(l: seq<Arg>, v: SearchView, offset: int, num: int)
    requires l == [S("LIMIT"), I(offset), I(num)]
    ensures ParseOptions(l, v) == Some(v.(limit := Limit(offset, num)))
  {
    assert KeywordOf("LIMIT") == LimitKw;
  }

  /** SORTBY and its direction are read back. */
  lemma {:induction false} SortHead(attr: string, asc: bool, rest: seq<Arg>, v: SearchView)
    ensures ParseOptions([S("SORTBY"), S(attr)] + (if asc then [S("ASC")] else [S("DESC")]) + rest, v)
         == ParseOptions(rest, v.(sortby := Some(SortBy(attr, asc))))
  {
    var args := [S("SORTBY"), S(attr)] + (if asc then [S("ASC")] else [S("DESC")]) + rest;
    assert KeywordOf("SORTBY") == SortByKw;
    assert args[2] == (if asc then S("ASC") else S("DESC"));
    assert args[3..] == rest;
  }

  // ---------------------------------------------------------------------------
  // Reading back one block of Serialize's output

  /** Setting the six flags of c, one after the other, on flags that are all off. */
  lemma SixFlags(c: SearchConfig, fl: SearchFlags)
    requires fl == SearchFlags(false, false, false, false, false, false)
    ensures FlagIf(FlagIf(FlagIf(FlagIf(FlagIf(FlagIf(fl, c.nocontent, NoContent), c.verbatim, Verbatim),
              c.nostopwords, NoStopWords), c.withscores, WithScores), c.withpayloads, WithPayloads),
              c.withsortkeys, WithSortKeys)
         == SearchFlags(c.nocontent, c.verbatim, c.nostopwords, c.withscores, c.withpayloads, c.withsortkeys)
  {
    var fl1 := FlagIf(fl, c.nocontent, NoContent);
    var fl2 := FlagIf(fl1, c.verbatim, Verbatim);
    var fl3 := FlagIf(fl2, c.nostopwords, NoStopWords);
    var fl4 := FlagIf(fl3, c.withscores, WithScores);
    var fl5 := FlagIf(fl4, c.withpayloads, WithPayloads);
    FlagIfFields(fl, c.nocontent);
    FlagIfFields(fl1, c.verbatim);
    FlagIfFields(fl2, c.nostopwords);
    FlagIfFields(fl3, c.withscores);
    FlagIfFields(fl4, c.withpayloads);
    FlagIfFields(fl5, c.withsortkeys);
  }

  /** The six flags are read back into the flags of the view. */
  lemma {:induction false} FlagsStep(c: SearchConfig, rest: seq<Arg>, v: SearchView)
    requires v.flags == SearchFlags(false, false, false, false, false, false)
    ensures ParseOptions(FlagArgs(c) + rest, v)
         == ParseOptions(rest, v.(flags := SearchFlags(c.nocontent, c.verbatim, c.nostopwords,
                                                      c.withscores, c.withpayloads, c.withsortkeys)))
  {
    var a := When(c.nocontent, [S(FlagName(NoContent))]);
    var b := When(c.verbatim, [S(FlagName(Verbatim))]);
    var d := When(c.nostopwords, [S(FlagName(NoStopWords))]);
    var e := When(c.withscores, [S(FlagName(WithScores))]);
    var g := When(c.withpayloads, [S(FlagName(WithPayloads))]);
    var h := When(c.withsortkeys, [S(FlagName(WithSortKeys))]);
    assert FlagArgs(c) == a + b + d + e + g + h;
    var tail := e + (g + (h + rest));
    AssocRight6(a, b, d, e, g, h, rest);
    var f3 := FlagIf(FlagIf(FlagIf(v.flags, c.nocontent, NoContent), c.verbatim, Verbatim), c.nostopwords, NoStopWords);
    Flag3Step(c.nocontent, NoContent, c.verbatim, Verbatim, c.nostopwords, NoStopWords, tail, v);
    Flag3Step(c.withscores, WithScores, c.withpayloads, WithPayloads, c.withsortkeys, WithSortKeys, rest, v.(flags := f3));
    SixFlags(c, v.flags);
  }

  /** The FILTER blocks are read back in order, after those already read. */
  lemma {:induction false} FiltersStep(fs: seq<FtFilter>, rest: seq<Arg>, v: SearchView)
    ensures ParseOptions(FiltersArgs(fs) + rest, v)
         == ParseOptions(rest, v.(filters := v.filters + FilterViews(fs)))
    decreases |fs|
  {
    if fs == [] {
      assert FiltersArgs(fs) + rest == rest;
      assert v.filters + FilterViews(fs) == v.filters;
      assert v.(filters := v.filters) == v;
    } else {
      var f := fs[0];
      var v1 := v.(filters := v.filters + [FilterView(f.field, MinBound(f), MaxBound(f))]);
      FirstFilterStep(fs, rest, v);
      FiltersStep(fs[1..], rest, v1);
      FilterViewsCons(fs, v.filters);
    }
  }

  /** The first FILTER block of several is read first. */
  lemma FirstFilterStep(fs: seq<FtFilter>, rest: seq<Arg>, v: SearchView)
    requires fs != []
    ensures ParseOptions(FiltersArgs(fs) + rest, v)
         == ParseOptions(FiltersArgs(fs[1..]) + rest,
                         v.(filters := v.filters + [FilterView(fs[0].field, MinBound(fs[0]), MaxBound(fs[0]))]))
  {
    AssocRight(FilterArgs(fs[0]), FiltersArgs(fs[1..]), rest);
    FilterHead(fs[0], FiltersArgs(fs[1..]) + rest, v);
  }

  lemma FilterViewsCons(fs: seq<FtFilter>, done: seq<FilterView>)
    requires fs != []
    ensures done + [FilterView(fs[0].field, MinBound(fs[0]), MaxBound(fs[0]))] + FilterViews(fs[1..])
         == done + FilterViews(fs)
  {
  }

  /** GEOFILTER, INKEYS and RETURN are read back. */
  lemma {:induction false} GeoAndKeysStep(c: SearchConfig, rest: seq<Arg>, v: SearchView)
    requires v.geofilter == None && v.inkeys == [] && v.returnfields == None
    ensures ParseOptions(GeoArgs(c) + (KeysArgs(c) + rest), v)
         == ParseOptions(rest, v.(geofilter := View(c).geofilter, inkeys := c.inkeys, returnfields := c.returnfields))
  {
    var gf := c.geofilter;
    var v1 := v.(geofilter := View(c).geofilter);
    if gf.field != "" {
      GeoHead(gf, KeysArgs(c) + rest, v);
    } else {
      assert GeoArgs(c) + (KeysArgs(c) + rest) == KeysArgs(c) + rest;
    }
    var ks := When(|c.inkeys| > 0, [S("INKEYS"), I(|c.inkeys|)] + Strs(c.inkeys));
    var rs := match c.returnfields case None => [] case Some(xs) => [S("RETURN"), I(|xs|)] + Strs(xs);
    assert KeysArgs(c) == ks + rs;
    AssocRight(ks, rs, rest);
    var v2 := v1.(inkeys := c.inkeys);
    if |c.inkeys| > 0 {
      InKeysHead(c.inkeys, rs + rest, v1);
    } else {
      assert ks + (rs + rest) == rs + rest;
      assert v1 == v2;
    }
    match c.returnfields {
      case None =>
        assert rs + rest == rest;
      case Some(xs) =>
        ReturnHead(xs, rest, v2);
    }
  }

  /** The summarize block and its options are read back. */
  lemma {:induction false} SummarizeStep(c: SearchConfig, rest: seq<Arg>, v: SearchView)
    requires v.summarize == None
    ensures ParseOptions(SummarizeArgs(c) + rest, v) == ParseOptions(rest, v.(summarize := View(c).summarize))
  {
    var s := c.summarize;
    if |s.fields| > 0 {
      var v0 := v.(summarize := Some(Summarize(s.fields, 0, 0, "")));
      SummarizeArgsSplit(c, rest);
      SummarizeHead(s.fields, SummarizeOptionArgs(s) + rest, v);
      SummarizeOptionsStep(s, rest, v0);
      ViewSummarize(c);
    } else {
      assert SummarizeArgs(c) + rest == rest;
      assert v.(summarize := None) == v;
    }
  }

  lemma SummarizeArgsSplit(c: SearchConfig, rest: seq<Arg>)
    requires |c.summarize.fields| > 0
    ensures SummarizeArgs(c) + rest
         == [S("SUMMIRIZE"), S("FIELDS")] + (Counted(c.summarize.fields) + (SummarizeOptionArgs(c.summarize) + rest))
  {
    var s := c.summarize;
    var head, count, names, opts := [S("SUMMIRIZE"), S("FIELDS")], [I(|s.fields|)], Strs(s.fields), SummarizeOptionArgs(s);
    assert [S("SUMMIRIZE")] + [S("FIELDS"), I(|s.fields|)] == head + count;
    assert SummarizeArgs(c) == head + count + names + opts;
    AssocRight4(head, count, names, opts, rest);
    Assoc(count, names, opts + rest);
  }

  lemma ViewSummarize(c: SearchConfig)
    requires |c.summarize.fields| > 0
    ensures View(c).summarize
         == Some(Summarize(c.summarize.fields, if c.summarize.fragnum > 0 then c.summarize.fragnum else 0,
                           if c.summarize.fragsize > 0 then c.summarize.fragsize else 0, c.summarize.separator))
  {
  }

  /** FRAGS, LEN and SEPARATOR, as sent, fill in the summarize block that
      SUMMIRIZE opened; a count that is not positive stays 0. */
  lemma {:induction false} SummarizeOptionsStep(s: Summarize, rest: seq<Arg>, v: SearchView)
    requires v.summarize == Some(Summarize(s.fields, 0, 0, ""))
    ensures ParseOptions(SummarizeOptionArgs(s) + rest, v)
         == ParseOptions(rest, v.(summarize := Some(Summarize(s.fields, if s.fragnum > 0 then s.fragnum else 0,
                                                             if s.fragsize > 0 then s.fragsize else 0, s.separator))))
  {
    var fr := When(s.fragnum > 0, [S("FRAGS"), I(s.fragnum)]);
    var ln := When(s.fragsize > 0, [S("LEN"), I(s.fragsize)]);
    var sp := When(s.separator != "", [S("SEPARATOR"), S(s.separator)]);
    var s0 := Summarize(s.fields, 0, 0, "");
    var s1 := s0.(fragnum := if s.fragnum > 0 then s.fragnum else 0);
    var s2 := s1.(fragsize := if s.fragsize > 0 then s.fragsize else 0);
    var s3 := s2.(separator := s.separator);
    calc {
      ParseOptions(SummarizeOptionArgs(s) + rest, v);
      { AssocRight3(fr, ln, sp, rest); }
      ParseOptions(fr + (ln + (sp + rest)), v);
      { FragsStep(s.fragnum > 0, s.fragnum, ln + (sp + rest), v, s0); }
      ParseOptions(ln + (sp + rest), v.(summarize := Some(s1)));
      { LenStep(s.fragsize > 0, s.fragsize, sp + rest, v.(summarize := Some(s1)), s1); }
      ParseOptions(sp + rest, v.(summarize := Some(s2)));
      { SeparatorStep(s.separator != "", s.separator, rest, v.(summarize := Some(s2)), s2);
        assert s.separator == "" ==> s2 == s3; }
      ParseOptions(rest, v.(summarize := Some(s3)));
    }
  }

  /** The highlight block is read back. */
  lemma {:induction false} HighlightStep(c: SearchConfig, rest: seq<Arg>, v: SearchView)
    requires v.highlight == None
    ensures ParseOptions(HighlightArgs(c) + rest, v) == ParseOptions(rest, v.(highlight := View(c).highlight))
  {
    var h := c.highlight;
    if |h.fields| > 0 {
      var tags := [S("TAGS"), S(h.tags.open), S(h.tags.close)];
      assert HighlightArgs(c) + rest == [S("HIGHLIGHT"), S("FIELDS")] + (Counted(h.fields) + (tags + rest));
      HighlightHead(h.fields, h.tags.open, h.tags.close, rest, v);
    } else {
      assert HighlightArgs(c) + rest == rest;
      assert v.(highlight := None) == v;
    }
  }

  /** SLOP, LANGUAGE, EXPANDER and SCORER are read back into the view t that
      holds them. */
  lemma {:induction false} TuningStep(c: SearchConfig, rest: seq<Arg>, t: SearchView)
    requires t.slop == c.slop && t.language == c.language && t.expander == c.expander && t.scorer == c.scorer
    ensures ParseOptions(TuningArgs(c) + rest, t.(slop := None, language := "", expander := "", scorer := ""))
         == ParseOptions(rest, t)
  {
    var sl := match c.slop case None => [] case Some(n) => [S("SLOP"), I(n)];
    var la := When(c.language != "", [S(ValueName(Language)), S(c.language)]);
    var ex := When(c.expander != "", [S(ValueName(Expander)), S(c.expander)]);
    var sc := When(c.scorer != "", [S(ValueName(Scorer)), S(c.scorer)]);
    var v0 := t.(slop := None, language := "", expander := "", scorer := "");
    var v1 := t.(language := "", expander := "", scorer := "");
    var v2 := t.(expander := "", scorer := "");
    var v3 := t.(scorer := "");
    assert TuningArgs(c) == sl + la + ex + sc;
    calc {
      ParseOptions(TuningArgs(c) + rest, v0);
      { AssocRight4(sl, la, ex, sc, rest); }
      ParseOptions(sl + (la + (ex + (sc + rest))), v0);
      { SlopStep(c.slop, la + (ex + (sc + rest)), v0); }
      ParseOptions(la + (ex + (sc + rest)), v1);
      { ValueStep(c.language != "", Language, c.language, ex + (sc + rest), v1); }
      ParseOptions(ex + (sc + rest), v2);
      { ValueStep(c.expander != "", Expander, c.expander, sc + rest, v2); }
      ParseOptions(sc + rest, v3);
      { ValueStep(c.scorer != "", Scorer, c.scorer, rest, v3); }
      ParseOptions(rest, t);
    }
  }

  /** SORTBY and its direction are read back, then the closing LIMIT. */
  lemma {:induction false} SortAndLimitStep(c: SearchConfig, v: SearchView)
    requires v.sortby == None
    ensures ParseOptions(SortArgs(c) + LimitArgs(c), v)
         == Some(v.(sortby := View(c).sortby, limit := View(c).limit))
  {
    var v1 := v.(sortby := View(c).sortby);
    var l := LimitArgs(c);
    if c.sortby.attribute != "" {
      SortHead(c.sortby.attribute, c.sortby.asc, l, v);
    } else {
      assert SortArgs(c) + l == l;
      assert v1 == v;
    }
    LimitHead(l, v1, View(c).limit.offset, View(c).limit.num);
  }

  // ---------------------------------------------------------------------------
  // The whole command

  /** The options Serialize writes after the header, grouped from the right. */
  function OptionArgs(c: SearchConfig): seq<Arg> {
    FlagArgs(c) + (FiltersArgs(c.filters) + (GeoArgs(c) + (KeysArgs(c)
    + (SummarizeArgs(c) + (HighlightArgs(c) + (TuningArgs(c) + (SortArgs(c) + LimitArgs(c))))))))
  }

  /** The options after the header are read back into what the builder holds. */
  lemma {:induction false} OptionsRoundTrip(c: SearchConfig)
    ensures ParseOptions(OptionArgs(c), InitialView(c.indexname, c.query)) == Some(View(c))
  {
    var w := View(c);
    var sl := SortArgs(c) + LimitArgs(c);
    var tu := TuningArgs(c) + sl;
    var hi := HighlightArgs(c) + tu;
    var su := SummarizeArgs(c) + hi;
    var ke := KeysArgs(c) + su;
    var fi := FiltersArgs(c.filters) + (GeoArgs(c) + ke);
    var v7 := w.(sortby := None, limit := Limit(0, 10));
    var v6 := v7.(slop := None, language := "", expander := "", scorer := "");
    var v5 := v6.(highlight := None);
    var v4 := v5.(summarize := None);
    var v3 := v4.(geofilter := None, inkeys := [], returnfields := None);
    var v2 := v3.(filters := []);
    var v1 := v2.(flags := SearchFlags(false, false, false, false, false, false));
    assert v1 == InitialView(c.indexname, c.query);
    FlagsStep(c, fi, v1);
    assert v1.(flags := w.flags) == v2;
    FiltersStep(c.filters, GeoArgs(c) + ke, v2);
    assert v2.(filters := [] + FilterViews(c.filters)) == v3;
    GeoAndKeysStep(c, su, v3);
    assert v3.(geofilter := w.geofilter, inkeys := c.inkeys, returnfields := c.returnfields) == v4;
    SummarizeStep(c, hi, v4);
    HighlightStep(c, tu, v5);
    TuningStep(c, sl, v7);
    SortAndLimitStep(c, v7);
  }

  /** Options that can be read start with an option word. */
  lemma OptionsStartWithKeyword(args: seq<Arg>, v: SearchView)
    requires ParseOptions(args, v).Some?
    ensures |args| >= 1 && args[0].S? && IsSearchKeyword(args[0].s)
  {
  }

  lemma SplitHeader(c: SearchConfig)
    ensures SearchArgs(c) == HeaderArgs(c) + OptionArgs(c)
  {
    AssocRight9(HeaderArgs(c), FlagArgs(c), FiltersArgs(c.filters), GeoArgs(c), KeysArgs(c), SummarizeArgs(c),
               HighlightArgs(c), TuningArgs(c), SortArgs(c), LimitArgs(c));
  }

  /** What ParseSearch does with a header and the options after it. */
  lemma {:induction false} ParseHeader(name: string, query: string, tail: seq<Arg>, v: SearchView)
    requires !IsSearchKeyword(query)
    requires ParseOptions(tail, InitialView(name, query)) == Some(v)
    ensures ParseSearch([S("FT.SEARCH"), S(name)] + When(query != "", [S(query)]) + tail) == Some(v)
  {
    var args := [S("FT.SEARCH"), S(name)] + When(query != "", [S(query)]) + tail;
    OptionsStartWithKeyword(tail, InitialView(name, query));
    if query != "" {
      assert args == [S("FT.SEARCH"), S(name), S(query)] + tail;
      assert args[3..] == tail;
    } else {
      assert args == [S("FT.SEARCH"), S(name)] + tail;
      assert args[2..] == tail;
    }
  }

  /** Reading back what Serialize writes gives what the builder holds, as far
      as the command carries it, when the query is not spelled like an option. */
  lemma {:induction false} SearchRoundTrip(c: SearchConfig)
    requires !IsSearchKeyword(c.query)
    ensures ParseSearch(SearchArgs(c)) == Some(View(c))
  {
    SplitHeader(c);
    OptionsRoundTrip(c);
    ParseHeader(c.indexname, c.query, OptionArgs(c), View(c));
  }

  /** Two builders whose commands are equal agree on everything the command
      carries (for queries not spelled like an option). */
  lemma SearchArgsDetermineView(c1: SearchConfig, c2: SearchConfig)
    requires !IsSearchKeyword(c1.query) && !IsSearchKeyword(c2.query)
    requires SearchArgs(c1) == SearchArgs(c2)
    ensures View(c1) == View(c2)
  {
    SearchRoundTrip(c1);
    SearchRoundTrip(c2);
  }

  /** Outside that domain the command can lose the difference: a query
      spelled NOCONTENT is sent as the NOCONTENT flag would be. */
  lemma KeywordQueryCollision()
    ensures var c1, c2 := NewConfig("i").(query := "NOCONTENT"), NewConfig("i").(nocontent := true);
      SearchArgs(c1) == SearchArgs(c2) && View(c1) != View(c2)
  {
    var c1, c2 := NewConfig("i").(query := "NOCONTENT"), NewConfig("i").(nocontent := true);
    assert HeaderArgs(c1) + FlagArgs(c1) == [S("FT.SEARCH"), S("i"), S("NOCONTENT")] == HeaderArgs(c2) + FlagArgs(c2);
    assert View(c1).query != View(c2).query;
  }

  /** A nil return list sends no RETURN; an empty one sends RETURN 0, and so
      the two commands differ. */
  lemma ReturnNilDiffersFromEmpty(c: SearchConfig)
    ensures SearchArgs(c.(returnfields := None)) != SearchArgs(c.(returnfields := Some([])))
  {
    var c1, c2 := c.(returnfields := None), c.(returnfields := Some([]));
    assert |KeysArgs(c2)| == |KeysArgs(c1)| + 2;
    SearchArgsLength(c1);
    SearchArgsLength(c2);
    BlocksIgnoreReturn(c, None);
    BlocksIgnoreReturn(c, Some([]));
  }

  /** Every block but KeysArgs ignores the return list. */
  lemma BlocksIgnoreReturn(c: SearchConfig, r: Option<seq<string>>)
    ensures var d := c.(returnfields := r);
      HeaderArgs(d) == HeaderArgs(c) && FlagArgs(d) == FlagArgs(c) && GeoArgs(d) == GeoArgs(c)
      && SummarizeArgs(d) == SummarizeArgs(c) && HighlightArgs(d) == HighlightArgs(c)
      && TuningArgs(d) == TuningArgs(c) && SortArgs(d) == SortArgs(c) && LimitArgs(d) == LimitArgs(c)
  {
  }

  /** The length of a search command, block by block. */
  lemma SearchArgsLength(c: SearchConfig)
    ensures |SearchArgs(c)| == |HeaderArgs(c)| + |FlagArgs(c)| + |FiltersArgs(c.filters)| + |GeoArgs(c)|
                               + |KeysArgs(c)| + |SummarizeArgs(c)| + |HighlightArgs(c)| + |TuningArgs(c)|
                               + |SortArgs(c)| + |LimitArgs(c)|
  {
  }
}
