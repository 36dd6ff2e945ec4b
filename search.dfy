/** The FT.SEARCH builder (redisearch/search.go): an FtSearch object collects
    the search options through its setters, and Serialize writes the argument
    list of the command. */
module Search {
  import opened Wrappers
  import opened Strings
  import opened Args

  /** The units of a GEOFILTER radius. */
  const KILOMETERS: string := "km"
  const METERS: string := "m"
  const FEET: string := "ft"
  const MILES: string := "mi"

  /** One numeric filter; the bounds are Go float64 values. */
  datatype FtFilter = FtFilter(field: string, min: Num, exclusiveMin: bool, max: Num, exclusiveMax: bool)

  datatype GeoFilter = GeoFilter(field: string, lon: Num, lat: Num, radius: Num, unit: string)

  datatype Summarize = Summarize(fields: seq<string>, fragnum: int, fragsize: int, separator: string)

  datatype Tags = Tags(open: string, close: string)

  datatype Highlight = Highlight(fields: seq<string>, tags: Tags)

  datatype SortBy = SortBy(attribute: string, asc: bool)

  datatype Limit = Limit(offset: int, num: int)

  /** The state of an FtSearch, field by field. The returned fields keep
      Go's distinction between a nil slice (None) and an empty one, and the
      slop pointer is None when nil. */
  datatype SearchConfig = SearchConfig(
    indexname: string, query: string,
    nocontent: bool, verbatim: bool, nostopwords: bool,
    withscores: bool, withpayloads: bool, withsortkeys: bool,
    filters: seq<FtFilter>, geofilter: GeoFilter,
    inkeys: seq<string>, infields: seq<string>, returnfields: Option<seq<string>>,
    summarize: Summarize, highlight: Highlight,
    slop: Option<int>, inorder: bool, language: string, expander: string, scorer: string,
    payload: seq<bv8>, sortby: SortBy, limit: Limit)

  /** The Go zero value of every field but the index name. */
  function NewConfig(indexName: string): (c: SearchConfig)
    ensures c.indexname == indexName && c.query == "" && c.filters == []
    ensures c.returnfields == None && c.slop == None && c.limit == Limit(0, 0)
  {
    SearchConfig(indexName, "", false, false, false, false, false, false, [],
                 GeoFilter("", Finite(0.0), Finite(0.0), Finite(0.0), ""), [], [], None,
                 Summarize([], 0, 0, ""), Highlight([], Tags("", "")), None, false, "", "", "",
                 [], SortBy("", false), Limit(0, 0))
  }

  // ---------------------------------------------------------------------------
  // The argument list

  /** The lower bound of a FILTER: exclusion first, then +Inf, then the number. */
  function MinBound(f: FtFilter): string {
    if f.exclusiveMin then "(" + FmtF(f.min)
    else if IsInf(f.min, 1) then "+inf"
    else FmtF(f.min)
  }

  /** The upper bound of a FILTER: exclusion first, then -Inf, then the number. */
  function MaxBound(f: FtFilter): string {
    if f.exclusiveMax then "(" + FmtF(f.max)
    else if IsInf(f.max, -1) then "-inf"
    else FmtF(f.max)
  }

  function FilterArgs(f: FtFilter): seq<Arg> {
    [S("FILTER"), S(f.field), S(MinBound(f)), S(MaxBound(f))]
  }

  /** The FILTER blocks, one per filter, in order. */
  function FiltersArgs(fs: seq<FtFilter>): (r: seq<Arg>)
    ensures |r| == 4 * |fs|
    decreases |fs|
  {
    if fs == [] then [] else FilterArgs(fs[0]) + FiltersArgs(fs[1..])
  }

  lemma {:induction false} FiltersArgsSnoc(fs: seq<FtFilter>, f: FtFilter)
    ensures FiltersArgs(fs + [f]) == FiltersArgs(fs) + FilterArgs(f)
    decreases |fs|
  {
    if fs == [] {
      assert [f][1..] == [];
    } else {
      assert (fs + [f])[1..] == fs[1..] + [f];
      FiltersArgsSnoc(fs[1..], f);
    }
  }

  /** The command, the index name and the query when there is one. */
  function HeaderArgs(c: SearchConfig): seq<Arg> {
    [S("FT.SEARCH"), S(c.indexname)] + When(c.query != "", [S(c.query)])
  }

  function FlagArgs(c: SearchConfig): seq<Arg> {
    When(c.nocontent, [S("NOCONTENT")])
    + When(c.verbatim, [S("VERBATIM")])
    + When(c.nostopwords, [S("NOSTOPWORDS")])
    + When(c.withscores, [S("WITHSCORES")])
    + When(c.withpayloads, [S("WITHPAYLOADS")])
    + When(c.withsortkeys, [S("WITHSORTKEYS")])
  }

  function GeoArgs(c: SearchConfig): seq<Arg> {
    var g := c.geofilter;
    When(g.field != "", [S("GEOFILTER"), S(g.field), F(g.lon), F(g.lat), F(g.radius), S(g.unit)])
  }

  /** INKEYS when there are keys; RETURN whenever the field list is not nil. */
  function KeysArgs(c: SearchConfig): seq<Arg> {
    When(|c.inkeys| > 0, [S("INKEYS"), I(|c.inkeys|)] + Strs(c.inkeys))
    + (match c.returnfields
       case None => []
       case Some(rs) => [S("RETURN"), I(|rs|)] + Strs(rs))
  }

  /** The summarize options after its field list. */
  function SummarizeOptionArgs(s: Summarize): seq<Arg> {
    When(s.fragnum > 0, [S("FRAGS"), I(s.fragnum)])
    + When(s.fragsize > 0, [S("LEN"), I(s.fragsize)])
    + When(s.separator != "", [S("SEPARATOR"), S(s.separator)])
  }

  /** The summarize block (whose keyword is spelled SUMMIRIZE), when it has fields. */
  function SummarizeArgs(c: SearchConfig): seq<Arg> {
    var s := c.summarize;
    When(|s.fields| > 0,
         [S("SUMMIRIZE")] + [S("FIELDS"), I(|s.fields|)] + Strs(s.fields) + SummarizeOptionArgs(s))
  }

  /** The highlight block, when it has fields. */
  function HighlightArgs(c: SearchConfig): seq<Arg> {
    var h := c.highlight;
    When(|h.fields| > 0,
         [S("HIGHLIGHT")] + [S("FIELDS"), I(|h.fields|)] + Strs(h.fields)
         + [S("TAGS"), S(h.tags.open), S(h.tags.close)])
  }

  /** SLOP when the pointer is set, then LANGUAGE, EXPANDER and SCORER. */
  function TuningArgs(c: SearchConfig): seq<Arg> {
    (match c.slop
     case None => []
     case Some(n) => [S("SLOP"), I(n)])
    + When(c.language != "", [S("LANGUAGE"), S(c.language)])
    + When(c.expander != "", [S("EXPANDER"), S(c.expander)])
    + When(c.scorer != "", [S("SCORER"), S(c.scorer)])
  }

  function SortArgs(c: SearchConfig): seq<Arg> {
    When(c.sortby.attribute != "",
         [S("SORTBY"), S(c.sortby.attribute)] + (if c.sortby.asc then [S("ASC")] else [S("DESC")]))
  }

  /** LIMIT with the stored window when num is positive, the default 0 10 otherwise. */
  function LimitArgs(c: SearchConfig): seq<Arg> {
    if c.limit.num > 0 then [S("LIMIT"), I(c.limit.offset), I(c.limit.num)]
    else [S("LIMIT"), I(0), I(10)]
  }

  /** The FT.SEARCH argument list that Serialize builds from a configuration. */
  function SearchArgs(c: SearchConfig): seq<Arg> {
    HeaderArgs(c) + FlagArgs(c) + FiltersArgs(c.filters) + GeoArgs(c) + KeysArgs(c)
    + SummarizeArgs(c) + HighlightArgs(c) + TuningArgs(c) + SortArgs(c) + LimitArgs(c)
  }

  // ---------------------------------------------------------------------------
  // What the argument list says on its face

  /** No %.f rendering starts with "(" or spells the lower-case infinities. */
  lemma FmtFShape(x: Num)
    ensures |FmtF(x)| >= 1 && FmtF(x)[0] != '(' && FmtF(x) != "+inf" && FmtF(x) != "-inf"
  {
    if x.Finite? {
      var n := RoundHalfEven(x.value);
      if !(x.value < 0.0 && n == 0) {
        if n < 0 {
          var d := NatDigits(-n);
          assert FmtF(x) == "-" + d;
          assert FmtF(x)[1] == d[0];
        } else {
          assert FmtF(x)[0] == NatDigits(n)[0];
        }
      }
    }
  }

  /** A FILTER bound tells whether it is exclusive ("(" and the number) and
      when an inclusive one is the infinity written in lower case. */
  lemma FilterBounds(f: FtFilter)
    ensures |MinBound(f)| >= 1 && |MaxBound(f)| >= 1
    ensures MinBound(f)[0] == '(' <==> f.exclusiveMin
    ensures MaxBound(f)[0] == '(' <==> f.exclusiveMax
    ensures f.exclusiveMin ==> MinBound(f)[1..] == FmtF(f.min)
    ensures f.exclusiveMax ==> MaxBound(f)[1..] == FmtF(f.max)
    ensures MinBound(f) == "+inf" <==> !f.exclusiveMin && f.min.PosInf?
    ensures MaxBound(f) == "-inf" <==> !f.exclusiveMax && f.max.NegInf?
    ensures !f.exclusiveMin && !f.min.PosInf? ==> MinBound(f) == FmtF(f.min)
    ensures !f.exclusiveMax && !f.max.NegInf? ==> MaxBound(f) == FmtF(f.max)
  {
    FmtFShape(f.min);
    FmtFShape(f.max);
  }

  /** The command starts with FT.SEARCH and the index name, then the query
      when it is not empty; it always ends with LIMIT, the stored window when
      num is positive and 0 10 otherwise. */
  lemma {:induction false} SearchArgsEnds(c: SearchConfig)
    ensures var r := SearchArgs(c);
      |r| >= 5 && r[0] == S("FT.SEARCH") && r[1] == S(c.indexname)
      && (c.query != "" ==> r[2] == S(c.query))
      && r[|r| - 3..] == (if c.limit.num > 0 then [S("LIMIT"), I(c.limit.offset), I(c.limit.num)]
                          else [S("LIMIT"), I(0), I(10)])
  {
    var h := HeaderArgs(c);
    var b1 := h + FlagArgs(c);
    var b2 := b1 + FiltersArgs(c.filters);
    var b3 := b2 + GeoArgs(c);
    var b4 := b3 + KeysArgs(c);
    var b5 := b4 + SummarizeArgs(c);
    var b6 := b5 + HighlightArgs(c);
    var b7 := b6 + TuningArgs(c);
    var b8 := b7 + SortArgs(c);
    var r := b8 + LimitArgs(c);
    assert r == SearchArgs(c);
    var n := |h|;
    PrefixKept(h, FlagArgs(c), n);
    PrefixKept(b1, FiltersArgs(c.filters), n);
    PrefixKept(b2, GeoArgs(c), n);
    PrefixKept(b3, KeysArgs(c), n);
    PrefixKept(b4, SummarizeArgs(c), n);
    PrefixKept(b5, HighlightArgs(c), n);
    PrefixKept(b6, TuningArgs(c), n);
    PrefixKept(b7, SortArgs(c), n);
    PrefixKept(b8, LimitArgs(c), n);
    assert h[..n] == h;
    assert r[0] == r[..n][0] && r[1] == r[..n][1];
    if c.query != "" {
      assert r[2] == r[..n][2];
    }
    SuffixKept(b8, LimitArgs(c));
  }

  /** INFIELDS, INORDER and the payload are stored but never sent. */
  lemma NotSent(c: SearchConfig, infields: seq<string>, inorder: bool, payload: seq<bv8>)
    ensures SearchArgs(c.(infields := infields, inorder := inorder, payload := payload)) == SearchArgs(c)
  {
    var d := c.(infields := infields, inorder := inorder, payload := payload);
    assert HeaderArgs(d) == HeaderArgs(c) && FlagArgs(d) == FlagArgs(c);
    assert d.filters == c.filters && GeoArgs(d) == GeoArgs(c) && KeysArgs(d) == KeysArgs(c);
    assert SummarizeArgs(d) == SummarizeArgs(c) && HighlightArgs(d) == HighlightArgs(c);
    assert TuningArgs(d) == TuningArgs(c) && SortArgs(d) == SortArgs(c) && LimitArgs(d) == LimitArgs(c);
  }

  // ---------------------------------------------------------------------------
  // Appending, as Serialize does

  /** The body of Serialize's loop over the filters: one FILTER block. */
  method AppendFilter(queryCode0: seq<Arg>, f: FtFilter) returns (queryCode: seq<Arg>)
    ensures queryCode == queryCode0 + FilterArgs(f)
  {
    queryCode := queryCode0 + [S("FILTER"), S(f.field)];
    if f.exclusiveMin {
      queryCode := queryCode + [S("(" + FmtF(f.min))];
    } else if IsInf(f.min, 1) {
      queryCode := queryCode + [S("+inf")];
    } else {
      queryCode := queryCode + [S(FmtF(f.min))];
    }
    if f.exclusiveMax {
      queryCode := queryCode + [S("(" + FmtF(f.max))];
    } else if IsInf(f.max, -1) {
      queryCode := queryCode + [S("-inf")];
    } else {
      queryCode := queryCode + [S(FmtF(f.max))];
    }
  }

  /** The summarize options, as Serialize appends them after the field list. */
  method AppendSummarizeOptions(queryCode0: seq<Arg>, s: Summarize) returns (queryCode: seq<Arg>)
    ensures queryCode == queryCode0 + SummarizeOptionArgs(s)
  {
    queryCode := queryCode0;
    if s.fragnum > 0 {
      queryCode := queryCode + [S("FRAGS"), I(s.fragnum)];
    }
    ghost var q1 := queryCode;
    if s.fragsize > 0 {
      queryCode := queryCode + [S("LEN"), I(s.fragsize)];
    }
    ghost var q2 := queryCode;
    if s.separator != "" {
      queryCode := queryCode + [S("SEPARATOR"), S(s.separator)];
    }
    Chain3(queryCode0, q1, q2, queryCode, When(s.fragnum > 0, [S("FRAGS"), I(s.fragnum)]),
      When(s.fragsize > 0, [S("LEN"), I(s.fragsize)]), When(s.separator != "", [S("SEPARATOR"), S(s.separator)]));
  }

  // ---------------------------------------------------------------------------
  // The builder

  class FtSearch {
    var indexname: string
    var query: string
    var nocontent: bool
    var verbatim: bool
    var nostopwords: bool
    var withscores: bool
    var withpayloads: bool
    var withsortkeys: bool
    var filters: seq<FtFilter>
    var geofilter: GeoFilter
    var inkeys: seq<string>
    var infields: seq<string>
    var returnfields: Option<seq<string>>
    var summarize: Summarize
    var highlight: Highlight
    var slop: Option<int>
    var inorder: bool
    var language: string
    var expander: string
    var scorer: string
    var payload: seq<bv8>
    var sortby: SortBy
    var limit: Limit

    function Config(): SearchConfig
      reads this
    {
      SearchConfig(indexname, query, nocontent, verbatim, nostopwords, withscores, withpayloads,
                   withsortkeys, filters, geofilter, inkeys, infields, returnfields, summarize,
                   highlight, slop, inorder, language, expander, scorer, payload, sortby, limit)
    }

    /** NewFtSearch. */
    constructor (indexName: string)
      ensures Config() == NewConfig(indexName)
    {
      indexname := indexName;
      query := "";
      nocontent := false;
      verbatim := false;
      nostopwords := false;
      withscores := false;
      withpayloads := false;
      withsortkeys := false;
      filters := [];
      geofilter := GeoFilter("", Finite(0.0), Finite(0.0), Finite(0.0), "");
      inkeys := [];
      infields := [];
      returnfields := None;
      summarize := Summarize([], 0, 0, "");
      highlight := Highlight([], Tags("", ""));
      slop := None;
      inorder := false;
      language := "";
      expander := "";
      scorer := "";
      payload := [];
      sortby := SortBy("", false);
      limit := Limit(0, 0);
    }

    method AddIndexName(name: string)
      modifies this
      ensures Config() == old(Config()).(indexname := name)
    {
      indexname := name;
    }

    method AddQuery(q: string)
      modifies this
      ensures Config() == old(Config()).(query := q)
    {
      query := q;
    }

    method AddNoContent(active: bool)
      modifies this
      ensures Config() == old(Config()).(nocontent := active)
    {
      nocontent := active;
    }

    method AddVerbatim(active: bool)
      modifies this
      ensures Config() == old(Config()).(verbatim := active)
    {
      verbatim := active;
    }

    method AddNoStopWords(active: bool)
      modifies this
      ensures Config() == old(Config()).(nostopwords := active)
    {
      nostopwords := active;
    }

    method AddWithScores(active: bool)
      modifies this
      ensures Config() == old(Config()).(withscores := active)
    {
      withscores := active;
    }

    method AddWithPayloads(active: bool)
      modifies this
      ensures Config() == old(Config()).(withpayloads := active)
    {
      withpayloads := active;
    }

    method AddWithSortKeys(active: bool)
      modifies this
      ensures Config() == old(Config()).(withsortkeys := active)
    {
      withsortkeys := active;
    }

    /** Appends one filter; earlier filters stay. */
    method AddFilter(field: string, min: Num, max: Num, excludeMin: bool, excludeMax: bool)
      modifies this
      ensures Config() == old(Config()).(filters := old(filters) + [FtFilter(field, min, excludeMin, max, excludeMax)])
    {
      filters := filters + [FtFilter(field, min, excludeMin, max, excludeMax)];
    }

    method AddGeoFilter(field: string, lon: Num, lat: Num, radius: Num, unit: string)
      modifies this
      ensures Config() == old(Config()).(geofilter := GeoFilter(field, lon, lat, radius, unit))
    {
      geofilter := GeoFilter(field, lon, lat, radius, unit);
    }

    /** Replaces the keys. */
    method AddInKeys(keys: seq<string>)
      modifies this
      ensures Config() == old(Config()).(inkeys := keys)
    {
      inkeys := keys;
    }

    method AddInFields(fields: seq<string>)
      modifies this
      ensures Config() == old(Config()).(infields := fields)
    {
      infields := fields;
    }

    /** Replaces the returned fields. None stands for a nil slice (a call
        with no arguments, or a nil slice spread with `...`); any other slice,
        even an empty one, is kept as given. */
    method AddReturnFields(fields: Option<seq<string>>)
      modifies this
      ensures Config() == old(Config()).(returnfields := fields)
    {
      returnfields := fields;
    }

    method AddSummarize(fields: seq<string>, fragNum: int, fragSize: int, separator: string)
      modifies this
      ensures Config() == old(Config()).(summarize := Summarize(fields, fragNum, fragSize, separator))
    {
      summarize := Summarize(fields, fragNum, fragSize, separator);
    }

    method AddHighlight(fields: seq<string>, openTag: string, closeTag: string)
      modifies this
      ensures Config() == old(Config()).(highlight := Highlight(fields, Tags(openTag, closeTag)))
    {
      highlight := Highlight(fields, Tags(openTag, closeTag));
    }

    /** Stores the slop pointer; None stands for nil. */
    method AddSlop(s: Option<int>)
      modifies this
      ensures Config() == old(Config()).(slop := s)
    {
      slop := s;
    }

    method AddInOrder(active: bool)
      modifies this
      ensures Config() == old(Config()).(inorder := active)
    {
      inorder := active;
    }

    method AddLanguage(lang: string)
      modifies this
      ensures Config() == old(Config()).(language := lang)
    {
      language := lang;
    }

    method AddExpander(exp: string)
      modifies this
      ensures Config() == old(Config()).(expander := exp)
    {
      expander := exp;
    }

    method AddScorer(s: string)
      modifies this
      ensures Config() == old(Config()).(scorer := s)
    {
      scorer := s;
    }

    method AddPayload(p: seq<bv8>)
      modifies this
      ensures Config() == old(Config()).(payload := p)
    {
      payload := p;
    }

    method AddSortBy(attr: string, asc: bool)
      modifies this
      ensures Config() == old(Config()).(sortby := SortBy(attr, asc))
    {
      sortby := SortBy(attr, asc);
    }

    method AddLimit(offset: int, num: int)
      modifies this
      ensures Config() == old(Config()).(limit := Limit(offset, num))
    {
      limit := Limit(offset, num);
    }

    /** The NOCONTENT to WITHSORTKEYS part of Serialize. */
    method AppendFlags(queryCode0: seq<Arg>) returns (queryCode: seq<Arg>)
      ensures queryCode == queryCode0 + FlagArgs(Config())
    {
      queryCode := queryCode0;
      if nocontent {
        queryCode := queryCode + [S("NOCONTENT")];
      }
      ghost var q1 := queryCode;
      assert q1 == queryCode0 + When(nocontent, [S("NOCONTENT")]);
      if verbatim {
        queryCode := queryCode + [S("VERBATIM")];
      }
      ghost var q2 := queryCode;
      assert q2 == q1 + When(verbatim, [S("VERBATIM")]);
      if nostopwords {
        queryCode := queryCode + [S("NOSTOPWORDS")];
      }
      ghost var q3 := queryCode;
      assert q3 == q2 + When(nostopwords, [S("NOSTOPWORDS")]);
      if withscores {
        queryCode := queryCode + [S("WITHSCORES")];
      }
      ghost var q4 := queryCode;
      assert q4 == q3 + When(withscores, [S("WITHSCORES")]);
      if withpayloads {
        queryCode := queryCode + [S("WITHPAYLOADS")];
      }
      ghost var q5 := queryCode;
      assert q5 == q4 + When(withpayloads, [S("WITHPAYLOADS")]);
      if withsortkeys {
        queryCode := queryCode + [S("WITHSORTKEYS")];
      }
      assert queryCode == q5 + When(withsortkeys, [S("WITHSORTKEYS")]);
      Chain6(queryCode0, q1, q2, q3, q4, q5, queryCode,
        When(nocontent, [S("NOCONTENT")]), When(verbatim, [S("VERBATIM")]),
        When(nostopwords, [S("NOSTOPWORDS")]), When(withscores, [S("WITHSCORES")]),
        When(withpayloads, [S("WITHPAYLOADS")]), When(withsortkeys, [S("WITHSORTKEYS")]));
    }

    /** The loop over the filters. */
    method AppendFilters(queryCode0: seq<Arg>) returns (queryCode: seq<Arg>)
      ensures queryCode == queryCode0 + FiltersArgs(Config().filters)
    {
      queryCode := queryCode0;
      if |filters| > 0 {
        for i := 0 to |filters|
          invariant queryCode == queryCode0 + FiltersArgs(filters[..i])
        {
          var f := filters[i];
          queryCode := AppendFilter(queryCode, f);
          FiltersArgsSnoc(filters[..i], f);
          assert filters[..i + 1] == filters[..i] + [f];
          Assoc(queryCode0, FiltersArgs(filters[..i]), FilterArgs(f));
        }
        assert filters[..|filters|] == filters;
      }
    }

    /** The GEOFILTER, INKEYS and RETURN part of Serialize. */
    method AppendGeoAndKeys(queryCode0: seq<Arg>) returns (queryCode: seq<Arg>)
      ensures queryCode == queryCode0 + GeoArgs(Config()) + KeysArgs(Config())
    {
      queryCode := queryCode0;
      var g := geofilter;
      if g.field != "" {
        queryCode := queryCode + [S("GEOFILTER"), S(g.field), F(g.lon), F(g.lat), F(g.radius), S(g.unit)];
      }
      ghost var q1 := queryCode;
      assert q1 == queryCode0 + GeoArgs(Config());
      if |inkeys| > 0 {
        queryCode := queryCode + [S("INKEYS"), I(|inkeys|)];
        queryCode := AppendStrings(queryCode, inkeys);
        Assoc(q1, [S("INKEYS"), I(|inkeys|)], Strs(inkeys));
      }
      ghost var q2 := queryCode;
      ghost var ks := When(|inkeys| > 0, [S("INKEYS"), I(|inkeys|)] + Strs(inkeys));
      assert q2 == q1 + ks;
      ghost var rs: seq<Arg> := [];
      if returnfields.Some? {
        queryCode := queryCode + [S("RETURN"), I(|returnfields.value|)];
        queryCode := AppendStrings(queryCode, returnfields.value);
        Assoc(q2, [S("RETURN"), I(|returnfields.value|)], Strs(returnfields.value));
        rs := [S("RETURN"), I(|returnfields.value|)] + Strs(returnfields.value);
      }
      assert queryCode == q2 + rs;
      assert KeysArgs(Config()) == ks + rs;
      Assoc(q1, ks, rs);
    }

    /** The SUMMIRIZE part of Serialize. */
    method AppendSummarize(queryCode0: seq<Arg>) returns (queryCode: seq<Arg>)
      ensures queryCode == queryCode0 + SummarizeArgs(Config())
    {
      queryCode := queryCode0;
      if |summarize.fields| > 0 {
        queryCode := queryCode + [S("SUMMIRIZE")];
        ghost var q1 := queryCode;
        queryCode := queryCode + [S("FIELDS"), I(|summarize.fields|)];
        ghost var q2 := queryCode;
        queryCode := AppendStrings(queryCode, summarize.fields);
        ghost var q3 := queryCode;
        queryCode := AppendSummarizeOptions(queryCode, summarize);
        Chain4(queryCode0, q1, q2, q3, queryCode, [S("SUMMIRIZE")], [S("FIELDS"), I(|summarize.fields|)],
          Strs(summarize.fields), SummarizeOptionArgs(summarize));
      }
    }

    /** The HIGHLIGHT part of Serialize. */
    method AppendHighlight(queryCode0: seq<Arg>) returns (queryCode: seq<Arg>)
      ensures queryCode == queryCode0 + HighlightArgs(Config())
    {
      queryCode := queryCode0;
      if |highlight.fields| > 0 {
        queryCode := queryCode + [S("HIGHLIGHT")];
        ghost var q1 := queryCode;
        queryCode := queryCode + [S("FIELDS"), I(|highlight.fields|)];
        ghost var q2 := queryCode;
        queryCode := AppendStrings(queryCode, highlight.fields);
        ghost var q3 := queryCode;
        queryCode := queryCode + [S("TAGS"), S(highlight.tags.open), S(highlight.tags.close)];
        Chain4(queryCode0, q1, q2, q3, queryCode, [S("HIGHLIGHT")], [S("FIELDS"), I(|highlight.fields|)],
          Strs(highlight.fields), [S("TAGS"), S(highlight.tags.open), S(highlight.tags.close)]);
      }
    }

    /** The SLOP, LANGUAGE, EXPANDER and SCORER part of Serialize. */
    method AppendTuning(queryCode0: seq<Arg>) returns (queryCode: seq<Arg>)
      ensures queryCode == queryCode0 + TuningArgs(Config())
    {
      queryCode := queryCode0;
      ghost var sl: seq<Arg> := [];
      if slop.Some? {
        queryCode := queryCode + [S("SLOP"), I(slop.value)];
        sl := [S("SLOP"), I(slop.value)];
      }
      ghost var q1 := queryCode;
      assert q1 == queryCode0 + sl;
      if language != "" {
        queryCode := queryCode + [S("LANGUAGE"), S(language)];
      }
      ghost var q2 := queryCode;
      assert q2 == q1 + When(language != "", [S("LANGUAGE"), S(language)]);
      if expander != "" {
        queryCode := queryCode + [S("EXPANDER"), S(expander)];
      }
      ghost var q3 := queryCode;
      assert q3 == q2 + When(expander != "", [S("EXPANDER"), S(expander)]);
      if scorer != "" {
        queryCode := queryCode + [S("SCORER"), S(scorer)];
      }
      ghost var q4 := queryCode;
      assert q4 == q3 + When(scorer != "", [S("SCORER"), S(scorer)]);
      assert TuningArgs(Config()) == sl + When(language != "", [S("LANGUAGE"), S(language)])
        + When(expander != "", [S("EXPANDER"), S(expander)]) + When(scorer != "", [S("SCORER"), S(scorer)]);
      Chain4(queryCode0, q1, q2, q3, q4, sl, When(language != "", [S("LANGUAGE"), S(language)]),
        When(expander != "", [S("EXPANDER"), S(expander)]), When(scorer != "", [S("SCORER"), S(scorer)]));
    }

    /** The SORTBY part of Serialize. */
    method AppendSort(queryCode0: seq<Arg>) returns (queryCode: seq<Arg>)
      ensures queryCode == queryCode0 + SortArgs(Config())
    {
      queryCode := queryCode0;
      if sortby.attribute != "" {
        queryCode := queryCode + [S("SORTBY"), S(sortby.attribute)];
        if sortby.asc {
          queryCode := queryCode + [S("ASC")];
        } else {
          queryCode := queryCode + [S("DESC")];
        }
      }
    }

    /** Serialize: the FT.SEARCH arguments, built by appending part after part. */
    method Serialize() returns (queryCode: seq<Arg>)
      ensures queryCode == SearchArgs(Config())
    {
      queryCode := [S("FT.SEARCH")];
      queryCode := queryCode + [S(indexname)];
      if query != "" {
        queryCode := queryCode + [S(query)];
      }
      assert queryCode == HeaderArgs(Config());
      queryCode := AppendFlags(queryCode);
      queryCode := AppendFilters(queryCode);
      queryCode := AppendGeoAndKeys(queryCode);
      queryCode := AppendSummarize(queryCode);
      queryCode := AppendHighlight(queryCode);
      queryCode := AppendTuning(queryCode);
      queryCode := AppendSort(queryCode);
      if limit.num > 0 {
        queryCode := queryCode + [S("LIMIT"), I(limit.offset), I(limit.num)];
      } else {
        queryCode := queryCode + [S("LIMIT"), I(0), I(10)];
      }
    }
  }
}
