/** A reader for the clause syntax that FtQuery emits, as RediSearch's query
    language defines it: an optional leading `-`, a field scope `@f1|f2:`,
    and a numeric range `[lo hi]`, a tag set `{t1|t2}` or a geo radius
    `[lon lat radius unit]`. Reading back what the builder wrote recovers every
    input, which is the round-trip property proved here for each clause kind. */
module QueryGrammar {
  import opened Wrappers
  import opened Strings
  import opened Args
  import opened Query

  /** The position of the first `c` in `s`, or |s| when there is none. */
  function IndexOf(s: string, c: char): (k: nat)
    ensures k <= |s| && Excludes(s[..k], c) && (k < |s| ==> s[k] == c)
    decreases |s|
  {
    if |s| == 0 then 0
    else if s[0] == c then 0
    else 1 + IndexOf(s[1..], c)
  }

  lemma {:induction false} IndexOfAfter(x: string, c: char, y: string)
    requires Excludes(x, c)
    ensures IndexOf(x + [c] + y, c) == |x|
    decreases |x|
  {
    if |x| == 0 {
      assert x + [c] + y == [c] + y;
    } else {
      assert (x + [c] + y)[1..] == x[1..] + [c] + y;
      IndexOfAfter(x[1..], c, y);
    }
  }

  /** A leading `-` marks a negated clause. */
  function ParseSign(s: string): (bool, string) {
    if |s| >= 1 && s[0] == '-' then (true, s[1..]) else (false, s)
  }

  lemma ParseSignOf(isNegative: bool, body: string)
    requires |body| >= 1 && body[0] == '@'
    ensures ParseSign(Sign(isNegative) + body) == (isNegative, body)
  {
    if isNegative {
      assert (Sign(isNegative) + body)[1..] == body;
    } else {
      assert Sign(isNegative) + body == body;
    }
  }

  /** A field scope `@f1|f2|..:rest`: the field names and what follows the colon. */
  function ParseScope(s: string): Option<(seq<string>, string)> {
    var k := IndexOf(s, ':');
    if |s| >= 1 && s[0] == '@' && k < |s| then Some((Split(s[1..k], '|'), s[k + 1..]))
    else None
  }

  /** Field names a scope can carry unambiguously. */
  predicate FieldName(f: string) {
    Excludes(f, ':') && Excludes(f, '|')
  }

  lemma {:induction false} ScopeRoundTrip(fields: seq<string>, rest: string)
    requires |fields| >= 1 && forall i :: 0 <= i < |fields| ==> FieldName(fields[i])
    ensures ParseScope("@" + Join(fields, "|") + ":" + rest) == Some((fields, rest))
  {
    var scope := Join(fields, "|");
    assert AllExclude(fields, ':') && AllExclude(fields, '|');
    JoinExcludes(fields, "|", ':');
    var s := "@" + scope + ":" + rest;
    assert s == ("@" + scope) + [':'] + rest;
    IndexOfAfter("@" + scope, ':', rest);
    assert forall i :: 0 <= i < |scope| ==> s[1 + i] == scope[i];
    assert s[1..|scope| + 1] == scope;
    assert forall i :: 0 <= i < |rest| ==> s[|scope| + 2 + i] == rest[i];
    assert s[|scope| + 2..] == rest;
    SplitJoin(fields, '|');
  }

  /** GenerateMultiFieldsModifyQuery is read back as its fields and its query;
      with no fields the scope `@:` reads back as one empty field. */
  lemma MultiFieldsModifyRoundTrip(fields: seq<string>, query: string)
    requires forall i :: 0 <= i < |fields| ==> FieldName(fields[i])
    ensures |fields| >= 1 ==> ParseScope(GenerateMultiFieldsModifyQuery(fields, query)) == Some((fields, query))
    ensures fields == [] ==> ParseScope(GenerateMultiFieldsModifyQuery(fields, query)) == Some(([""], query))
  {
    if fields == [] {
      ScopeRoundTrip([""], query);
      assert Join([""], "|") == "" == Join(fields, "|");
    } else {
      ScopeRoundTrip(fields, query);
    }
  }

  /** GenerateFieldModifyQuery is read back as its field and its query. */
  lemma FieldModifyRoundTrip(field: string, query: string)
    requires FieldName(field)
    ensures ParseScope(GenerateFieldModifyQuery(field, query)) == Some(([field], query))
  {
    ScopeRoundTrip([field], query);
  }

  // ---------------------------------------------------------------------------
  // Numeric ranges

  /** What one written bound means to RediSearch. */
  datatype Bound = Inclusive(n: int) | Exclusive(n: int) | Unbounded

  function ParseRangeBound(s: string): Option<Bound> {
    if s == "inf" then Some(Unbounded)
    else if |s| >= 1 && s[0] == '(' then
      match ParseDecimal(s[1..])
      case Some(n) => Some(Exclusive(n))
      case None => None
    else
      match ParseDecimal(s)
      case Some(n) => Some(Inclusive(n))
      case None => None
  }

  lemma DecimalShape(n: int)
    ensures |Decimal(n)| >= 1
    ensures forall i :: 0 <= i < |Decimal(n)| ==> Decimal(n)[i] == '-' || IsDigit(Decimal(n)[i])
  {
    if n < 0 {
      var d := NatDigits(-n);
      forall i | 1 <= i < |Decimal(n)| ensures IsDigit(Decimal(n)[i]) {
        assert Decimal(n)[i] == d[i - 1];
      }
    }
  }

  /** What a bound written by RangeBound means. */
  function BoundMeaning(exclude: bool, inf: bool, n: int): Bound {
    if exclude then Exclusive(n) else if inf then Unbounded else Inclusive(n)
  }

  /** The bound as read back: an excluded bound is exclusive even when it is
      also flagged infinite, an infinite one is unbounded (with no sign), and
      otherwise the very number is recovered. */
  lemma RangeBoundRoundTrip(exclude: bool, inf: bool, n: int)
    ensures ParseRangeBound(RangeBound(exclude, inf, n)) == Some(BoundMeaning(exclude, inf, n))
  {
    DecimalRoundTrip(n);
    DecimalShape(n);
    var d := Decimal(n);
    if exclude {
      var s := "(" + d;
      assert s != "inf" by { assert s[0] == '('; }
      assert s[1..] == d;
    } else if !inf {
      assert d != "inf" by { assert d[0] == '-' || IsDigit(d[0]); }
    }
  }

  lemma RangeBoundNoSpace(exclude: bool, inf: bool, n: int)
    ensures Excludes(RangeBound(exclude, inf, n), ' ')
  {
    DecimalShape(n);
    var b := RangeBound(exclude, inf, n);
    if exclude {
      forall i | 0 <= i < |b| ensures b[i] != ' ' {
        if i > 0 { assert b[i] == Decimal(n)[i - 1]; }
      }
    }
  }

  /** What a numeric clause means: sign, field and the two bounds. */
  datatype NumericView = NumericView(negative: bool, field: string, lo: Bound, hi: Bound)

  /** A bracketed pair of bounds `[lo hi]`. */
  function ParseRange(rest: string): Option<(Bound, Bound)> {
    if |rest| >= 2 && rest[0] == '[' && rest[|rest| - 1] == ']' then
      var pieces := Split(rest[1..|rest| - 1], ' ');
      if |pieces| == 2 then
        match (ParseRangeBound(pieces[0]), ParseRangeBound(pieces[1]))
        case (Some(lo), Some(hi)) => Some((lo, hi))
        case _ => None
      else None
    else None
  }

  function ParseNumericFilterClause(s: string): Option<NumericView> {
    var (neg, body) := ParseSign(s);
    match ParseScope(body)
    case Some((fields, rest)) =>
      if |fields| == 1 then
        match ParseRange(rest)
        case Some((lo, hi)) => Some(NumericView(neg, fields[0], lo, hi))
        case None => None
      else None
    case None => None
  }

  lemma RangeRoundTrip(excludeMin: bool, infMin: bool, min: int, excludeMax: bool, infMax: bool, max: int)
    ensures ParseRange("[" + RangeBound(excludeMin, infMin, min) + " " + RangeBound(excludeMax, infMax, max) + "]")
            == Some((BoundMeaning(excludeMin, infMin, min), BoundMeaning(excludeMax, infMax, max)))
  {
    var lo := RangeBound(excludeMin, infMin, min);
    var hi := RangeBound(excludeMax, infMax, max);
    var rest := "[" + lo + " " + hi + "]";
    assert rest[1..|rest| - 1] == lo + [' '] + hi;
    RangeBoundNoSpace(excludeMin, infMin, min);
    RangeBoundNoSpace(excludeMax, infMax, max);
    SplitPiece(lo, ' ', hi);
    SplitWhole(hi, ' ');
    RangeBoundRoundTrip(excludeMin, infMin, min);
    RangeBoundRoundTrip(excludeMax, infMax, max);
  }

  /** A clause `[-]@field:rest` is read as its sign, its one field and `rest`. */
  lemma ScopedClause(isNegative: bool, field: string, rest: string)
    requires FieldName(field)
    ensures ParseSign(Sign(isNegative) + "@" + field + ":" + rest) == (isNegative, "@" + field + ":" + rest)
    ensures ParseScope("@" + field + ":" + rest) == Some(([field], rest))
  {
    var body := "@" + field + ":" + rest;
    assert Sign(isNegative) + "@" + field + ":" + rest == Sign(isNegative) + body;
    ParseSignOf(isNegative, body);
    ScopeRoundTrip([field], rest);
    assert Join([field], "|") == field;
  }

  /** AddNumericFilterQuery's clause reads back as exactly its inputs. */
  lemma NumericFilterClauseRoundTrip(isNegative: bool, field: string, min: int, max: int,
                                     excludeMin: bool, excludeMax: bool, infMin: bool, infMax: bool)
    requires FieldName(field)
    ensures ParseNumericFilterClause(NumericFilterClause(isNegative, field, min, max, excludeMin, excludeMax, infMin, infMax))
            == Some(NumericView(isNegative, field, BoundMeaning(excludeMin, infMin, min), BoundMeaning(excludeMax, infMax, max)))
  {
    var rest := "[" + RangeBound(excludeMin, infMin, min) + " " + RangeBound(excludeMax, infMax, max) + "]";
    assert NumericFilterClause(isNegative, field, min, max, excludeMin, excludeMax, infMin, infMax)
      == Sign(isNegative) + "@" + field + ":" + rest;
    ScopedClause(isNegative, field, rest);
    RangeRoundTrip(excludeMin, infMin, min, excludeMax, infMax, max);
  }

  // ---------------------------------------------------------------------------
  // Tag sets

  datatype TagView = TagView(negative: bool, field: string, tags: seq<string>)

  function ParseTagFilterClause(s: string): Option<TagView> {
    var (neg, body) := ParseSign(s);
    match ParseScope(body)
    case Some((fields, rest)) =>
      if |fields| == 1 && |rest| >= 2 && rest[0] == '{' && rest[|rest| - 1] == '}' then
        Some(TagView(neg, fields[0], Split(rest[1..|rest| - 1], '|')))
      else None
    case None => None
  }

  /** AddTagFilterQuery's clause reads back as its sign, field and tags, in
      order, when no tag holds the `|` separator. */
  lemma TagFilterClauseRoundTrip(isNegative: bool, field: string, tags: seq<string>)
    requires FieldName(field) && |tags| >= 1 && AllExclude(tags, '|')
    ensures ParseTagFilterClause(TagFilterClause(isNegative, field, tags)) == Some(TagView(isNegative, field, tags))
  {
    var rest := "{" + Join(tags, "|") + "}";
    assert TagFilterClause(isNegative, field, tags) == Sign(isNegative) + "@" + field + ":" + rest;
    ScopedClause(isNegative, field, rest);
    assert rest[1..|rest| - 1] == Join(tags, "|");
    SplitJoin(tags, '|');
  }

  // ---------------------------------------------------------------------------
  // Geo radius

  datatype GeoView = GeoView(negative: bool, field: string, lon: string, lat: string, radius: string, unit: string)

  function ParseGeoFilterClause(s: string): Option<GeoView> {
    var (neg, body) := ParseSign(s);
    match ParseScope(body)
    case Some((fields, rest)) =>
      if |fields| == 1 && |rest| >= 2 && rest[0] == '[' && rest[|rest| - 1] == ']' then
        var pieces := Split(rest[1..|rest| - 1], ' ');
        if |pieces| == 4 then Some(GeoView(neg, fields[0], pieces[0], pieces[1], pieces[2], pieces[3]))
        else None
      else None
    case None => None
  }

  lemma FmtFNoSpace(x: Num)
    ensures Excludes(FmtF(x), ' ')
  {
    if x.Finite? {
      DecimalShape(RoundHalfEven(x.value));
    }
  }

  lemma SplitFour(a: string, b: string, c: string, d: string)
    requires Excludes(a, ' ') && Excludes(b, ' ') && Excludes(c, ' ') && Excludes(d, ' ')
    ensures Split(a + " " + b + " " + c + " " + d, ' ') == [a, b, c, d]
  {
    assert a + " " + b + " " + c + " " + d == a + [' '] + (b + [' '] + (c + [' '] + d));
    SplitWhole(d, ' ');
    SplitPiece(c, ' ', d);
    SplitPiece(b, ' ', c + [' '] + d);
    SplitPiece(a, ' ', b + [' '] + (c + [' '] + d));
  }

  lemma GeoClauseShape(isNegative: bool, field: string, lon: string, lat: string, radius: string, unit: string)
    requires FieldName(field)
    requires Excludes(lon, ' ') && Excludes(lat, ' ') && Excludes(radius, ' ') && Excludes(unit, ' ')
    ensures ParseGeoFilterClause(Sign(isNegative) + "@" + field + ":[" + lon + " " + lat + " " + radius + " " + unit + "]")
            == Some(GeoView(isNegative, field, lon, lat, radius, unit))
  {
    var inner := lon + " " + lat + " " + radius + " " + unit;
    var rest := "[" + inner + "]";
    assert Sign(isNegative) + "@" + field + ":[" + lon + " " + lat + " " + radius + " " + unit + "]"
      == Sign(isNegative) + "@" + field + ":" + rest;
    ScopedClause(isNegative, field, rest);
    assert rest[1..|rest| - 1] == inner;
    SplitFour(lon, lat, radius, unit);
  }

  /** AddGeoFilterQuery's clause reads back as its sign, field, the three
      rendered numbers and the unit. */
  lemma GeoFilterClauseRoundTrip(isNegative: bool, field: string, lon: Num, lat: Num, radius: Num, unit: string)
    requires FieldName(field) && Excludes(unit, ' ')
    ensures ParseGeoFilterClause(GeoFilterClause(isNegative, field, lon, lat, radius, unit))
            == Some(GeoView(isNegative, field, FmtF(lon), FmtF(lat), FmtF(radius), unit))
  {
    FmtFNoSpace(lon);
    FmtFNoSpace(lat);
    FmtFNoSpace(radius);
    GeoClauseShape(isNegative, field, FmtF(lon), FmtF(lat), FmtF(radius), unit);
  }

  // ---------------------------------------------------------------------------
  // Prefix matches

  /** A scoped prefix-match clause reads back as its sign, field(s) and query;
      with no field it is the query alone, behind the optional sign. */
  lemma PrefixMatchClauseRoundTrip(isNegative: bool, field: string, query: string)
    ensures field == "" ==> PrefixMatchClause(isNegative, field, query) == Sign(isNegative) + query
    ensures FieldName(field) && field != "" ==>
              var (neg, body) := ParseSign(PrefixMatchClause(isNegative, field, query));
              neg == isNegative && ParseScope(body) == Some(([field], query))
  {
    if field != "" {
      var body := "@" + field + ":" + query;
      assert PrefixMatchClause(isNegative, field, query) == Sign(isNegative) + body;
      ParseSignOf(isNegative, body);
      if FieldName(field) {
        FieldModifyRoundTrip(field, query);
      }
    }
  }

  lemma MultiFieldsPrefixMatchClauseRoundTrip(isNegative: bool, fields: seq<string>, query: string)
    ensures fields == [] ==> MultiFieldsPrefixMatchClause(isNegative, fields, query) == Sign(isNegative) + query
    ensures (|fields| >= 1 && forall i :: 0 <= i < |fields| ==> FieldName(fields[i])) ==>
              var (neg, body) := ParseSign(MultiFieldsPrefixMatchClause(isNegative, fields, query));
              neg == isNegative && ParseScope(body) == Some((fields, query))
  {
    if |fields| >= 1 {
      var body := "@" + Join(fields, "|") + ":" + query;
      assert MultiFieldsPrefixMatchClause(isNegative, fields, query) == Sign(isNegative) + body;
      ParseSignOf(isNegative, body);
      if forall i :: 0 <= i < |fields| ==> FieldName(fields[i]) {
        ScopeRoundTrip(fields, query);
      }
    }
  }
}
