/** The query-expression builder of redisearch/query.go: word transforms that
    callers apply before assembling clauses, the clause formats, and the FtQuery
    object that accumulates clauses and space-joins them. */
module Query {
  import opened Strings
  import opened Args

  // The query-transform modes (QUERY_TYPE_1 .. QUERY_TYPE_8).
  const QueryType1: int := 1  // exact phrase: the word itself
  const QueryType2: int := 2  // negation: -word
  const QueryType3: int := 3  // group (intersection of unions): (word)
  const QueryType4: int := 4  // negated group: -(word)
  const QueryType5: int := 5  // prefix: the word less its last character, then *
  const QueryType6: int := 6  // prefix: the word less its last two characters, then *
  const QueryType7: int := 7  // union join: w1|w2
  const QueryType8: int := 8  // optional-terms join: w1~w2

  /** `-w`: the word negated (mode 2). */
  predicate IsNegation(r: string, word: string) {
    |r| == |word| + 1 && r[0] == '-' && r[1..] == word
  }

  /** `(w)`: the word grouped (mode 3). */
  predicate IsGroup(r: string, word: string) {
    |r| == |word| + 2 && r[0] == '(' && r[|r| - 1] == ')' && r[1..|r| - 1] == word
  }

  /** `-(w)`: the group negated (mode 4). */
  predicate IsNegatedGroup(r: string, word: string) {
    |r| == |word| + 3 && r[..2] == "-(" && r[|r| - 1] == ')' && r[2..|r| - 1] == word
  }

  /** The word less its last k characters, then `*` (modes 5 and 6). */
  predicate IsPrefix(r: string, word: string, k: nat) {
    k <= |word| && |r| == |word| - k + 1 && r[..|r| - 1] == word[..|word| - k] && r[|r| - 1] == '*'
  }

  /** GenerateSingleWordQuery. Modes 5 and 6 slice the word, which panics in
      Go when it is too short; that is what the requires clauses exclude. */
  function GenerateSingleWordQuery(queryType: int, word: string): (r: string)
    requires queryType == QueryType5 ==> |word| >= 1
    requires queryType == QueryType6 ==> |word| >= 2
    ensures queryType == QueryType2 ==> IsNegation(r, word)
    ensures queryType == QueryType3 ==> IsGroup(r, word)
    ensures queryType == QueryType4 ==> IsNegatedGroup(r, word)
    ensures queryType == QueryType5 ==> IsPrefix(r, word, 1)
    ensures queryType == QueryType6 ==> IsPrefix(r, word, 2)
    ensures !(QueryType2 <= queryType <= QueryType6) ==> r == word
  {
    if queryType == QueryType1 then word
    else if queryType == QueryType2 then "-" + word
    else if queryType == QueryType3 then "(" + word + ")"
    else if queryType == QueryType4 then "-(" + word + ")"
    else if queryType == QueryType5 then word[..|word| - 1] + "*"
    else if queryType == QueryType6 then word[..|word| - 2] + "*"
    else word
  }

  /** The separator GenerateMultipleWordQuery joins with. */
  function WordSeparator(queryType: int): (c: char)
    ensures c == '|' || c == '~' || c == ' '
  {
    if queryType == QueryType7 then '|'
    else if queryType == QueryType8 then '~'
    else ' '
  }

  /** GenerateMultipleWordQuery: `|` for mode 7, `~` for mode 8, a space otherwise. */
  function GenerateMultipleWordQuery(queryType: int, words: seq<string>): (r: string)
    ensures (queryType == QueryType7 && |words| >= 1 && AllExclude(words, '|')) ==> Split(r, '|') == words
    ensures (queryType == QueryType8 && |words| >= 1 && AllExclude(words, '~')) ==> Split(r, '~') == words
    ensures (queryType != QueryType7 && queryType != QueryType8 && |words| >= 1 && AllExclude(words, ' '))
              ==> Split(r, ' ') == words
    ensures words == [] ==> r == ""
  {
    var sep := WordSeparator(queryType);
    if |words| >= 1 && AllExclude(words, sep) then SplitJoin(words, sep); Join(words, [sep])
    else Join(words, [sep])
  }

  /** One word of a fuzzy query: `ld` percent signs on each side. */
  function FuzzyWord(ld: int, word: string): string {
    Repeat('%', ld) + word + Repeat('%', ld)
  }

  function FuzzyWords(ld: int, words: seq<string>): (r: seq<string>)
    ensures |r| == |words| && forall i :: 0 <= i < |words| ==> r[i] == FuzzyWord(ld, words[i])
  {
    seq(|words|, i requires 0 <= i < |words| => FuzzyWord(ld, words[i]))
  }

  /** What GenerateFuzzyMatchQuery computes: the wrapped words, space-joined. */
  function FuzzyMatchQuery(ld: int, words: seq<string>): string {
    Join(FuzzyWords(ld, words), " ")
  }

  /** GenerateFuzzyMatchQuery; the loops build the percent-sign padding and
      the list of wrapped words. */
  method GenerateFuzzyMatchQuery(ld: int, words: seq<string>) returns (r: string)
    ensures r == FuzzyMatchQuery(ld, words)
  {
    var nfq: seq<string> := [];
    var k := 0;
    while k < |words|
      invariant 0 <= k <= |words|
      invariant |nfq| == k
      invariant forall j :: 0 <= j < k ==> nfq[j] == FuzzyWord(ld, words[j])
    {
      var prefix := "";
      var i := 0;
      while i < ld
        invariant 0 <= i && (ld > 0 ==> i <= ld) && (ld <= 0 ==> i == 0)
        invariant prefix == Repeat('%', i)
      {
        prefix := prefix + "%";
        i := i + 1;
      }
      nfq := nfq + [prefix + words[k] + prefix];
      k := k + 1;
    }
    assert nfq == FuzzyWords(ld, words);
    r := Join(nfq, " ");
  }

  /** A non-positive distance adds no padding: the words are only space-joined. */
  lemma FuzzyNonPositive(ld: int, words: seq<string>)
    requires ld <= 0
    ensures FuzzyMatchQuery(ld, words) == Join(words, " ")
  {
    forall i | 0 <= i < |words| ensures FuzzyWord(ld, words[i]) == words[i] {
      assert Repeat('%', ld) == "";
      assert "" + words[i] + "" == words[i];
    }
    assert FuzzyWords(ld, words) == words;
  }

  /** Splitting a fuzzy query on spaces gives back the wrapped words, one per
      input word and in order, provided the words hold no space; no words give
      the empty query, which splits into one empty word. */
  lemma FuzzySplit(ld: int, words: seq<string>)
    requires AllExclude(words, ' ')
    ensures |words| >= 1 ==> Split(FuzzyMatchQuery(ld, words), ' ') == FuzzyWords(ld, words)
    ensures words == [] ==> FuzzyMatchQuery(ld, words) == "" && Split(FuzzyMatchQuery(ld, words), ' ') == [""]
  {
    if words == [] {
      assert FuzzyWords(ld, words) == [];
      return;
    }
    var fw := FuzzyWords(ld, words);
    forall j | 0 <= j < |fw| ensures Excludes(fw[j], ' ') {
      var p := Repeat('%', ld);
      assert fw[j] == p + words[j] + p;
      forall m | 0 <= m < |fw[j]| ensures fw[j][m] != ' ' {
        if m < |p| { assert fw[j][m] == p[m]; }
        else if m < |p| + |words[j]| { assert fw[j][m] == words[j][m - |p|]; }
        else { assert fw[j][m] == p[m - |p| - |words[j]|]; }
      }
    }
    SplitJoin(fw, ' ');
  }

  /** GenerateFieldModifyQuery: the fragment scoped to one field. */
  function GenerateFieldModifyQuery(field: string, query: string): (r: string)
    ensures |r| == |field| + |query| + 2 && r[0] == '@' && r[1..|field| + 1] == field
    ensures r[|field| + 1] == ':' && r[|field| + 2..] == query
  {
    "@" + field + ":" + query
  }

  /** GenerateMultiFieldsModifyQuery: the fragment scoped to several fields. */
  function GenerateMultiFieldsModifyQuery(fields: seq<string>, query: string): (r: string)
    ensures var scope := Join(fields, "|");
            |r| == |scope| + |query| + 2 && r[0] == '@' && r[1..|scope| + 1] == scope
            && r[|scope| + 1] == ':' && r[|scope| + 2..] == query
  {
    "@" + Join(fields, "|") + ":" + query
  }

  // ---------------------------------------------------------------------------
  // Clause formats appended by the Add* methods

  function Sign(isNegative: bool): string {
    if isNegative then "-" else ""
  }

  /** One bound of a numeric range: exclusion is tested first, then infinity,
      and an infinite bound is written `inf` on either side. */
  function RangeBound(exclude: bool, inf: bool, n: int): string {
    if exclude then "(" + Decimal(n)
    else if inf then "inf"
    else Decimal(n)
  }

  function NumericFilterClause(isNegative: bool, field: string, min: int, max: int,
                               excludeMin: bool, excludeMax: bool, infMin: bool, infMax: bool): string
  {
    Sign(isNegative) + "@" + field + ":[" + RangeBound(excludeMin, infMin, min) + " "
    + RangeBound(excludeMax, infMax, max) + "]"
  }

  function TagFilterClause(isNegative: bool, field: string, tags: seq<string>): string {
    Sign(isNegative) + "@" + field + ":{" + Join(tags, "|") + "}"
  }

  function GeoFilterClause(isNegative: bool, field: string, lon: Num, lat: Num, radius: Num, unit: string): string {
    Sign(isNegative) + "@" + field + ":[" + FmtF(lon) + " " + FmtF(lat) + " " + FmtF(radius) + " " + unit + "]"
  }

  function PrefixMatchClause(isNegative: bool, field: string, query: string): string {
    Sign(isNegative) + (if field != "" then "@" + field + ":" else "") + query
  }

  function MultiFieldsPrefixMatchClause(isNegative: bool, fields: seq<string>, query: string): string {
    Sign(isNegative) + (if |fields| > 0 then "@" + Join(fields, "|") + ":" else "") + query
  }

  /** FtQuery: the clause list that the Add* methods extend and Serialize joins;
      `raw` holds the last serialization. */
  class FtQuery {
    var raw: string
    var query: seq<string>

    /** NewFtQuery. */
    constructor (raw: string)
      ensures this.raw == raw && query == []
    {
      this.raw := raw;
      query := [];
    }

    /** Replaces every clause by the lone wildcard `*`. */
    method AddWildcardQuery()
      modifies this
      ensures query == ["*"] && raw == old(raw)
    {
      query := ["*"];
    }

    method AddPureNegativeQuery(q: string)
      modifies this
      ensures query == old(query) + ["-" + q] && raw == old(raw)
    {
      var nfq := "";
      nfq := nfq + "-" + q;
      assert nfq == "-" + q;
      query := query + [nfq];
    }

    method AddNumericFilterQuery(isNegative: bool, field: string, min: int, max: int,
                                 excludeMin: bool, excludeMax: bool, infMin: bool, infMax: bool)
      modifies this
      ensures query == old(query) + [NumericFilterClause(isNegative, field, min, max, excludeMin, excludeMax, infMin, infMax)]
      ensures raw == old(raw)
    {
      var nfq := "";
      if isNegative {
        nfq := nfq + "-";
      }
      assert nfq == Sign(isNegative);
      nfq := nfq + "@" + field + ":[";
      var lo: string;
      if excludeMin {
        lo := "(" + Decimal(min);
      } else if infMin {
        lo := "inf";
      } else {
        lo := Decimal(min);
      }
      var hi: string;
      if excludeMax {
        hi := "(" + Decimal(max);
      } else if infMax {
        hi := "inf";
      } else {
        hi := Decimal(max);
      }
      nfq := nfq + lo + " " + hi;
      nfq := nfq + "]";
      query := query + [nfq];
    }

    method AddTagFilterQuery(isNegative: bool, field: string, tags: seq<string>)
      modifies this
      ensures query == old(query) + [TagFilterClause(isNegative, field, tags)] && raw == old(raw)
    {
      var nfq := "";
      if isNegative {
        nfq := nfq + "-";
      }
      assert nfq == Sign(isNegative);
      nfq := nfq + "@" + field + ":{";
      nfq := nfq + Join(tags, "|");
      nfq := nfq + "}";
      query := query + [nfq];
    }

    method AddGeoFilterQuery(isNegative: bool, field: string, lon: Num, lat: Num, radius: Num, unit: string)
      modifies this
      ensures query == old(query) + [GeoFilterClause(isNegative, field, lon, lat, radius, unit)] && raw == old(raw)
    {
      var nfq := "";
      if isNegative {
        nfq := nfq + "-";
      }
      assert nfq == Sign(isNegative);
      nfq := nfq + "@" + field + ":[" + FmtF(lon) + " " + FmtF(lat) + " " + FmtF(radius) + " " + unit + "]";
      query := query + [nfq];
    }

    method AddPrefixMatchQuery(isNegative: bool, field: string, q: string)
      modifies this
      ensures query == old(query) + [PrefixMatchClause(isNegative, field, q)] && raw == old(raw)
    {
      var nfq := "";
      if isNegative {
        nfq := nfq + "-";
      }
      assert nfq == Sign(isNegative);
      if field != "" {
        nfq := nfq + "@" + field + ":";
      }
      assert nfq == Sign(isNegative) + (if field != "" then "@" + field + ":" else "");
      nfq := nfq + q;
      query := query + [nfq];
    }

    method AddMultiFieldsPrefixMatchQuery(isNegative: bool, fields: seq<string>, q: string)
      modifies this
      ensures query == old(query) + [MultiFieldsPrefixMatchClause(isNegative, fields, q)] && raw == old(raw)
    {
      var nfq := "";
      if isNegative {
        nfq := nfq + "-";
      }
      assert nfq == Sign(isNegative);
      if |fields| > 0 {
        nfq := nfq + "@" + Join(fields, "|") + ":";
      }
      assert nfq == Sign(isNegative) + (if |fields| > 0 then "@" + Join(fields, "|") + ":" else "");
      nfq := nfq + q;
      query := query + [nfq];
    }

    /** Not implemented in the source: changes nothing. */
    method AddAttributeQuery()
      ensures query == old(query) && raw == old(raw)
    {
    }

    /** Space-joins the clauses, caches the result in `raw` and returns it. */
    method Serialize() returns (r: string)
      modifies this
      ensures r == raw && r == Join(query, " ") && query == old(query)
    {
      raw := Join(query, " ");
      r := raw;
    }
  }

  /** Serializing twice with no change in between gives the same string, and a
      builder with no clause serializes to the empty string. */
  method SerializeTwice(q: FtQuery) returns (first: string, second: string)
    modifies q
    ensures first == second == q.raw && q.query == old(q.query)
    ensures old(q.query) == [] ==> first == ""
  {
    first := q.Serialize();
    second := q.Serialize();
  }
}
