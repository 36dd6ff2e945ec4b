/** SearchBuilder's attribute encoding (redisearch/searchbuilder.go): a flat
    list `[k1, v1, k2, v2, ..]` is written `@k1:v1 @k2:v2 ..`, and read back with
    the fixed regular expression `([^@:]+):([^@]+)?`, whose matches FindAll
    computes by a direct scan. */
module SearchBuilder {
  import opened Wrappers
  import opened Strings

  // ---------------------------------------------------------------------------
  // Encode

  /** The `@key:value` fragments of a flat key/value list, in order. */
  function EncodedPairs(attr: seq<string>): (r: seq<string>)
    requires |attr| % 2 == 0
    ensures |r| == |attr| / 2
    ensures |attr| >= 2 ==> r[0] == "@" + attr[0] + ":" + attr[1]
    decreases |attr|
  {
    if |attr| < 2 then [] else ["@" + attr[0] + ":" + attr[1]] + EncodedPairs(attr[2..])
  }

  lemma EvenStep(i: nat, n: nat)
    requires i % 2 == 0 && n % 2 == 0 && i < n
    ensures i + 2 <= n && (i + 2) % 2 == 0 && (n - i) % 2 == 0 && (n - (i + 2)) % 2 == 0
  {
  }

  lemma EncodedPairsAt(attr: seq<string>, i: nat)
    requires |attr| % 2 == 0 && i % 2 == 0 && i + 2 <= |attr|
    ensures EncodedPairs(attr[i..]) == ["@" + attr[i] + ":" + attr[i + 1]] + EncodedPairs(attr[i + 2..])
  {
    assert attr[i..][2..] == attr[i + 2..];
  }

  /** What Encode returns: the fragments, space-joined. */
  function Encoded(attr: seq<string>): string
    requires |attr| % 2 == 0
  {
    Join(EncodedPairs(attr), " ")
  }

  /** Encode. An odd-length list makes the Go loop index past the end, so the
      list must have even length. */
  method Encode(attr: seq<string>) returns (r: string)
    requires |attr| % 2 == 0
    ensures r == Encoded(attr)
  {
    var query: seq<string> := [];
    var i := 0;
    while i < |attr|
      invariant 0 <= i <= |attr| && i % 2 == 0 && (|attr| - i) % 2 == 0
      invariant query + EncodedPairs(attr[i..]) == EncodedPairs(attr)
    {
      EvenStep(i, |attr|);
      var fragment := "@" + attr[i] + ":" + attr[i + 1];
      EncodedPairsAt(attr, i);
      assert (query + [fragment]) + EncodedPairs(attr[i + 2..]) == query + EncodedPairs(attr[i..]);
      query := query + [fragment];
      i := i + 2;
    }
    assert EncodedPairs(attr[i..]) == [];
    assert query == EncodedPairs(attr);
    r := Join(query, " ");
  }

  // ---------------------------------------------------------------------------
  // The matches of ([^@:]+):([^@]+)?

  /** One match: group 1, and group 2 ("" when the optional group is absent). */
  datatype Match = Match(key: string, value: string)

  predicate KeyChar(ch: char) {
    ch != '@' && ch != ':'
  }

  /** The length of the longest prefix of `s` made of characters other than `@` and `:`. */
  function KeyRun(s: string): (k: nat)
    ensures k <= |s|
    decreases |s|
  {
    if |s| == 0 || !KeyChar(s[0]) then 0 else 1 + KeyRun(s[1..])
  }

  /** The length of the longest prefix of `s` without `@`. */
  function ValueRun(s: string): (k: nat)
    ensures k <= |s|
    decreases |s|
  {
    if |s| == 0 || s[0] == '@' then 0 else 1 + ValueRun(s[1..])
  }

  /** regexp.FindAllStringSubmatch for ([^@:]+):([^@]+)? . A match must start
      at a character other than `@` and `:`; since group 1 cannot contain `:`,
      it is the whole run of such characters, and the run matches exactly when
      a `:` follows it; group 2 is then the whole run of non-`@` characters
      after the colon. A run with no colon after it holds no match anywhere, so
      the scan skips it, and after a match the scan resumes where it ended. */
  function FindAll(s: string): (ms: seq<Match>)
    decreases |s|
  {
    if s == [] then []
    else
      var step := ScanStep(s);
      (if step.0.Some? then [step.0.value] else []) + FindAll(s[step.1..])
  }

  /** One step of the scan at the front of `s`: the match that starts there,
      if any, and how many characters the scan moves past. */
  function ScanStep(s: string): (r: (Option<Match>, nat))
    requires s != []
    ensures 0 < r.1 <= |s|
  {
    if !KeyChar(s[0]) then (None, 1)
    else
      var k := KeyRun(s);
      if k < |s| && s[k] == ':' then
        var v := ValueRun(s[k + 1..]);
        (Some(Match(s[..k], s[k + 1..k + 1 + v])), k + 1 + v)
      else (None, k)
  }

  /** A key as group 1 can capture it. */
  predicate KeyText(k: string) {
    |k| >= 1 && forall i :: 0 <= i < |k| ==> KeyChar(k[i])
  }

  /** Every match has a non-empty key free of `@` and `:` and a value free of `@`. */
  lemma {:induction false} FindAllShape(s: string)
    ensures forall i :: 0 <= i < |FindAll(s)| ==> KeyText(FindAll(s)[i].key) && Excludes(FindAll(s)[i].value, '@')
    decreases |s|
  {
    if s != [] {
      ScanStepShape(s);
      FindAllShape(s[ScanStep(s).1..]);
    }
  }

  lemma ScanStepShape(s: string)
    requires s != []
    ensures ScanStep(s).0.Some? ==> KeyText(ScanStep(s).0.value.key) && Excludes(ScanStep(s).0.value.value, '@')
  {
    if KeyChar(s[0]) {
      var k := KeyRun(s);
      KeyRunChars(s);
      if k < |s| && s[k] == ':' {
        var v := ValueRun(s[k + 1..]);
        ValueRunChars(s[k + 1..]);
        assert forall i :: 0 <= i < k ==> s[..k][i] == s[i];
        var value, tail := s[k + 1..k + 1 + v], s[k + 1..];
        assert forall i :: 0 <= i < v ==> value[i] == tail[i];
      }
    }
  }

  /** Every character inside the key run is a key character. */
  lemma {:induction false} KeyRunChars(s: string)
    ensures forall i :: 0 <= i < KeyRun(s) ==> KeyChar(s[i])
    decreases |s|
  {
    if |s| > 0 && KeyChar(s[0]) {
      KeyRunChars(s[1..]);
      forall i | 1 <= i < KeyRun(s) ensures KeyChar(s[i]) {
        assert s[i] == s[1..][i - 1];
      }
    }
  }

  /** No character inside the value run is an `@`. */
  lemma {:induction false} ValueRunChars(s: string)
    ensures forall i :: 0 <= i < ValueRun(s) ==> s[i] != '@'
    decreases |s|
  {
    if |s| > 0 && s[0] != '@' {
      ValueRunChars(s[1..]);
      forall i | 1 <= i < ValueRun(s) ensures s[i] != '@' {
        assert s[i] == s[1..][i - 1];
      }
    }
  }

  /** The key run is the longest prefix of key characters: it is `n` when the
      first `n` characters are key characters and the next one is not. */
  lemma {:induction false} KeyRunIs(s: string, n: nat)
    requires n < |s| && !KeyChar(s[n]) && forall i :: 0 <= i < n ==> KeyChar(s[i])
    ensures KeyRun(s) == n
    decreases n
  {
    if n > 0 {
      assert KeyChar(s[0]);
      forall i | 0 <= i < n - 1 ensures KeyChar(s[1..][i]) {
        assert s[1..][i] == s[i + 1];
      }
      KeyRunIs(s[1..], n - 1);
    }
  }

  /** The value run is the longest prefix without `@`: it is `n` when the first
      `n` characters are not `@` and the string ends there or an `@` follows. */
  lemma {:induction false} ValueRunIs(s: string, n: nat)
    requires n <= |s| && (n < |s| ==> s[n] == '@') && forall i :: 0 <= i < n ==> s[i] != '@'
    ensures ValueRun(s) == n
    decreases n
  {
    if n > 0 {
      assert s[0] != '@';
      forall i | 0 <= i < n - 1 ensures s[1..][i] != '@' {
        assert s[1..][i] == s[i + 1];
      }
      ValueRunIs(s[1..], n - 1);
    }
  }

  // ---------------------------------------------------------------------------
  // Decode and Decode2Map

  /** The flat list Decode builds: each match's key and trimmed value. */
  function DecodedList(ms: seq<Match>): (r: seq<string>)
    ensures |r| == 2 * |ms|
    decreases |ms|
  {
    if ms == [] then [] else [ms[0].key, TrimSpace(ms[0].value)] + DecodedList(ms[1..])
  }

  /** What Decode returns: nil (None) when nothing matches. */
  function Decoded(query: string): Option<seq<string>> {
    var ms := FindAll(query);
    if |ms| > 0 then Some(DecodedList(ms)) else None
  }

  method Decode(query: string) returns (r: Option<seq<string>>)
    ensures r == Decoded(query)
  {
    var res := FindAll(query);
    if |res| > 0 {
      var q: seq<string> := [];
      var n := 0;
      while n < |res|
        invariant 0 <= n <= |res|
        invariant q + DecodedList(res[n..]) == DecodedList(res)
      {
        assert res[n..][1..] == res[n + 1..];
        q := q + [res[n].key, TrimSpace(res[n].value)];
        n := n + 1;
      }
      assert q == DecodedList(res);
      r := Some(q);
    } else {
      r := None;
    }
  }

  /** A flat list made of whole pairs whose keys are non-empty without `@` or
      `:` and whose values are free of `@` and of surrounding white space:
      the lists Decode returns, and the ones it reads back from their encoding. */
  predicate Decodable(d: seq<string>)
    decreases |d|
  {
    d == [] || (|d| >= 2 && KeyText(d[0]) && Excludes(d[1], '@') && Trimmed(d[1]) && Decodable(d[2..]))
  }

  lemma DecodableEven(d: seq<string>)
    requires Decodable(d)
    ensures |d| % 2 == 0
    decreases |d|
  {
    if d != [] {
      DecodableEven(d[2..]);
    }
  }

  /** TrimSpace yields a trimmed string that holds no character `s` did not. */
  lemma TrimSpaceShape(s: string, c: char)
    ensures Trimmed(TrimSpace(s))
    ensures Excludes(s, c) ==> Excludes(TrimSpace(s), c)
  {
    TrimSpaceTrimmed(s);
    TrimSpaceInside(s);
  }

  lemma TrimSpaceTrimmed(s: string)
    ensures Trimmed(TrimSpace(s))
  {
    var l := TrimLeft(s);
    var r := TrimRight(l);
    TrimLeftShape(s);
    TrimRightShape(l);
    if r != [] {
      assert r[0] == l[0];
    }
  }

  /** Every character of TrimSpace(s) is a character of s. */
  lemma TrimSpaceInside(s: string)
    ensures |TrimSpace(s)| <= |TrimLeft(s)| <= |s|
    ensures forall i :: 0 <= i < |TrimSpace(s)| ==> TrimSpace(s)[i] == s[|s| - |TrimLeft(s)| + i]
  {
    var l := TrimLeft(s);
    var r := TrimRight(l);
    TrimLeftShape(s);
    TrimRightShape(l);
    forall i | 0 <= i < |r| ensures r[i] == s[|s| - |l| + i] {
      assert r[i] == l[i];
    }
  }

  lemma {:induction false} DecodedListShape(ms: seq<Match>)
    requires forall i :: 0 <= i < |ms| ==> KeyText(ms[i].key) && Excludes(ms[i].value, '@')
    ensures Decodable(DecodedList(ms))
    decreases |ms|
  {
    if ms != [] {
      DecodedListShape(ms[1..]);
      TrimSpaceShape(ms[0].value, '@');
      assert DecodedList(ms)[2..] == DecodedList(ms[1..]);
    }
  }

  /** Decode's result is non-empty, made of whole pairs, with non-empty keys
      free of `@` and `:` and trimmed values free of `@`. */
  lemma DecodedShape(query: string)
    ensures Decoded(query).Some? ==> |Decoded(query).value| >= 2 && Decodable(Decoded(query).value)
  {
    FindAllShape(query);
    DecodedListShape(FindAll(query));
  }

  /** The map Decode2Map builds: each match in turn, a later key overwriting an earlier one. */
  function DecodedMap(ms: seq<Match>): map<string, string>
    decreases |ms|
  {
    if ms == [] then map[]
    else DecodedMap(ms[..|ms| - 1])[ms[|ms| - 1].key := TrimSpace(ms[|ms| - 1].value)]
  }

  /** What Decode2Map returns: nil (None) when nothing matches. */
  function Decoded2Map(query: string): Option<map<string, string>> {
    var ms := FindAll(query);
    if |ms| > 0 then Some(DecodedMap(ms)) else None
  }

  method Decode2Map(query: string) returns (r: Option<map<string, string>>)
    ensures r == Decoded2Map(query)
  {
    var res := FindAll(query);
    if |res| > 0 {
      var q: map<string, string> := map[];
      var n := 0;
      while n < |res|
        invariant 0 <= n <= |res|
        invariant q == DecodedMap(res[..n])
      {
        assert res[..n + 1][..n] == res[..n];
        q := q[res[n].key := TrimSpace(res[n].value)];
        n := n + 1;
      }
      assert res[..|res|] == res;
      r := Some(q);
    } else {
      r := None;
    }
  }

  /** The map of the matches holds exactly their keys, each with the value of
      its last occurrence. */
  lemma {:induction false} DecodedMapLastWins(ms: seq<Match>)
    ensures forall key :: key in DecodedMap(ms) <==> exists j :: 0 <= j < |ms| && ms[j].key == key
    ensures forall j :: 0 <= j < |ms| && (forall l :: j < l < |ms| ==> ms[l].key != ms[j].key)
              ==> ms[j].key in DecodedMap(ms) && DecodedMap(ms)[ms[j].key] == TrimSpace(ms[j].value)
    decreases |ms|
  {
    if ms != [] {
      var init := ms[..|ms| - 1];
      DecodedMapLastWins(init);
      forall key ensures key in DecodedMap(ms) <==> exists j :: 0 <= j < |ms| && ms[j].key == key {
        if key in DecodedMap(init) {
          var j :| 0 <= j < |init| && init[j].key == key;
          assert ms[j].key == key;
        }
        if exists j :: 0 <= j < |ms| && ms[j].key == key {
          var j :| 0 <= j < |ms| && ms[j].key == key;
          if j < |ms| - 1 {
            assert init[j].key == key;
          }
        }
      }
      forall j | 0 <= j < |ms| && (forall l :: j < l < |ms| ==> ms[l].key != ms[j].key)
        ensures ms[j].key in DecodedMap(ms) && DecodedMap(ms)[ms[j].key] == TrimSpace(ms[j].value)
      {
        if j < |ms| - 1 {
          assert init[j] == ms[j];
          forall l | j < l < |init| ensures init[l].key != init[j].key {
            assert init[l] == ms[l];
          }
        }
      }
    }
  }

  /** The map a flat pair list denotes when a later key overrides an earlier
      one, read from the front: a pair counts unless its key comes again. */
  function PairMap(d: seq<string>): map<string, string>
    decreases |d|
  {
    if |d| < 2 then map[]
    else
      var m := PairMap(d[2..]);
      if d[0] in m then m else m[d[0] := d[1]]
  }

  lemma {:induction false} PairMapSnoc(d: seq<string>, k: string, v: string)
    requires |d| % 2 == 0
    ensures PairMap(d + [k, v]) == PairMap(d)[k := v]
    decreases |d|
  {
    if |d| == 0 {
      assert d + [k, v] == [k, v];
      assert ([k, v])[2..] == [];
    } else {
      assert (d + [k, v])[2..] == d[2..] + [k, v];
      PairMapSnoc(d[2..], k, v);
    }
  }

  lemma {:induction false} DecodedMapIsPairMap(ms: seq<Match>)
    ensures DecodedMap(ms) == PairMap(DecodedList(ms))
    decreases |ms|
  {
    if ms != [] {
      var init := ms[..|ms| - 1];
      var last := ms[|ms| - 1];
      DecodedMapIsPairMap(init);
      DecodedListSnoc(init, last);
      assert init + [last] == ms;
      PairMapSnoc(DecodedList(init), last.key, TrimSpace(last.value));
    }
  }

  lemma {:induction false} DecodedListSnoc(ms: seq<Match>, m: Match)
    ensures DecodedList(ms + [m]) == DecodedList(ms) + [m.key, TrimSpace(m.value)]
    decreases |ms|
  {
    if ms == [] {
      assert [m][1..] == [];
    } else {
      assert (ms + [m])[1..] == ms[1..] + [m];
      DecodedListSnoc(ms[1..], m);
    }
  }

  /** Decode2Map returns exactly the pairs Decode returns, a later key
      overriding an earlier one; both are nil together. */
  lemma Decode2MapAgreesWithDecode(query: string)
    ensures Decoded2Map(query).Some? <==> Decoded(query).Some?
    ensures Decoded(query).Some? ==> Decoded2Map(query).value == PairMap(Decoded(query).value)
  {
    DecodedMapIsPairMap(FindAll(query));
  }

  // ---------------------------------------------------------------------------
  // Round trip

  lemma KeyRunOf(k: string, rest: string)
    requires KeyText(k) && |rest| >= 1 && rest[0] == ':'
    ensures KeyRun(k + rest) == |k|
  {
    var s := k + rest;
    assert forall i :: 0 <= i < |k| ==> s[i] == k[i];
    assert s[|k|] == ':';
    KeyRunIs(s, |k|);
  }

  lemma ValueRunOf(v: string, rest: string)
    requires Excludes(v, '@') && (rest == [] || rest[0] == '@')
    ensures ValueRun(v + rest) == |v|
  {
    var s := v + rest;
    assert forall i :: 0 <= i < |v| ==> s[i] == v[i];
    assert |s| > |v| ==> s[|v|] == rest[0];
    ValueRunIs(s, |v|);
  }

  /** The scan step at `k:v` followed by nothing or by an `@`: the match
      `(k, v)`, and the scan resumes at the rest. */
  lemma ScanStepAtColon(k: string, v: string, rest: string)
    requires KeyText(k) && Excludes(v, '@') && (rest == [] || rest[0] == '@')
    ensures k + ":" + v + rest != []
    ensures ScanStep(k + ":" + v + rest) == (Some(Match(k, v)), |k| + 1 + |v|)
    ensures (k + ":" + v + rest)[|k| + 1 + |v|..] == rest
  {
    var s := k + ":" + v + rest;
    ColonSplit(k, v, rest);
    KeyRunOf(k, ":" + v + rest);
    ValueRunOf(v, rest);
    assert KeyChar(s[0]);
  }

  lemma FindAllAfter(s: string, m: Match, n: nat)
    requires s != [] && ScanStep(s) == (Some(m), n)
    ensures FindAll(s) == [m] + FindAll(s[n..])
  {
  }

  /** Where the key, the colon, the value and the rest sit in `k:v` + rest. */
  lemma ColonSplit(k: string, v: string, rest: string)
    ensures var s := k + ":" + v + rest;
      s == k + (":" + v + rest) && |s| > |k| && s[|k|] == ':'
      && s[..|k|] == k && s[|k| + 1..] == v + rest
      && s[|k| + 1..|k| + 1 + |v|] == v && s[|k| + 1 + |v|..] == rest
  {
    var s := k + ":" + v + rest;
    assert s == k + (":" + v + rest);
    assert s[|k| + 1..] == v + rest;
  }

  /** A key, a colon and a value, followed by nothing or by an `@`, is one match. */
  lemma MatchAt(k: string, v: string, rest: string)
    requires KeyText(k) && Excludes(v, '@') && (rest == [] || rest[0] == '@')
    ensures FindAll(k + ":" + v + rest) == [Match(k, v)] + FindAll(rest)
  {
    var s := k + ":" + v + rest;
    ScanStepAtColon(k, v, rest);
    FindAllAfter(s, ScanStep(s).0.value, ScanStep(s).1);
  }

  /** One `@key:value` fragment, followed by nothing or by another `@`, is one match. */
  lemma ScanFragment(k: string, v: string, rest: string)
    requires KeyText(k) && Excludes(v, '@') && (rest == [] || rest[0] == '@')
    ensures FindAll("@" + k + ":" + v + rest) == [Match(k, v)] + FindAll(rest)
  {
    var s := "@" + k + ":" + v + rest;
    assert s[1..] == k + ":" + v + rest;
    MatchAt(k, v, rest);
  }

  /** The encoding of a list of at least one pair: its first fragment, then a
      space and the encoding of the rest when there is more. */
  lemma EncodedFirst(attr: seq<string>)
    requires |attr| % 2 == 0 && |attr| >= 2
    ensures |attr| == 2 ==> Encoded(attr) == "@" + attr[0] + ":" + attr[1] + ""
    ensures |attr| >= 4 ==> Encoded(attr) == "@" + attr[0] + ":" + (attr[1] + " ") + Encoded(attr[2..])
    ensures |attr| >= 4 ==> Encoded(attr[2..])[0] == '@'
  {
    var p := EncodedPairs(attr);
    if |attr| >= 4 {
      assert p[1..] == EncodedPairs(attr[2..]);
      assert EncodedPairs(attr[2..])[0][0] == '@';
    }
  }

  lemma DecodedListCons(m: Match, ms: seq<Match>)
    ensures DecodedList([m] + ms) == [m.key, TrimSpace(m.value)] + DecodedList(ms)
  {
    assert ([m] + ms)[1..] == ms;
  }

  lemma {:induction false} DecodeEncodedList(attr: seq<string>)
    requires Decodable(attr)
    ensures |attr| % 2 == 0 && DecodedList(FindAll(Encoded(attr))) == attr
    decreases |attr|
  {
    DecodableEven(attr);
    if |attr| == 2 {
      EncodedFirst(attr);
      ScanFragment(attr[0], attr[1], "");
      TrimSpaceOfTrimmed(attr[1], "");
      assert attr[1] + "" == attr[1];
      DecodedListCons(Match(attr[0], attr[1]), []);
      assert FindAll("") == [];
    } else if |attr| >= 4 {
      var tail := attr[2..];
      DecodeEncodedList(tail);
      EncodedFirst(attr);
      var e := Encoded(tail);
      assert Excludes(attr[1] + " ", '@');
      ScanFragment(attr[0], attr[1] + " ", e);
      TrimSpaceOfTrimmed(attr[1], " ");
      DecodedListCons(Match(attr[0], attr[1] + " "), FindAll(e));
      assert [attr[0], attr[1]] + tail == attr;
    }
  }

  /** Decoding what Encode wrote gives the original list back; an empty list
      encodes to "" and decodes to nil. */
  lemma DecodeEncodeRoundTrip(attr: seq<string>)
    requires Decodable(attr)
    ensures |attr| % 2 == 0
    ensures Decoded(Encoded(attr)) == if attr == [] then None else Some(attr)
  {
    DecodeEncodedList(attr);
  }

  /** Whatever Decode returns, encoding it and decoding again gives it back. */
  lemma EncodeDecodeRoundTrip(query: string)
    ensures Decoded(query).Some? ==>
              var d := Decoded(query).value;
              |d| % 2 == 0 && Decoded(Encoded(d)) == Some(d)
  {
    DecodedShape(query);
    if Decoded(query).Some? {
      DecodeEncodeRoundTrip(Decoded(query).value);
    }
  }

  // ---------------------------------------------------------------------------
  // The cases of redisearch/searchbuilder_test.go

  const TestAttr: seq<string> := ["dene", "obaraks", "query", "ne dedin sen", "type", "12"]
  const TestQuery: string := "@dene:obaraks @query:ne dedin sen @type:12"

  lemma TestFragments()
    ensures EncodedPairs(TestAttr) == ["@dene:obaraks", "@query:ne dedin sen", "@type:12"]
  {
    var a2 := TestAttr[2..];
    var a4 := a2[2..];
    assert a4 == ["type", "12"] && a4[2..] == [];
    assert a2 == ["query", "ne dedin sen", "type", "12"];
    assert EncodedPairs(a4) == ["@type:12"] by {
      assert "@" + "type" + ":" + "12" == "@type:12";
    }
    assert EncodedPairs(a2) == ["@query:ne dedin sen", "@type:12"] by {
      assert "@" + "query" + ":" + "ne dedin sen" == "@query:ne dedin sen";
    }
    assert "@" + "dene" + ":" + "obaraks" == "@dene:obaraks";
  }

  lemma EncodeTestCase()
    ensures Encoded(TestAttr) == TestQuery
  {
    TestFragments();
    var p := EncodedPairs(TestAttr);
    calc {
      Encoded(TestAttr);
      Join(p, " ");
      { assert p[1..] == ["@query:ne dedin sen", "@type:12"]; }
      "@dene:obaraks" + " " + Join(["@query:ne dedin sen", "@type:12"], " ");
      { assert ["@query:ne dedin sen", "@type:12"][1..] == ["@type:12"]; }
      "@dene:obaraks" + " " + ("@query:ne dedin sen" + " " + "@type:12");
      { TestQuerySpelled(); }
      TestQuery;
    }
  }

  lemma TestQuerySpelled()
    ensures "@dene:obaraks" + " " + ("@query:ne dedin sen" + " " + "@type:12") == TestQuery
  {
  }

  lemma DecodeTestCase()
    ensures Decoded(TestQuery) == Some(TestAttr)
  {
    EncodeTestCase();
    var a2 := TestAttr[2..];
    var a4 := a2[2..];
    assert a4 == ["type", "12"] && a4[2..] == [];
    assert Decodable(a4);
    assert Decodable(a2);
    DecodeEncodeRoundTrip(TestAttr);
  }

  lemma TestPairMap()
    ensures PairMap(TestAttr) == map["dene" := "obaraks", "query" := "ne dedin sen", "type" := "12"]
  {
    var a2 := TestAttr[2..];
    var a4 := a2[2..];
    assert a4 == ["type", "12"] && a4[2..] == [];
    assert a2 == ["query", "ne dedin sen", "type", "12"];
    assert PairMap(a4) == map["type" := "12"];
    assert PairMap(a2) == map["type" := "12", "query" := "ne dedin sen"];
  }

  lemma Decode2MapTestCase()
    ensures Decoded2Map(TestQuery) == Some(map["dene" := "obaraks", "query" := "ne dedin sen", "type" := "12"])
  {
    DecodeTestCase();
    Decode2MapAgreesWithDecode(TestQuery);
    TestPairMap();
  }
}
