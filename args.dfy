/** The values that flow into the command argument lists: Go float64/float32
    numbers (Num), their %.f rendering (FmtF), and the heterogeneous
    `[]interface{}` elements the Serialize methods append (Arg). */
module Args {
  import opened Wrappers
  import opened Strings

  /** A Go floating-point value: the exact value of a finite float, or one of
      the IEEE specials. (Go's negative zero is not distinguished from zero.) */
  datatype Num = Finite(value: real) | PosInf | NegInf | NaN

  /** Go's `x > 0`. */
  predicate Positive(x: Num) {
    x.PosInf? || (x.Finite? && x.value > 0.0)
  }

  /** Go's `x == k` for a constant k (NaN equals nothing). */
  predicate EqualsConst(x: Num, k: real) {
    x.Finite? && x.value == k
  }

  /** Go's `math.IsInf(x, sign)` for sign = +1 and sign = -1. */
  predicate IsInf(x: Num, sign: int) {
    (sign > 0 && x.PosInf?) || (sign < 0 && x.NegInf?)
  }

  /** Rounding to the nearest integer, ties to the even one, as strconv does
      when it formats with precision 0. */
  function RoundHalfEven(v: real): (n: int)
    ensures (n as real) - 0.5 <= v <= (n as real) + 0.5
    ensures (n as real) - v == 0.5 || v - (n as real) == 0.5 ==> n % 2 == 0
  {
    var fl := v.Floor;
    var frac := v - fl as real;
    if frac < 0.5 then fl
    else if frac > 0.5 then fl + 1
    else if fl % 2 == 0 then fl
    else fl + 1
  }

  /** fmt.Sprintf("%.f", x): the value rounded to a whole number; a negative
      value that rounds to zero keeps its sign ("-0"); the specials are
      "+Inf", "-Inf" and "NaN". */
  function FmtF(x: Num): string {
    match x
    case Finite(v) =>
      var n := RoundHalfEven(v);
      if v < 0.0 && n == 0 then "-0" else Decimal(n)
    case PosInf => "+Inf"
    case NegInf => "-Inf"
    case NaN => "NaN"
  }

  /** A whole number renders as its decimal digits, and so can be read back. */
  lemma FmtFWhole(n: int)
    ensures FmtF(Finite(n as real)) == Decimal(n)
    ensures ParseDecimal(FmtF(Finite(n as real))) == Some(n)
  {
    assert (n as real).Floor == n;
    DecimalRoundTrip(n);
  }

  /** One element of a Go `[]interface{}` command: a string, an int or a float. */
  datatype Arg = S(s: string) | I(i: int) | F(f: Num)

  /** A block of elements that is emitted only under a condition. */
  function When(b: bool, xs: seq<Arg>): seq<Arg> {
    if b then xs else []
  }

  lemma Assoc(a: seq<Arg>, b: seq<Arg>, c: seq<Arg>)
    ensures a + b + c == a + (b + c)
  {
  }

  /** Each string as a string element, in order. */
  function Strs(xs: seq<string>): (r: seq<Arg>)
    ensures |r| == |xs|
    ensures forall i :: 0 <= i < |xs| ==> r[i] == S(xs[i])
    decreases |xs|
  {
    if xs == [] then [] else [S(xs[0])] + Strs(xs[1..])
  }

  lemma {:induction false} StrsSnoc(xs: seq<string>, x: string)
    ensures Strs(xs + [x]) == Strs(xs) + [S(x)]
    decreases |xs|
  {
    if xs == [] {
      assert [x][1..] == [];
    } else {
      assert (xs + [x])[1..] == xs[1..] + [x];
      StrsSnoc(xs[1..], x);
    }
  }

  lemma StrsPrefix(xs: seq<string>, i: nat)
    requires i < |xs|
    ensures Strs(xs[..i + 1]) == Strs(xs[..i]) + [S(xs[i])]
  {
    assert xs[..i + 1] == xs[..i] + [xs[i]];
    StrsSnoc(xs[..i], xs[i]);
  }

  /** The Serialize loops over a list of strings (PREFIX, STOPWORDS, INKEYS,
      RETURN, FIELDS): each string appended in turn. */
  method AppendStrings(queryCode0: seq<Arg>, xs: seq<string>) returns (queryCode: seq<Arg>)
    ensures queryCode == queryCode0 + Strs(xs)
  {
    queryCode := queryCode0;
    for i := 0 to |xs|
      invariant queryCode == queryCode0 + Strs(xs[..i])
    {
      queryCode := queryCode + [S(xs[i])];
      StrsPrefix(xs, i);
    }
    assert xs[..|xs|] == xs;
  }

  /** A counted list `n x1 .. xn`, as RediSearch writes PREFIX, STOPWORDS,
      INKEYS, RETURN and FIELDS. */
  function Counted(xs: seq<string>): (r: seq<Arg>)
    ensures |r| == |xs| + 1 && r[0] == I(|xs|) && r[1..] == Strs(xs)
  {
    [I(|xs|)] + Strs(xs)
  }

  /** Reads a counted list back: the count, then exactly that many strings. */
  function ParseCounted(args: seq<Arg>): (r: Option<(seq<string>, seq<Arg>)>)
    ensures r.Some? ==> |r.value.1| < |args|
  {
    if |args| >= 1 && args[0].I? && 0 <= args[0].i <= |args| - 1
       && forall j :: 1 <= j <= args[0].i ==> args[j].S?
    then Some((seq(args[0].i, j requires 0 <= j < args[0].i && 1 + j < |args| && args[1 + j].S? => args[1 + j].s),
               args[1 + args[0].i..]))
    else None
  }

  /** Appending leaves a prefix as it was. */
  lemma PrefixKept(a: seq<Arg>, b: seq<Arg>, n: nat)
    requires n <= |a|
    ensures (a + b)[..n] == a[..n]
  {
  }

  /** Appending puts the new part at the end. */
  lemma SuffixKept(a: seq<Arg>, b: seq<Arg>)
    ensures |a + b| == |a| + |b| && (a + b)[|a|..] == b
  {
  }

  /** An option word followed by a counted list: the list starts at index 1. */
  lemma CountedAfter(w: Arg, xs: seq<string>, rest: seq<Arg>)
    ensures ([w, I(|xs|)] + Strs(xs) + rest) != []
    ensures ([w, I(|xs|)] + Strs(xs) + rest)[0] == w
    ensures ([w, I(|xs|)] + Strs(xs) + rest)[1..] == Counted(xs) + rest
  {
    var ys := Strs(xs);
    assert [w, I(|xs|)] == [w] + [I(|xs|)];
    Assoc([w], [I(|xs|)], ys);
    Assoc([w], [I(|xs|)] + ys, rest);
  }

  lemma CountedRoundTrip(xs: seq<string>, rest: seq<Arg>)
    ensures ParseCounted(Counted(xs) + rest) == Some((xs, rest))
  {
    var args := Counted(xs) + rest;
    assert args[0] == I(|xs|);
    forall j | 1 <= j <= |xs| ensures args[j] == S(xs[j - 1]) {
      assert args[j] == Strs(xs)[j - 1];
    }
    var got := seq(|xs|, j requires 0 <= j < |xs| && 1 + j < |args| && args[1 + j].S? => args[1 + j].s);
    assert got == xs;
    assert args[1 + |xs|..] == rest;
  }

  // Regrouping appended blocks, as the readers and the Serialize methods need

  lemma AssocRight(a: seq<Arg>, b: seq<Arg>, x: seq<Arg>)
    ensures a + b + x == a + (b + x)
  {
  }

  lemma AssocRight3(a: seq<Arg>, b: seq<Arg>, c: seq<Arg>, x: seq<Arg>)
    ensures a + b + c + x == a + (b + (c + x))
  {
  }

  lemma AssocRight4(a: seq<Arg>, b: seq<Arg>, c: seq<Arg>, d: seq<Arg>, x: seq<Arg>)
    ensures a + b + c + d + x == a + (b + (c + (d + x)))
  {
  }

  lemma AssocRight5(a: seq<Arg>, b: seq<Arg>, c: seq<Arg>, d: seq<Arg>, e: seq<Arg>, x: seq<Arg>)
    ensures a + b + c + d + e + x == a + (b + (c + (d + (e + x))))
  {
  }

  lemma AssocRight6(a: seq<Arg>, b: seq<Arg>, c: seq<Arg>, d: seq<Arg>, e: seq<Arg>, f: seq<Arg>, x: seq<Arg>)
    ensures a + b + c + d + e + f + x == a + (b + (c + (d + (e + (f + x)))))
  {
  }

  lemma AssocRight9(h: seq<Arg>, a: seq<Arg>, b: seq<Arg>, c: seq<Arg>, d: seq<Arg>, e: seq<Arg>,
                    f: seq<Arg>, g: seq<Arg>, i: seq<Arg>, j: seq<Arg>)
    ensures h + a + b + c + d + e + f + g + i + j == h + (a + (b + (c + (d + (e + (f + (g + (i + j))))))))
  {
    calc {
      h + a + b + c + d + e + f + g + i + j;
      { AssocRight(h + a + b + c + d + e + f, g, i + j); AssocRight(h + a + b + c + d + e + f + g, i, j); }
      h + a + b + c + d + e + f + (g + (i + j));
      { AssocRight(h + a + b + c + d, e, f + (g + (i + j))); AssocRight(h + a + b + c + d + e, f, g + (i + j)); }
      h + a + b + c + d + (e + (f + (g + (i + j))));
      { AssocRight(h + a + b, c, d + (e + (f + (g + (i + j))))); AssocRight(h + a + b + c, d, e + (f + (g + (i + j)))); }
      h + a + b + (c + (d + (e + (f + (g + (i + j))))));
      { AssocRight(h, a, b + (c + (d + (e + (f + (g + (i + j))))))); AssocRight(h + a, b, c + (d + (e + (f + (g + (i + j)))))); }
      h + (a + (b + (c + (d + (e + (f + (g + (i + j))))))));
    }
  }

  /** Blocks appended one after the other, as Serialize appends them. */
  lemma Chain3(q0: seq<Arg>, q1: seq<Arg>, q2: seq<Arg>, q3: seq<Arg>, a: seq<Arg>, b: seq<Arg>, c: seq<Arg>)
    requires q1 == q0 + a && q2 == q1 + b && q3 == q2 + c
    ensures q3 == q0 + (a + b + c)
  {
  }

  lemma Chain4(q0: seq<Arg>, q1: seq<Arg>, q2: seq<Arg>, q3: seq<Arg>, q4: seq<Arg>,
               a: seq<Arg>, b: seq<Arg>, c: seq<Arg>, d: seq<Arg>)
    requires q1 == q0 + a && q2 == q1 + b && q3 == q2 + c && q4 == q3 + d
    ensures q4 == q0 + (a + b + c + d)
  {
  }

  lemma Chain5(q0: seq<Arg>, q1: seq<Arg>, q2: seq<Arg>, q3: seq<Arg>, q4: seq<Arg>, q5: seq<Arg>,
               a: seq<Arg>, b: seq<Arg>, c: seq<Arg>, d: seq<Arg>, e: seq<Arg>)
    requires q1 == q0 + a && q2 == q1 + b && q3 == q2 + c && q4 == q3 + d && q5 == q4 + e
    ensures q5 == q0 + (a + b + c + d + e)
  {
  }

  lemma Chain6(q0: seq<Arg>, q1: seq<Arg>, q2: seq<Arg>, q3: seq<Arg>, q4: seq<Arg>, q5: seq<Arg>, q6: seq<Arg>,
               a: seq<Arg>, b: seq<Arg>, c: seq<Arg>, d: seq<Arg>, e: seq<Arg>, f: seq<Arg>)
    requires q1 == q0 + a && q2 == q1 + b && q3 == q2 + c && q4 == q3 + d && q5 == q4 + e && q6 == q5 + f
    ensures q6 == q0 + (a + b + c + d + e + f)
  {
  }
}
