/** Decoded YAML and JSON values, and the equality `plan` compares them by
    (apps/cli/cmd/apply_diff.go, and `plainValue`/`isPlain` of apps/cli/cmd/export.go). */
module Values {
  import opened Options

  /** An IEEE double. Rounding matters only where an integer becomes a double (`NearestDouble`), so
      finite doubles are exact reals. */
  datatype Double = Finite(r: real) | PosInf | NegInf | NaN

  /** A Go `any` as the YAML and JSON decoders hand it over.
      `Int` is every Go integer kind; `Time` is a YAML timestamp, whose JSON form is `text`;
      `AnyMap` is a `map[any]any`: one iteration order of its entries, each key as `fmt.Sprint`
      prints it, so two different keys may carry the same text. */
  datatype Value =
    | Null
    | Bool(b: bool)
    | Int(n: int)
    | Float(d: Double)
    | JsonNumber(text: string, parsed: Option<Double>)
    | Str(s: string)
    | Time(text: string)
    | List(items: seq<Value>)
    | Map(fields: Fields)
    | AnyMap(entries: seq<Entry>)

  datatype Entry = Entry(key: string, value: Value)

  type Fields = map<string, Value>

  /** A Go map read: nil for an absent key. */
  function Get(m: Fields, k: string): Value {
    if k in m then m[k] else Null
  }

  // ----- float64(int) -----

  const TWO_53 := 0x20_0000_0000_0000

  /** The gap between neighbouring doubles at magnitude `n`. */
  function Gap(n: nat): (u: nat)
    ensures u >= 1 && n < TWO_53 * u
    ensures n >= TWO_53 ==> u >= 2 && n >= TWO_53 / 2 * u
    ensures n < TWO_53 ==> u == 1
  {
    if n < TWO_53 then 1 else 2 * Gap(n / 2)
  }

  /** The multiple of `u` nearest to `n`; halfway goes to the even multiple. */
  function RoundHalfEven(n: nat, u: nat): (r: int)
    requires u >= 1
    ensures 2 * (n - r) <= u && 2 * (r - n) <= u
    ensures u == 1 ==> r == n
  {
    var rem := n % u;
    if 2 * rem < u || (2 * rem == u && n / u % 2 == 0) then n - rem else n - rem + u
  }

  /** Go's `float64(n)`. */
  function NearestDouble(n: int): int {
    if n >= 0 then RoundHalfEven(n, Gap(n)) else -RoundHalfEven(-n, Gap(-n))
  }

  lemma ExactWithin53Bits(n: int)
    requires -TWO_53 <= n <= TWO_53
    ensures NearestDouble(n) == n
  {
    if n == TWO_53 || n == -TWO_53 {
      assert Gap(TWO_53) == 2;
      assert TWO_53 % 2 == 0;
    }
  }

  // ----- what rounding does -----

  function Magnitude(n: int): nat {
    if n < 0 then -n else n
  }

  /** An integer that is a double: a multiple of the gap at its magnitude. */
  predicate IsDouble(d: int) {
    Magnitude(d) % Gap(Magnitude(d)) == 0
  }

  lemma MultiplesApart(p: int, q: int, u: nat)
    requires p < q
    ensures p * u + u <= q * u
  {
    var d := q - p - 1;
    assert d * u >= 0;
    assert q * u == (p + 1 + d) * u == p * u + u + d * u;
  }

  lemma OneQuotient(p: int, a: nat, q: int, b: nat, u: nat)
    requires p * u + a == q * u + b && a < u && b < u
    ensures p == q && a == b
  {
    if p < q { MultiplesApart(p, q, u); } else if q < p { MultiplesApart(q, p, u); }
  }

  lemma QuotientOf(q: nat, r: nat, u: nat)
    requires r < u
    ensures (q * u + r) / u == q && (q * u + r) % u == r
  {
    var x := q * u + r;
    assert x == x / u * u + x % u;
    OneQuotient(x / u, x % u, q, r, u);
  }

  /** The gap is the same over a whole binade. */
  lemma {:induction false} GapOfBinade(n: nat, m: nat)
    requires n >= TWO_53 && TWO_53 / 2 * Gap(n) <= m < TWO_53 * Gap(n)
    ensures Gap(m) == Gap(n)
  {
    if n / 2 >= TWO_53 { GapOfBinade(n / 2, m / 2); }
  }

  /** At the end of a binade it doubles. */
  lemma {:induction false} GapAtEnd(n: nat)
    ensures Gap(TWO_53 * Gap(n)) == 2 * Gap(n)
  {
    if n >= TWO_53 { GapAtEnd(n / 2); }
  }

  /** A number past 2^53 as a quotient and a remainder by its gap. */
  lemma InBinade(n: nat) returns (q: nat, r: nat)
    requires n >= TWO_53
    ensures n == q * Gap(n) + r && r < Gap(n) && q == n / Gap(n) && r == n % Gap(n)
    ensures TWO_53 / 2 <= q < TWO_53
  {
    hide Gap;
    q, r := n / Gap(n), n % Gap(n);
    QuotientBounds(q, r, Gap(n), TWO_53 / 2, TWO_53);
  }

  lemma QuotientBounds(q: int, r: nat, u: nat, lo: nat, hi: nat)
    requires r < u && lo * u <= q * u + r < hi * u
    ensures lo <= q < hi
  {
    if q < lo { MultiplesApart(q, lo, u); }
    if q > hi { MultiplesApart(hi, q, u); }
  }

  /** The multiples of a binade's gap, up to its end, are doubles. */
  lemma MultipleIsDouble(n: nat, q: nat)
    requires n >= TWO_53 && TWO_53 / 2 <= q < TWO_53
    ensures IsDouble(q * Gap(n)) && Gap(q * Gap(n)) == Gap(n)
  {
    hide Gap;
    var u := Gap(n);
    BinadeOf(q, u);
    GapOfBinade(n, q * u);
    QuotientOf(q, 0, u);
  }

  lemma BinadeOf(q: nat, u: nat)
    requires u >= 1 && TWO_53 / 2 <= q < TWO_53
    ensures TWO_53 / 2 * u <= q * u < TWO_53 * u
  {
    MultiplesApart(q, TWO_53, u);
    if q > TWO_53 / 2 { MultiplesApart(TWO_53 / 2, q, u); }
  }

  lemma EndIsDouble(n: nat)
    ensures IsDouble(TWO_53 * Gap(n))
  {
    hide Gap, IsDouble;
    GapAtEnd(n);
    HalfAgain(Gap(n));
    MultipleOfGap(TWO_53 * Gap(n), TWO_53 / 2);
  }

  lemma HalfAgain(u: nat)
    ensures TWO_53 * u == TWO_53 / 2 * (2 * u)
  {
  }

  lemma MultipleOfGap(x: nat, q: nat)
    requires x == q * Gap(x)
    ensures IsDouble(x)
  {
    hide Gap;
    QuotientOf(q, 0, Gap(x));
  }

  /** Rounding goes to the multiple below or the next one: the nearer, and of equally near ones the even. */
  lemma RoundedQuotient(n: nat) returns (q: nat)
    requires n >= TWO_53
    ensures RoundHalfEven(n, Gap(n)) == q * Gap(n) && (q == n / Gap(n) || q == n / Gap(n) + 1)
    ensures TWO_53 / 2 <= q <= TWO_53
    ensures 2 * (n % Gap(n)) == Gap(n) ==> q % 2 == 0
  {
    hide Gap;
    var f, r := InBinade(n);
    NextMultiple(f, Gap(n));
    q := if 2 * r < Gap(n) || (2 * r == Gap(n) && f % 2 == 0) then f else f + 1;
  }

  lemma NextMultiple(f: nat, u: nat)
    ensures (f + 1) * u == f * u + u
  {
  }

  lemma RoundedMagnitude(n: int)
    ensures Magnitude(NearestDouble(n)) == RoundHalfEven(Magnitude(n), Gap(Magnitude(n)))
    ensures n >= 0 ==> NearestDouble(n) >= 0
    ensures n <= 0 ==> NearestDouble(n) <= 0
    ensures Magnitude(n) >= TWO_53 ==> Magnitude(NearestDouble(n)) >= TWO_53 / 2 * Gap(Magnitude(n))
    ensures IsDouble(NearestDouble(n))
  {
    hide Gap, RoundHalfEven;
    var a := Magnitude(n);
    if a >= TWO_53 {
      RoundedPastExact(a);
    } else {
      SmallIsDouble(a);
    }
  }

  lemma SmallIsDouble(a: nat)
    requires a < TWO_53
    ensures RoundHalfEven(a, Gap(a)) == a && IsDouble(a)
  {
  }

  lemma RoundedPastExact(a: nat)
    requires a >= TWO_53
    ensures var r := RoundHalfEven(a, Gap(a)); r >= TWO_53 / 2 * Gap(a) >= TWO_53 && IsDouble(r)
  {
    hide Gap, RoundHalfEven, IsDouble;
    var q := RoundedQuotient(a);
    FromHalf(q, Gap(a));
    if q == TWO_53 { EndIsDouble(a); } else { MultipleIsDouble(a, q); }
  }

  lemma FromHalf(q: nat, u: nat)
    requires u >= 2 && q >= TWO_53 / 2
    ensures q * u >= TWO_53 / 2 * u >= TWO_53
  {
    if q > TWO_53 / 2 { MultiplesApart(TWO_53 / 2, q, u); }
  }

  /** No double lies between two neighbouring multiples. */
  lemma NoDoubleBetween(n: nat, q: nat, d: nat)
    requires n >= TWO_53 && TWO_53 / 2 <= q < TWO_53 && IsDouble(d)
    ensures d <= q * Gap(n) || d >= q * Gap(n) + Gap(n)
  {
    hide Gap;
    var u := Gap(n);
    if q * u < d < q * u + u {
      BinadeOf(q, u);
      MultiplesApart(q, TWO_53, u);
      GapOfBinade(n, d);
      assert d == d / u * u + 0;
      OneQuotient(d / u, 0, q, d - q * u, u);
    }
  }

  /** The last bit of the double `r`, at the magnitude of `n`, is even. */
  predicate EvenIn(r: int, n: nat) {
    r / Gap(n) % 2 == 0
  }

  /** `float64(n)` is a double, no double is nearer to `n`, and between two equally near ones it is the
      one with the even last bit. */
  lemma NearestDoubleIsNearest(n: int, d: int)
    requires IsDouble(d)
    ensures IsDouble(NearestDouble(n)) && Magnitude(n - NearestDouble(n)) <= Magnitude(n - d)
    ensures d != NearestDouble(n) && Magnitude(n - NearestDouble(n)) == Magnitude(n - d) ==>
      EvenIn(Magnitude(NearestDouble(n)), Magnitude(n))
  {
    hide Gap, RoundHalfEven, IsDouble, NearestDouble, EvenIn, Magnitude;
    RoundedMagnitude(n);
    if Magnitude(n) >= TWO_53 {
      UnsignedDouble(d);
      NearestPastExact(Magnitude(n), Magnitude(d));
      SameSign(n);
      WithSigns(n, NearestDouble(n), d, EvenIn(Magnitude(NearestDouble(n)), Magnitude(n)));
    } else {
      SmallIsNearest(n, d);
    }
  }

  lemma SmallIsNearest(n: int, d: int)
    requires Magnitude(n) < TWO_53
    ensures Magnitude(n - NearestDouble(n)) <= Magnitude(n - d)
    ensures d != NearestDouble(n) ==> Magnitude(n - NearestDouble(n)) < Magnitude(n - d)
  {
    hide NearestDouble;
    ExactWithin53Bits(n);
  }

  lemma SameSign(n: int)
    requires Magnitude(n) >= TWO_53
    ensures (n > 0 && NearestDouble(n) > 0) || (n < 0 && NearestDouble(n) < 0)
  {
    hide Gap, RoundHalfEven, NearestDouble;
    RoundedMagnitude(n);
    RoundedPastExact(Magnitude(n));
  }

  lemma UnsignedDouble(d: int)
    ensures IsDouble(Magnitude(d)) <==> IsDouble(d)
  {
  }

  lemma WithSigns(n: int, r: int, d: int, even: bool)
    requires (n > 0 && r > 0) || (n < 0 && r < 0)
    requires Magnitude(Magnitude(n) - Magnitude(r)) <= Magnitude(Magnitude(n) - Magnitude(d))
    requires Magnitude(d) != Magnitude(r) && Magnitude(Magnitude(n) - Magnitude(r)) == Magnitude(Magnitude(n) - Magnitude(d)) ==> even
    ensures Magnitude(n - r) <= Magnitude(n - d)
    ensures d != r && Magnitude(n - r) == Magnitude(n - d) ==> even
  {
  }

  lemma NearestPastExact(a: nat, d: nat)
    requires a >= TWO_53 && IsDouble(d)
    ensures var r := RoundHalfEven(a, Gap(a)); Magnitude(a - r) <= Magnitude(a - d)
    ensures var r := RoundHalfEven(a, Gap(a));
      d != r && Magnitude(a - r) == Magnitude(a - d) ==> EvenIn(r, a)
  {
    hide Gap, IsDouble;
    var u := Gap(a);
    var f, r := InBinade(a);
    var q := RoundedQuotient(a);
    NextMultiple(f, u);
    NoDoubleBetween(a, f, d);
    QuotientOf(q, 0, u);
  }

  /** A double is its own double. */
  lemma DoubleIsItself(d: int)
    requires IsDouble(d)
    ensures NearestDouble(d) == d
  {
  }

  // ----- stringKeyed -----

  /** A `map[any]any` read into a `map[string]any`: a later entry overwrites an earlier one. */
  function Keyed(es: seq<Entry>): Fields {
    if es == [] then map[] else Keyed(es[..|es| - 1])[es[|es| - 1].key := es[|es| - 1].value]
  }

  lemma KeyedEntries(es: seq<Entry>)
    ensures forall k :: k in Keyed(es) ==> exists i :: 0 <= i < |es| && es[i].key == k && es[i].value == Keyed(es)[k]
    ensures forall i :: 0 <= i < |es| ==> es[i].key in Keyed(es)
  {
  }

  /** `stringKeyed`: a decoded mapping as a string-keyed map, or nothing. */
  function StringKeyed(v: Value): (m: Option<Fields>)
    ensures m.Some? ==> forall k :: k in m.value ==> m.value[k] < v
  {
    match v
    case Map(m) => Some(m)
    case AnyMap(es) =>
      KeyedEntries(es);
      assert forall i :: 0 <= i < |es| ==> es[i].value < es[i] < v;
      Some(Keyed(es))
    case _ => None
  }

  // ----- canonicalValue and valuesEqual -----

  function Canonical(v: Value): Value
    decreases v
  {
    match v
    case Int(n) => Float(Finite(NearestDouble(n) as real))
    case JsonNumber(text, parsed) => if parsed.Some? then Float(parsed.value) else Str(text)
    case Time(text) => Str(text)
    case List(items) => List(seq(|items|, i requires 0 <= i < |items| => Canonical(items[i])))
    case Map(m) => Map(map k | k in m :: Canonical(m[k]))
    case AnyMap(es) =>
      var m := StringKeyed(v).value;
      Map(map k | k in m :: Canonical(m[k]))
    case _ => v
  }

  /** `reflect.DeepEqual`: structural, except that NaN differs from itself. */
  predicate DeepEqual(a: Value, b: Value)
    decreases a
  {
    match (a, b)
    case (Float(x), Float(y)) => x == y && x != NaN
    case (List(xs), List(ys)) => |xs| == |ys| && forall i :: 0 <= i < |xs| ==> DeepEqual(xs[i], ys[i])
    case (Map(m), Map(n)) => m.Keys == n.Keys && forall k :: k in m ==> DeepEqual(m[k], n[k])
    case _ => a == b
  }

  predicate ValuesEqual(a: Value, b: Value) {
    DeepEqual(Canonical(a), Canonical(b))
  }

  /** No NaN at any depth. */
  predicate NaNFree(v: Value)
    decreases v
  {
    match v
    case Float(d) => d != NaN
    case JsonNumber(_, parsed) => parsed != Some(NaN)
    case List(items) => forall i :: 0 <= i < |items| ==> NaNFree(items[i])
    case Map(m) => forall k :: k in m ==> NaNFree(m[k])
    case AnyMap(es) =>
      var m := StringKeyed(v).value;
      forall k :: k in m ==> NaNFree(m[k])
    case _ => true
  }

  lemma {:induction false} CanonicalIdempotent(v: Value)
    ensures Canonical(Canonical(v)) == Canonical(v)
    decreases v
  {
    match v
    case List(items) =>
      forall i | 0 <= i < |items| { CanonicalIdempotent(items[i]); }
    case Map(m) =>
      forall k | k in m { CanonicalIdempotent(m[k]); }
    case AnyMap(es) =>
      forall k | k in StringKeyed(v).value { CanonicalIdempotent(StringKeyed(v).value[k]); }
    case _ =>
  }

  /** What the comparison means: the same canonical form, with no NaN in it. */
  lemma {:induction false} ValuesEqualMeans(a: Value, b: Value)
    ensures ValuesEqual(a, b) <==> Canonical(a) == Canonical(b) && NaNFree(a)
  {
    CanonicalIdempotent(a);
    CanonicalIdempotent(b);
    DeepEqualMeans(Canonical(a), Canonical(b));
    NaNFreeCanonical(a);
  }

  lemma {:induction false} DeepEqualMeans(a: Value, b: Value)
    requires Canonical(a) == a && Canonical(b) == b
    ensures DeepEqual(a, b) <==> a == b && NaNFree(a)
    decreases a
  {
    match (a, b)
    case (List(xs), List(ys)) =>
      if |xs| == |ys| {
        forall i | 0 <= i < |xs|
          ensures DeepEqual(xs[i], ys[i]) <==> xs[i] == ys[i] && NaNFree(xs[i])
        {
          assert Canonical(a).items[i] == xs[i] && Canonical(b).items[i] == ys[i];
          DeepEqualMeans(xs[i], ys[i]);
        }
      }
    case (Map(m), Map(n)) =>
      if m.Keys == n.Keys {
        forall k | k in m
          ensures DeepEqual(m[k], n[k]) <==> m[k] == n[k] && NaNFree(m[k])
        {
          assert Canonical(a).fields[k] == m[k] && Canonical(b).fields[k] == n[k];
          DeepEqualMeans(m[k], n[k]);
        }
        assert (forall k :: k in m ==> m[k] == n[k]) ==> m == n;
      }
    case _ =>
  }

  lemma {:induction false} NaNFreeCanonical(v: Value)
    ensures NaNFree(Canonical(v)) == NaNFree(v)
    decreases v
  {
    if v.List? {
      var items, c := v.items, Canonical(v).items;
      forall i | 0 <= i < |items| ensures NaNFree(c[i]) == NaNFree(items[i]) { NaNFreeCanonical(items[i]); }
    } else if StringKeyed(v).Some? {
      var m := StringKeyed(v).value;
      forall k | k in m { NaNFreeCanonical(m[k]); }
      NaNFreeMapping(v, m);
    }
  }

  lemma NaNFreeMapping(v: Value, m: Fields)
    requires StringKeyed(v) == Some(m)
    requires forall k :: k in m ==> NaNFree(Canonical(m[k])) == NaNFree(m[k])
    ensures NaNFree(Canonical(v)) == NaNFree(v)
  {
    var c := map k | k in m :: Canonical(m[k]);
    assert Canonical(v) == Map(c);
    NaNFreeFields(m, c);
  }

  lemma NaNFreeFields(m: Fields, c: Fields)
    requires m.Keys == c.Keys
    requires forall k :: k in m ==> NaNFree(c[k]) == NaNFree(m[k])
    ensures NaNFree(Map(c)) == NaNFree(Map(m))
  {
  }

  /** `valuesEqual` is an equivalence on NaN-free values, and reflexive on no other value. */
  lemma {:induction false} ValuesEqualIsEquivalence(a: Value, b: Value, c: Value)
    ensures ValuesEqual(a, a) <==> NaNFree(a)
    ensures ValuesEqual(a, b) <==> ValuesEqual(b, a)
    ensures ValuesEqual(a, b) && ValuesEqual(b, c) ==> ValuesEqual(a, c)
  {
    ValuesEqualMeans(a, a);
    ValuesEqualMeans(a, b);
    ValuesEqualMeans(b, a);
    ValuesEqualMeans(b, c);
    ValuesEqualMeans(a, c);
    NaNFreeCanonical(a);
    NaNFreeCanonical(b);
  }

  /** The number a decoded number denotes. */
  function Number(v: Value): (r: Option<real>) {
    match v
    case Int(n) => Some(n as real)
    case Float(Finite(r)) => Some(r)
    case JsonNumber(_, Some(Finite(r))) => Some(r)
    case _ => None
  }

  /** On numbers the comparison is mathematical equality, whatever Go type holds them — as long as an
      integer is within 2^53. */
  lemma NumbersCompareByValue(a: Value, b: Value)
    requires Number(a).Some? && Number(b).Some?
    requires a.Int? ==> -TWO_53 <= a.n <= TWO_53
    requires b.Int? ==> -TWO_53 <= b.n <= TWO_53
    ensures ValuesEqual(a, b) <==> Number(a) == Number(b)
  {
    if a.Int? { ExactWithin53Bits(a.n); }
    if b.Int? { ExactWithin53Bits(b.n); }
  }

  // ----- which integers compare equal to another -----

  ghost predicate Collapses(n: int) {
    exists m: int :: m != n && ValuesEqual(Int(n), Int(m))
  }

  predicate MayCollapse(n: int) {
    Magnitude(n) >= 2 * TWO_53 || (Magnitude(n) >= TWO_53 && n % 4 != 2)
  }

  /** An integer compares equal to a different one exactly when it is at least 2^54 in size, or at least
      2^53 and not twice an odd number. */
  lemma CollapsesIff(n: int)
    ensures Collapses(n) <==> MayCollapse(n)
  {
    if MayCollapse(n) {
      var m := Other(n);
      OtherCollapses(n);
      assert m != n && ValuesEqual(Int(n), Int(m));
    } else {
      forall m: int | m != n ensures !ValuesEqual(Int(n), Int(m)) {
        StandsAlone(n, m);
      }
    }
  }

  /** The integer it is rounded to; or, when it is a double already, the next one away from zero. */
  function Other(n: int): int {
    if NearestDouble(n) != n then NearestDouble(n) else if n > 0 then n + 1 else n - 1
  }

  lemma OtherCollapses(n: int)
    requires MayCollapse(n)
    ensures Other(n) != n && NearestDouble(Other(n)) == NearestDouble(n)
  {
    hide Gap, RoundHalfEven, IsDouble, NearestDouble;
    RoundedMagnitude(n);
    if NearestDouble(n) == n {
      NextRoundsBack(Magnitude(n));
      NextOut(n);
      SameDouble(Other(n), n);
    } else {
      DoubleIsItself(NearestDouble(n));
    }
  }

  lemma NextOut(n: int)
    requires n != 0 && NearestDouble(n) == n
    ensures Magnitude(Other(n)) == Magnitude(n) + 1 && (Other(n) > 0 <==> n > 0)
  {
    hide NearestDouble;
  }

  lemma SameDouble(m: int, n: int)
    requires m > 0 <==> n > 0
    requires RoundHalfEven(Magnitude(m), Gap(Magnitude(m))) == RoundHalfEven(Magnitude(n), Gap(Magnitude(n)))
    requires m != 0 && n != 0
    ensures NearestDouble(m) == NearestDouble(n)
  {
    hide Gap, RoundHalfEven;
  }

  lemma NextRoundsBack(a: nat)
    requires a >= TWO_53 && RoundHalfEven(a, Gap(a)) == a && (a >= 2 * TWO_53 || a % 4 != 2)
    ensures RoundHalfEven(a + 1, Gap(a + 1)) == a
  {
    hide Gap;
    var u := Gap(a);
    GapIsEven(a);
    var f, r := InBinade(a);
    BinadeOf(f, u);
    assert r == 0;
    MultiplesApart(f, TWO_53, u);
    GapOfBinade(a, a + 1);
    QuotientOf(f, 1, u);
    if a < 2 * TWO_53 { assert f == a / 2; }
  }

  /** Past 2^53 the gap is even; past 2^54 it is at least four. */
  lemma GapIsEven(a: nat)
    requires a >= TWO_53
    ensures Gap(a) % 2 == 0 && (a < 2 * TWO_53 <==> Gap(a) == 2) && (a >= 2 * TWO_53 <==> Gap(a) >= 4)
  {
    assert Gap(a) == 2 * Gap(a / 2);
  }

  lemma StandsAlone(n: int, m: int)
    requires !MayCollapse(n) && m != n
    ensures NearestDouble(m) != NearestDouble(n)
  {
    hide Gap, RoundHalfEven, IsDouble, NearestDouble;
    RoundedMagnitude(n);
    RoundedMagnitude(m);
    if Magnitude(n) != Magnitude(m) {
      ApartUnlessSame(Magnitude(n), Magnitude(m));
    } else if Magnitude(n) >= TWO_53 {
      RoundedPastExact(Magnitude(n));
    } else {
      RoundedInPlace(Magnitude(n));
    }
  }

  lemma ApartUnlessSame(a: nat, b: nat)
    requires !MayCollapse(a) && b != a
    ensures RoundHalfEven(a, Gap(a)) != RoundHalfEven(b, Gap(b))
  {
    hide Gap, RoundHalfEven, IsDouble;
    RoundedInPlace(a);
    RoundedInPlace(b);
    if b >= 2 * TWO_53 {
      RoundedPastExact(b);
      GapIsEven(b);
    }
  }

  /** Up to 2^54: an even number is its own double, an odd one past 2^53 goes to a multiple of four. */
  lemma RoundedInPlace(a: nat)
    ensures a < TWO_53 ==> RoundHalfEven(a, Gap(a)) == a
    ensures TWO_53 <= a < 2 * TWO_53 ==>
      RoundHalfEven(a, Gap(a)) == if a % 2 == 0 then a else if a % 4 == 1 then a - 1 else a + 1
  {
    if a >= TWO_53 { GapIsEven(a); }
  }

  // ----- the iteration order of a map[any]any -----

  /** Entries whose keys print alike hold values that compare alike. */
  ghost predicate CollisionsAgree(es: seq<Entry>) {
    forall i, j :: 0 <= i < |es| && 0 <= j < |es| && es[i].key == es[j].key ==>
      Canonical(es[i].value) == Canonical(es[j].value)
  }

  ghost predicate OrderFree(es: seq<Entry>) {
    forall fs: seq<Entry> :: multiset(fs) == multiset(es) ==> Canonical(AnyMap(fs)) == Canonical(AnyMap(es))
  }

  /** The canonical form of a map[any]any is independent of Go's random iteration order exactly when
      no two keys print alike around values that differ. */
  lemma OrderFreeIff(es: seq<Entry>)
    ensures OrderFree(es) <==> CollisionsAgree(es)
  {
    if CollisionsAgree(es) {
      forall fs: seq<Entry> | multiset(fs) == multiset(es)
        ensures Canonical(AnyMap(fs)) == Canonical(AnyMap(es))
      {
        SameCanonical(es, fs);
      }
    }
    if OrderFree(es) {
      forall i, j | 0 <= i < |es| && 0 <= j < |es| && es[i].key == es[j].key
        ensures Canonical(es[i].value) == Canonical(es[j].value)
      {
        MovedLast(es, i);
        MovedLast(es, j);
      }
    }
  }

  lemma SameCanonical(es: seq<Entry>, fs: seq<Entry>)
    requires multiset(fs) == multiset(es) && CollisionsAgree(es)
    ensures Canonical(AnyMap(fs)) == Canonical(AnyMap(es))
  {
    SameKeys(es, fs);
    forall k | k in Keyed(es) ensures Canonical(Keyed(es)[k]) == Canonical(Keyed(fs)[k]) {
      SameCanonicalAt(es, fs, k);
    }
    SameCanonicalMaps(es, fs);
  }

  lemma SameCanonicalMaps(es: seq<Entry>, fs: seq<Entry>)
    requires Keyed(es).Keys == Keyed(fs).Keys
    requires forall k :: k in Keyed(es) ==> Canonical(Keyed(es)[k]) == Canonical(Keyed(fs)[k])
    ensures Canonical(AnyMap(fs)) == Canonical(AnyMap(es))
  {
    CanonicalAnyMap(es);
    CanonicalAnyMap(fs);
  }

  lemma CanonicalAnyMap(es: seq<Entry>)
    ensures Canonical(AnyMap(es)) == Map(map k | k in Keyed(es) :: Canonical(Keyed(es)[k]))
  {
    assert StringKeyed(AnyMap(es)) == Some(Keyed(es));
  }

  lemma SameCanonicalAt(es: seq<Entry>, fs: seq<Entry>, k: string)
    requires multiset(fs) == multiset(es) && CollisionsAgree(es)
    requires k in Keyed(es) && k in Keyed(fs)
    ensures Canonical(Keyed(es)[k]) == Canonical(Keyed(fs)[k])
  {
    KeyedEntries(es);
    KeyedEntries(fs);
    var i :| 0 <= i < |es| && es[i].key == k && es[i].value == Keyed(es)[k];
    var j :| 0 <= j < |fs| && fs[j].key == k && fs[j].value == Keyed(fs)[k];
    PermutedIndex(fs, es, j);
    var l :| 0 <= l < |es| && es[l] == fs[j];
  }

  lemma SameKeys(es: seq<Entry>, fs: seq<Entry>)
    requires multiset(fs) == multiset(es)
    ensures Keyed(es).Keys == Keyed(fs).Keys
  {
    KeyedEntries(es);
    KeyedEntries(fs);
    forall i | 0 <= i < |es| ensures es[i].key in Keyed(fs) { PermutedIndex(es, fs, i); }
    forall i | 0 <= i < |fs| ensures fs[i].key in Keyed(es) { PermutedIndex(fs, es, i); }
  }

  lemma PermutedIndex<T>(s: seq<T>, t: seq<T>, i: nat)
    requires i < |s| && multiset(s) == multiset(t)
    ensures exists j :: 0 <= j < |t| && t[j] == s[i]
  {
    assert s[i] in multiset(t);
  }

  /** Iterating entry `i` last makes its value the one that is kept. */
  lemma MovedLast(es: seq<Entry>, i: nat)
    requires i < |es| && OrderFree(es)
    ensures es[i].key in Canonical(AnyMap(es)).fields
    ensures Canonical(AnyMap(es)).fields[es[i].key] == Canonical(es[i].value)
  {
    var rest := es[..i] + es[i + 1..];
    var fs := rest + [es[i]];
    RotationPermutes(es, i);
    assert fs[..|fs| - 1] == rest;
    KeyedLast(fs);
    assert Canonical(AnyMap(fs)) == Canonical(AnyMap(es));
  }

  lemma KeyedLast(fs: seq<Entry>)
    requires fs != []
    ensures fs[|fs| - 1].key in Canonical(AnyMap(fs)).fields
    ensures Canonical(AnyMap(fs)).fields[fs[|fs| - 1].key] == Canonical(fs[|fs| - 1].value)
  {
    var l := fs[|fs| - 1];
    assert Keyed(fs) == Keyed(fs[..|fs| - 1])[l.key := l.value];
    CanonicalAnyMap(fs);
  }

  lemma RotationPermutes<T>(s: seq<T>, i: nat)
    requires i < |s|
    ensures multiset(s[..i] + s[i + 1..] + [s[i]]) == multiset(s)
  {
    assert s == s[..i] + [s[i]] + s[i + 1..];
  }

  // ----- the JSON request body -----

  /** json.Marshal accepts the value: no map with non-string keys, no NaN and no infinity, at any depth. */
  predicate Encodable(v: Value)
    decreases v
  {
    match v
    case Float(d) => d.Finite?
    case JsonNumber(_, parsed) => parsed.Some? && parsed.value.Finite?
    case List(items) => forall i :: 0 <= i < |items| ==> Encodable(items[i])
    case Map(m) => forall k :: k in m ==> Encodable(m[k])
    case AnyMap(_) => false
    case _ => true
  }

  /** What the server decodes from the body: numbers are doubles, timestamps are text. */
  function Wire(v: Value): Value
    requires Encodable(v)
  {
    Canonical(v)
  }

  /** A value that was sent reads back as equal to what was sent. */
  lemma {:induction false} WireSettles(v: Value)
    requires Encodable(v)
    ensures ValuesEqual(v, Wire(v)) && NaNFree(v)
  {
    EncodableIsNaNFree(v);
    CanonicalIdempotent(v);
    ValuesEqualMeans(v, Wire(v));
  }

  lemma {:induction false} EncodableIsNaNFree(v: Value)
    requires Encodable(v)
    ensures NaNFree(v)
    decreases v
  {
    match v
    case List(items) => forall i | 0 <= i < |items| ensures NaNFree(items[i]) { EncodableIsNaNFree(items[i]); }
    case Map(m) => forall k | k in m ensures NaNFree(m[k]) { EncodableIsNaNFree(m[k]); }
    case _ =>
  }

  // ----- plainValue and isPlain -----

  function PlainValue(v: Value): Value
    decreases v
  {
    match v
    case Float(Finite(r)) =>
      if r.Floor as real == r && -TWO_53 < r.Floor < TWO_53 then Int(r.Floor) else v
    case List(items) => List(seq(|items|, i requires 0 <= i < |items| => PlainValue(items[i])))
    case Map(m) => Map(map k | k in m :: PlainValue(m[k]))
    case _ => v
  }

  predicate IsPlain(v: Value)
    decreases v
  {
    match v
    case Null | Bool(_) | Float(_) | JsonNumber(_, _) | Str(_) => true
    case Int(n) => -0x8000_0000_0000_0000 <= n < 0x8000_0000_0000_0000
    case Time(_) => false
    case List(items) => forall i :: 0 <= i < |items| ==> IsPlain(items[i])
    case _ => forall k :: k in StringKeyed(v).value ==> IsPlain(StringKeyed(v).value[k])
  }

  predicate IsScalar(v: Value) {
    (v.Str? || v.Bool? || v.Float? || v.Int? || v.JsonNumber?) && IsPlain(v)
  }

  /** Writing a whole-number double as an integer is invisible to `plan`, at every depth. */
  lemma PlainValuePreserves(v: Value)
    ensures Canonical(PlainValue(v)) == Canonical(v)
    ensures IsPlain(PlainValue(v)) == IsPlain(v)
    ensures NaNFree(PlainValue(v)) == NaNFree(v)
  {
    PlainValueKeepsCanonical(v);
    PlainValueKeepsIsPlain(v);
    NaNFreeCanonical(v);
    NaNFreeCanonical(PlainValue(v));
  }

  lemma {:induction false} PlainValueKeepsCanonical(v: Value)
    ensures Canonical(PlainValue(v)) == Canonical(v)
    decreases v
  {
    match v
    case Float(Finite(r)) =>
      if r.Floor as real == r && -TWO_53 < r.Floor < TWO_53 { ExactWithin53Bits(r.Floor); }
    case List(items) =>
      forall i | 0 <= i < |items| { PlainValueKeepsCanonical(items[i]); }
    case Map(m) =>
      forall k | k in m { PlainValueKeepsCanonical(m[k]); }
    case _ =>
  }

  lemma {:induction false} PlainValueKeepsIsPlain(v: Value)
    ensures IsPlain(PlainValue(v)) == IsPlain(v)
    decreases v
  {
    match v
    case List(items) =>
      var p := PlainValue(v).items;
      forall i | 0 <= i < |items| ensures IsPlain(p[i]) == IsPlain(items[i]) { PlainValueKeepsIsPlain(items[i]); }
    case Map(m) =>
      var p := PlainValue(v).fields;
      forall k | k in m ensures IsPlain(p[k]) == IsPlain(m[k]) { PlainValueKeepsIsPlain(m[k]); }
      assert StringKeyed(v).value == m && StringKeyed(PlainValue(v)).value == p;
    case _ =>
  }
}
