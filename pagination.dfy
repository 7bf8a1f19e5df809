/**
 * The paging rule of internal/middleware/pagination.go: the `page` and `limit` query
 * parameters are parsed with `strconv.Atoi` and replaced by 1 and 10 when missing, not an
 * integer, or below 1; and the offset `(page - 1) * limit` the handlers compute from them.
 */
module Pagination {
  import opened Wrappers

  /** Go's `int` on the 64-bit targets the server is built for. */
  const MinInt64: int := -0x8000_0000_0000_0000
  const MaxInt64: int := 0x7fff_ffff_ffff_ffff
  const Modulus64: int := 0x1_0000_0000_0000_0000

  const DefaultPage: int := 1
  const DefaultLimit: int := 10

  // ----- strconv -----

  predicate IsDigit(c: char) {
    '0' <= c <= '9'
  }

  predicate AllDigits(s: string) {
    forall i :: 0 <= i < |s| ==> IsDigit(s[i])
  }

  /** The value of a run of decimal digits (leading zeros allowed). */
  function DigitsValue(s: string): nat
    requires AllDigits(s)
  {
    if s == [] then 0 else DigitsValue(s[..|s| - 1]) * 10 + (s[|s| - 1] as int - '0' as int)
  }

  /** The digits after an optional `+` or `-`. */
  function Unsigned(s: string): string {
    if |s| > 0 && (s[0] == '+' || s[0] == '-') then s[1..] else s
  }

  /** The shape `strconv.Atoi` accepts in base 10: an optional sign and at least one digit. */
  predicate IsIntText(s: string) {
    Unsigned(s) != [] && AllDigits(Unsigned(s))
  }

  /** `strconv.Atoi`: None when it reports an error, that is when the text is not an
      optionally signed run of digits, or its value is out of the `int` range. */
  function Atoi(s: string): (r: Option<int>)
    ensures r.Some? <==> IsIntText(s) && MinInt64 <= SignedValue(s) <= MaxInt64
    ensures r.Some? ==> r.value == SignedValue(s)
  {
    if !IsIntText(s) then None
    else
      var v := SignedValue(s);
      if v < MinInt64 || v > MaxInt64 then None else Some(v)
  }

  function SignedValue(s: string): int
    requires IsIntText(s)
  {
    if s[0] == '-' then -(DigitsValue(Unsigned(s)) as int) else DigitsValue(Unsigned(s))
  }

  function Digit(d: nat): (c: char)
    requires d < 10
    ensures IsDigit(c)
  {
    (d + '0' as int) as char
  }

  /** The decimal digits of `n`, with no leading zero. */
  function Digits(n: nat): (s: string)
    ensures |s| > 0 && AllDigits(s)
  {
    if n < 10 then [Digit(n)] else Digits(n / 10) + [Digit(n % 10)]
  }

  /** `strconv.Itoa`. */
  function Itoa(n: int): (s: string)
    ensures IsIntText(s)
  {
    if n < 0 then "-" + Digits(-n) else Digits(n)
  }

  lemma {:induction false} DigitsRoundTrip(n: nat)
    ensures DigitsValue(Digits(n)) == n
  {
    if n >= 10 {
      var s := Digits(n / 10);
      DigitsRoundTrip(n / 10);
      assert (s + [Digit(n % 10)])[..|s|] == s;
    }
  }

  /** `strconv.Atoi` reads back every `int` that `strconv.Itoa` prints. */
  lemma AtoiItoa(n: int)
    requires MinInt64 <= n <= MaxInt64
    ensures Atoi(Itoa(n)) == Some(n)
  {
    if n < 0 {
      AtoiNegative(-n);
    } else {
      AtoiDigits(n);
    }
  }

  lemma AtoiDigits(n: nat)
    requires n <= MaxInt64
    ensures Atoi(Digits(n)) == Some(n)
  {
    var s := Digits(n);
    assert IsDigit(s[0]);
    assert Unsigned(s) == s;
    DigitsRoundTrip(n);
    assert SignedValue(s) == n;
  }

  lemma AtoiNegative(n: nat)
    requires n <= -MinInt64
    ensures Atoi("-" + Digits(n)) == Some(-(n as int))
  {
    var s := "-" + Digits(n);
    assert Unsigned(s) == Digits(n);
    DigitsRoundTrip(n);
    assert SignedValue(s) == -(n as int);
  }

  // ----- the middleware -----

  /** `url.Values.Get`: the first value under the key, or the empty text. */
  function QueryGet(q: map<string, seq<string>>, key: string): (v: string)
    ensures key in q && q[key] != [] ==> v == q[key][0]
    ensures key !in q || q[key] == [] ==> v == ""
  {
    if key in q && q[key] != [] then q[key][0] else ""
  }

  /** The page and limit the middleware stores in the request context. */
  datatype Paging = Paging(page: int, limit: int)

  /** One parameter's rule: the parsed value when it is an integer of at least 1, the
      default otherwise. */
  function OrDefault(raw: string, default: int): (n: int)
    requires 1 <= default <= MaxInt64
    ensures 1 <= n <= MaxInt64
    ensures Atoi(raw).Some? && Atoi(raw).value >= 1 ==> n == Atoi(raw).value
    ensures Atoi(raw).None? || Atoi(raw).value < 1 ==> n == default
  {
    match Atoi(raw)
    case Some(v) => if v < 1 then default else v
    case None => default
  }

  /** `Pagination`: the page defaults to 1 and the limit to 10; both are at least 1 and
      fit an `int`. */
  function Normalise(q: map<string, seq<string>>): (p: Paging)
    ensures 1 <= p.page <= MaxInt64 && 1 <= p.limit <= MaxInt64
    ensures p.page == OrDefault(QueryGet(q, "page"), DefaultPage)
    ensures p.limit == OrDefault(QueryGet(q, "limit"), DefaultLimit)
  {
    Paging(OrDefault(QueryGet(q, "page"), DefaultPage), OrDefault(QueryGet(q, "limit"), DefaultLimit))
  }

  /** The query a client sends to ask for a given page and limit. */
  function Encode(p: Paging): map<string, seq<string>> {
    map["page" := [Itoa(p.page)], "limit" := [Itoa(p.limit)]]
  }

  /** Missing, non-numeric and below-1 values fall back to the defaults. */
  lemma NormaliseDefaults(q: map<string, seq<string>>)
    ensures "page" !in q ==> Normalise(q).page == 1
    ensures "limit" !in q ==> Normalise(q).limit == 10
    ensures Normalise(map["page" := ["abc"], "limit" := ["0"]]) == Paging(1, 10)
    ensures Normalise(map["page" := ["-3"], "limit" := ["1e3"]]) == Paging(1, 10)
  {
    var a := map["page" := ["abc"], "limit" := ["0"]];
    assert !IsDigit('a');
    assert Atoi(QueryGet(a, "limit")) == Some(0) by {
      assert DigitsValue("0") == DigitsValue("0"[..0]) * 10 + 0;
    }
    var b := map["page" := ["-3"], "limit" := ["1e3"]];
    assert Atoi(QueryGet(b, "page")) == Some(-3) by {
      assert Unsigned("-3") == "3";
      assert DigitsValue("3") == DigitsValue("3"[..0]) * 10 + 3;
    }
    assert !IsDigit("1e3"[1]);
  }

  /** Valid values pass through unchanged. */
  lemma NormalisePassThrough(p: Paging)
    requires 1 <= p.page <= MaxInt64 && 1 <= p.limit <= MaxInt64
    ensures Normalise(Encode(p)) == p
  {
    AtoiItoa(p.page);
    AtoiItoa(p.limit);
    assert QueryGet(Encode(p), "page") == Itoa(p.page);
    assert QueryGet(Encode(p), "limit") == Itoa(p.limit);
  }

  /** Normalising the query that asks for a normalised paging gives it back. */
  lemma NormaliseIdempotent(q: map<string, seq<string>>)
    ensures Normalise(Encode(Normalise(q))) == Normalise(q)
  {
    NormalisePassThrough(Normalise(q));
  }

  // ----- the offset -----

  /** Two's-complement wrap-around of a Go `int` result. */
  function Wrap64(x: int): (r: int)
    ensures MinInt64 <= r <= MaxInt64
    ensures MinInt64 <= x <= MaxInt64 ==> r == x
  {
    (x - MinInt64) % Modulus64 + MinInt64
  }

  /** The offset as the handlers compute it: `(page - 1) * limit` in `int`. */
  function OffsetAsWritten(p: Paging): (r: int)
    requires p.page >= 1 && p.limit >= 1
    ensures MinInt64 <= r <= MaxInt64
  {
    Wrap64((p.page - 1) * p.limit)
  }

  /** A page the middleware accepts whose offset wraps to the most negative `int`. */
  lemma OffsetAsWrittenWraps()
    ensures var p := Paging(0x4000_0000_0000_0001, 2);
      && Normalise(Encode(p)) == p
      && OffsetAsWritten(p) == MinInt64
  {
    var p := Paging(0x4000_0000_0000_0001, 2);
    NormalisePassThrough(p);
  }

  /** The offset of a page: the number of rows on the pages before it, or None when that
      number does not fit an `int`. */
  function Offset(p: Paging): (r: Option<int>)
    requires p.page >= 1 && p.limit >= 1
    ensures r.Some? <==> (p.page - 1) * p.limit <= MaxInt64
    ensures r.Some? ==> 0 <= r.value <= MaxInt64 && r.value % p.limit == 0
    ensures r.Some? ==> r.value / p.limit == p.page - 1
  {
    var n := (p.page - 1) * p.limit;
    OffsetDivides(p.page - 1, p.limit);
    if n <= MaxInt64 then Some(n) else None
  }

  /** A multiple of `limit` divides back exactly. */
  lemma OffsetDivides(k: nat, limit: int)
    requires limit >= 1
    ensures k * limit >= 0
    ensures (k * limit) % limit == 0 && (k * limit) / limit == k
  {
    var x := k * limit;
    var q, r := x / limit, x % limit;
    assert x == q * limit + r && 0 <= r < limit;
    assert (k - q) * limit == r;
    if k - q >= 1 {
      MulAtLeast(k - q, limit);
    } else if k - q <= -1 {
      MulAtLeast(q - k, limit);
    }
  }

  lemma MulAtLeast(a: int, b: int)
    requires a >= 1 && b >= 1
    ensures a * b >= b
  {
    assert a * b == (a - 1) * b + b;
  }

  /** Where the corrected offset exists, the handlers' value is the same. */
  lemma OffsetAgrees(p: Paging)
    requires p.page >= 1 && p.limit >= 1
    ensures Offset(p).Some? ==> OffsetAsWritten(p) == Offset(p).value
  {
  }

  /** Consecutive pages follow each other: the next page starts `limit` rows later, so
      pages neither overlap nor leave gaps. */
  lemma OffsetNextPage(p: Paging)
    requires p.page >= 1 && p.limit >= 1
    ensures Offset(p.(page := p.page + 1)).Some? ==>
              Offset(p).Some? && Offset(p.(page := p.page + 1)).value == Offset(p).value + p.limit
  {
    assert p.page * p.limit == (p.page - 1) * p.limit + p.limit;
  }
}
