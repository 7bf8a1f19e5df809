/**
 * The nullable money wrapper of internal/domain/decimal.go: a `Decimal` is either
 * absent (a nil `*apd.Decimal`) or holds an apd decimal, and it is written to and read
 * from JSON and SQL with an explicit null.
 *
 * apd's own parsing, printing and sign are not part of this model: they are the fields
 * of an `Apd` value that every operation receives.
 */
module Decimals {
  import opened Wrappers
  import opened Sql

  /** An `apd.Decimal`; nothing is assumed about it beyond what `Apd` says. */
  type Dec(==)

  /** The apd and encoding/json operations the wrapper calls:
      `parse` is `SetString` (None when it reports an error), `format` is `String`,
      `sign` is `Sign`, and `fromNumber` is decoding a JSON number into a `float64`
      followed by `SetFloat64` (None when encoding/json reports an error). */
  datatype Apd = Apd(
    parse: string -> Option<Dec>,
    format: Dec -> string,
    sign: Dec -> int,
    fromNumber: string -> Option<Dec>)

  /** `type Decimal struct { *apd.Decimal }` */
  datatype Decimal = Absent | Present(dec: Dec)

  const ErrScanType := "tipo incompatível para Decimal.Scan"

  // ----- JSON text -----

  predicate IsJsonSpace(c: char) {
    c == ' ' || c == '\t' || c == '\n' || c == '\r'
  }

  /** The input without the whitespace JSON allows around a value. */
  function TrimJsonSpace(s: string): string
    decreases |s|
  {
    if |s| > 0 && IsJsonSpace(s[0]) then TrimJsonSpace(s[1..])
    else if |s| > 0 && IsJsonSpace(s[|s| - 1]) then TrimJsonSpace(s[..|s| - 1])
    else s
  }

  /** The body of a JSON string that needs no escape sequence. */
  predicate IsPlainJsonText(s: string) {
    forall i :: 0 <= i < |s| ==> s[i] != '"' && s[i] != '\\' && s[i] >= ' '
  }

  function Quote(s: string): string {
    "\"" + s + "\""
  }

  /** What `json.Unmarshal(data, &s)` leaves in a Go string, or None when it reports an
      error. A JSON `null` leaves the string empty without error. */
  function DecodeJsonString(data: string): Option<string> {
    var t := TrimJsonSpace(data);
    if t == "null" then Some("")
    else if |t| >= 2 && t[0] == '"' && t[|t| - 1] == '"' && IsPlainJsonText(t[1..|t| - 1]) then Some(t[1..|t| - 1])
    else None
  }

  predicate IsDigit(c: char) {
    '0' <= c <= '9'
  }

  function LeadingDigits(s: string): (n: nat)
    ensures n <= |s|
  {
    if |s| > 0 && IsDigit(s[0]) then 1 + LeadingDigits(s[1..]) else 0
  }

  /** A JSON number: `-? (0 | [1-9][0-9]*) (. [0-9]+)? ([eE] [+-]? [0-9]+)?`. */
  predicate IsJsonNumber(t: string) {
    var a := if |t| > 0 && t[0] == '-' then t[1..] else t;
    var n := LeadingDigits(a);
    n > 0 && (a[0] != '0' || n == 1) && IsFractionExponent(a[n..])
  }

  predicate IsFractionExponent(s: string) {
    if |s| > 0 && s[0] == '.' then
      var m := LeadingDigits(s[1..]);
      m > 0 && IsExponent(s[1 + m..])
    else
      IsExponent(s)
  }

  predicate IsExponent(s: string) {
    || s == []
    || ((s[0] == 'e' || s[0] == 'E') &&
        var b := if |s| > 1 && (s[1] == '+' || s[1] == '-') then s[2..] else s[1..];
        |b| > 0 && LeadingDigits(b) == |b|)
  }

  // ----- the wrapper -----

  /** `SetString` on a fresh `apd.Decimal`, keeping the result only on success. */
  function ParseText(apd: Apd, s: string): (r: Result<Decimal, Error>)
    ensures r.Ok? <==> apd.parse(s).Some?
    ensures r.Ok? ==> r.value == Present(apd.parse(s).value)
  {
    match apd.parse(s)
    case Some(d) => Ok(Present(d))
    case None => Err(DecimalSyntax(s))
  }

  /** `MarshalJSON`: an absent value is the token `null`, never a zero; a present one is
      its string form in double quotes. */
  function MarshalJSON(apd: Apd, x: Decimal): (json: string)
    ensures json == "null" <==> x.Absent?
    ensures x.Present? ==> json == Quote(apd.format(x.dec))
  {
    if x.Absent? then "null"
    else
      var json := Quote(apd.format(x.dec));
      assert json[0] != "null"[0];
      json
  }

  /** `Value`: nil for an absent value, otherwise the decimal's string form. */
  function Value(apd: Apd, x: Decimal): (v: Sql.Value)
    ensures v.Null? <==> x.Absent?
    ensures x.Present? ==> v == Text(apd.format(x.dec))
  {
    if x.Absent? then Null else Text(apd.format(x.dec))
  }

  /** What `UnmarshalJSON` stores (Ok) or reports (Err); on Err the receiver keeps its
      old value. */
  function UnmarshalResult(apd: Apd, data: string): (r: Result<Decimal, Error>)
    ensures r == Ok(Absent) <==> data == "null"
    ensures data != "null" && DecodeJsonString(data).Some? ==> r == ParseText(apd, DecodeJsonString(data).value)
    ensures DecodeJsonString(data).None? && !IsJsonNumber(TrimJsonSpace(data)) ==> r == Err(JsonSyntax(data))
  {
    if data == "null" then Ok(Absent)
    else
      match DecodeJsonString(data)
      case Some(s) => ParseText(apd, s)
      case None =>
        var t := TrimJsonSpace(data);
        if !IsJsonNumber(t) then Err(JsonSyntax(data))
        else
          match apd.fromNumber(t)
          case Some(d) => Ok(Present(d))
          case None => Err(JsonSyntax(data))
  }

  /** What `Scan` stores (Ok) or reports (Err); on Err the receiver keeps its old value. */
  function ScanResult(apd: Apd, src: Sql.Value): (r: Result<Decimal, Error>)
    ensures r == Ok(Absent) <==> src.Null?
    ensures src.Text? ==> r == ParseText(apd, src.s)
    ensures src.Bytes? ==> r == ParseText(apd, BytesToString(src.bytes))
    ensures !(src.Null? || src.Text? || src.Bytes?) ==> r == Err(Invalid(ErrScanType))
  {
    match src
    case Null => Ok(Absent)
    case Text(s) => ParseText(apd, s)
    case Bytes(b) => ParseText(apd, BytesToString(b))
    case _ => Err(Invalid(ErrScanType))
  }

  /** `string(b)` for a byte slice, one character per byte. */
  function BytesToString(b: seq<byte>): (s: string)
    ensures |s| == |b|
  {
    seq(|b|, i requires 0 <= i < |b| => (b[i] as int) as char)
  }

  predicate IsByteString(s: string) {
    forall i :: 0 <= i < |s| ==> (s[i] as int) < 0x100
  }

  /** `[]byte(s)` for a string whose characters are bytes. */
  function StringToBytes(s: string): (b: seq<byte>)
    requires IsByteString(s)
    ensures |b| == |s|
  {
    seq(|s|, i requires 0 <= i < |s| => (s[i] as int) as byte)
  }

  // ----- properties -----

  /** Decoding a quoted text: it parses as that text when it needs no escape, and is
      refused otherwise (it is neither a plain JSON string nor a number). */
  lemma UnmarshalQuoted(apd: Apd, s: string)
    ensures UnmarshalResult(apd, Quote(s)) == if IsPlainJsonText(s) then ParseText(apd, s) else Err(JsonSyntax(Quote(s)))
  {
    var q := Quote(s);
    assert q[0] == '"' && q[|q| - 1] == '"';
    assert q != "null" by { assert "null"[0] == 'n'; }
    assert TrimJsonSpace(q) == q;
    assert q[1..|q| - 1] == s;
    assert !IsJsonNumber(q) by { assert LeadingDigits(q) == 0; }
  }

  /** JSON round trip: decoding what `MarshalJSON` wrote gives back the same value,
      provided apd reads back what it prints. */
  lemma MarshalRoundTrip(apd: Apd, x: Decimal)
    requires x.Present? ==> apd.parse(apd.format(x.dec)) == Some(x.dec) && IsPlainJsonText(apd.format(x.dec))
    ensures UnmarshalResult(apd, MarshalJSON(apd, x)) == Ok(x)
  {
    if x.Present? {
      UnmarshalQuoted(apd, apd.format(x.dec));
    }
  }

  /** SQL round trip: scanning what `Value` wrote gives back the same value, provided apd
      reads back what it prints. */
  lemma ValueRoundTrip(apd: Apd, x: Decimal)
    requires x.Present? ==> apd.parse(apd.format(x.dec)) == Some(x.dec)
    ensures ScanResult(apd, Value(apd, x)) == Ok(x)
  {
  }

  /** `Scan` reads a byte slice exactly as it reads the string with the same bytes. */
  lemma ScanBytesAsText(apd: Apd, s: string)
    requires IsByteString(s)
    ensures ScanResult(apd, Bytes(StringToBytes(s))) == ScanResult(apd, Text(s))
  {
    assert BytesToString(StringToBytes(s)) == s;
  }

  /** A `*Decimal`: the variable that `UnmarshalJSON` and `Scan` assign through. */
  class DecimalRef {
    var value: Decimal

    constructor (x: Decimal)
      ensures value == x
    {
      value := x;
    }

    /** `UnmarshalJSON`: the receiver changes only when decoding succeeds. */
    method UnmarshalJSON(apd: Apd, data: string) returns (err: Option<Error>)
      modifies this
      ensures UnmarshalResult(apd, data).Ok? ==> err == None && value == UnmarshalResult(apd, data).value
      ensures UnmarshalResult(apd, data).Err? ==> err == Some(UnmarshalResult(apd, data).error) && value == old(value)
    {
      if data == "null" {
        value := Absent;
        return None;
      }
      var s := DecodeJsonString(data);
      if s.None? {
        // not a JSON string: try a JSON number
        var t := TrimJsonSpace(data);
        if !IsJsonNumber(t) {
          return Some(JsonSyntax(data));
        }
        var f := apd.fromNumber(t);
        if f.None? {
          return Some(JsonSyntax(data));
        }
        value := Present(f.value);
        return None;
      }
      var dec := apd.parse(s.value);
      if dec.None? {
        return Some(DecimalSyntax(s.value));
      }
      value := Present(dec.value);
      err := None;
    }

    /** `Scan`: nil gives an absent value; a string or byte slice is parsed; any other
      driver type is refused. The receiver changes only on success. */
    method Scan(apd: Apd, src: Sql.Value) returns (err: Option<Error>)
      modifies this
      ensures ScanResult(apd, src).Ok? ==> err == None && value == ScanResult(apd, src).value
      ensures ScanResult(apd, src).Err? ==> err == Some(ScanResult(apd, src).error) && value == old(value)
    {
      if src.Null? {
        value := Absent;
        return None;
      }
      var str: string;
      match src {
        case Text(s) => str := s;
        case Bytes(b) => str := BytesToString(b);
        case _ => return Some(Invalid(ErrScanType));
      }
      var dec := apd.parse(str);
      if dec.None? {
        return Some(DecimalSyntax(str));
      }
      value := Present(dec.value);
      err := None;
    }
  }
}
