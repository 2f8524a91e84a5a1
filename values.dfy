// Records flowing through a pipeline: a Record is a map from column name to a
// dynamically typed cell value.
module Values {
  import opened Wrappers
  import opened Text

  /** A float64: its numeric value and the text Go's %v prints for it. */
  datatype Float64 = Float64(x: real, text: string)

  /** The cell values the modelled components produce or inspect. */
  datatype Value =
    | Null                  // a Go nil
    | Str(s: string)        // string
    | Int(i: int)           // int or int64
    | Float(f: Float64)     // float64 or float32
    | Bool(b: bool)         // bool
    | Number(text: string)  // encoding/json's json.Number

  type Record = map<string, Value>

  /** A column mapping from source column name to target column name. */
  type Mapping = map<string, string>

  /** A record whose cells a processor overwrites in place. */
  class Row {
    var cells: Record

    constructor(r: Record)
      ensures cells == r
    {
      cells := r;
    }
  }

  type Byte = b: int | 0 <= b < 256

  const HexDigits: string := "0123456789abcdef"

  /** hex.EncodeToString: two lower-case hex digits per byte, high nibble first. */
  function HexEncode(bytes: seq<Byte>): (s: string)
    ensures |s| == 2 * |bytes|
    ensures forall i :: 0 <= i < |s| ==> s[i] in HexDigits
    ensures forall i :: 0 <= i < |bytes| ==> s[2 * i] == HexDigits[bytes[i] / 16] && s[2 * i + 1] == HexDigits[bytes[i] % 16]
  {
    seq(2 * |bytes|, i requires 0 <= i < 2 * |bytes| =>
      if i % 2 == 0 then HexDigits[bytes[i / 2] / 16] else HexDigits[bytes[i / 2] % 16])
  }

  /** Distinct nibbles have distinct hex digits. */
  lemma HexDigitsDistinct(p: int, q: int)
    requires 0 <= p < 16 && 0 <= q < 16 && HexDigits[p] == HexDigits[q]
    ensures p == q
  {
  }

  /** hex.EncodeToString loses nothing: equal encodings come from equal bytes. */
  lemma HexEncodeInjective(a: seq<Byte>, b: seq<Byte>)
    requires HexEncode(a) == HexEncode(b)
    ensures a == b
  {
    assert |a| == |b|;
    forall i | 0 <= i < |a|
      ensures a[i] == b[i]
    {
      var s := HexEncode(a);
      assert s[2 * i] == HexDigits[a[i] / 16] == HexDigits[b[i] / 16];
      assert s[2 * i + 1] == HexDigits[a[i] % 16] == HexDigits[b[i] % 16];
      HexDigitsDistinct(a[i] / 16, b[i] / 16);
      HexDigitsDistinct(a[i] % 16, b[i] % 16);
    }
  }

  /** A string map read the Go way: "" when the key is absent. */
  function Setting(m: map<string, string>, key: string): (v: string)
    ensures key in m ==> v == m[key]
    ensures key !in m ==> v == ""
  {
    if key in m then m[key] else ""
  }

  const MinInt64: int := -0x8000_0000_0000_0000
  const MaxInt64: int := 0x7FFF_FFFF_FFFF_FFFF

  /** `order` lists every element of `keys` exactly once: one possible Go map iteration order. */
  predicate IsEnumeration<K>(order: seq<K>, keys: set<K>)
  {
    (forall i, j :: 0 <= i < j < |order| ==> order[i] != order[j])
    && (forall k :: k in keys ==> k in order)
    && (forall i :: 0 <= i < |order| ==> order[i] in keys)
  }

  predicate IsDigit(c: char)
  {
    '0' <= c <= '9'
  }

  function DigitChar(d: nat): (c: char)
    requires d < 10
    ensures IsDigit(c)
  {
    ('0' as int + d) as char
  }

  /** Decimal digits of n, most significant first, without leading zeros. */
  function NatToDecimal(n: nat): (r: string)
    ensures |r| >= 1
    ensures forall i :: 0 <= i < |r| ==> IsDigit(r[i])
    decreases n
  {
    if n < 10 then [DigitChar(n)] else NatToDecimal(n / 10) + [DigitChar(n % 10)]
  }

  /** strconv.FormatInt(i, 10), which is also what %v and %d print. */
  function IntToDecimal(i: int): string
  {
    if i < 0 then "-" + NatToDecimal(-i) else NatToDecimal(i)
  }

  function DigitValue(c: char): (d: nat)
    requires IsDigit(c)
    ensures d < 10
  {
    c as int - '0' as int
  }

  /** The number a string of decimal digits denotes. */
  function DecimalValue(s: string): nat
    requires forall i :: 0 <= i < |s| ==> IsDigit(s[i])
    decreases |s|
  {
    if |s| == 0 then 0 else DecimalValue(s[..|s| - 1]) * 10 + DigitValue(s[|s| - 1])
  }

  predicate AllDigits(s: string)
  {
    |s| > 0 && forall i :: 0 <= i < |s| ==> IsDigit(s[i])
  }

  /** strconv.ParseInt(s, 10, 64), equally strconv.Atoi on a 64-bit platform:
      an optional sign, at least one decimal digit, and a value in int64 range. */
  function ParseInt64(s: string): (r: Option<int>)
    ensures r.Some? ==> MinInt64 <= r.value <= MaxInt64
    ensures AllDigits(s) ==> r == (if DecimalValue(s) <= MaxInt64 then Some(DecimalValue(s)) else None)
    ensures |s| > 0 && s[0] == '+' ==>
      r == (if AllDigits(s[1..]) && DecimalValue(s[1..]) <= MaxInt64 then Some(DecimalValue(s[1..])) else None)
    ensures |s| > 0 && s[0] == '-' ==>
      r == (if AllDigits(s[1..]) && DecimalValue(s[1..]) <= -MinInt64 then Some(-(DecimalValue(s[1..]) as int)) else None)
    ensures (|s| == 0 || !(IsDigit(s[0]) || s[0] == '+' || s[0] == '-')) ==> r.None?
  {
    if |s| == 0 then None
    else
      var negative := s[0] == '-';
      var body := if s[0] == '-' || s[0] == '+' then s[1..] else s;
      if !AllDigits(body) then None
      else
        var magnitude: int := DecimalValue(body);
        var n := if negative then -magnitude else magnitude;
        if MinInt64 <= n <= MaxInt64 then Some(n) else None
  }

  /** fmt.Sprintf("%v", v). */
  function Format(v: Value): string
  {
    match v
    case Null => "<nil>"
    case Str(s) => s
    case Int(i) => IntToDecimal(i)
    case Float(f) => f.text
    case Bool(b) => if b then "true" else "false"
    case Number(t) => t
  }

  /** The identity column mapping over a list of names, built entry by entry
      (the Column method of the file sources). */
  method IdentityColumns(names: seq<string>) returns (columns: Mapping)
    ensures forall k :: k in columns <==> k in names
    ensures forall k :: k in columns ==> columns[k] == k
  {
    columns := map[];
    var i := 0;
    while i < |names|
      invariant 0 <= i <= |names|
      invariant forall k :: k in columns <==> k in names[..i]
      invariant forall k :: k in columns ==> columns[k] == k
    {
      columns := columns[names[i] := names[i]];
      assert names[..i + 1] == names[..i] + [names[i]];
      i := i + 1;
    }
    assert names[..i] == names;
  }

  lemma {:induction false} DecimalOfNat(n: nat)
    ensures DecimalValue(NatToDecimal(n)) == n
    decreases n
  {
    if n >= 10 {
      DecimalOfNat(n / 10);
      var s := NatToDecimal(n);
      assert s[..|s| - 1] == NatToDecimal(n / 10);
    }
  }

  /** Printing an int64 in decimal and parsing it back gives the same number. */
  lemma ParseFormatInt(i: int)
    requires MinInt64 <= i <= MaxInt64
    ensures ParseInt64(IntToDecimal(i)) == Some(i)
  {
    var s := IntToDecimal(i);
    if i < 0 {
      DecimalOfNat(-i);
      assert s[0] == '-' && s[1..] == NatToDecimal(-i);
      assert AllDigits(s[1..]) && DecimalValue(s[1..]) == -i;
    } else {
      DecimalOfNat(i);
      assert AllDigits(s) && DecimalValue(s) == i;
    }
  }
}
