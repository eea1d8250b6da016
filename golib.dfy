/** The Go values the core works with: nil-able slices and errors, the 64-bit
    integer range of `int` and `int64`, and the two standard-library string
    functions it calls (`strings.ToLower`, `strconv.Atoi`). */
module GoLib {

  import opened Wrappers

  /** A Go slice: `nil`, or a made slice with its elements. Encoding a `nil`
      slice to JSON gives `null`, a made empty one gives `[]`. */
  datatype Slice<+T> = Nil | Elems(elems: seq<T>) {
    function Items(): seq<T> {
      if Nil? then [] else elems
    }
  }

  /** The values of Go's `error` interface that the model tells apart; a nil
      error is `None` of `Option<Error>`. */
  datatype Error =
    | InsertStockFailed                    // repository.errInsertStockFailed
    | NoSuchStock                          // repository.ErrNoSuchStock
    | NoRows                               // sql.ErrNoRows
    | MissingQueryParam(key: string)       // httputil.ParseQueryValue on an absent key
    | HttpError(message: string, status: int)  // httputil.NewError
    | Opaque(id: nat)                      // any other error value (driver, mock, ...)

  const MinInt64: int := -0x8000_0000_0000_0000
  const MaxInt64: int := 0x7fff_ffff_ffff_ffff

  /** Go's `int` and `int64` on a 64-bit platform. */
  type Int64 = x: int | -0x8000_0000_0000_0000 <= x <= 0x7fff_ffff_ffff_ffff

  /** Two's complement wrap-around of an unbounded integer into 64 bits. */
  function Wrap(x: int): (r: Int64)
    ensures MinInt64 <= x <= MaxInt64 ==> r == x
  {
    (x + 0x8000_0000_0000_0000) % 0x1_0000_0000_0000_0000 - 0x8000_0000_0000_0000
  }

  /** `x++` on a Go `int`. */
  function Inc(x: Int64): (r: Int64)
    ensures x < MaxInt64 ==> r == x + 1
    ensures x == MaxInt64 ==> r == MinInt64
  {
    Wrap(x + 1)
  }

  /** Wrapping after every step is the same as wrapping once at the end. */
  lemma WrapAdd(a: int, b: int)
    ensures Wrap(Wrap(a) + b) == Wrap(a + b)
  {
    var h := 0x8000_0000_0000_0000;
    var q := (a + h) / 0x1_0000_0000_0000_0000;
    assert Wrap(a) + b + h == (a + b + h) - q * 0x1_0000_0000_0000_0000;
    ModShift(a + b + h, q);
  }

  lemma ModShift(x: int, q: int)
    ensures (x - q * 0x1_0000_0000_0000_0000) % 0x1_0000_0000_0000_0000 == x % 0x1_0000_0000_0000_0000
  {
    var r := x % 0x1_0000_0000_0000_0000;
    var d := x / 0x1_0000_0000_0000_0000;
    assert x - q * 0x1_0000_0000_0000_0000 == (d - q) * 0x1_0000_0000_0000_0000 + r;
  }

  // ---------------------------------------------------------------------------
  // strings.ToLower, restricted to ASCII letters

  function LowerChar(c: char): char {
    if 'A' <= c <= 'Z' then (c as int + 32) as char else c
  }

  function ToLower(s: string): (r: string)
    ensures |r| == |s|
    ensures forall i :: 0 <= i < |s| ==> r[i] == LowerChar(s[i])
  {
    if s == [] then [] else [LowerChar(s[0])] + ToLower(s[1..])
  }

  /** Lowering twice is lowering once. */
  lemma ToLowerIdempotent(s: string)
    ensures ToLower(ToLower(s)) == ToLower(s)
  {
    var once := ToLower(s);
    assert forall i :: 0 <= i < |s| ==> ToLower(once)[i] == once[i];
  }

  // ---------------------------------------------------------------------------
  // strconv.Atoi (base 10, into a 64-bit int) and its inverse strconv.Itoa

  predicate IsDigit(c: char) {
    '0' <= c <= '9'
  }

  predicate AllDigits(s: string) {
    forall i :: 0 <= i < |s| ==> IsDigit(s[i])
  }

  /** The number a string of decimal digits denotes. */
  function DigitsValue(s: string): nat
    requires AllDigits(s)
  {
    if s == [] then 0
    else 10 * DigitsValue(s[..|s| - 1]) + (s[|s| - 1] as int - '0' as int)
  }

  /** `strconv.Atoi`: an optional `+` or `-`, then one or more ASCII digits, and
      a value inside the 64-bit range; anything else is a syntax or range error. */
  function Atoi(s: string): (r: Option<Int64>)
    ensures r.Some? ==> |s| > 0
    ensures |s| > 0 && (s[0] == '-' || s[0] == '+') && |s| == 1 ==> r == None
  {
    if |s| == 0 then None
    else
      var digits := if s[0] == '-' || s[0] == '+' then s[1..] else s;
      if |digits| == 0 || !AllDigits(digits) then None
      else
        var v: int := if s[0] == '-' then 0 - DigitsValue(digits) else DigitsValue(digits);
        if MinInt64 <= v <= MaxInt64 then Some(v) else None
  }

  function DigitChar(d: nat): char
    requires d < 10
  {
    ('0' as int + d) as char
  }

  /** The decimal digits of a natural number, most significant first. */
  function NatDigits(n: nat): (r: string)
    ensures |r| > 0 && AllDigits(r)
  {
    if n < 10 then [DigitChar(n)] else NatDigits(n / 10) + [DigitChar(n % 10)]
  }

  /** `strconv.Itoa`. */
  function Itoa(n: Int64): string {
    if n < 0 then "-" + NatDigits(-(n as int)) else NatDigits(n)
  }

  lemma {:induction false} NatDigitsValue(n: nat)
    ensures DigitsValue(NatDigits(n)) == n
  {
    if n >= 10 {
      var s := NatDigits(n);
      assert s[..|s| - 1] == NatDigits(n / 10);
      NatDigitsValue(n / 10);
    }
  }

  /** Every 64-bit integer, written in decimal, parses back to itself. */
  lemma AtoiItoa(n: Int64)
    ensures Atoi(Itoa(n)) == Some(n)
  {
    var s := Itoa(n);
    if n < 0 {
      NatDigitsValue(-(n as int));
      assert s[1..] == NatDigits(-(n as int));
    } else {
      NatDigitsValue(n);
      assert IsDigit(s[0]);
    }
  }
}
