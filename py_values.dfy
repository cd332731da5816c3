/** The Python built-ins the webhook applies to the decoded JSON body:
    `str.upper`, the slice `s[-5:]`, and the conversions `int(...)` and
    `float(...)`. */
module PyValues {
  import opened Wrappers

  /** A JSON scalar as `request.json` hands it to the handler: a string, an
      integer (Python `int`, unbounded), a finite float, `true`/`false`, or
      `null` (Python's `None`). */
  datatype Value = Str(s: string) | Int(i: int) | Float(f: real) | Bool(b: bool) | Null

  /** Python's parsing of TEXT by `int(s)` and `float(s)`: `None` where Python
      raises `ValueError`. Text parsing is taken as given, not modelled. */
  datatype Conversions = Conversions(parseInt: string -> Option<int>, parseFloat: string -> Option<real>)

  predicate IsLowerAscii(c: char) {
    'a' <= c <= 'z'
  }

  /** `str.upper` on one character, for the ASCII letters. */
  function UpperChar(c: char): (u: char)
    ensures !IsLowerAscii(u)
  {
    if IsLowerAscii(c) then (c as int - 32) as char else c
  }

  /** `s.upper()`: every character upper-cased, nothing added or dropped. */
  function Upper(s: string): (r: string)
    ensures |r| == |s|
    ensures forall i | 0 <= i < |s| :: r[i] == UpperChar(s[i])
  {
    if s == [] then [] else [UpperChar(s[0])] + Upper(s[1..])
  }

  predicate HasNoLowerAscii(s: string) {
    forall i | 0 <= i < |s| :: !IsLowerAscii(s[i])
  }

  /** Upper-casing leaves no lower-case letter behind. */
  lemma UpperHasNoLower(s: string)
    ensures HasNoLowerAscii(Upper(s))
  {
  }

  /** Upper-casing twice is upper-casing once. */
  lemma UpperIdempotent(s: string)
    ensures Upper(Upper(s)) == Upper(s)
  {
  }

  /** `s[-5:]`: the last five characters, or all of `s` when it is shorter. */
  function LastFive(s: string): (r: string)
    ensures |r| == if |s| < 5 then |s| else 5
    ensures s == s[..|s| - |r|] + r
  {
    if |s| < 5 then s else s[|s| - 5..]
  }

  /** `int(x)` for a float `x`: rounds toward zero (unlike Dafny's `Floor`). */
  function Truncate(x: real): (i: int)
    ensures 0.0 <= x ==> 0 <= i && i as real <= x < i as real + 1.0
    ensures x < 0.0 ==> i <= 0 && i as real - 1.0 < x <= i as real
  {
    if 0.0 <= x then x.Floor else -((-x).Floor)
  }

  /** 2^1024 - 2^970: the least integer whose nearest double is past the
      largest finite one, so that `float(i)` raises `OverflowError`. */
  const FloatOverflowBound: int := 0xFFFF_FFFF_FFFF_FC00_0000000000000000_0000000000000000_0000000000000000_0000000000000000_0000000000000000_0000000000000000_0000000000000000_0000000000000000_0000000000000000_0000000000000000_0000000000000000_0000000000000000_0000000000000000_0000000000000000_0000000000000000

  predicate TooLargeForFloat(i: int) {
    i >= FloatOverflowBound || -i >= FloatOverflowBound
  }

  /** `int(v)`: `None` where Python raises (`int(None)`, unparsable text). */
  function IntOf(v: Value, conv: Conversions): Option<int>
  {
    match v
    case Str(s) => conv.parseInt(s)
    case Int(i) => Some(i)
    case Float(f) => Some(Truncate(f))
    case Bool(b) => Some(if b then 1 else 0)
    case Null => None
  }

  /** `float(v)`: `None` where Python raises (`float(None)`, unparsable text,
      an integer beyond the range of a double). */
  function FloatOf(v: Value, conv: Conversions): Option<real>
  {
    match v
    case Str(s) => conv.parseFloat(s)
    case Int(i) => if TooLargeForFloat(i) then None else Some(i as real)
    case Float(f) => Some(f)
    case Bool(b) => Some(if b then 1.0 else 0.0)
    case Null => None
  }

  /** A float holding a whole number survives `int(...)` unchanged. */
  lemma TruncateWhole(k: int)
    ensures Truncate(k as real) == k
  {
  }

  /** For a JSON number or boolean, `int(v)` is `int(float(v))`, and `int(v)`
      raises only where `float(v)` raises too: text is the one input on which
      the two conversions can disagree. */
  lemma IntOfThroughFloat(v: Value, conv: Conversions)
    requires !v.Str?
    ensures FloatOf(v, conv).Some? ==> IntOf(v, conv) == Some(Truncate(FloatOf(v, conv).value))
    ensures IntOf(v, conv).None? ==> FloatOf(v, conv).None?
  {
    if v.Int? {
      TruncateWhole(v.i);
    }
  }
}
