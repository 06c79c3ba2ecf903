/** Scores: the `f64` of `EvalResult`, the JSON it becomes, and the number read back from that JSON. */
module Score {
  import opened Wrappers
  import opened Text
  import opened Json

  /** A finite `f64` is named by the text printed for it; no two finite floats share one. */
  datatype F64 = Finite(token: FloatToken) | NaN | Infinite(negative: bool)

  /** Moving the decimal point of `x` by `n` places. */
  function Shift(x: real, n: int): real
    decreases if n < 0 then -n else n
  {
    if n == 0 then x else if n > 0 then Shift(10.0 * x, n - 1) else Shift(x / 10.0, n + 1)
  }

  /** The digits of `s` read as one number, skipping every other character. */
  function Digits(s: string): nat {
    if s == [] then 0
    else
      var d := s[|s| - 1];
      var high := Digits(s[..|s| - 1]);
      if IsDigit(d) then high * 10 + (d as int - '0' as int) else high
  }

  function Cut(s: string, at: set<char>): (parts: (string, string)) {
    if s == [] then ("", "")
    else if s[0] in at then ("", s[1..])
    else
      var (left, right) := Cut(s[1..], at);
      ([s[0]] + left, right)
  }

  /** The exponent of a float token; one with a plus sign is its digits. */
  function Exponent(text: string): int {
    match IntValue(text) case Some(e) => e case None => Digits(text)
  }

  /** A float token read: its sign, its digits as one number, and the power of ten of the last of them. */
  datatype Reading = Reading(negative: bool, digits: nat, scale: int)

  function Read(token: string): Reading {
    var (mantissa, exponent) := Cut(token, {'e', 'E'});
    var (whole, fraction) := Cut(mantissa, {'.'});
    Reading('-' in whole, Digits(whole + fraction), Exponent(exponent) - |fraction|)
  }

  function Worth(r: Reading): real {
    if r.negative then -Shift(r.digits as real, r.scale) else Shift(r.digits as real, r.scale)
  }

  /** The number a float token denotes. */
  function FloatValue(token: string): real {
    Worth(Read(token))
  }

  /** `serde_json::to_value`: what is not finite becomes null. */
  function ToJson(f: F64): Value {
    if f.Finite? then Num(Float(f.token)) else Null
  }

  /** `Value::as_f64`. */
  function AsF64(v: Raw): Option<real> {
    match v
    case Num(Int(i)) => Some(i as real)
    case Num(Float(token)) => Some(FloatValue(token))
    case _ => None
  }

  /** `f <= r` as IEEE 754 has it: false for NaN. */
  predicate AtMost(f: F64, r: real) {
    match f
    case Finite(token) => FloatValue(token) <= r
    case NaN => false
    case Infinite(negative) => negative
  }

  /** `f > r` as IEEE 754 has it: false for NaN. */
  predicate Exceeds(f: F64, r: real) {
    match f
    case Finite(token) => FloatValue(token) > r
    case NaN => false
    case Infinite(negative) => !negative
  }

  /** `f > g` as IEEE 754 has it: false as soon as one is NaN. */
  predicate Beats(f: F64, g: F64) {
    match g
    case Finite(token) => Exceeds(f, FloatValue(token))
    case NaN => false
    case Infinite(negative) => negative && f != NaN && f != Infinite(true)
  }

  /** `v.get("score").and_then(as_f64)` under an optional `eval_results`. */
  function StoredScore(evalResults: Option<Raw>): Option<real> {
    match evalResults
    case None => None
    case Some(v) => match Get(v, "score") case None => None case Some(s) => AsF64(s)
  }
}
