/**
 * Which strings Python's `float(str)` accepts, as a finite automaton.  The
 * conversion skips the whitespace around the text, then accepts an optional
 * sign followed by `inf`, `infinity` or `nan` in any letter case, or by a
 * decimal literal `digits [. [digits]] [e [sign] digits]` with at least one
 * digit before the exponent, where single underscores may separate digits.
 * Everything else raises `ValueError`.  The numeric value is not computed.
 */
module FloatText {

  /** The characters `float()` skips at both ends of its argument. */
  predicate IsFloatSpace(c: char) {
    var n := c as int;
    (9 <= n <= 13) || n == 32 || n == 0x85 || n == 0xA0 || n == 0x1680
    || (0x2000 <= n <= 0x200A) || n == 0x2028 || n == 0x2029 || n == 0x202F
    || n == 0x205F || n == 0x3000
  }

  predicate IsDigit(c: char) {
    '0' <= c <= '9'
  }

  function LowerAscii(c: char): char {
    if 'A' <= c <= 'Z' then (c as int + 32) as char else c
  }

  datatype State =
    | Lead           // leading whitespace
    | Signed         // after the sign
    | IntDigit       // after a digit of the integer part
    | IntScore       // after an underscore in the integer part
    | BareDot        // a point with no digit before it
    | Dot            // a point after integer digits
    | FracDigit      // after a digit of the fraction
    | FracScore      // after an underscore in the fraction
    | Exp            // after `e` or `E`
    | ExpSign        // after the exponent's sign
    | ExpDigit       // after a digit of the exponent
    | ExpScore       // after an underscore in the exponent
    | Inf(n: nat)     // the first `n` letters of `infinity`, in any case
    | Nan(n: nat)     // the first `n` letters of `nan`, in any case
    | Trail          // trailing whitespace after a complete number
    | Reject

  const Infinity: string := "infinity"
  const NanWord: string := "nan"

  /** The state after one letter at the start of a word, or `Reject`. */
  function WordStart(c: char): State {
    if LowerAscii(c) == 'i' then Inf(1) else if LowerAscii(c) == 'n' then Nan(1) else Reject
  }

  /** A state in which the text read so far is already a complete number. */
  predicate Complete(q: State) {
    q.IntDigit? || q.Dot? || q.FracDigit? || q.ExpDigit? || q == Inf(3) || q == Inf(8) || q == Nan(3)
  }

  predicate Accepting(q: State) {
    Complete(q) || q.Trail?
  }

  function Next(q: State, c: char): State {
    var isExp := c == 'e' || c == 'E';
    var isSign := c == '+' || c == '-';
    if IsFloatSpace(c) then
      (if q.Lead? then Lead else if Complete(q) || q.Trail? then Trail else Reject)
    else
      match q
      case Lead =>
        if isSign then Signed else if IsDigit(c) then IntDigit else if c == '.' then BareDot
        else WordStart(c)
      case Signed =>
        if IsDigit(c) then IntDigit else if c == '.' then BareDot
        else WordStart(c)
      case IntDigit =>
        if IsDigit(c) then IntDigit else if c == '_' then IntScore else if c == '.' then Dot
        else if isExp then Exp else Reject
      case IntScore => if IsDigit(c) then IntDigit else Reject
      case BareDot => if IsDigit(c) then FracDigit else Reject
      case Dot => if IsDigit(c) then FracDigit else if isExp then Exp else Reject
      case FracDigit =>
        if IsDigit(c) then FracDigit else if c == '_' then FracScore else if isExp then Exp else Reject
      case FracScore => if IsDigit(c) then FracDigit else Reject
      case Exp => if isSign then ExpSign else if IsDigit(c) then ExpDigit else Reject
      case ExpSign => if IsDigit(c) then ExpDigit else Reject
      case ExpDigit => if IsDigit(c) then ExpDigit else if c == '_' then ExpScore else Reject
      case ExpScore => if IsDigit(c) then ExpDigit else Reject
      case Inf(n) => if n < |Infinity| && LowerAscii(c) == Infinity[n] then Inf(n + 1) else Reject
      case Nan(n) => if n < |NanWord| && LowerAscii(c) == NanWord[n] then Nan(n + 1) else Reject
      case Trail => Reject
      case Reject => Reject
  }

  /** The state after reading `s` from state `q`. */
  function Run(q: State, s: string): State
    decreases |s|
  {
    if s == [] then q else Run(Next(q, s[0]), s[1..])
  }

  /** True exactly when `float(s)` returns instead of raising. */
  predicate IsFloatText(s: string) {
    Accepting(Run(Lead, s))
  }

  lemma {:induction false} RunAppend(q: State, s: string, t: string)
    ensures Run(q, s + t) == Run(Run(q, s), t)
    decreases |s|
  {
    if s == [] {
      assert s + t == t;
    } else {
      assert (s + t)[1..] == s[1..] + t;
      RunAppend(Next(q, s[0]), s[1..], t);
    }
  }

  predicate AllDigits(s: string) {
    forall k :: 0 <= k < |s| ==> IsDigit(s[k])
  }

  lemma {:induction false} RunDigits(q: State, s: string)
    requires q.IntDigit? || q.FracDigit? || q.ExpDigit?
    requires AllDigits(s)
    ensures Run(q, s) == q
  {
    if s != [] {
      assert Next(q, s[0]) == q;
      RunDigits(q, s[1..]);
    }
  }

  /** Every non-empty string of ASCII digits is accepted: `float("24") == 24.0`. */
  lemma DigitsAreFloatText(s: string)
    requires |s| > 0 && AllDigits(s)
    ensures IsFloatText(s)
  {
    assert Next(Lead, s[0]) == IntDigit;
    RunDigits(IntDigit, s[1..]);
  }

  /** `<digits>.<digits>` is accepted: `float("2.5") == 2.5`. */
  lemma DecimalIsFloatText(a: string, b: string)
    requires |a| > 0 && AllDigits(a) && |b| > 0 && AllDigits(b)
    ensures IsFloatText(a + "." + b)
  {
    assert a + "." + b == a + ("." + b);
    RunAppend(Lead, a, "." + b);
    assert Next(Lead, a[0]) == IntDigit;
    RunDigits(IntDigit, a[1..]);
    assert Run(Lead, a) == IntDigit;
    var t := "." + b;
    assert t[0] == '.' && t[1..] == b;
    assert Run(IntDigit, t) == Run(Dot, b);
    assert Next(Dot, b[0]) == FracDigit;
    RunDigits(FracDigit, b[1..]);
    assert Run(Dot, b) == FracDigit;
  }

  /** `nan` is accepted. */
  lemma NanIsFloatText()
    ensures IsFloatText("nan")
  {
    assert Run(Nan(2), "n") == Nan(3);
    assert Run(Nan(1), "an") == Nan(3);
  }

  /** `bad` is refused. */
  lemma BadIsNotFloatText()
    ensures !IsFloatText("bad")
  {
    RejectAbsorbs("ad");
  }

  /** Text after a complete number and its trailing whitespace is refused: `float("1 2")` raises. */
  lemma {:induction false} TrailThenTextRejected(q: State, s: string)
    requires q.Trail? || q.Reject?
    requires exists k :: 0 <= k < |s| && !IsFloatSpace(s[k])
    ensures Run(q, s) == Reject
  {
    var c := s[0];
    if IsFloatSpace(c) {
      var k :| 0 <= k < |s| && !IsFloatSpace(s[k]);
      assert s[1..][k - 1] == s[k];
      TrailThenTextRejected(Next(q, c), s[1..]);
    } else {
      RejectAbsorbs(s[1..]);
    }
  }

  lemma {:induction false} RejectAbsorbs(s: string)
    ensures Run(Reject, s) == Reject
  {
    if s != [] {
      RejectAbsorbs(s[1..]);
    }
  }
}
