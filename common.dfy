/** Types shared by the backend controllers and the frontend page. */
module Common {

  /** A value that may be absent: a request field that was not sent, a lookup that found nothing. */
  datatype Option<T> = None | Some(value: T)

  /** A computation that either yields a value or fails with an error. */
  datatype Result<T, E> = Success(value: T) | Failure(error: E)

  /** MongoDB ObjectIds of users and of tasks. An ObjectId is a 12-byte value, compared
      byte by byte, so a natural number stands for it. */
  type UserId = nat
  type TaskId = nat

  predicate IsHexDigit(c: char)
  {
    '0' <= c <= '9' || 'a' <= c <= 'f'
  }

  /** The numeral of `n` in `base`, most significant digit first, without leading zeros. */
  function Numeral(n: nat, base: nat): (r: string)
    requires 2 <= base <= 16
    ensures |r| > 0
    ensures forall i :: 0 <= i < |r| ==> IsHexDigit(r[i])
    decreases n
  {
    if n < base then [Digit(n)]
    else
      DivideStep(n, base);
      Numeral(n / base, base) + [Digit(n % base)]
  }

  lemma DivideStep(n: nat, base: nat)
    requires 2 <= base <= n
    ensures n / base < n && n % base < base
  {
  }

  /** The lower-case digit character of value `d`. */
  function Digit(d: nat): (c: char)
    requires d < 16
    ensures IsHexDigit(c)
  {
    if d < 10 then ('0' as int + d) as char else ('a' as int + d - 10) as char
  }

  /** `s` contains no path separator. */
  predicate NoSlash(s: string)
  {
    forall i :: 0 <= i < |s| ==> s[i] != '/'
  }

  lemma NumeralHasNoSlash(n: nat, base: nat)
    requires 2 <= base <= 16
    ensures NoSlash(Numeral(n, base))
  {
    var r := Numeral(n, base);
    forall i | 0 <= i < |r| ensures r[i] != '/' {
      assert IsHexDigit(r[i]);
    }
  }
}
