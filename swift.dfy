/** The few Swift and Foundation values the API pipeline passes around: optionals,
    the outcome of a throwing call, response bytes, and the text Swift prints for an
    `Int?` (the fallback description of an unknown API error). */
module Swift {

  /** Swift's `Optional`. */
  datatype Option<+T> = None | Some(value: T)

  /** The outcome of a call that may throw: the value it returned, or the error it threw. */
  datatype Result<+T, +E> = Success(value: T) | Failure(error: E)

  newtype byte = x: int | 0 <= x < 256

  /** Foundation's `Data`: the raw bytes of a response body. */
  type Bytes = seq<byte>

  function DigitChar(d: nat): (c: char)
    requires d < 10
    ensures '0' <= c <= '9'
  {
    ('0' as int + d) as char
  }

  /** The decimal digits of `n`, most significant first, with no leading zeros. */
  function NatDigits(n: nat): (s: string)
    ensures |s| >= 1
    ensures |s| == 1 <==> n < 10
    ensures forall i :: 0 <= i < |s| ==> '0' <= s[i] <= '9'
    decreases n
  {
    if n < 10 then [DigitChar(n)] else NatDigits(n / 10) + [DigitChar(n % 10)]
  }

  /** The text Swift prints for an `Int`: its decimal digits, after a minus sign when it is negative. */
  function IntDescription(n: int): (s: string)
    ensures |s| >= 1
    ensures s[0] == '-' <==> n < 0
  {
    if n < 0 then "-" + NatDigits(-n) else NatDigits(n)
  }

  /** `String(describing:)` of an `Int?`: `nil` when absent, `Optional(<digits>)` otherwise. */
  function OptionalIntDescription(o: Option<int>): (s: string)
    ensures o.None? <==> s == "nil"
  {
    match o
    case None => "nil"
    case Some(n) => "Optional(" + IntDescription(n) + ")"
  }

  lemma {:induction false} NatDigitsInjective(a: nat, b: nat)
    requires NatDigits(a) == NatDigits(b)
    ensures a == b
    decreases a
  {
    var s := NatDigits(a);
    if a < 10 {
      assert b < 10;
      assert (s[0] as int) - ('0' as int) == a;
    } else {
      assert b >= 10;
      var k := |s| - 1;
      assert s[..k] == NatDigits(a / 10) && s[..k] == NatDigits(b / 10);
      NatDigitsInjective(a / 10, b / 10);
      assert (s[k] as int) - ('0' as int) == a % 10 == b % 10;
    }
  }

  /** Different integers never print alike. */
  lemma IntDescriptionInjective(a: int, b: int)
    requires IntDescription(a) == IntDescription(b)
    ensures a == b
  {
    if a < 0 {
      assert b < 0;
      assert IntDescription(a)[1..] == NatDigits(-a) && IntDescription(b)[1..] == NatDigits(-b);
      NatDigitsInjective(-a, -b);
    } else {
      assert b >= 0;
      NatDigitsInjective(a, b);
    }
  }

  /** The printed form of an `Int?` determines it. */
  lemma OptionalIntDescriptionInjective(o1: Option<int>, o2: Option<int>)
    requires OptionalIntDescription(o1) == OptionalIntDescription(o2)
    ensures o1 == o2
  {
    if o1.Some? {
      assert o2.Some?;
      var s1, s2 := OptionalIntDescription(o1), OptionalIntDescription(o2);
      assert s1[9..|s1| - 1] == IntDescription(o1.value);
      assert s2[9..|s2| - 1] == IntDescription(o2.value);
      IntDescriptionInjective(o1.value, o2.value);
    }
  }
}
