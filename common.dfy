/**
 * Values shared by every module.  JavaScript's `undefined` is `None`, an exception
 * thrown by the code is `Err` with its message, and a few string operations of the
 * JavaScript standard library are written out.
 */
module Common {

  datatype Option<+T> = None | Some(value: T) {
    /** `x ?? d` for a value that is either present or `undefined` */
    function GetOr(default: T): T {
      match this
      case Some(v) => v
      case None => default
    }
  }

  /** Either the value a call returns or the message of the exception it throws. */
  datatype Result<+T> = Ok(value: T) | Err(error: string)

  /** What reading a property of `undefined` throws; its text is not observed anywhere. */
  const TypeError: string := "TypeError"

  /** JavaScript truthiness of a string that may be `undefined`: `undefined` and '' are falsy. */
  predicate Truthy(s: Option<string>) {
    s.Some? && s.value != ""
  }

  /** `${s}` in a template literal: `undefined` prints as the word undefined. */
  function Template(s: Option<string>): (r: string)
    ensures s.Some? ==> r == s.value
  {
    match s
    case Some(v) => v
    case None => "undefined"
  }

  /** `sub` occurs in `s` at position `i`. */
  predicate OccursAt(s: string, sub: string, i: nat) {
    i + |sub| <= |s| && s[i..i + |sub|] == sub
  }

  /** `s.includes(sub)` */
  predicate Contains(s: string, sub: string) {
    exists i :: 0 <= i <= |s| - |sub| && OccursAt(s, sub, i)
  }

  lemma OccursAtContains(s: string, sub: string, i: nat)
    requires OccursAt(s, sub, i)
    ensures Contains(s, sub)
  {
  }

  /** The middle piece of a concatenation sits right after the first piece. */
  lemma {:induction false} MiddleOfConcat(a: string, b: string, c: string)
    ensures OccursAt(a + b + c, b, |a|)
  {
    assert (a + b + c)[|a|..|a| + |b|] == b;
  }

  /** Two concatenations sharing a prefix and a suffix agree on what lies between them. */
  lemma {:induction false} CancelPrefixSuffix(p: string, x: string, y: string, s: string)
    requires p + x + s == p + y + s
    ensures x == y
  {
    var l := p + x + s;
    assert |x| == |y|;
    assert x == l[|p|..|p| + |x|];
    assert y == (p + y + s)[|p|..|p| + |y|];
  }

  /** The decimal digits of a natural number, as `String(n)` writes them. */
  function NatToString(n: nat): (r: string)
    ensures |r| >= 1
    ensures forall i :: 0 <= i < |r| ==> '0' <= r[i] <= '9'
    decreases n
  {
    var d := [(('0' as int) + n % 10) as char];
    if n < 10 then d else NatToString(n / 10) + d
  }

  /** The number a string of decimal digits stands for, most significant digit first. */
  function DecimalValue(s: string): int
    decreases |s|
  {
    if |s| == 0 then 0 else DecimalValue(s[..|s| - 1]) * 10 + (s[|s| - 1] as int - '0' as int)
  }

  /** `NatToString` spells its argument: the digits it writes stand for `n`. */
  lemma {:induction false} NatToStringValue(n: nat)
    ensures DecimalValue(NatToString(n)) == n
    decreases n
  {
    var d := [(('0' as int) + n % 10) as char];
    if n < 10 {
      assert d[..0] == [];
    } else {
      var t := NatToString(n / 10);
      NatToStringValue(n / 10);
      assert (t + d)[..|t + d| - 1] == t;
    }
  }

  /** The decimal text of an integer, as `'' + i` writes it. */
  function IntToString(i: int): (r: string)
    ensures |r| >= 1
    ensures i >= 0 ==> '0' <= r[0] <= '9'
    ensures i < 0 ==> r[0] == '-'
  {
    if i >= 0 then NatToString(i) else "-" + NatToString(-i)
  }
}
