/** String helpers that stand for the JavaScript built-ins the core calls. */
module Text {
  import opened Wrappers

  predicate IsDigit(c: char) { '0' <= c <= '9' }

  /** The value of a digit character. */
  function DigitValue(c: char): (d: nat)
    requires IsDigit(c)
    ensures d < 10
  {
    c as int - '0' as int
  }

  /** The number a string of decimal digits denotes, most significant first. */
  function DecimalValue(s: string): (v: nat)
    requires forall i :: 0 <= i < |s| ==> IsDigit(s[i])
    decreases |s|
  {
    if s == [] then 0 else DecimalValue(s[..|s| - 1]) * 10 + DigitValue(s[|s| - 1])
  }

  /** Decimal digits of a natural number, most significant first. */
  function NatToDecimal(n: nat): (r: string)
    ensures |r| >= 1
    ensures forall i :: 0 <= i < |r| ==> IsDigit(r[i])
    decreases n
  {
    var d := [(('0' as int) + n % 10) as char];
    if n < 10 then d else NatToDecimal(n / 10) + d
  }

  /** The digits denote `n`, and there is no leading zero except in "0" itself. */
  lemma {:induction false} NatToDecimalDenotes(n: nat)
    ensures var r := NatToDecimal(n); DecimalValue(r) == n && (r[0] == '0' ==> r == "0")
    decreases n
  {
    if n >= 10 {
      NatToDecimalDenotes(n / 10);
      var r := NatToDecimal(n);
      assert r[..|r| - 1] == NatToDecimal(n / 10);
    }
  }

  /** `String(n)` for an integer `n`: an optional minus sign, then the digits of `|n|`. */
  function IntToDecimal(i: int): (r: string)
    ensures |r| >= 1
    ensures '@' !in r && '.' !in r
    ensures r[0] == '-' <==> i < 0
  {
    var r := if i < 0 then "-" + NatToDecimal(-i) else NatToDecimal(i);
    assert forall k :: 0 <= k < |r| ==> r[k] == '-' || IsDigit(r[k]);
    r
  }

  /**
   * `String(n)` is read back as `n`: after the sign (present exactly for a
   * negative `n`) come decimal digits without a leading zero that denote `|n|`.
   */
  lemma IntToDecimalDenotes(i: int)
    ensures var r := IntToDecimal(i);
      var digits := if i < 0 then r[1..] else r;
      && |digits| >= 1
      && (forall k :: 0 <= k < |digits| ==> IsDigit(digits[k]))
      && (digits[0] == '0' ==> digits == "0")
      && DecimalValue(digits) == (if i < 0 then -i else i)
  {
    var m: nat := if i < 0 then -i else i;
    NatToDecimalDenotes(m);
    assert i < 0 ==> IntToDecimal(i)[1..] == NatToDecimal(m);
  }

  /**
   * `s.split("@")[1]`: the text between the first `@` and the next `@` (or the
   * end); `undefined` (None) when `s` has no `@`.
   */
  function AfterFirstAt(s: string): (r: Option<string>)
    ensures r.None? <==> '@' !in s
    ensures r.Some? ==> '@' !in r.value
    ensures r.Some? ==> exists i :: 0 <= i < |s| && AtSplitsAt(s, i, r.value)
    decreases |s|
  {
    if s == [] then None
    else if s[0] == '@' then
      var field := UpToAt(s[1..]);
      assert AtSplitsAt(s, 0, field);
      Some(field)
    else
      var rest := AfterFirstAt(s[1..]);
      if rest.Some? then
        ghost var i :| 0 <= i < |s[1..]| && AtSplitsAt(s[1..], i, rest.value);
        assert AtSplitsAt(s, i + 1, rest.value);
        rest
      else None
  }

  /** `s[i]` is the first `@` of `s` and `field` is everything after it up to the next `@` or the end. */
  ghost predicate AtSplitsAt(s: string, i: int, field: string)
  {
    && 0 <= i < |s|
    && s[i] == '@'
    && '@' !in s[..i]
    && i + 1 + |field| <= |s|
    && s[i + 1 .. i + 1 + |field|] == field
    && (i + 1 + |field| == |s| || s[i + 1 + |field|] == '@')
  }

  /** The longest prefix of `s` that holds no `@`. */
  function UpToAt(s: string): (r: string)
    ensures '@' !in r
    ensures r <= s
    ensures |r| == |s| || s[|r|] == '@'
    decreases |s|
  {
    if s == [] || s[0] == '@' then [] else [s[0]] + UpToAt(s[1..])
  }

  /** Text without `@` is its own longest `@`-free prefix. */
  lemma {:induction false} UpToAtWithoutAt(s: string)
    requires '@' !in s
    ensures UpToAt(s) == s
    decreases |s|
  {
    if s != [] {
      UpToAtWithoutAt(s[1..]);
      assert [s[0]] + s[1..] == s;
    }
  }

  /** Splitting `a@b` at its only `@` gives back `b`. */
  lemma {:induction false} AfterFirstAtJoin(a: string, b: string)
    requires '@' !in a && '@' !in b
    ensures AfterFirstAt(a + "@" + b) == Some(b)
    decreases |a|
  {
    var s := a + "@" + b;
    if a == [] {
      assert s[0] == '@' && s[1..] == b;
      UpToAtWithoutAt(b);
    } else {
      assert s[0] == a[0] && s[0] != '@';
      assert s[1..] == a[1..] + "@" + b;
      AfterFirstAtJoin(a[1..], b);
    }
  }

  /** `s.slice(0, n)`: the first `n` characters, or all of `s` when it is shorter. */
  function Prefix(s: string, n: nat): (r: string)
    ensures |r| <= n && r <= s
    ensures |s| <= n ==> r == s
    ensures |s| > n ==> |r| == n
  {
    if |s| <= n then s else s[..n]
  }

  /** ASCII part of `String.prototype.toLowerCase`. */
  function LowerChar(c: char): (r: char)
    ensures 'A' <= c <= 'Z' ==> 'a' <= r <= 'z' && r as int - 'a' as int == c as int - 'A' as int
    ensures !('A' <= c <= 'Z') ==> r == c
  {
    if 'A' <= c <= 'Z' then (c as int + 32) as char else c
  }

  function ToLower(s: string): (r: string)
    ensures |r| == |s|
    ensures forall i :: 0 <= i < |s| ==> r[i] == LowerChar(s[i])
  {
    seq(|s|, i requires 0 <= i < |s| => LowerChar(s[i]))
  }
}
