/**
 * `renderTemplate(template, variables)`: one left-to-right pass that replaces
 * every `{{ key }}` placeholder (optional whitespace inside the braces, a key of
 * word characters and dots) by the string form of `variables[key]`, or by the
 * empty string when that value is undefined or null.
 */
module TemplateRenderer {
  import opened Wrappers
  import Text

  /** The JavaScript values a variable can hold that the model distinguishes. */
  datatype Value = Undefined | Null | Str(s: string) | Bool(b: bool) | Num(n: int)

  /** The replacement callback: `value === undefined || value === null ? "" : String(value)`. */
  function ValueText(v: Value): (r: string)
    ensures r == "" <==> (v.Undefined? || v.Null? || v == Str(""))
    ensures v.Str? ==> r == v.s
    ensures v.Bool? ==> r == (if v.b then "true" else "false")
    ensures v.Num? ==> r == Text.IntToDecimal(v.n)
  {
    match v
    case Undefined => ""
    case Null => ""
    case Str(s) => s
    case Bool(b) => if b then "true" else "false"
    case Num(n) => Text.IntToDecimal(n)
  }

  /** `variables[key]`, looked up literally (a dotted key is one key); a missing key is undefined. */
  function Lookup(vars: map<string, Value>, key: string): (r: string)
    ensures key !in vars ==> r == ""
    ensures key in vars ==> r == ValueText(vars[key])
  {
    if key in vars then ValueText(vars[key]) else ""
  }

  /** JavaScript's `\s` class. */
  predicate IsSpace(c: char)
  {
    var n := c as int;
    n == 0x20 || (0x09 <= n <= 0x0D) || n == 0xA0 || n == 0x1680 || (0x2000 <= n <= 0x200A)
    || n == 0x2028 || n == 0x2029 || n == 0x202F || n == 0x205F || n == 0x3000 || n == 0xFEFF
  }

  /** The key class `[\w.]`: ASCII letters, digits, underscore and dot. */
  predicate IsKeyChar(c: char)
  {
    ('a' <= c <= 'z') || ('A' <= c <= 'Z') || ('0' <= c <= '9') || c == '_' || c == '.'
  }

  ghost predicate AllSpace(s: string) { forall i :: 0 <= i < |s| ==> IsSpace(s[i]) }

  ghost predicate AllKeyChars(s: string) { forall i :: 0 <= i < |s| ==> IsKeyChar(s[i]) }

  ghost predicate IsKey(s: string) { |s| >= 1 && AllKeyChars(s) }

  /** Length of the longest prefix of `s` made of whitespace. */
  function SpanSpaces(s: string): (n: nat)
    ensures n <= |s|
    decreases |s|
  {
    if s == [] || !IsSpace(s[0]) then 0 else 1 + SpanSpaces(s[1..])
  }

  /** Length of the longest prefix of `s` made of key characters. */
  function SpanKey(s: string): (n: nat)
    ensures n <= |s|
    decreases |s|
  {
    if s == [] || !IsKeyChar(s[0]) then 0 else 1 + SpanKey(s[1..])
  }

  /** `SpanSpaces` is the length of the maximal run of whitespace at the start of `s`. */
  lemma {:induction false} SpanSpacesExact(s: string, n: nat)
    requires n <= |s|
    ensures (SpanSpaces(s) == n) <==> (AllSpace(s[..n]) && (n == |s| || !IsSpace(s[n])))
    decreases |s|
  {
    if s != [] && IsSpace(s[0]) && n > 0 {
      SpanSpacesExact(s[1..], n - 1);
      assert s[1..][..n - 1] == s[1..n];
      assert s[..n] == [s[0]] + s[1..n];
    }
  }

  /** `SpanKey` is the length of the maximal run of key characters at the start of `s`. */
  lemma {:induction false} SpanKeyExact(s: string, n: nat)
    requires n <= |s|
    ensures (SpanKey(s) == n) <==> (AllKeyChars(s[..n]) && (n == |s| || !IsKeyChar(s[n])))
    decreases |s|
  {
    if s != [] && IsKeyChar(s[0]) && n > 0 {
      SpanKeyExact(s[1..], n - 1);
      assert s[1..][..n - 1] == s[1..n];
      assert s[..n] == [s[0]] + s[1..n];
    }
  }

  /** A placeholder found at the start of the text: its key and how many characters it spans. */
  datatype Placeholder = Placeholder(key: string, width: nat)

  /**
   * Whether `{{\s*([\w.]+)\s*}}` matches at the start of `s`. The two classes
   * are disjoint and neither holds `}`, so the greedy match is the only one.
   */
  function MatchAt(s: string): (m: Option<Placeholder>)
    ensures m.Some? ==> 5 <= m.value.width <= |s| && |m.value.key| >= 1
    ensures m.Some? ==> s[0] == '{' && s[1] == '{' && s[m.value.width - 2] == '}' && s[m.value.width - 1] == '}'
    ensures |s| < 2 || s[0] != '{' || s[1] != '{' ==> m.None?
  {
    if |s| < 2 || s[0] != '{' || s[1] != '{' then None
    else
      var a := 2 + SpanSpaces(s[2..]);
      var k := SpanKey(s[a..]);
      if k == 0 then None else MatchClose(s, a, k)
  }

  /** The key of a match consists of word characters and dots only. */
  lemma MatchedKeyIsKey(s: string)
    requires MatchAt(s).Some?
    ensures IsKey(MatchAt(s).value.key)
  {
    var a := 2 + SpanSpaces(s[2..]);
    var k := SpanKey(s[a..]);
    SpanKeyExact(s[a..], k);
    assert s[a..][..k] == s[a..a + k];
  }

  /** After `{{`, blanks and a key occupying `s[a..a + k]`: optional blanks, then `}}`. */
  function MatchClose(s: string, a: nat, k: nat): (m: Option<Placeholder>)
    requires a + k <= |s|
    ensures m.Some? ==> m.value.key == s[a..a + k] && a + k + 2 <= m.value.width <= |s|
    ensures m.Some? ==> s[m.value.width - 2] == '}' && s[m.value.width - 1] == '}'
  {
    var b := a + k + SpanSpaces(s[a + k..]);
    if b + 2 <= |s| && s[b] == '}' && s[b + 1] == '}' then Some(Placeholder(s[a..a + k], b + 2))
    else None
  }

  /** The global `replace`: matches are found left to right and never overlap. */
  function Substitute(t: string, vars: map<string, Value>): string
    decreases |t|
  {
    if t == [] then []
    else
      match MatchAt(t)
      case Some(p) => Lookup(vars, p.key) + Substitute(t[p.width..], vars)
      case None => [t[0]] + Substitute(t[1..], vars)
  }

  /** One step of the scan where no placeholder starts: the character is copied. */
  lemma SubstituteCopies(t: string, vars: map<string, Value>)
    requires t != [] && MatchAt(t).None?
    ensures Substitute(t, vars) == [t[0]] + Substitute(t[1..], vars)
  {
  }

  /** One step of the scan where a placeholder starts: its value is emitted and the scan skips it. */
  lemma SubstituteReplaces(t: string, vars: map<string, Value>)
    requires MatchAt(t).Some?
    ensures Substitute(t, vars) == Lookup(vars, MatchAt(t).value.key) + Substitute(t[MatchAt(t).value.width..], vars)
  {
  }

  /** No position of `t` starts a well-formed placeholder. */
  ghost predicate NoPlaceholder(t: string)
  {
    forall i :: 0 <= i < |t| ==> MatchAt(t[i..]).None?
  }

  /** `renderTemplate`: a missing or empty template renders to "". */
  function RenderTemplate(template: Option<string>, vars: map<string, Value>): (r: string)
    ensures template.None? || template == Some("") ==> r == ""
    ensures template.Some? && NoPlaceholder(template.value) ==> r == template.value
  {
    if template.None? || template.value == "" then ""
    else
      SubstituteWithoutPlaceholder(template.value, vars);
      Substitute(template.value, vars)
  }

  /** A text in which no placeholder matches is returned unchanged. */
  lemma {:induction false} SubstituteWithoutPlaceholder(t: string, vars: map<string, Value>)
    ensures NoPlaceholder(t) ==> Substitute(t, vars) == t
    decreases |t|
  {
    if t != [] && NoPlaceholder(t) {
      assert MatchAt(t[0..]).None? && t[0..] == t;
      forall i | 0 <= i < |t[1..]| ensures MatchAt(t[1..][i..]).None? {
        assert t[1..][i..] == t[i + 1..];
      }
      SubstituteWithoutPlaceholder(t[1..], vars);
    }
  }

  /** Text holding no `{` is copied to the output as it is, in order, ahead of whatever follows. */
  lemma {:induction false} PlainTextPreserved(plain: string, rest: string, vars: map<string, Value>)
    requires '{' !in plain
    ensures Substitute(plain + rest, vars) == plain + Substitute(rest, vars)
    decreases |plain|
  {
    if plain != [] {
      var t := plain + rest;
      calc {
        Substitute(t, vars);
      == { assert t[0] == plain[0]; SubstituteCopies(t, vars); assert t[1..] == plain[1..] + rest; }
        [plain[0]] + Substitute(plain[1..] + rest, vars);
      == { PlainTextPreserved(plain[1..], rest, vars); }
        [plain[0]] + (plain[1..] + Substitute(rest, vars));
      == { assert plain == [plain[0]] + plain[1..]; }
        plain + Substitute(rest, vars);
      }
    } else {
      assert plain + rest == rest;
    }
  }

  /** The match at the start of `t`, read off from the lengths of its parts. */
  lemma MatchAtParts(t: string, a: nat, k: nat, b: nat)
    requires |t| >= 2 && t[0] == '{' && t[1] == '{'
    requires a == 2 + SpanSpaces(t[2..]) && a <= |t|
    requires k == SpanKey(t[a..]) && k > 0
    requires b == a + k + SpanSpaces(t[a + k..])
    requires b + 2 <= |t| && t[b] == '}' && t[b + 1] == '}'
    ensures MatchAt(t) == Some(Placeholder(t[a..a + k], b + 2))
  {
    MatchCloseParts(t, a, k, b);
    assert !(|t| < 2 || t[0] != '{' || t[1] != '{');
  }

  lemma MatchCloseParts(t: string, a: nat, k: nat, b: nat)
    requires a + k <= |t|
    requires b == a + k + SpanSpaces(t[a + k..])
    requires b + 2 <= |t| && t[b] == '}' && t[b + 1] == '}'
    ensures MatchClose(t, a, k) == Some(Placeholder(t[a..a + k], b + 2))
  {
  }

  /** The text of the placeholder `{{ ws1 key ws2 }}`. */
  function PlaceholderText(ws1: string, key: string, ws2: string): string
  {
    "{{" + ws1 + key + ws2 + "}}"
  }

  /** A well-formed placeholder matches at the start of any text it begins, spanning exactly itself. */
  lemma {:induction false} PlaceholderMatches(ws1: string, key: string, ws2: string, rest: string)
    requires AllSpace(ws1) && AllSpace(ws2) && IsKey(key)
    ensures MatchAt(PlaceholderText(ws1, key, ws2) + rest)
         == Some(Placeholder(key, |PlaceholderText(ws1, key, ws2)|))
  {
    var t := PlaceholderText(ws1, key, ws2) + rest;
    var a := 2 + |ws1|;
    var k := |key|;
    var b := a + k + |ws2|;
    assert |t| >= b + 2 && t[0] == '{' && t[1] == '{' && t[b] == '}' && t[b + 1] == '}';
    assert t[2..a] == ws1 && t[a..a + k] == key && t[a + k..b] == ws2;
    assert SpanSpaces(t[2..]) == |ws1| by {
      var s := t[2..];
      assert s[..|ws1|] == ws1;
      assert s[|ws1|] == key[0];
      SpanSpacesExact(s, |ws1|);
    }
    assert SpanKey(t[a..]) == k by {
      var s := t[a..];
      assert s[..k] == key;
      assert s[k] == t[a + k];
      SpanKeyExact(s, k);
    }
    assert SpanSpaces(t[a + k..]) == |ws2| by {
      var s := t[a + k..];
      assert s[..|ws2|] == ws2;
      assert s[|ws2|] == '}';
      SpanSpacesExact(s, |ws2|);
    }
    MatchAtParts(t, a, k, b);
    assert Placeholder(t[a..a + k], b + 2) == Placeholder(key, |PlaceholderText(ws1, key, ws2)|);
  }

  /**
   * A well-formed placeholder `{{ ws1 key ws2 }}` is replaced by the value of
   * exactly `key`, and scanning resumes after the closing braces: the inserted
   * text is never scanned again (single pass).
   */
  lemma {:induction false} PlaceholderReplaced(ws1: string, key: string, ws2: string, rest: string, vars: map<string, Value>)
    requires AllSpace(ws1) && AllSpace(ws2) && IsKey(key)
    ensures Substitute(PlaceholderText(ws1, key, ws2) + rest, vars) == Lookup(vars, key) + Substitute(rest, vars)
  {
    var p := PlaceholderText(ws1, key, ws2);
    PlaceholderMatches(ws1, key, ws2, rest);
    assert (p + rest)[|p|..] == rest;
  }

  /**
   * A `{{` whose key is followed by a character that is neither blank, key
   * character nor `}` (as in `{{a-b}}`) starts no placeholder; the scan copies it.
   */
  lemma {:induction false} MalformedPlaceholderNotMatched(ws1: string, key: string, c: char, rest: string)
    requires AllSpace(ws1) && IsKey(key)
    requires !IsSpace(c) && !IsKeyChar(c) && c != '}'
    ensures MatchAt("{{" + ws1 + key + [c] + rest).None?
  {
    var t := "{{" + ws1 + key + [c] + rest;
    var a := 2 + |ws1|;
    var k := |key|;
    assert SpanSpaces(t[2..]) == |ws1| by {
      var s := t[2..];
      assert s[..|ws1|] == ws1;
      assert s[|ws1|] == key[0];
      SpanSpacesExact(s, |ws1|);
    }
    assert SpanKey(t[a..]) == k by {
      var s := t[a..];
      assert s[..k] == key;
      assert s[k] == c;
      SpanKeyExact(s, k);
    }
    assert SpanSpaces(t[a + k..]) == 0 by {
      assert t[a + k..][0] == c;
    }
    assert MatchAt(t) == MatchClose(t, a, k);
    assert t[a + k] == c;
  }

  /**
   * Conversely, every match is a well-formed placeholder: the text it spans is
   * `{{`, blanks, exactly the matched key, blanks, `}}`.
   */
  lemma MatchIsPlaceholder(s: string)
    requires MatchAt(s).Some?
    ensures var p := MatchAt(s).value;
      exists ws1, ws2 :: AllSpace(ws1) && AllSpace(ws2) && IsKey(p.key)
        && s[..p.width] == PlaceholderText(ws1, p.key, ws2)
  {
    var a, k, b := MatchBounds(s);
    SpanSpacesExact(s[2..], a - 2);
    assert s[2..][..a - 2] == s[2..a];
    SpanSpacesExact(s[a + k..], b - a - k);
    assert s[a + k..][..b - a - k] == s[a + k..b];
    MatchedKeyIsKey(s);
    SplitFive(s, a, a + k, b);
  }

  /** Where the parts of a match lie: blanks up to `a`, the key up to `a + k`, blanks up to `b`, then `}}`. */
  lemma MatchBounds(s: string) returns (a: nat, k: nat, b: nat)
    requires MatchAt(s).Some?
    ensures 2 <= a && a + k <= b && b + 2 <= |s|
    ensures s[0] == '{' && s[1] == '{' && s[b] == '}' && s[b + 1] == '}'
    ensures SpanSpaces(s[2..]) == a - 2 && SpanSpaces(s[a + k..]) == b - a - k
    ensures MatchAt(s).value == Placeholder(s[a..a + k], b + 2)
  {
    a := 2 + SpanSpaces(s[2..]);
    k := SpanKey(s[a..]);
    b := a + k + SpanSpaces(s[a + k..]);
  }

  /** The first `e + 2` characters of `s`, cut at three inner points into the braces and three middle parts. */
  lemma SplitFive(s: string, a: nat, m: nat, e: nat)
    requires 2 <= a <= m <= e && e + 2 <= |s|
    requires s[0] == '{' && s[1] == '{' && s[e] == '}' && s[e + 1] == '}'
    ensures s[..e + 2] == PlaceholderText(s[2..a], s[a..m], s[m..e])
  {
    assert s[..2] == "{{" && s[e..e + 2] == "}}";
    assert s[..e + 2] == s[..2] + s[2..a] + s[a..m] + s[m..e] + s[e..e + 2];
  }

  /**
   * A malformed placeholder such as `{{a-b}}` is left in the output: the braces,
   * blanks and key before the offending character are copied as they are, and
   * the scan goes on at that character.
   */
  lemma {:induction false} MalformedPlaceholderCopied(ws1: string, key: string, c: char, rest: string,
                                                      vars: map<string, Value>)
    requires AllSpace(ws1) && IsKey(key)
    requires !IsSpace(c) && !IsKeyChar(c) && c != '}'
    ensures Substitute("{{" + ws1 + key + [c] + rest, vars) == "{{" + ws1 + key + Substitute([c] + rest, vars)
  {
    var t := "{{" + ws1 + key + [c] + rest;
    NoBraceBeforeKeyEnd(ws1, key);
    MalformedPlaceholderNotMatched(ws1, key, c, rest);
    assert t == "{{" + (ws1 + key) + ([c] + rest);
    UnmatchedPrefixCopied(ws1 + key, [c] + rest, vars);
    assert "{{" + (ws1 + key) + Substitute([c] + rest, vars) == "{{" + ws1 + key + Substitute([c] + rest, vars);
  }

  /** An unmatched `{{` followed by text without `{`: both are copied, and the scan goes on after them. */
  lemma UnmatchedPrefixCopied(plain: string, tail: string, vars: map<string, Value>)
    requires plain != [] && '{' !in plain
    requires MatchAt("{{" + plain + tail).None?
    ensures Substitute("{{" + plain + tail, vars) == "{{" + plain + Substitute(tail, vars)
  {
    var t := "{{" + plain + tail;
    assert t[2..] == plain + tail && t[2] == plain[0];
    BracesCopied(t, vars);
    PlainTextPreserved(plain, tail, vars);
    assert "{{" + (plain + Substitute(tail, vars)) == "{{" + plain + Substitute(tail, vars);
  }

  /** Blanks and key characters hold no `{`. */
  lemma NoBraceBeforeKeyEnd(ws1: string, key: string)
    requires AllSpace(ws1) && IsKey(key)
    ensures '{' !in ws1 + key && (ws1 + key)[0] != '{'
  {
    var plain := ws1 + key;
    forall i | 0 <= i < |plain| ensures plain[i] != '{' {
      if i < |ws1| { assert IsSpace(ws1[i]); } else { assert IsKeyChar(key[i - |ws1|]); }
    }
  }

  /** An unmatched `{{` not followed by a third `{` is copied, and the scan goes on after it. */
  lemma BracesCopied(t: string, vars: map<string, Value>)
    requires |t| >= 3 && t[0] == '{' && t[1] == '{' && t[2] != '{'
    requires MatchAt(t).None?
    ensures Substitute(t, vars) == "{{" + Substitute(t[2..], vars)
  {
    var u := t[1..];
    assert MatchAt(u).None? by { assert u[1] == t[2]; }
    SubstituteCopies(u, vars);
    SubstituteCopies(t, vars);
    assert u[1..] == t[2..];
  }
}
