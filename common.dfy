/**
 * Small pieces of the JavaScript runtime that the front end leans on:
 * optional values, truthiness of strings, number-to-text conversion in
 * template literals, `parseInt`, `String.prototype.includes` and
 * `Array.prototype.join`.
 */
module Common {

  datatype Option<T> = None | Some(value: T)

  /** JavaScript truthiness of a possibly absent string: absent and "" are falsy. */
  predicate Truthy(s: Option<string>)
  {
    s.Some? && s.value != ""
  }

  // ---------------------------------------------------------------------------
  // Digits
  // ---------------------------------------------------------------------------

  /** The value of `c` as a digit in base 36, or 36 when `c` is no digit at all. */
  function CharDigit(c: char): (d: nat)
    ensures d <= 36
  {
    if '0' <= c <= '9' then c as int - '0' as int
    else if 'a' <= c <= 'z' then c as int - 'a' as int + 10
    else if 'A' <= c <= 'Z' then c as int - 'A' as int + 10
    else 36
  }

  predicate IsDigitIn(c: char, radix: nat)
  {
    CharDigit(c) < radix
  }

  predicate AllDigitsIn(s: string, radix: nat)
  {
    forall i :: 0 <= i < |s| ==> IsDigitIn(s[i], radix)
  }

  function DigitChar(d: nat): (c: char)
    requires d < 10
    ensures CharDigit(c) == d
  {
    ('0' as int + d) as char
  }

  /** The decimal text of `n`, as a template literal `${n}` writes it. */
  function NatText(n: nat): (r: string)
    ensures r != [] && AllDigitsIn(r, 10)
    ensures r[0] == '0' ==> n == 0
    decreases n
  {
    if n < 10 then [DigitChar(n)] else NatText(n / 10) + [DigitChar(n % 10)]
  }

  /**
   * `${i}` for an integer `i` in positional decimal notation, as JavaScript
   * writes a safe integer; the exponent form it uses from 10^21 up is not
   * modelled.
   */
  function IntText(i: int): (r: string)
    ensures r != []
    ensures i < 0 <==> r[0] == '-'
  {
    if i < 0 then "-" + NatText(-i) else NatText(i)
  }

  /** The value of a run of digits, most significant first. */
  function RunValue(ds: string, radix: nat): nat
    requires AllDigitsIn(ds, radix)
  {
    if ds == [] then 0 else RunValue(ds[..|ds| - 1], radix) * radix + CharDigit(ds[|ds| - 1])
  }

  /** The longest prefix of `s` made of digits of the given radix. */
  function DigitRun(s: string, radix: nat): (r: string)
    ensures r <= s && AllDigitsIn(r, radix)
    ensures |r| < |s| ==> !IsDigitIn(s[|r|], radix)
  {
    if s == [] || !IsDigitIn(s[0], radix) then [] else [s[0]] + DigitRun(s[1..], radix)
  }

  // ---------------------------------------------------------------------------
  // parseInt (ECMAScript, radix argument omitted)
  // ---------------------------------------------------------------------------

  /** White space and line terminators that `parseInt` skips. */
  predicate IsSpace(c: char)
  {
    c in {' ', '\t', '\n', '\r', '\U{000B}', '\U{000C}', '\U{00A0}', '\U{FEFF}', '\U{2028}', '\U{2029}',
          '\U{1680}', '\U{2000}', '\U{2001}', '\U{2002}', '\U{2003}', '\U{2004}', '\U{2005}', '\U{2006}',
          '\U{2007}', '\U{2008}', '\U{2009}', '\U{200A}', '\U{202F}', '\U{205F}', '\U{3000}'}
  }

  function SkipSpace(s: string): (r: string)
    ensures |r| <= |s| && r == s[|s| - |r|..]
    ensures r != [] ==> !IsSpace(r[0])
  {
    if s != [] && IsSpace(s[0]) then SkipSpace(s[1..]) else s
  }

  /**
   * `parseInt(s)`: leading white space is skipped, one sign is taken, a
   * "0x"/"0X" prefix switches to base 16, and the longest run of digits is
   * read. `None` stands for NaN, the result when that run is empty.
   */
  function ParseInt(s: string): (r: Option<int>)
    ensures (forall k :: 0 <= k < |s| ==> !IsDigitIn(s[k], 10)) ==> r.None?
  {
    ParseSigned(SkipSpace(s))
  }

  /** One optional sign, then the magnitude. */
  function ParseSigned(t: string): Option<int>
  {
    var u := if t != [] && (t[0] == '-' || t[0] == '+') then t[1..] else t;
    match ParseMagnitude(u)
    case None => None
    case Some(m) => Some(if t != [] && t[0] == '-' then -m else m)
  }

  /** A "0x"/"0X" prefix selects base 16; otherwise base 10. */
  function ParseMagnitude(u: string): Option<int>
  {
    var hex := |u| >= 2 && u[0] == '0' && (u[1] == 'x' || u[1] == 'X');
    var radix := if hex then 16 else 10;
    var digits := DigitRun(if hex then u[2..] else u, radix);
    if digits == [] then None else Some(RunValue(digits, radix))
  }

  lemma {:induction false} DigitRunOfDigits(s: string, radix: nat)
    requires AllDigitsIn(s, radix)
    ensures DigitRun(s, radix) == s
    decreases |s|
  {
    if s != [] {
      DigitRunOfDigits(s[1..], radix);
      assert [s[0]] + s[1..] == s;
    }
  }

  lemma {:induction false} NatTextValue(n: nat)
    ensures RunValue(NatText(n), 10) == n
    decreases n
  {
    if n >= 10 {
      var prefix := NatText(n / 10);
      var text := prefix + [DigitChar(n % 10)];
      assert text[..|text| - 1] == prefix;
      NatTextValue(n / 10);
    }
  }

  lemma {:induction false} ParseMagnitudeText(n: nat)
    ensures ParseMagnitude(NatText(n)) == Some(n)
  {
    var u := NatText(n);
    assert |u| >= 2 ==> u[0] != '0';
    DigitRunOfDigits(u, 10);
    NatTextValue(n);
  }

  lemma DigitIsNoSpace(c: char)
    requires IsDigitIn(c, 10)
    ensures !IsSpace(c)
  {
    assert '0' <= c <= '9';
  }

  /**
   * `parseInt` reads back what a template literal wrote: a numeric id put
   * in a URL is recovered exactly. Integers are unbounded here; in
   * JavaScript this holds for safe integers (below 2^53 in magnitude).
   */
  lemma {:induction false} ParseIntText(i: int)
    ensures ParseInt(IntText(i)) == Some(i)
  {
    var text := IntText(i);
    if i >= 0 {
      DigitIsNoSpace(text[0]);
    }
    assert SkipSpace(text) == text;
    if i < 0 {
      assert text[1..] == NatText(-i);
      ParseMagnitudeText(-i);
    } else {
      ParseMagnitudeText(i);
    }
  }

  // ---------------------------------------------------------------------------
  // Strings
  // ---------------------------------------------------------------------------

  /** `s.includes(t)`. */
  predicate Contains(s: string, t: string)
  {
    t <= s || (s != [] && Contains(s[1..], t))
  }

  /** `t` occurs in `s` starting at index `i`. */
  predicate OccursAt(s: string, t: string, i: int)
  {
    0 <= i && i + |t| <= |s| && s[i..i + |t|] == t
  }

  /** `includes` holds exactly when `t` occurs in `s` at some index. */
  lemma {:induction false} ContainsIffOccurs(s: string, t: string)
    ensures Contains(s, t) <==> exists i :: OccursAt(s, t, i)
    decreases |s|
  {
    if t <= s {
      assert OccursAt(s, t, 0);
    } else if s == [] {
    } else {
      ContainsIffOccurs(s[1..], t);
      if Contains(s[1..], t) {
        var j :| OccursAt(s[1..], t, j);
        assert s[j + 1..j + 1 + |t|] == s[1..][j..j + |t|];
        assert OccursAt(s, t, j + 1);
      }
      if i :| OccursAt(s, t, i) {
        // i == 0 would mean `t <= s`, which this branch excludes.
        if i != 0 {
          assert s[1..][i - 1..i - 1 + |t|] == s[i..i + |t|];
          assert OccursAt(s[1..], t, i - 1);
        }
      }
    }
  }

  lemma {:induction false} ContainsInfix(a: string, t: string, b: string)
    ensures Contains(a + t + b, t)
    decreases |a|
  {
    if a == [] {
      assert a + t + b == t + b;
    } else {
      assert (a + t + b)[1..] == a[1..] + t + b;
      ContainsInfix(a[1..], t, b);
    }
  }

  function TotalLength(words: seq<string>): nat
  {
    if words == [] then 0 else |words[0]| + TotalLength(words[1..])
  }

  /** `words.join(sep)`: exactly one separator between consecutive words. */
  function Join(words: seq<string>, sep: string): (r: string)
    ensures |r| == TotalLength(words) + (if words == [] then 0 else (|words| - 1) * |sep|)
    ensures words != [] ==> words[0] <= r
    ensures words == [] ==> r == ""
    ensures |words| == 1 ==> r == words[0]
  {
    if words == [] then ""
    else if |words| == 1 then words[0]
    else
      var rest := Join(words[1..], sep);
      assert (|words| - 1) * |sep| == |sep| + (|words| - 2) * |sep|;
      words[0] + sep + rest
  }

  /**
   * Joining two non-empty lists is joining each and putting one separator
   * between them; with the one-word and empty cases of `Join`'s contract this
   * fixes every word and every separator of the result.
   */
  lemma {:induction false} JoinAppend(a: seq<string>, b: seq<string>, sep: string)
    requires a != [] && b != []
    ensures Join(a + b, sep) == Join(a, sep) + sep + Join(b, sep)
    decreases |a|
  {
    if |a| == 1 {
      assert (a + b)[1..] == b;
    } else {
      JoinAppend(a[1..], b, sep);
      assert (a + b)[1..] == a[1..] + b;
    }
  }
}
