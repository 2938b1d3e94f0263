/** The JavaScript string built-ins the site relies on, restricted to what
    the model needs: `includes`, an ASCII `toLowerCase`, `split(" ")`,
    `Number.prototype.toString()` on non-negative integers, and `parseInt`
    with `None` standing for `NaN`. */
module Strings {
  import opened Wrappers

  // ---------------------------------------------------------------------
  // includes

  /** `s.includes(sub)`: `sub` occurs in `s` at some offset. */
  predicate Contains(s: string, sub: string)
  {
    exists i :: 0 <= i <= |s| && sub <= s[i..]
  }

  /** Every string includes the empty string. */
  lemma ContainsEmpty(s: string)
    ensures Contains(s, "")
  {
    assert "" <= s[0..];
  }

  /** Inclusion is transitive: a string that includes `mid` includes whatever `mid` includes. */
  lemma ContainsTransitive(s: string, mid: string, sub: string)
    requires Contains(s, mid) && Contains(mid, sub)
    ensures Contains(s, sub)
  {
    var i :| 0 <= i <= |s| && mid <= s[i..];
    var j :| 0 <= j <= |mid| && sub <= mid[j..];
    assert s[i..][j..] == s[i + j..];
    assert sub <= s[i + j..];
  }

  // ---------------------------------------------------------------------
  // toLowerCase (ASCII letters only)

  predicate IsUpper(c: char)
  {
    'A' <= c <= 'Z'
  }

  /** An upper-case ASCII letter becomes the letter 32 code points later, its
      lower-case partner; every other character is kept. */
  function LowerChar(c: char): (r: char)
    ensures IsUpper(c) ==> 'a' <= r <= 'z' && r as int == c as int + 32
    ensures !IsUpper(c) ==> r == c
    ensures !IsUpper(r)
  {
    if IsUpper(c) then (c as int - 'A' as int + 'a' as int) as char else c
  }

  /** `s.toLowerCase()` for ASCII letters; every other character is kept. */
  function ToLower(s: string): (r: string)
    ensures |r| == |s|
    ensures forall i :: 0 <= i < |s| && IsUpper(s[i]) ==> r[i] as int == s[i] as int + 32
    ensures forall i :: 0 <= i < |s| && !IsUpper(s[i]) ==> r[i] == s[i]
    ensures forall i :: 0 <= i < |r| ==> !IsUpper(r[i])
  {
    seq(|s|, i requires 0 <= i < |s| => LowerChar(s[i]))
  }

  /** Lower-casing twice is lower-casing once: the result has no upper-case
      letter left to change. */
  lemma ToLowerIdempotent(s: string)
    ensures ToLower(ToLower(s)) == ToLower(s)
  {
    var t := ToLower(s);
    assert forall i :: 0 <= i < |t| ==> ToLower(t)[i] == t[i];
  }

  // ---------------------------------------------------------------------
  // split(" ") and join

  /** `s.split(sep)` for a one-character separator: the pieces between
      separators, empty pieces included; the empty string gives `[""]`. */
  function Split(s: string, sep: char): (r: seq<string>)
    ensures |r| >= 1
  {
    if |s| == 0 then [""]
    else
      var rest := Split(s[1..], sep);
      if s[0] == sep then [""] + rest
      else [[s[0]] + rest[0]] + rest[1..]
  }

  /** `words.join(sep)`. */
  function Join(words: seq<string>, sep: char): string
  {
    if |words| == 0 then ""
    else if |words| == 1 then words[0]
    else words[0] + [sep] + Join(words[1..], sep)
  }

  predicate NoSep(w: string, sep: char)
  {
    forall i :: 0 <= i < |w| ==> w[i] != sep
  }

  /** Splitting a joined list of separator-free words gives the words back. */
  lemma {:induction false} SplitJoin(words: seq<string>, sep: char)
    requires |words| >= 1
    requires forall k :: 0 <= k < |words| ==> NoSep(words[k], sep)
    ensures Split(Join(words, sep), sep) == words
    decreases |words|, |words[0]|
  {
    var w := words[0];
    if |w| == 0 {
      if |words| == 1 {
      } else {
        var tail := Join(words[1..], sep);
        assert Join(words, sep) == [sep] + tail;
        assert ([sep] + tail)[1..] == tail;
        SplitJoin(words[1..], sep);
        assert words == [""] + words[1..];
      }
    } else {
      var shorter := [w[1..]] + words[1..];
      assert shorter[1..] == words[1..];
      assert forall k :: 0 <= k < |shorter| ==> NoSep(shorter[k], sep) by {
        forall k | 0 <= k < |shorter|
          ensures NoSep(shorter[k], sep)
        {
          if k > 0 {
            assert shorter[k] == words[k];
          }
        }
      }
      SplitJoin(shorter, sep);
      var s := Join(words, sep);
      assert s == [w[0]] + Join(shorter, sep) by {
        if |words| == 1 {
          assert w == [w[0]] + w[1..];
        } else {
          assert Join(shorter, sep) == w[1..] + [sep] + Join(words[1..], sep);
          assert w == [w[0]] + w[1..];
        }
      }
      assert s[1..] == Join(shorter, sep);
      assert s[0] == w[0] && w[0] != sep;
      var rest := Split(s[1..], sep);
      assert rest == shorter;
      assert Split(s, sep) == [[w[0]] + w[1..]] + words[1..];
      assert [w[0]] + w[1..] == w;
      assert words == [w] + words[1..];
    }
  }

  // ---------------------------------------------------------------------
  // Number.prototype.toString() and parseInt

  predicate IsDigit(c: char)
  {
    '0' <= c <= '9'
  }

  /** The value of `c` as a digit in base `radix` (10 or 16), or -1 if it is not one. */
  function DigitValue(c: char, radix: int): (d: int)
    ensures -1 <= d < (if radix == 16 then 16 else 10)
    ensures IsDigit(c) ==> d == c as int - '0' as int
  {
    if IsDigit(c) then c as int - '0' as int
    else if radix == 16 && 'a' <= c <= 'f' then c as int - 'a' as int + 10
    else if radix == 16 && 'A' <= c <= 'F' then c as int - 'A' as int + 10
    else -1
  }

  /** The value of a string of digits in base `radix`, most significant first. */
  function DigitsValue(ds: string, radix: int): int
    requires radix == 10 || radix == 16
  {
    if |ds| == 0 then 0
    else DigitsValue(ds[..|ds| - 1], radix) * radix + DigitValue(ds[|ds| - 1], radix)
  }

  /** The number of leading characters of `s` that are digits in base `radix`. */
  function DigitRun(s: string, radix: int): (n: nat)
    ensures n <= |s|
    ensures forall i :: 0 <= i < n ==> DigitValue(s[i], radix) >= 0
    ensures n < |s| ==> DigitValue(s[n], radix) < 0
  {
    if |s| == 0 || DigitValue(s[0], radix) < 0 then 0
    else 1 + DigitRun(s[1..], radix)
  }

  /** The white-space characters `parseInt` skips: the ECMAScript
      WhiteSpace (tab, vertical tab, form feed, the byte-order mark and
      every space separator of category Zs) and LineTerminator (line feed,
      carriage return, U+2028 and U+2029) sets. */
  predicate IsJsSpace(c: char)
  {
    || c == '\t' || c == '\U{000B}' || c == '\U{000C}' || c == '\U{FEFF}'
    || c == ' ' || c == '\U{00A0}' || c == '\U{1680}' || '\U{2000}' <= c <= '\U{200A}'
    || c == '\U{202F}' || c == '\U{205F}' || c == '\U{3000}'
    || c == '\n' || c == '\r' || c == '\U{2028}' || c == '\U{2029}'
  }

  function SkipSpace(s: string): (r: string)
    ensures |r| <= |s| && r == s[|s| - |r|..]
    ensures |r| > 0 ==> !IsJsSpace(r[0])
  {
    if |s| > 0 && IsJsSpace(s[0]) then SkipSpace(s[1..]) else s
  }

  /** `parseInt(s)` with no radix: leading white space and one sign are
      skipped, a `0x`/`0X` prefix selects base 16, and the longest run of
      digits is read; `None` is `NaN` (no digit at all). */
  function ParseInt(s: string): Option<int>
  {
    var t := SkipSpace(s);
    if |t| > 0 && t[0] == '-' then
      match ParseMagnitude(t[1..])
      case Some(m) => Some(-m)
      case None => None
    else if |t| > 0 && t[0] == '+' then ParseMagnitude(t[1..])
    else ParseMagnitude(t)
  }

  predicate HasHexPrefix(u: string)
  {
    |u| >= 2 && u[0] == '0' && (u[1] == 'x' || u[1] == 'X')
  }

  /** The unsigned part of `parseInt`: base 16 after a `0x` prefix, base 10 otherwise. */
  function ParseMagnitude(u: string): Option<int>
  {
    if HasHexPrefix(u) then ParseDigits(u[2..], 16) else ParseDigits(u, 10)
  }

  /** The longest leading run of digits in base `radix`, or `None` if there is none. */
  function ParseDigits(body: string, radix: int): Option<int>
    requires radix == 10 || radix == 16
  {
    var n := DigitRun(body, radix);
    if n == 0 then None else Some(DigitsValue(body[..n], radix))
  }

  function DigitChar(d: int): (c: char)
    requires 0 <= d < 10
    ensures IsDigit(c) && c as int - '0' as int == d
  {
    (d + '0' as int) as char
  }

  /** `n.toString()` for a non-negative integer: its decimal digits, no leading zero. */
  function ToDecimal(n: nat): (s: string)
    ensures |s| >= 1
    ensures forall i :: 0 <= i < |s| ==> IsDigit(s[i])
    ensures |s| > 1 ==> s[0] != '0'
  {
    if n < 10 then [DigitChar(n)] else ToDecimal(n / 10) + [DigitChar(n % 10)]
  }

  /** The decimal digits of `n` are worth `n`. */
  lemma {:induction false} ToDecimalValue(n: nat)
    ensures DigitsValue(ToDecimal(n), 10) == n
  {
    var s := ToDecimal(n);
    if n >= 10 {
      ToDecimalValue(n / 10);
      assert s[..|s| - 1] == ToDecimal(n / 10);
    } else {
      assert s[..0] == [];
    }
  }

  /** A run of decimal digits is read to its end. */
  lemma {:induction false} DigitRunAllDigits(s: string)
    requires forall i :: 0 <= i < |s| ==> IsDigit(s[i])
    ensures DigitRun(s, 10) == |s|
  {
    if |s| > 0 {
      DigitRunAllDigits(s[1..]);
    }
  }

  /** A string starting with a digit has no white space to skip. */
  lemma SkipSpaceAtDigit(s: string)
    requires |s| >= 1 && IsDigit(s[0])
    ensures SkipSpace(s) == s
  {
  }

  /** A non-empty all-digit string parses to its decimal value. */
  lemma ParseIntDigits(s: string)
    requires |s| >= 1
    requires forall i :: 0 <= i < |s| ==> IsDigit(s[i])
    ensures ParseInt(s) == Some(DigitsValue(s, 10))
  {
    SkipSpaceAtDigit(s);
    assert IsDigit(s[0]);
    assert ParseInt(s) == ParseMagnitude(s);
    assert !HasHexPrefix(s) by {
      if |s| >= 2 {
        assert IsDigit(s[1]);
      }
    }
    DigitRunAllDigits(s);
    assert s[..|s|] == s;
  }

  /** `parseInt(String(n)) == n` for every non-negative integer `n`. */
  lemma ParseIntToDecimal(n: nat)
    ensures ParseInt(ToDecimal(n)) == Some(n)
  {
    ParseIntDigits(ToDecimal(n));
    ToDecimalValue(n);
  }

  /** A string whose first character is neither white space, a sign nor a digit is `NaN`. */
  lemma ParseIntNoLeadingDigit(s: string)
    requires |s| > 0 && !IsDigit(s[0]) && !IsJsSpace(s[0]) && s[0] != '-' && s[0] != '+'
    ensures ParseInt(s) == None
  {
    assert SkipSpace(s) == s;
  }

  /** A leading white-space character does not change the result. */
  lemma ParseIntSkipsLeadingSpace(c: char, s: string)
    requires IsJsSpace(c)
    ensures ParseInt([c] + s) == ParseInt(s)
  {
    assert ([c] + s)[1..] == s;
  }

  /** Leading white space beyond ASCII is skipped too: an en quad
      (U+2000) before a digit does not make the id `NaN`. */
  lemma ParseIntSkipsEnQuad()
    ensures ParseInt("\U{2000}5") == Some(5)
  {
    ParseIntSkipsLeadingSpace('\U{2000}', "5");
    assert "\U{2000}5" == ['\U{2000}'] + "5";
    ParseIntDigits("5");
    assert "5"[..0] == [];
  }

  /** The empty string is `NaN`. */
  lemma ParseIntEmpty()
    ensures ParseInt("") == None
  {
  }
}
