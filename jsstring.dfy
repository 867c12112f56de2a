/** The JavaScript string operations the pages rely on: `trim`, `length`
    (counted in UTF-16 code units), `join`, and decimal digits. */
module JsString {

  /** WhiteSpace and LineTerminator code points: what `trim` removes and `\s` matches. */
  predicate IsJsWhitespace(c: char) {
    var n := c as int;
    (0x09 <= n <= 0x0D) || n == 0x20 || n == 0xA0 || n == 0x1680
    || (0x2000 <= n <= 0x200A) || n == 0x2028 || n == 0x2029
    || n == 0x202F || n == 0x205F || n == 0x3000 || n == 0xFEFF
  }

  predicate AllWhitespace(s: string) {
    forall i | 0 <= i < |s| :: IsJsWhitespace(s[i])
  }

  /** The first index at or after `i` that does not hold whitespace. */
  function SkipLeading(s: string, i: nat): (k: nat)
    requires i <= |s|
    ensures i <= k <= |s|
    ensures forall j | i <= j < k :: IsJsWhitespace(s[j])
    ensures k < |s| ==> !IsJsWhitespace(s[k])
    decreases |s| - i
  {
    if i < |s| && IsJsWhitespace(s[i]) then SkipLeading(s, i + 1) else i
  }

  /** The end of `s[lo..e]` once its trailing whitespace is dropped. */
  function SkipTrailing(s: string, lo: nat, e: nat): (k: nat)
    requires lo <= e <= |s|
    ensures lo <= k <= e
    ensures forall j | k <= j < e :: IsJsWhitespace(s[j])
    ensures k > lo ==> !IsJsWhitespace(s[k - 1])
  {
    if e > lo && IsJsWhitespace(s[e - 1]) then SkipTrailing(s, lo, e - 1) else e
  }

  /** `String.prototype.trim`: `s` less a whitespace prefix and a whitespace
      suffix, neither end of what is left being whitespace; the result is
      empty exactly when `s` is all whitespace. */
  function Trim(s: string): (r: string)
    ensures r == [] <==> AllWhitespace(s)
    ensures r != [] ==> !IsJsWhitespace(r[0]) && !IsJsWhitespace(r[|r| - 1])
    ensures exists a, b | 0 <= a <= b <= |s| :: r == s[a..b] && AllWhitespace(s[..a]) && AllWhitespace(s[b..])
  {
    var a := SkipLeading(s, 0);
    var b := SkipTrailing(s, a, |s|);
    assert AllWhitespace(s[..a]) && AllWhitespace(s[b..]);
    assert a == b ==> AllWhitespace(s) by {
      if a == b {
        forall j | 0 <= j < |s| ensures IsJsWhitespace(s[j]) {
        }
      }
    }
    assert a < b ==> !AllWhitespace(s) by {
      if a < b { assert !IsJsWhitespace(s[a]); }
    }
    s[a..b]
  }

  /** Trimming twice is trimming once. */
  lemma TrimIdempotent(s: string)
    ensures Trim(Trim(s)) == Trim(s)
  {
    var r := Trim(s);
    if r != [] {
      assert SkipLeading(r, 0) == 0;
      assert SkipTrailing(r, 0, |r|) == |r|;
      assert r[0..|r|] == r;
    }
  }

  /** A string with no whitespace at either end is its own trim. */
  lemma TrimUnpadded(s: string)
    ensures s != [] && !IsJsWhitespace(s[0]) && !IsJsWhitespace(s[|s| - 1]) ==> Trim(s) == s
  {
    if s != [] && !IsJsWhitespace(s[0]) && !IsJsWhitespace(s[|s| - 1]) {
      assert SkipLeading(s, 0) == 0;
      assert SkipTrailing(s, 0, |s|) == |s|;
      assert s[0..|s|] == s;
    }
  }

  /** `length`: a code point above U+FFFF is a surrogate pair, two code units. */
  function Utf16Length(s: string): (n: nat)
    ensures |s| <= n <= 2 * |s|
  {
    if s == [] then 0
    else (if s[0] as int >= 0x1_0000 then 2 else 1) + Utf16Length(s[1..])
  }

  lemma {:induction false} Utf16LengthBmp(s: string)
    requires forall i | 0 <= i < |s| :: s[i] as int < 0x1_0000
    ensures Utf16Length(s) == |s|
  {
    if s != [] {
      Utf16LengthBmp(s[1..]);
    }
  }

  /** `Array.prototype.join(sep)` on strings. */
  function Join(parts: seq<string>, sep: string): string
  {
    if |parts| == 0 then ""
    else if |parts| == 1 then parts[0]
    else parts[0] + sep + Join(parts[1..], sep)
  }

  lemma JoinNonEmpty(parts: seq<string>, sep: string)
    requires |parts| > 0 && parts[0] != ""
    ensures Join(parts, sep) != ""
  {
    if |parts| > 1 {
      assert Join(parts, sep)[0] == parts[0][0];
    }
  }

  /** Joining one-character cells with a one-character separator puts cell
      `i` at position `2i` and the separator at every odd position. */
  lemma {:induction false} JoinCells(cells: seq<string>, sep: string)
    requires |cells| > 0 && |sep| == 1
    requires forall i | 0 <= i < |cells| :: |cells[i]| == 1
    ensures |Join(cells, sep)| == 2 * |cells| - 1
    ensures forall i | 0 <= i < |cells| :: Join(cells, sep)[2 * i] == cells[i][0]
    ensures forall i | 0 <= i < |cells| - 1 :: Join(cells, sep)[2 * i + 1] == sep[0]
  {
    if |cells| > 1 {
      var rest := cells[1..];
      JoinCells(rest, sep);
      var j := Join(cells, sep);
      assert j == cells[0] + sep + Join(rest, sep);
      forall i | 0 <= i < |cells| ensures j[2 * i] == cells[i][0] {
        if i > 0 {
          assert j[2 * i] == Join(rest, sep)[2 * (i - 1)];
          assert rest[i - 1] == cells[i];
        }
      }
      forall i | 0 <= i < |cells| - 1 ensures j[2 * i + 1] == sep[0] {
        if i > 0 {
          assert j[2 * i + 1] == Join(rest, sep)[2 * (i - 1) + 1];
        }
      }
    }
  }

  predicate IsDigit(c: char) {
    '0' <= c <= '9'
  }

  predicate AllDigits(s: string) {
    forall i | 0 <= i < |s| :: IsDigit(s[i])
  }

  /** The value of a string of decimal digits, most significant first. */
  function DigitsValue(s: string): (n: nat)
    requires AllDigits(s)
  {
    if s == [] then 0
    else DigitsValue(s[..|s| - 1]) * 10 + (s[|s| - 1] as int - '0' as int)
  }
}
