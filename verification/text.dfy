/** JavaScript string primitives the controller's guards rely on: `String.prototype.trim`
    and `.length`, which counts UTF-16 code units rather than characters. Dafny's `char`
    is a Unicode scalar value, so both are written out here. */
module Text {

  /** The code points ECMAScript's `trim` removes: the WhiteSpace production (tab,
      vertical tab, form feed, space, no-break space, byte order mark and every Zs space
      separator) and the LineTerminator production (line feed, carriage return, U+2028,
      U+2029). All of them lie in the Basic Multilingual Plane, so each is one UTF-16
      code unit. */
  predicate IsJsWhitespace(c: char)
    ensures IsJsWhitespace(c) ==> c as int < 0x10000
  {
    var n := c as int;
    (0x09 <= n <= 0x0D) || n == 0x20 || n == 0xA0 || n == 0x1680
    || (0x2000 <= n <= 0x200A) || n == 0x2028 || n == 0x2029 || n == 0x202F
    || n == 0x205F || n == 0x3000 || n == 0xFEFF
  }

  /** The boundary cases of the set: tab, space, no-break space, the byte order mark and
      the line separator are removed; next line (U+0085), the Mongolian vowel separator
      (U+180E) and the zero-width space (U+200B) are not, since none of them is in the
      WhiteSpace or LineTerminator production. */
  lemma {:induction false} WhitespaceBoundaries()
    ensures IsJsWhitespace('\t') && IsJsWhitespace(' ') && IsJsWhitespace('\U{00A0}')
    ensures IsJsWhitespace('\U{FEFF}') && IsJsWhitespace('\U{2028}')
    ensures !IsJsWhitespace('\U{0085}') && !IsJsWhitespace('\U{180E}') && !IsJsWhitespace('\U{200B}')
  {
  }

  predicate AllWhitespace(s: string) {
    forall i :: 0 <= i < |s| ==> IsJsWhitespace(s[i])
  }

  /** The first position at or after `i` that does not hold whitespace, or `|s|`. */
  function SkipLeading(s: string, i: nat): (k: nat)
    requires i <= |s|
    ensures i <= k <= |s|
    ensures forall j :: i <= j < k ==> IsJsWhitespace(s[j])
    ensures k < |s| ==> !IsJsWhitespace(s[k])
    decreases |s| - i
  {
    if i < |s| && IsJsWhitespace(s[i]) then SkipLeading(s, i + 1) else i
  }

  /** Walking back from `e`, but not below `lo`: the position just after the last
      character before `e` that is not whitespace, or `lo`. */
  function SkipTrailing(s: string, lo: nat, e: nat): (k: nat)
    requires lo <= e <= |s|
    ensures lo <= k <= e
    ensures forall j :: k <= j < e ==> IsJsWhitespace(s[j])
    ensures lo < k ==> !IsJsWhitespace(s[k - 1])
    decreases e - lo
  {
    if lo < e && IsJsWhitespace(s[e - 1]) then SkipTrailing(s, lo, e - 1) else e
  }

  /** `s.trim()`: the slice of `s` left once whitespace is removed from both ends. The
      result does not start or end with whitespace, and it is empty exactly when `s` is
      all whitespace. */
  function Trim(s: string): (r: string)
    ensures |r| <= |s|
    ensures r != [] ==> !IsJsWhitespace(r[0]) && !IsJsWhitespace(r[|r| - 1])
    ensures r == [] <==> AllWhitespace(s)
  {
    var a := SkipLeading(s, 0);
    var b := SkipTrailing(s, a, |s|);
    assert AllWhitespace(s) ==> a == |s|;
    s[a..b]
  }

  /** Trimming keeps exactly the middle of `s`: whenever `s[a..b]` has only whitespace
      on either side of it and no whitespace at its own ends, it is the trim of `s`. */
  lemma {:induction false} TrimIsSlice(s: string, a: nat, b: nat)
    requires a <= b <= |s|
    requires forall j :: 0 <= j < a ==> IsJsWhitespace(s[j])
    requires forall j :: b <= j < |s| ==> IsJsWhitespace(s[j])
    requires a < b ==> !IsJsWhitespace(s[a]) && !IsJsWhitespace(s[b - 1])
    ensures Trim(s) == s[a..b]
  {
    var k := SkipLeading(s, 0);
    if a < b {
      assert k == a;
      assert SkipTrailing(s, k, |s|) == b;
    } else {
      assert AllWhitespace(s) by {
        forall j | 0 <= j < |s| ensures IsJsWhitespace(s[j]) {
          if j >= a {
            assert j >= b;
          }
        }
      }
    }
  }

  /** `s.length` in JavaScript: characters outside the Basic Multilingual Plane take two
      UTF-16 code units, every other character one. */
  function Utf16Length(s: string): (n: nat)
    ensures |s| <= n <= 2 * |s|
    ensures n == 0 <==> s == []
  {
    if s == [] then 0
    else (if s[0] as int >= 0x10000 then 2 else 1) + Utf16Length(s[1..])
  }

  /** A string made only of characters from the Basic Multilingual Plane has as many
      UTF-16 code units as characters. */
  lemma {:induction false} Utf16LengthOfBmp(s: string)
    requires forall i :: 0 <= i < |s| ==> s[i] as int < 0x10000
    ensures Utf16Length(s) == |s|
  {
    if s != [] {
      Utf16LengthOfBmp(s[1..]);
    }
  }

  /** A string with no whitespace at either end is its own trim. */
  lemma {:induction false} TrimOfUnpadded(s: string)
    requires s != [] && !IsJsWhitespace(s[0]) && !IsJsWhitespace(s[|s| - 1])
    ensures Trim(s) == s
  {
    TrimIsSlice(s, 0, |s|);
    assert s[0..|s|] == s;
  }

  /** Trimming twice is trimming once. */
  lemma {:induction false} TrimIdempotent(s: string)
    ensures Trim(Trim(s)) == Trim(s)
  {
    var r := Trim(s);
    if r != [] {
      TrimOfUnpadded(r);
    }
  }
}
