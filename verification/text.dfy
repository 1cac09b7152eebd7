/** String operations the front end borrows from JavaScript: `includes`,
    `trim`, `slice`, `toString` on a non-negative integer and `padStart`.
    Strings are `seq<char>`, and a Dafny `char` is a Unicode scalar value,
    so `|s|` counts code points. JavaScript's `length` counts UTF-16 code
    units instead; `Utf16Length` gives that count, and the two agree on text
    inside the Basic Multilingual Plane (digits, principal text, messages).
 */
module Text {

  /** `t` occurs in `s` starting at index `i`. */
  predicate OccursAt(s: string, t: string, i: int) {
    0 <= i <= |s| - |t| && s[i..i + |t|] == t
  }

  /** `s.includes(t)`: the empty string occurs everywhere, and an
      occurrence needs room in `s` and every one of `t`'s characters. */
  function Contains(s: string, t: string): (b: bool)
    ensures t == [] ==> b
    ensures b ==> |t| <= |s| && forall k | 0 <= k < |t| :: t[k] in s
  {
    assert t == [] ==> OccursAt(s, t, 0);
    assert (exists i | 0 <= i <= |s| - |t| :: OccursAt(s, t, i)) ==> forall k | 0 <= k < |t| :: t[k] in s by {
      if exists i | 0 <= i <= |s| - |t| :: OccursAt(s, t, i) {
        var i :| 0 <= i <= |s| - |t| && OccursAt(s, t, i);
        forall k | 0 <= k < |t| ensures t[k] in s {
          assert t[k] == s[i..i + |t|][k] == s[i + k];
        }
      }
    }
    exists i | 0 <= i <= |s| - |t| :: OccursAt(s, t, i)
  }

  /** Every string includes itself, and a string includes its own prefix. */
  lemma ContainsPrefix(s: string, t: string)
    requires |t| <= |s| && s[..|t|] == t
    ensures Contains(s, t)
  {
    assert OccursAt(s, t, 0);
  }

  /** A string cannot include `t` if it lacks one of `t`'s characters.
      This is how the model shows that a fixed message does not contain a
      keyword. */
  lemma ExcludesChar(s: string, t: string, k: nat)
    requires k < |t| && t[k] !in s
    ensures !Contains(s, t)
  {
    forall i | 0 <= i <= |s| - |t|
      ensures !OccursAt(s, t, i)
    {
      assert s[i + k] == s[i..i + |t|][k];
    }
  }

  /** Sharper: an occurrence of `t` would put `t[k]` somewhere in the
      window `s[k..|s| - |t| + k + 1]`, so it is enough that the window lacks
      it. */
  lemma ExcludesInWindow(s: string, t: string, k: nat)
    requires k < |t| <= |s|
    requires t[k] !in s[k..|s| - |t| + k + 1]
    ensures !Contains(s, t)
  {
    forall i | 0 <= i <= |s| - |t|
      ensures !OccursAt(s, t, i)
    {
      assert s[k..|s| - |t| + k + 1][i] == s[i + k] == s[i..i + |t|][k];
    }
  }

  /** When `t[k]` is missing from `u` and the tail `v` is shorter than what
      follows `t[k]` in `t`, `t` cannot occur in `u + v`: its `k`-th
      character would have to fall inside `u`. */
  lemma ExcludesBeforeTail(u: string, v: string, t: string, k: nat)
    requires k < |t| && |v| + k < |t|
    requires t[k] !in u
    ensures !Contains(u + v, t)
  {
    var s := u + v;
    forall i | 0 <= i <= |s| - |t|
      ensures !OccursAt(s, t, i)
    {
      assert s[i + k] == u[i + k] == s[i..i + |t|][k];
    }
  }

  /** The characters `String.prototype.trim` removes: ECMAScript WhiteSpace
      (tab, vertical tab, form feed, space, no-break space, byte order mark
      and the Unicode space separators) and LineTerminator (line feed,
      carriage return, line and paragraph separators). */
  predicate IsWhitespace(c: char) {
    || c == '\t' || c == '\n' || c == '\U{000B}' || c == '\U{000C}' || c == '\r'
    || c == ' ' || c == '\U{00A0}' || c == '\U{1680}'
    || ('\U{2000}' <= c <= '\U{200A}')
    || c == '\U{2028}' || c == '\U{2029}' || c == '\U{202F}' || c == '\U{205F}'
    || c == '\U{3000}' || c == '\U{FEFF}'
  }

  /** The number of whitespace characters `s` starts with. */
  function LeadingSpace(s: string): (n: nat)
    ensures n <= |s|
    ensures forall i | 0 <= i < n :: IsWhitespace(s[i])
    ensures n < |s| ==> !IsWhitespace(s[n])
  {
    if s != [] && IsWhitespace(s[0]) then 1 + LeadingSpace(s[1..]) else 0
  }

  /** The number of whitespace characters `s` ends with. */
  function TrailingSpace(s: string): (n: nat)
    ensures n <= |s|
    ensures forall i | |s| - n <= i < |s| :: IsWhitespace(s[i])
    ensures n < |s| ==> !IsWhitespace(s[|s| - n - 1])
  {
    if s != [] && IsWhitespace(s[|s| - 1]) then 1 + TrailingSpace(s[..|s| - 1]) else 0
  }

  /** `s` is `r` with only whitespace before it (from index `a`) and after it. */
  predicate Surrounds(s: string, r: string, a: int) {
    && 0 <= a <= |s| - |r|
    && r == s[a..a + |r|]
    && (forall i | 0 <= i < a :: IsWhitespace(s[i]))
    && (forall i | a + |r| <= i < |s| :: IsWhitespace(s[i]))
  }

  /** `s.trim()`: the part of `s` between its leading and trailing whitespace. */
  function Trim(s: string): (r: string)
    ensures |r| <= |s|
    ensures r != [] ==> !IsWhitespace(r[0]) && !IsWhitespace(r[|r| - 1])
    ensures r == [] <==> forall i | 0 <= i < |s| :: IsWhitespace(s[i])
    ensures exists a :: Surrounds(s, r, a)
  {
    var a := LeadingSpace(s);
    var rest := s[a..];
    var b := TrailingSpace(rest);
    assert b < |rest| ==> rest[|rest| - b - 1] == s[|s| - b - 1];
    assert forall i | |s| - b <= i < |s| :: s[i] == rest[i - a];
    SurroundedBySpace(s, a, |rest| - b);
    rest[..|rest| - b]
  }

  lemma SurroundedBySpace(s: string, a: nat, n: nat)
    requires a + n <= |s|
    requires forall i | 0 <= i < a :: IsWhitespace(s[i])
    requires forall i | n <= i < |s| - a :: IsWhitespace(s[a..][i])
    ensures Surrounds(s, s[a..][..n], a)
  {
    assert s[a..][..n] == s[a..a + n];
    SpaceAfter(s, a, n, |s| - a - n);
  }

  lemma SpaceAfter(s: string, a: nat, n: nat, b: nat)
    requires a + n + b == |s|
    requires forall i | n <= i < n + b :: IsWhitespace(s[a..][i])
    ensures forall i | a + n <= i < |s| :: IsWhitespace(s[i])
  {
    forall i | a + n <= i < |s|
      ensures IsWhitespace(s[i])
    {
      assert s[i] == s[a..][i - a];
    }
  }

  /** Trimming twice is trimming once. */
  lemma TrimIdempotent(s: string)
    ensures Trim(Trim(s)) == Trim(s)
  {
    var t := Trim(s);
    if t != [] {
      assert LeadingSpace(t) == 0;
      assert TrailingSpace(t) == 0;
    }
  }

  /** The UTF-16 code units a character takes: a surrogate pair for one
      outside the Basic Multilingual Plane, a single unit otherwise. */
  function CodeUnits(c: char): nat {
    if c as int > 0xFFFF then 2 else 1
  }

  /** `s.length`: the length of `s` in UTF-16 code units. */
  function Utf16Length(s: string): (n: nat)
    ensures |s| <= n <= 2 * |s|
  {
    if s == [] then 0 else CodeUnits(s[0]) + Utf16Length(s[1..])
  }

  /** Code-unit lengths add up under concatenation. */
  lemma {:induction false} Utf16LengthAppend(a: string, b: string)
    ensures Utf16Length(a + b) == Utf16Length(a) + Utf16Length(b)
  {
    if a == [] {
      assert a + b == b;
    } else {
      assert (a + b)[1..] == a[1..] + b;
      Utf16LengthAppend(a[1..], b);
    }
  }

  /** A slice takes no more code units than the string it is cut from. */
  lemma Utf16LengthSlice(s: string, i: nat, j: nat)
    requires i <= j <= |s|
    ensures Utf16Length(s[i..j]) <= Utf16Length(s)
  {
    var front, middle, back := s[..i], s[i..j], s[j..];
    assert s == (front + middle) + back;
    Utf16LengthAppend(front + middle, back);
    Utf16LengthAppend(front, middle);
  }

  /** Trimming never lengthens a string, counted in code units. */
  lemma TrimUtf16Shorter(s: string)
    ensures Utf16Length(Trim(s)) <= Utf16Length(s)
  {
    var a :| Surrounds(s, Trim(s), a);
    Utf16LengthSlice(s, a, a + |Trim(s)|);
  }

  /** Inside the Basic Multilingual Plane, code units and characters count
      alike. */
  lemma {:induction false} Utf16LengthBmp(s: string)
    requires forall i | 0 <= i < |s| :: s[i] as int <= 0xFFFF
    ensures Utf16Length(s) == |s|
  {
    if s != [] {
      Utf16LengthBmp(s[1..]);
    }
  }

  /** `s.slice(0, n)` for `n >= 0`. */
  function Take(s: string, n: nat): (r: string)
    ensures |r| == if n <= |s| then n else |s|
    ensures r <= s
  {
    if n <= |s| then s[..n] else s
  }

  /** `s.slice(-n)` for `n > 0`: the last `n` characters, or all of `s`. */
  function TakeLast(s: string, n: nat): (r: string)
    requires n > 0
    ensures |r| == if n <= |s| then n else |s|
    ensures r == s[|s| - |r|..]
  {
    if n <= |s| then s[|s| - n..] else s
  }

  /** The decimal digit for `d`. */
  function Digit(d: nat): char
    requires d < 10
  {
    "0123456789"[d]
  }

  /** The value of a decimal digit character. */
  function DigitValue(c: char): nat
    requires '0' <= c <= '9'
  {
    (c as int - '0' as int) as nat
  }

  /** `n.toString()` for a non-negative integer: its decimal digits, most
      significant first, with no leading zero. */
  function NatToString(n: nat): (r: string)
    ensures 1 <= |r|
    ensures forall i | 0 <= i < |r| :: '0' <= r[i] <= '9'
    ensures (r[0] == '0') <==> n == 0
    ensures (|r| == 1) <==> n < 10
    decreases n
  {
    if n < 10 then [Digit(n)] else NatToString(n / 10) + [Digit(n % 10)]
  }

  /** The number a string of decimal digits denotes. */
  function DigitsValue(s: string): nat
    requires forall i | 0 <= i < |s| :: '0' <= s[i] <= '9'
  {
    if s == [] then 0 else 10 * DigitsValue(s[..|s| - 1]) + DigitValue(s[|s| - 1])
  }

  /** Reading the decimal string back gives the number. */
  lemma {:induction false} NatToStringRoundTrip(n: nat)
    ensures DigitsValue(NatToString(n)) == n
    decreases n
  {
    if n >= 10 {
      var s := NatToString(n);
      assert s[..|s| - 1] == NatToString(n / 10);
      NatToStringRoundTrip(n / 10);
    }
  }

  /** `s.padStart(width, c)`. */
  function PadStart(s: string, width: nat, c: char): (r: string)
    ensures |r| == if |s| >= width then |s| else width
    ensures r[|r| - |s|..] == s
    ensures forall i | 0 <= i < |r| - |s| :: r[i] == c
  {
    if |s| >= width then s else seq(width - |s|, _ => c) + s
  }
}
