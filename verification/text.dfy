/** String helpers with JavaScript's meaning: `trim`, `startsWith`, `replace` with a
    string pattern, `join`, `padStart`, and the decimal rendering of numbers. */
module Text {

  import opened Wrappers

  /** The characters `String.prototype.trim` removes (white space and line terminators). */
  predicate IsWhitespace(c: char) {
    c == ' ' || c == '\t' || c == '\n' || c == '\r' || c == '\U{000B}' || c == '\U{000C}'
    || c == '\U{00A0}' || c == '\U{1680}' || ('\U{2000}' <= c <= '\U{200A}')
    || c == '\U{2028}' || c == '\U{2029}' || c == '\U{202F}' || c == '\U{205F}'
    || c == '\U{3000}' || c == '\U{FEFF}'
  }

  function TrimStart(s: string): (r: string)
    ensures |r| <= |s| && r == s[|s| - |r|..]
    ensures r != [] ==> !IsWhitespace(r[0])
    ensures forall i :: 0 <= i < |s| - |r| ==> IsWhitespace(s[i])
  {
    if s != [] && IsWhitespace(s[0]) then TrimStart(s[1..]) else s
  }

  function TrimEnd(s: string): (r: string)
    ensures |r| <= |s| && r == s[..|r|]
    ensures r != [] ==> !IsWhitespace(r[|r| - 1])
    ensures forall i :: |r| <= i < |s| ==> IsWhitespace(s[i])
  {
    if s != [] && IsWhitespace(s[|s| - 1]) then TrimEnd(s[..|s| - 1]) else s
  }

  /** `s.trim()`: the longest middle part without white space at either end. */
  function Trim(s: string): string {
    TrimEnd(TrimStart(s))
  }

  /** How many UTF-16 code units JavaScript spends on a character: a character outside the
      Basic Multilingual Plane is a surrogate pair, two units; any other is one. */
  function Utf16Units(c: char): nat {
    if c as int < 0x1_0000 then 1 else 2
  }

  /** `s.length`: the string's length in UTF-16 code units, which is its number of
      characters exactly when none of them needs a surrogate pair. */
  function Utf16Length(s: string): (n: nat)
    ensures |s| <= n <= 2 * |s|
    ensures n == |s| <==> forall i :: 0 <= i < |s| ==> s[i] as int < 0x1_0000
  {
    if s == [] then 0 else Utf16Units(s[0]) + Utf16Length(s[1..])
  }

  /** A blank string: every character is white space. */
  predicate IsBlank(s: string) {
    forall i :: 0 <= i < |s| ==> IsWhitespace(s[i])
  }

  lemma {:induction false} BlankTrimsAway(s: string)
    requires IsBlank(s)
    ensures TrimStart(s) == []
  {
    if s != [] {
      BlankTrimsAway(s[1..]);
    }
  }

  /** JavaScript's `!s.trim()` holds exactly for the blank strings. */
  lemma TrimEmptyIffBlank(s: string)
    ensures Trim(s) == [] <==> IsBlank(s)
  {
    if IsBlank(s) {
      BlankTrimsAway(s);
      assert Trim(s) == TrimEnd([]);
    } else {
      var k :| 0 <= k < |s| && !IsWhitespace(s[k]);
      var t := TrimStart(s);
      assert |s| - |t| <= k;
      var j := k - (|s| - |t|);
      assert t[j] == s[k];
      TrimEndKeeps(t, j);
      assert Trim(s) == TrimEnd(t);
    }
  }

  lemma TrimEndKeeps(t: string, j: nat)
    requires j < |t| && !IsWhitespace(t[j])
    ensures TrimEnd(t) != []
  {
  }

  /** `pat` occurs in `s` starting at position `j`. */
  predicate OccursAt(s: string, pat: string, j: nat) {
    j + |pat| <= |s| && s[j..j + |pat|] == pat
  }

  /** First position at which `pat` occurs in `s`, or `None`. */
  function IndexOfSub(s: string, pat: string): (r: Option<nat>)
    ensures r.Some? ==> OccursAt(s, pat, r.value)
    ensures r.Some? ==> forall j: nat :: j < r.value ==> !OccursAt(s, pat, j)
    ensures r.None? ==> forall j: nat :: !OccursAt(s, pat, j)
    decreases |s|
  {
    if |s| < |pat| then None
    else if pat <= s then (assert OccursAt(s, pat, 0); Some(0))
    else
      assert s[..|pat|] != pat;
      ShiftOccurrence(s, pat);
      match IndexOfSub(s[1..], pat)
      case None => None
      case Some(k) => Some(k + 1)
  }

  /** Occurrences in `s[1..]` are the occurrences in `s` shifted by one. */
  lemma ShiftOccurrence(s: string, pat: string)
    requires s != []
    ensures forall j: nat :: 0 < j ==> (OccursAt(s, pat, j) <==> OccursAt(s[1..], pat, j - 1))
  {
    forall j: nat | 0 < j ensures OccursAt(s, pat, j) <==> OccursAt(s[1..], pat, j - 1) {
      if j + |pat| <= |s| {
        assert s[1..][j - 1..j - 1 + |pat|] == s[j..j + |pat|];
      }
    }
  }

  /** `s.replace(pat, rep)` with a string pattern: only the first occurrence is replaced. */
  function ReplaceFirst(s: string, pat: string, rep: string): string {
    match IndexOfSub(s, pat)
    case None => s
    case Some(i) => s[..i] + rep + s[i + |pat|..]
  }

  /** Replacing a prefix by nothing drops exactly that prefix. */
  lemma ReplaceFirstOfPrefix(s: string, pat: string)
    requires pat <= s
    ensures ReplaceFirst(s, pat, "") == s[|pat|..]
  {
    assert OccursAt(s, pat, 0);
  }

  /** `parts.join(sep)`. */
  function Join(parts: seq<string>, sep: string): string {
    if parts == [] then ""
    else if |parts| == 1 then parts[0]
    else parts[0] + sep + Join(parts[1..], sep)
  }

  /** Every part is non-empty and free of the separator character. */
  predicate Separable(parts: seq<string>, sep: char) {
    forall i :: 0 <= i < |parts| ==> parts[i] != [] && sep !in parts[i]
  }

  /** Two lists of separable parts one after the other are separable. */
  lemma SeparableAppend(a: seq<string>, b: seq<string>, sep: char)
    requires Separable(a, sep) && Separable(b, sep)
    ensures Separable(a + b, sep)
  {
    assert forall i :: 0 <= i < |a + b| ==> (a + b)[i] == if i < |a| then a[i] else b[i - |a|];
  }

  /** Joining with a one-character separator loses nothing when no part is empty and no part
      contains the separator: the parts can be recovered from the joined string. */
  lemma {:induction false} JoinInjective(a: seq<string>, b: seq<string>, sep: char)
    requires Separable(a, sep) && Separable(b, sep)
    requires Join(a, [sep]) == Join(b, [sep])
    ensures a == b
  {
    if a != [] && b != [] {
      var ja, jb := Join(a, [sep]), Join(b, [sep]);
      JoinHead(a, sep);
      JoinHead(b, sep);
      var n, m := |a[0]|, |b[0]|;
      assert n == m by {
        assert sep !in a[0] && sep !in b[0];
        assert forall k :: 0 <= k < n ==> ja[k] == a[0][k];
        assert forall k :: 0 <= k < m ==> jb[k] == b[0][k];
      }
      assert a[0] == ja[..n] == b[0];
      if |a| > 1 && |b| > 1 {
        assert Join(a[1..], [sep]) == ja[n + 1..] == jb[m + 1..] == Join(b[1..], [sep]);
        JoinInjective(a[1..], b[1..], sep);
        assert a == [a[0]] + a[1..] && b == [b[0]] + b[1..];
      }
    } else if a != [] || b != [] {
      var c := if a != [] then a else b;
      JoinHead(c, sep);
    }
  }

  /** Joining two non-empty lists of parts one after the other is joining each and putting the
      separator between them. */
  lemma {:induction false} JoinAppend(a: seq<string>, b: seq<string>, sep: string)
    requires a != [] && b != []
    ensures Join(a + b, sep) == Join(a, sep) + sep + Join(b, sep)
  {
    if |a| == 1 {
      assert (a + b)[1..] == b;
    } else {
      assert (a + b)[1..] == a[1..] + b;
      JoinAppend(a[1..], b, sep);
    }
  }

  /** Joining with single spaces, piece by piece: if the first parts join to `pa` less its
      trailing space and the rest join to `pb`, all of them join to `pa + pb`. */
  lemma JoinPieces(a: seq<string>, b: seq<string>, pa: string, pb: string)
    requires a != [] && b != []
    requires Join(a, " ") + " " == pa && Join(b, " ") == pb
    ensures Join(a + b, " ") == pa + pb
  {
    JoinAppend(a, b, " ");
  }

  /** The joined string starts with the first part, followed by the separator when more parts follow. */
  lemma JoinHead(parts: seq<string>, sep: char)
    requires parts != []
    ensures parts[0] <= Join(parts, [sep])
    ensures |parts| == 1 ==> Join(parts, [sep]) == parts[0]
    ensures |parts| > 1 ==> Join(parts, [sep]) == parts[0] + [sep] + Join(parts[1..], [sep])
    ensures |parts| > 1 ==> |Join(parts, [sep])| > |parts[0]| && Join(parts, [sep])[|parts[0]|] == sep
  {
  }

  // ----- decimal numbers -----

  predicate IsDigit(c: char) {
    '0' <= c <= '9'
  }

  function DigitChar(d: nat): (c: char)
    requires d < 10
    ensures IsDigit(c)
  {
    "0123456789"[d]
  }

  function DigitValue(c: char): nat
    requires IsDigit(c)
  {
    (c as int - '0' as int) as nat
  }

  /** `String(n)` for a non-negative integer: its decimal digits without leading zeros. */
  function NatToString(n: nat): (r: string)
    ensures r != []
    ensures forall i :: 0 <= i < |r| ==> IsDigit(r[i])
    ensures r[0] == '0' ==> n == 0
  {
    if n < 10 then [DigitChar(n)] else NatToString(n / 10) + [DigitChar(n % 10)]
  }

  /** The value of a string of decimal digits (leading zeros allowed). */
  function ParseNat(s: string): nat
    requires forall i :: 0 <= i < |s| ==> IsDigit(s[i])
  {
    if s == [] then 0 else ParseNat(s[..|s| - 1]) * 10 + DigitValue(s[|s| - 1])
  }

  /** Reading back the decimal rendering of `n` gives `n`. */
  lemma {:induction false} ParseNatToString(n: nat)
    ensures ParseNat(NatToString(n)) == n
  {
    if n >= 10 {
      var s := NatToString(n);
      assert s[..|s| - 1] == NatToString(n / 10);
      ParseNatToString(n / 10);
    }
  }

  /** Leading zeros do not change the value of a digit string. */
  lemma {:induction false} ParseNatLeadingZero(s: string)
    requires forall i :: 0 <= i < |s| ==> IsDigit(s[i])
    ensures ParseNat("0" + s) == ParseNat(s)
  {
    if s != [] {
      var t := "0" + s;
      assert t[..|t| - 1] == "0" + s[..|s| - 1];
      ParseNatLeadingZero(s[..|s| - 1]);
    }
  }

  /** `s.padStart(width, c)`: `c` repeated on the left up to `width` characters. */
  function PadStart(s: string, width: nat, c: char): (r: string)
    ensures |r| == if |s| >= width then |s| else width
    ensures s <= r[|r| - |s|..] && r[|r| - |s|..] == s
    ensures forall i :: 0 <= i < |r| - |s| ==> r[i] == c
    decreases width - |s|
  {
    if |s| >= width then s else PadStart([c] + s, width, c)
  }

  /** Zero-padding a decimal rendering keeps its value. */
  lemma {:induction false} ParseNatPadded(n: nat, width: nat)
    ensures forall i :: 0 <= i < |PadStart(NatToString(n), width, '0')| ==> IsDigit(PadStart(NatToString(n), width, '0')[i])
    ensures ParseNat(PadStart(NatToString(n), width, '0')) == n
  {
    var s := NatToString(n);
    var r := PadStart(s, width, '0');
    var k := |r| - |s|;
    assert r[k..] == s;
    assert forall i :: k <= i < |r| ==> r[i] == s[i - k];
    ParseNatZeros(r, k);
    ParseNatToString(n);
  }

  /** Dropping leading zeros keeps the value of a digit string. */
  lemma {:induction false} ParseNatZeros(r: string, k: nat)
    requires k <= |r|
    requires forall i :: 0 <= i < k ==> r[i] == '0'
    requires forall i :: k <= i < |r| ==> IsDigit(r[i])
    ensures forall i :: 0 <= i < |r| ==> IsDigit(r[i])
    ensures ParseNat(r) == ParseNat(r[k..])
  {
    if k > 0 {
      assert r == "0" + r[1..];
      ParseNatLeadingZero(r[1..]);
      ParseNatZeros(r[1..], k - 1);
      assert r[1..][k - 1..] == r[k..];
    }
  }

  /** `String(i)` for any integer: a minus sign before the digits of a negative number. */
  function IntToString(i: int): string {
    if i < 0 then "-" + NatToString(-i) else NatToString(i)
  }

  /** Different integers render differently. */
  lemma IntToStringInjective(x: int, y: int)
    requires IntToString(x) == IntToString(y)
    ensures x == y
  {
    IntToStringSign(x);
    IntToStringSign(y);
    if x < 0 {
      var t := IntToString(x);
      assert t[1..] == NatToString(-x);
      assert t[1..] == NatToString(-y);
      NatToStringInjective(-x, -y);
    } else {
      NatToStringInjective(x, y);
    }
  }

  lemma NatToStringInjective(m: nat, n: nat)
    requires NatToString(m) == NatToString(n)
    ensures m == n
  {
    ParseNatToString(m);
    ParseNatToString(n);
  }

  /** The rendering starts with a minus sign exactly for negative numbers. */
  lemma IntToStringSign(i: int)
    ensures IntToString(i) != [] && (IntToString(i)[0] == '-' <==> i < 0)
  {
    if i >= 0 {
      assert IsDigit(NatToString(i)[0]);
    }
  }
}
