/** String primitives the decoders rely on, written out with the meaning the
    decoders' own language gives them: whitespace splitting and trimming,
    substring tests, replace-all, joining with a separator, and the
    conversions between decimal digit strings and natural numbers. */
module Text {

  /** Option, for lookups that may miss. */
  datatype Option<+T> = None | Some(value: T)

  /** A character the host language's str.isspace() accepts. */
  predicate IsSpace(c: char) {
    || ('\t' <= c <= '\r')
    || ('\U{1C}' <= c <= '\U{1F}')
    || c == ' ' || c == '\U{85}' || c == '\U{A0}' || c == '\U{1680}'
    || ('\U{2000}' <= c <= '\U{200A}')
    || c == '\U{2028}' || c == '\U{2029}' || c == '\U{202F}' || c == '\U{205F}' || c == '\U{3000}'
  }

  /** An ASCII decimal digit (what `\d` and isdigit() accept in a coded report). */
  predicate IsDigit(c: char) { '0' <= c <= '9' }

  /** The regex class [A-Z]. */
  predicate IsUpper(c: char) { 'A' <= c <= 'Z' }

  predicate AllDigits(s: string) { forall k :: 0 <= k < |s| ==> IsDigit(s[k]) }

  /** str.isdigit(): non-empty and digits only. */
  predicate IsDigitString(s: string) { |s| > 0 && AllDigits(s) }

  predicate NoSpace(s: string) { forall k :: 0 <= k < |s| ==> !IsSpace(s[k]) }

  predicate StartsWith(s: string, p: string) { |p| <= |s| && s[..|p|] == p }

  /** `p in s` for strings: p occurs as a contiguous substring of s. */
  predicate Contains(s: string, p: string)
    decreases |s|
  {
    StartsWith(s, p) || (|s| > 0 && Contains(s[1..], p))
  }

  /** `s.replace(p, "")`: every non-overlapping occurrence of p, scanning left
      to right, is deleted; the result is not scanned again. */
  function RemoveAll(s: string, p: string): (r: string)
    requires |p| > 0
    ensures |r| <= |s|
    decreases |s|
  {
    if |s| < |p| then s
    else if s[..|p|] == p then RemoveAll(s[|p|..], p)
    else [s[0]] + RemoveAll(s[1..], p)
  }

  /** `s.replace(a, b)` for a single-character pattern a. */
  function ReplaceChar(s: string, a: char, b: string): (r: string)
  {
    if s == [] then [] else (if s[0] == a then b else [s[0]]) + ReplaceChar(s[1..], a, b)
  }

  /** Replacing a character the string does not hold changes nothing. */
  lemma {:induction false} ReplaceCharAbsent(s: string, a: char, b: string)
    requires a !in s
    ensures ReplaceChar(s, a, b) == s
  {
    if s != [] {
      ReplaceCharAbsent(s[1..], a, b);
      assert [s[0]] + s[1..] == s;
    }
  }

  /** `sep.join(parts)`. */
  function Join(parts: seq<string>, sep: string): string
  {
    if parts == [] then ""
    else if |parts| == 1 then parts[0]
    else Join(parts[..|parts| - 1], sep) + sep + parts[|parts| - 1]
  }

  /** `filter(None, parts)`: the non-empty strings, in order. */
  function NonEmpty(parts: seq<string>): (r: seq<string>)
    ensures forall k :: 0 <= k < |r| ==> r[k] != ""
    ensures |r| <= |parts|
  {
    if parts == [] then []
    else (if parts[0] == "" then [] else [parts[0]]) + NonEmpty(parts[1..])
  }

  /** `" ".join(filter(None, parts))`. */
  function JoinWords(parts: seq<string>): string
  {
    Join(NonEmpty(parts), " ")
  }

  function DropLeadingSpace(s: string): (r: string)
    ensures |r| <= |s|
    ensures r == [] || !IsSpace(r[0])
    ensures r == s[|s| - |r|..]
  {
    if s != [] && IsSpace(s[0]) then DropLeadingSpace(s[1..]) else s
  }

  function DropTrailingSpace(s: string): (r: string)
    ensures |r| <= |s|
    ensures r == [] || !IsSpace(r[|r| - 1])
    ensures r == s[..|r|]
  {
    if s != [] && IsSpace(s[|s| - 1]) then DropTrailingSpace(s[..|s| - 1]) else s
  }

  /** `s.strip()`. */
  function Strip(s: string): string
  {
    DropTrailingSpace(DropLeadingSpace(s))
  }

  /** A non-empty string with no whitespace at either end: what strip() keeps. */
  predicate Trimmed(w: string)
  {
    w != [] && !IsSpace(w[0]) && !IsSpace(w[|w| - 1])
  }

  /** strip() leaves a trimmed string alone. */
  lemma StripTrimmed(w: string)
    requires Trimmed(w)
    ensures Strip(w) == w
  {
  }

  /** Two trimmed strings with one space between them are left alone by strip(). */
  lemma StripSpaced(a: string, b: string)
    requires Trimmed(a) && Trimmed(b)
    ensures Strip(a + " " + b) == a + " " + Strip(b)
  {
    var w := a + " " + b;
    assert w[0] == a[0] && w[|w| - 1] == b[|b| - 1];
    StripTrimmed(w);
    StripTrimmed(b);
  }

  /** Joining trimmed strings gives a trimmed string, whatever the separator. */
  lemma {:induction false} JoinTrimmed(parts: seq<string>, sep: string)
    requires parts != [] && forall k :: 0 <= k < |parts| ==> Trimmed(parts[k])
    ensures Trimmed(Join(parts, sep))
  {
    if |parts| > 1 {
      JoinTrimmed(parts[..|parts| - 1], sep);
    }
  }

  /** Joining a first part onto a non-empty rest. */
  lemma {:induction false} JoinCons(a: string, rest: seq<string>, sep: string)
    requires rest != []
    ensures Join([a] + rest, sep) == a + sep + Join(rest, sep)
  {
    var parts := [a] + rest;
    if |rest| > 1 {
      assert parts[..|parts| - 1] == [a] + rest[..|rest| - 1];
      JoinCons(a, rest[..|rest| - 1], sep);
    } else {
      assert parts[..|parts| - 1] == [a];
    }
  }

  /** Filtering out empty strings distributes over concatenation. */
  lemma {:induction false} NonEmptyConcat(a: seq<string>, b: seq<string>)
    ensures NonEmpty(a + b) == NonEmpty(a) + NonEmpty(b)
  {
    if a != [] {
      assert (a + b)[1..] == a[1..] + b;
      NonEmptyConcat(a[1..], b);
    } else {
      assert a + b == b;
    }
  }

  /** Three words joined by spaces, grouped either way. */
  lemma SpacedAssoc(a: string, b: string, c: string)
    ensures a + " " + (b + " " + c) == a + " " + b + " " + c
  {
  }

  /** An empty slot before two words leaves the two words joined by a space. */
  lemma JoinWordsPair(a: string, b: string)
    requires a != "" && b != ""
    ensures JoinWords([""] + [a] + [b]) == a + " " + b
  {
    var parts := [""] + [a] + [b];
    assert parts[1..] == [a, b];
    assert [a, b][1..] == [b];
    assert NonEmpty([b]) == [b] by {
      assert [b][1..] == [];
    }
    assert NonEmpty([a, b]) == [a] + [b];
    assert NonEmpty(parts) == [a, b];
    assert [a, b][..1] == [a];
    assert Join([a, b], " ") == Join([a], " ") + " " + b;
  }

  /** Filtering keeps every trimmed part and drops only empty ones. */
  lemma {:induction false} NonEmptyOfTrimmed(parts: seq<string>)
    requires forall k :: 0 <= k < |parts| ==> parts[k] == "" || Trimmed(parts[k])
    ensures forall k :: 0 <= k < |NonEmpty(parts)| ==> Trimmed(NonEmpty(parts)[k])
    ensures (exists k :: 0 <= k < |parts| && parts[k] != "") ==> NonEmpty(parts) != []
  {
    if parts != [] {
      NonEmptyOfTrimmed(parts[1..]);
      if parts[0] == "" {
        assert forall k :: 1 <= k < |parts| && parts[k] != "" ==> parts[1..][k - 1] != "";
      }
    }
  }

  /** The words of a list of empty and trimmed parts, joined by spaces, are
      trimmed (or empty when every part is empty). */
  lemma JoinWordsTrimmed(parts: seq<string>)
    requires forall k :: 0 <= k < |parts| ==> parts[k] == "" || Trimmed(parts[k])
    ensures (exists k :: 0 <= k < |parts| && parts[k] != "") ==> Trimmed(JoinWords(parts))
  {
    NonEmptyOfTrimmed(parts);
    if NonEmpty(parts) != [] {
      JoinTrimmed(NonEmpty(parts), " ");
    }
  }

  /** `s[i:j]` for 0 <= i <= j: the bounds are clamped to the length. */
  function Slice(s: string, i: nat, j: nat): (r: string)
    requires i <= j
    ensures |r| <= j - i
    ensures j <= |s| ==> r == s[i..j]
  {
    if i >= |s| then [] else if j >= |s| then s[i..] else s[i..j]
  }

  /** The number of occurrences of c in s. */
  function CountChar(s: string, c: char): nat
  {
    if s == [] then 0 else (if s[0] == c then 1 else 0) + CountChar(s[1..], c)
  }

  /** `s.split(c)` with an explicit one-character separator: the pieces
      between the separators, empty pieces included. */
  function SplitOn(s: string, c: char): (pieces: seq<string>)
    ensures |pieces| == 1 + CountChar(s, c)
  {
    if s == [] then [""]
    else
      var rest := SplitOn(s[1..], c);
      if s[0] == c then [""] + rest else [[s[0]] + rest[0]] + rest[1..]
  }

  /** Splitting a piece without the separator, the separator, and a second
      such piece gives back the two pieces. */
  lemma {:induction false} SplitOnTwo(a: string, b: string, c: char)
    requires c !in a && c !in b
    ensures SplitOn(a + [c] + b, c) == [a, b]
  {
    if a == [] {
      assert a + [c] + b == [c] + b;
      SplitOnNone(b, c);
    } else {
      assert (a + [c] + b)[1..] == a[1..] + [c] + b;
      SplitOnTwo(a[1..], b, c);
      assert [a[0]] + a[1..] == a;
    }
  }

  /** A string without the separator is one piece. */
  lemma {:induction false} SplitOnNone(s: string, c: char)
    requires c !in s
    ensures SplitOn(s, c) == [s]
  {
    if s != [] {
      SplitOnNone(s[1..], c);
      assert [s[0]] + s[1..] == s;
    }
  }

  lemma {:induction false} CountCharConcat(a: string, b: string, c: char)
    ensures CountChar(a + b, c) == CountChar(a, c) + CountChar(b, c)
  {
    if a != [] {
      assert (a + b)[1..] == a[1..] + b;
      CountCharConcat(a[1..], b, c);
    } else {
      assert a + b == b;
    }
  }

  /** The longest prefix of s that holds no whitespace. */
  function Word(s: string): (w: string)
    ensures |w| <= |s| && w == s[..|w|] && NoSpace(w)
    ensures |w| < |s| ==> IsSpace(s[|w|])
    ensures s != [] && !IsSpace(s[0]) ==> w != []
  {
    if s == [] || IsSpace(s[0]) then [] else [s[0]] + Word(s[1..])
  }

  /** `s.split()` with no argument: the maximal runs of non-whitespace characters. */
  function Split(s: string): (tokens: seq<string>)
    ensures forall k :: 0 <= k < |tokens| ==> tokens[k] != [] && NoSpace(tokens[k])
    decreases |s|
  {
    var t := DropLeadingSpace(s);
    if t == [] then [] else
      var w := Word(t);
      var rest := Split(t[|w|..]);
      ConsWords(w, rest);
      [w] + rest
  }

  /** A word in front of a list of words is a list of words. */
  lemma ConsWords(w: string, rest: seq<string>)
    requires w != [] && NoSpace(w)
    requires forall k :: 0 <= k < |rest| ==> rest[k] != [] && NoSpace(rest[k])
    ensures forall k :: 0 <= k < |[w] + rest| ==> ([w] + rest)[k] != [] && NoSpace(([w] + rest)[k])
  {
    forall k | 0 <= k < |[w] + rest|
      ensures ([w] + rest)[k] != [] && NoSpace(([w] + rest)[k])
    {
      if k > 0 {
        assert ([w] + rest)[k] == rest[k - 1];
      }
    }
  }

  function DigitValue(c: char): nat { if IsDigit(c) then (c as int) - ('0' as int) else 0 }

  function DigitChar(d: nat): (c: char)
    requires d < 10
    ensures IsDigit(c) && DigitValue(c) == d
  {
    (('0' as int) + d) as char
  }

  /** `int(s)` for a string of decimal digits. */
  function DigitsValue(s: string): nat
  {
    if s == [] then 0 else 10 * DigitsValue(s[..|s| - 1]) + DigitValue(s[|s| - 1])
  }

  /** `str(n)` for a natural number: decimal, no leading zeros. */
  function NatToString(n: nat): (s: string)
    ensures |s| > 0 && AllDigits(s)
    ensures |s| > 1 ==> s[0] != '0'
  {
    if n < 10 then [DigitChar(n)] else NatToString(n / 10) + [DigitChar(n % 10)]
  }

  /** Printing a number and reading it back gives the number. */
  lemma {:induction false} NatToStringRoundTrip(n: nat)
    ensures DigitsValue(NatToString(n)) == n
  {
    if n >= 10 {
      var s := NatToString(n);
      assert s[..|s| - 1] == NatToString(n / 10);
      NatToStringRoundTrip(n / 10);
    }
  }

  /** A digit string's value is below 10 to the power of its length. */
  lemma {:induction false} DigitsValueBound(s: string)
    ensures DigitsValue(s) < Pow10(|s|)
  {
    if s != [] { DigitsValueBound(s[..|s| - 1]); }
  }

  function Pow10(k: nat): (p: nat)
    ensures p >= 1
  {
    if k == 0 then 1 else 10 * Pow10(k - 1)
  }

  /** `f"{n / 100.0:.2f}"` for a non-negative integer count of hundredths. */
  function Hundredths(n: nat): (s: string)
    ensures |s| >= 4 && s[|s| - 3] == '.'
    ensures s[..|s| - 3] == NatToString(n / 100) && AllDigits(s[|s| - 2..])
    ensures DigitsValue(s[..|s| - 3]) == n / 100 && DigitsValue(s[|s| - 2..]) == n % 100
  {
    var whole := NatToString(n / 100);
    NatToStringRoundTrip(n / 100);
    var tens, ones := DigitChar(n / 10 % 10), DigitChar(n % 10);
    var s := whole + "." + [tens, ones];
    assert s[..|s| - 3] == whole;
    assert s[|s| - 2..] == [tens, ones];
    assert [tens, ones][..1] == [tens] && [tens][..0] == [];
    assert DigitsValue([tens]) == n / 10 % 10;
    assert DigitsValue([tens, ones]) == 10 * DigitsValue([tens]) + DigitValue(ones);
    LastTwoDigits(n);
    s
  }

  lemma LastTwoDigits(n: nat)
    ensures n % 100 == 10 * (n / 10 % 10) + n % 10
  {
  }
}
