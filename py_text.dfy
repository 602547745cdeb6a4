/**
 * The few Python string operations the core relies on: `str.strip()`,
 * `str.strip(chars)`, ASCII `str.lower()`, `sep.join(parts)`,
 * `s.split(sep)`, the `in` substring test and the decimal text of an `int`.
 */
module PyText {

  /** `str.isspace()` for one character: the characters `str.strip()` removes. */
  predicate IsSpace(c: char) {
    || c == ' '
    || ('\t' <= c <= '\r')
    || ('\U{1c}' <= c <= '\U{1f}')
    || c == '\U{85}' || c == '\U{a0}' || c == '\U{1680}'
    || ('\U{2000}' <= c <= '\U{200a}')
    || c == '\U{2028}' || c == '\U{2029}' || c == '\U{202f}'
    || c == '\U{205f}' || c == '\U{3000}'
  }

  /** True when `s.strip()` is empty, i.e. `s` is blank. */
  predicate IsBlank(s: string) {
    forall i :: 0 <= i < |s| ==> IsSpace(s[i])
  }

  /** Drops the longest prefix of characters satisfying `drop`. */
  function TrimLeft(s: string, drop: char -> bool): (r: string)
    ensures |r| <= |s| && r == s[|s| - |r|..]
    ensures forall i :: 0 <= i < |s| - |r| ==> drop(s[i])
    ensures r != [] ==> !drop(r[0])
  {
    if s != [] && drop(s[0]) then TrimLeft(s[1..], drop) else s
  }

  /** Drops the longest suffix of characters satisfying `drop`. */
  function TrimRight(s: string, drop: char -> bool): (r: string)
    ensures |r| <= |s| && r == s[..|r|]
    ensures forall i :: |r| <= i < |s| ==> drop(s[i])
    ensures r != [] ==> !drop(r[|r| - 1])
  {
    if s != [] && drop(s[|s| - 1]) then TrimRight(s[..|s| - 1], drop) else s
  }

  /** Python's `s.strip()`. */
  function Strip(s: string): (r: string)
    ensures |r| <= |s|
    ensures r != [] ==> !IsSpace(r[0]) && !IsSpace(r[|r| - 1])
    ensures r == [] <==> IsBlank(s)
  {
    TrimRight(TrimLeft(s, IsSpace), IsSpace)
  }

  /** The test for one given character. */
  function Is(c: char): char -> bool {
    x => x == c
  }

  /** Python's `s.strip(c)` for a one-character argument. */
  function StripChar(s: string, c: char): (r: string)
    ensures |r| <= |s|
    ensures r != [] ==> r[0] != c && r[|r| - 1] != c
  {
    TrimRight(TrimLeft(s, Is(c)), Is(c))
  }

  function LowerChar(c: char): char {
    if 'A' <= c <= 'Z' then (c as int - 'A' as int + 'a' as int) as char else c
  }

  /** `s.lower()`, ASCII letters only. */
  function Lower(s: string): (r: string)
    ensures |r| == |s|
    ensures forall i :: 0 <= i < |s| ==> r[i] == LowerChar(s[i])
  {
    if s == [] then [] else [LowerChar(s[0])] + Lower(s[1..])
  }

  /** `sep.join(parts)`. */
  function Join(sep: string, parts: seq<string>): (r: string)
    ensures parts == [] ==> r == ""
    ensures |parts| == 1 ==> r == parts[0]
  {
    if parts == [] then ""
    else if |parts| == 1 then parts[0]
    else parts[0] + sep + Join(sep, parts[1..])
  }

  /** The parts of a join that are not blank, in order: the generator of `_safe_join`. */
  function NonBlank(parts: seq<string>): (r: seq<string>)
    ensures |r| <= |parts|
    ensures forall i :: 0 <= i < |r| ==> !IsBlank(r[i]) && r[i] in parts
  {
    if parts == [] then []
    else (if IsBlank(parts[0]) then [] else [parts[0]]) + NonBlank(parts[1..])
  }

  /** Index of the first occurrence of `c` in `s`. */
  function IndexOf(s: string, c: char): (i: nat)
    requires c in s
    ensures i < |s| && s[i] == c && c !in s[..i]
  {
    if s[0] == c then 0 else 1 + IndexOf(s[1..], c)
  }

  /** Python's `s.split(sep)` for a one-character separator. */
  function Split(s: string, sep: char): (r: seq<string>)
    ensures |r| >= 1
    ensures forall i :: 0 <= i < |r| ==> sep !in r[i]
    decreases |s|
  {
    if sep !in s then [s]
    else
      var i := IndexOf(s, sep);
      [s[..i]] + Split(s[i + 1..], sep)
  }

  /** Python's `pat in text` on strings. */
  predicate Contains(text: string, pat: string)
    decreases |text|
  {
    pat <= text || (text != [] && Contains(text[1..], pat))
  }

  function DigitChar(d: nat): char
    requires d < 10
  {
    "0123456789"[d]
  }

  function NatToString(n: nat): (r: string)
    ensures r != []
    decreases n
  {
    if n < 10 then [DigitChar(n)] else NatToString(n / 10) + [DigitChar(n % 10)]
  }

  /** `str(i)` for an `int`. */
  function IntToString(i: int): (r: string)
    ensures r != []
  {
    if i < 0 then "-" + NatToString(-i) else NatToString(i)
  }

  // ----- lemmas -----

  /** `pat` occurs in `text` starting at offset `k`. */
  predicate OccursAt(text: string, pat: string, k: int) {
    0 <= k <= |text| - |pat| && text[k..k + |pat|] == pat
  }

  /** `text` contains `pat` exactly when `pat` occurs at some offset of `text`. */
  lemma {:induction false} ContainsAt(text: string, pat: string)
    ensures Contains(text, pat) <==> exists k :: OccursAt(text, pat, k)
    decreases |text|
  {
    if pat <= text {
      assert OccursAt(text, pat, 0);
    } else if text == [] {
    } else {
      ContainsAt(text[1..], pat);
      if exists k :: OccursAt(text, pat, k) {
        var k :| OccursAt(text, pat, k);
        assert k != 0;
        assert text[1..][k - 1..k - 1 + |pat|] == text[k..k + |pat|];
        assert OccursAt(text[1..], pat, k - 1);
      }
      if Contains(text[1..], pat) {
        var k :| OccursAt(text[1..], pat, k);
        assert text[k + 1..k + 1 + |pat|] == text[1..][k..k + |pat|];
        assert OccursAt(text, pat, k + 1);
      }
    }
  }

  /** Leading whitespace does not change the result of `strip()`. */
  lemma StripSpacePrefix(s: string)
    ensures Strip(" " + s) == Strip(s)
  {
    assert (" " + s)[1..] == s;
  }

  lemma {:induction false} SplitNoSep(s: string, sep: char)
    requires sep !in s
    ensures Split(s, sep) == [s]
  {
  }

  /** Splitting at the first separator. */
  lemma SplitFirst(a: string, b: string, sep: char)
    requires sep !in a
    ensures Split(a + [sep] + b, sep) == [a] + Split(b, sep)
  {
    var s := a + [sep] + b;
    assert s[|a|] == sep;
    assert sep !in s[..|a|];
    assert s[..|a|] == a;
    assert s[|a| + 1..] == b;
  }

  /** The parts of a ", "-join after the first, as `split(",")` returns them. */
  function Continued(parts: seq<string>): (r: seq<string>)
    ensures |r| == |parts|
    ensures forall i :: 0 <= i < |parts| ==> r[i] == " " + parts[i]
  {
    if parts == [] then [] else [" " + parts[0]] + Continued(parts[1..])
  }

  /**
   * Joining comma-free parts with ", " and splitting on "," gives back each
   * part, every one after the first with the blank that followed the comma.
   */
  lemma {:induction false} SplitJoin(prefix: string, parts: seq<string>)
    requires parts != []
    requires ',' !in prefix
    requires forall i :: 0 <= i < |parts| ==> ',' !in parts[i]
    ensures Split(prefix + Join(", ", parts), ',') == [prefix + parts[0]] + Continued(parts[1..])
    decreases |parts|
  {
    if |parts| == 1 {
      assert ',' !in prefix + parts[0];
    } else {
      var head := prefix + parts[0];
      var rest := Join(", ", parts[1..]);
      assert prefix + Join(", ", parts) == head + [','] + (" " + rest);
      SplitFirst(head, " " + rest, ',');
      SplitJoin(" ", parts[1..]);
      assert parts[1..][1..] == parts[2..];
    }
  }

  /** Joining parts free of `sep` with it and splitting on it gives the parts back. */
  lemma {:induction false} SplitJoinChar(parts: seq<string>, sep: char)
    requires parts != []
    requires forall i :: 0 <= i < |parts| ==> sep !in parts[i]
    ensures Split(Join([sep], parts), sep) == parts
    decreases |parts|
  {
    if |parts| == 1 {
      SplitNoSep(parts[0], sep);
    } else {
      SplitFirst(parts[0], Join([sep], parts[1..]), sep);
      SplitJoinChar(parts[1..], sep);
    }
  }

  /** A string with non-blank ends is its own `strip()`. */
  lemma StripTrimmed(s: string)
    requires s != [] && !IsSpace(s[0]) && !IsSpace(s[|s| - 1])
    ensures Strip(s) == s
  {
  }

  /** `strip()` removes one enclosing newline on each side of a trimmed string. */
  lemma StripNewlines(s: string)
    requires s != [] && !IsSpace(s[0]) && !IsSpace(s[|s| - 1])
    ensures Strip("\n" + s + "\n") == s
  {
    var t := "\n" + s + "\n";
    assert t[1..] == s + "\n";
    assert TrimLeft(t, IsSpace) == s + "\n";
    assert (s + "\n")[..|s|] == s;
  }
}
