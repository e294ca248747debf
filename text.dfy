/**
 * The string operations the in-page extraction applies to text content:
 * `String.prototype.trim` and `String.prototype.replace` with a one-character
 * search string, and the price-text normalisation built from them.
 */
module Text {

  /** JavaScript's WhiteSpace and LineTerminator code points, which `trim` removes. */
  predicate IsJsWhitespace(c: char) {
    || c == '\t' || c == '\n' || c == '\U{B}' || c == '\U{C}' || c == '\r'
    || c == ' ' || c == '\U{A0}' || c == '\U{1680}'
    || ('\U{2000}' <= c <= '\U{200A}')
    || c == '\U{2028}' || c == '\U{2029}' || c == '\U{202F}' || c == '\U{205F}'
    || c == '\U{3000}' || c == '\U{FEFF}'
  }

  predicate AllWhitespace(s: string) {
    forall i :: 0 <= i < |s| ==> IsJsWhitespace(s[i])
  }

  /** Length of the longest all-whitespace prefix of `s`. */
  function LeadingWhitespace(s: string): (n: nat)
    ensures n <= |s|
    ensures forall i :: 0 <= i < n ==> IsJsWhitespace(s[i])
    ensures n < |s| ==> !IsJsWhitespace(s[n])
  {
    if s == [] || !IsJsWhitespace(s[0]) then 0 else 1 + LeadingWhitespace(s[1..])
  }

  /** Length of the longest all-whitespace suffix of `s`. */
  function TrailingWhitespace(s: string): (n: nat)
    ensures n <= |s|
    ensures forall i :: |s| - n <= i < |s| ==> IsJsWhitespace(s[i])
    ensures n < |s| ==> !IsJsWhitespace(s[|s| - 1 - n])
  {
    if s == [] || !IsJsWhitespace(s[|s| - 1]) then 0
    else 1 + TrailingWhitespace(s[..|s| - 1])
  }

  /**
   * `s.trim()`: what remains after dropping the leading and the trailing
   * whitespace. The result starts right after the leading whitespace, is
   * followed only by whitespace, and is empty exactly when `s` is all
   * whitespace; otherwise it begins and ends with a non-whitespace character.
   */
  function Trim(s: string): (r: string)
    ensures |r| <= |s|
    ensures LeadingWhitespace(s) + |r| <= |s|
    ensures r == s[LeadingWhitespace(s)..LeadingWhitespace(s) + |r|]
    ensures AllWhitespace(s[..LeadingWhitespace(s)])
    ensures AllWhitespace(s[LeadingWhitespace(s) + |r|..])
    ensures r == [] <==> AllWhitespace(s)
    ensures r != [] ==> !IsJsWhitespace(r[0]) && !IsJsWhitespace(r[|r| - 1])
  {
    var rest := s[LeadingWhitespace(s)..];
    rest[..|rest| - TrailingWhitespace(rest)]
  }

  /** A string without surrounding whitespace is left alone by `trim`. */
  lemma TrimUnchanged(s: string)
    requires s == [] || (!IsJsWhitespace(s[0]) && !IsJsWhitespace(s[|s| - 1]))
    ensures Trim(s) == s
  {
    if s != [] {
      assert LeadingWhitespace(s) == 0;
      assert TrailingWhitespace(s) == 0;
    }
  }

  /** Trimming twice is trimming once. */
  lemma TrimIdempotent(s: string)
    ensures Trim(Trim(s)) == Trim(s)
  {
    TrimUnchanged(Trim(s));
  }

  /**
   * Index of the first occurrence of `c` in `s` (`s.indexOf(c)`), or `|s|`
   * when there is none.
   */
  function IndexOf(s: string, c: char): (i: nat)
    ensures i <= |s|
    ensures i < |s| <==> c in s
    ensures i < |s| ==> s[i] == c
    ensures forall j :: 0 <= j < i ==> s[j] != c
  {
    if s == [] then 0 else if s[0] == c then 0 else 1 + IndexOf(s[1..], c)
  }

  /**
   * `s.replace(c, t)` with a one-character search string: the first
   * occurrence of `c`, and only that one, is replaced by `t`.
   */
  function ReplaceFirst(s: string, c: char, t: string): (r: string)
    ensures c !in s ==> r == s
    ensures c in s ==> r == s[..IndexOf(s, c)] + t + s[IndexOf(s, c) + 1..]
  {
    if s == [] then []
    else if s[0] == c then t + s[1..]
    else
      var tail := ReplaceFirst(s[1..], c, t);
      assert c in s[1..] ==> s[1..][..IndexOf(s[1..], c)] == s[1..IndexOf(s, c)];
      [s[0]] + tail
  }

  /** Replacing the first `c` takes exactly one `c` out and puts `t` in. */
  lemma ReplaceFirstMultiset(s: string, c: char, t: string)
    ensures c in s ==> multiset(ReplaceFirst(s, c, t)) == multiset(s) - multiset{c} + multiset(t)
    ensures c !in s ==> multiset(ReplaceFirst(s, c, t)) == multiset(s)
  {
    if c in s {
      var i := IndexOf(s, c);
      var before, after := s[..i], s[i + 1..];
      assert s == before + [c] + after;
      assert ReplaceFirst(s, c, t) == before + t + after;
      MultisetSwap(before, c, t, after);
    }
  }

  lemma MultisetSwap(before: string, c: char, t: string, after: string)
    ensures multiset(before + t + after) == multiset(before + [c] + after) - multiset{c} + multiset(t)
  {
    var a, b, m := multiset(before), multiset(after), multiset(t);
    assert multiset(before + [c] + after) == a + multiset{c} + b;
    assert multiset(before + t + after) == a + m + b;
    assert a + multiset{c} + b - multiset{c} == a + b;
  }

  /** The closed form of `ReplaceFirst` at a known first occurrence. */
  lemma ReplaceFirstAt(s: string, c: char, t: string, i: nat)
    requires i < |s| && s[i] == c && c !in s[..i]
    ensures ReplaceFirst(s, c, t) == s[..i] + t + s[i + 1..]
  {
  }

  const Euro: char := '\U{20AC}'

  /**
   * The price text as it is handed to `parseFloat`: the first euro sign
   * removed, the first comma turned into a decimal point, then trimmed.
   */
  function NormalisePrice(text: string): string {
    Trim(ReplaceFirst(ReplaceFirst(text, Euro, ""), ',', "."))
  }

  /** Text with neither a euro sign nor a comma is only trimmed. */
  lemma NormaliseWithoutSymbols(text: string)
    requires Euro !in text && ',' !in text
    ensures NormalisePrice(text) == Trim(text)
  {
  }

  /** `trim` cuts off only whitespace, so every other character keeps its count. */
  lemma TrimKeepsCount(s: string, c: char)
    requires !IsJsWhitespace(c)
    ensures multiset(Trim(s))[c] == multiset(s)[c]
  {
    var n, r := LeadingWhitespace(s), Trim(s);
    var front, back := s[..n], s[n + |r|..];
    assert s == front + r + back;
    assert c !in front && c !in back;
    assert multiset(s) == multiset(front) + multiset(r) + multiset(back);
  }

  /**
   * Only the first euro sign is removed: with `k` euro signs in the text,
   * `k - 1` of them reach `parseFloat` (and none when there was none).
   */
  lemma NormaliseRemovesOneEuro(text: string)
    ensures multiset(NormalisePrice(text))[Euro]
      == if Euro in text then multiset(text)[Euro] - 1 else 0
  {
    var once := ReplaceFirst(text, Euro, "");
    var twice := ReplaceFirst(once, ',', ".");
    ReplaceFirstMultiset(text, Euro, "");
    ReplaceFirstMultiset(once, ',', ".");
    assert multiset(twice)[Euro] == multiset(once)[Euro];
    TrimKeepsCount(twice, Euro);
    if Euro !in text {
      assert multiset(text)[Euro] == 0;
    }
  }

  // Single evaluation steps of the examples below.
  lemma TrailingEuroRemoved()
    ensures ReplaceFirst("2,49 \U{20AC}", Euro, "") == "2,49 "
  {
    ReplaceFirstAt("2,49 \U{20AC}", Euro, "", 5);
  }

  lemma TrailingEuroComma()
    ensures ReplaceFirst("2,49 ", ',', ".") == "2.49 "
  {
    ReplaceFirstAt("2,49 ", ',', ".", 1);
  }

  lemma TrailingEuroTrim()
    ensures Trim("2.49 ") == "2.49"
  {
    assert LeadingWhitespace("2.49 ") == 0;
    assert TrailingWhitespace("2.49 ") == 1;
  }

  lemma LeadingEuroRemoved()
    ensures ReplaceFirst("\U{20AC} 10,00", Euro, "") == " 10,00"
  {
    ReplaceFirstAt("\U{20AC} 10,00", Euro, "", 0);
  }

  lemma LeadingEuroComma()
    ensures ReplaceFirst(" 10,00", ',', ".") == " 10.00"
  {
    ReplaceFirstAt(" 10,00", ',', ".", 3);
  }

  lemma LeadingEuroTrim()
    ensures Trim(" 10.00") == "10.00"
  {
    assert LeadingWhitespace(" 10.00") == 1;
    assert TrailingWhitespace("10.00") == 0;
  }

  lemma SecondCommaKept()
    ensures ReplaceFirst("1,234,56", ',', ".") == "1.234,56"
  {
    ReplaceFirstAt("1,234,56", ',', ".", 1);
  }

  /** A price written with a trailing euro sign. */
  lemma NormaliseTrailingEuro()
    ensures NormalisePrice("2,49 \U{20AC}") == "2.49"
  {
    TrailingEuroRemoved();
    TrailingEuroComma();
    TrailingEuroTrim();
  }

  /** A price written with a leading euro sign. */
  lemma NormaliseLeadingEuro()
    ensures NormalisePrice("\U{20AC} 10,00") == "10.00"
  {
    LeadingEuroRemoved();
    LeadingEuroComma();
    LeadingEuroTrim();
  }

  /** Only the first comma becomes a point; a second one is left in place. */
  lemma NormaliseSecondComma()
    ensures NormalisePrice("1,234,56") == "1.234,56"
  {
    assert Euro !in "1,234,56";
    SecondCommaKept();
    TrimUnchanged("1.234,56");
  }
}
