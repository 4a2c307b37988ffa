/** String primitives the reply service relies on: Python's `str.strip()`,
    `str.lower()` (ASCII letters only), the `in` operator on strings, and the
    code-point sum that selects a default reply. */
module Text {

  /** Python's `str.isspace()`: the characters `str.strip()` removes. */
  predicate IsSpace(c: char) {
    || '\t' <= c <= '\r'
    || '\U{1C}' <= c <= '\U{1F}'
    || c == ' '
    || c == '\U{85}'
    || c == '\U{A0}'
    || c == '\U{1680}'
    || '\U{2000}' <= c <= '\U{200A}'
    || c == '\U{2028}'
    || c == '\U{2029}'
    || c == '\U{202F}'
    || c == '\U{205F}'
    || c == '\U{3000}'
  }

  /** Number of whitespace characters at the front of `s`. */
  function LeadingSpaces(s: string): (n: nat)
    ensures n <= |s|
    ensures forall k :: 0 <= k < n ==> IsSpace(s[k])
    ensures n < |s| ==> !IsSpace(s[n])
  {
    if |s| > 0 && IsSpace(s[0]) then 1 + LeadingSpaces(s[1..]) else 0
  }

  /** Number of whitespace characters at the back of `s`. */
  function TrailingSpaces(s: string): (n: nat)
    ensures n <= |s|
    ensures forall k :: |s| - n <= k < |s| ==> IsSpace(s[k])
    ensures n < |s| ==> !IsSpace(s[|s| - 1 - n])
  {
    if |s| > 0 && IsSpace(s[|s| - 1]) then 1 + TrailingSpaces(s[..|s| - 1]) else 0
  }

  /** Python's `s.strip()`: `s` without its leading and trailing whitespace. */
  function Strip(s: string): (r: string)
    ensures exists i, j :: 0 <= i <= j <= |s| && r == s[i..j]
                           && (forall k :: 0 <= k < i ==> IsSpace(s[k]))
                           && (forall k :: j <= k < |s| ==> IsSpace(s[k]))
    ensures r != [] ==> !IsSpace(r[0]) && !IsSpace(r[|r| - 1])
    ensures r == [] <==> forall k :: 0 <= k < |s| ==> IsSpace(s[k])
  {
    var i := LeadingSpaces(s);
    var n := TrailingSpaces(s[i..]);
    StripBounds(s, i, n);
    s[i..|s| - n]
  }

  lemma StripBounds(s: string, i: nat, n: nat)
    requires i == LeadingSpaces(s) && n == TrailingSpaces(s[i..])
    ensures i <= |s| - n
    ensures forall k :: 0 <= k < i ==> IsSpace(s[k])
    ensures forall k :: |s| - n <= k < |s| ==> IsSpace(s[k])
    ensures i < |s| - n ==> !IsSpace(s[i]) && !IsSpace(s[|s| - n - 1])
    ensures i == |s| - n <==> forall k :: 0 <= k < |s| ==> IsSpace(s[k])
  {
    TrailOfSuffix(s, i, n);
    if i < |s| - n {
      assert !IsSpace(s[i]);
    }
  }

  /** The trailing spaces of a suffix `s[i..]` are the trailing spaces of `s`. */
  lemma TrailOfSuffix(s: string, i: nat, n: nat)
    requires i <= |s| && n == TrailingSpaces(s[i..])
    ensures forall k :: |s| - n <= k < |s| ==> IsSpace(s[k])
    ensures i < |s| - n ==> !IsSpace(s[|s| - n - 1])
  {
    var t := s[i..];
    if i < |s| - n {
      assert t[|t| - 1 - n] == s[|s| - n - 1];
    }
    forall k | |s| - n <= k < |s|
      ensures IsSpace(s[k])
    {
      assert s[k] == t[k - i];
    }
  }

  predicate IsUpper(c: char) { 'A' <= c <= 'Z' }

  /** `c.lower()` for an ASCII letter; every other character is left as is.
      The result is never a capital. */
  function LowerChar(c: char): (d: char)
    ensures !IsUpper(d)
    ensures !IsUpper(c) ==> d == c
  {
    if IsUpper(c) then (c as int + 32) as char else c
  }

  const CAPITALS: string := "ABCDEFGHIJKLMNOPQRSTUVWXYZ"
  const SMALL_LETTERS: string := "abcdefghijklmnopqrstuvwxyz"

  /** The capitals are exactly the letters of CAPITALS, and each is lowered
      to the small letter at the same place of the alphabet. */
  lemma LowerCharAlphabet()
    ensures forall c :: IsUpper(c) <==> c in CAPITALS
    ensures forall k :: 0 <= k < 26 ==> LowerChar(CAPITALS[k]) == SMALL_LETTERS[k]
  {
  }

  /** `s.lower()`, restricted to ASCII letters. */
  function Lower(s: string): (r: string)
    ensures |r| == |s|
    ensures forall k :: 0 <= k < |s| ==> r[k] == LowerChar(s[k])
  {
    if s == [] then [] else [LowerChar(s[0])] + Lower(s[1..])
  }

  predicate NoUpper(s: string) {
    forall k :: 0 <= k < |s| ==> !IsUpper(s[k])
  }

  /** The normal form every rule is tested against: `s.lower().strip()`.
      It has no capitals, and a non-empty one starts and ends with
      non-whitespace. */
  function Normalize(s: string): (n: string)
    ensures NoUpper(n)
    ensures n != [] ==> !IsSpace(n[0]) && !IsSpace(n[|n| - 1])
  {
    LowerHasNoUpper(s);
    StripKeepsNoUpper(Lower(s));
    Strip(Lower(s))
  }

  /** Lower-casing a string without upper-case letters changes nothing. */
  lemma LowerOfNoUpper(s: string)
    requires NoUpper(s)
    ensures Lower(s) == s
  {
  }

  /** Stripping a string with non-space ends changes nothing. */
  lemma {:induction false} StripOfTrimmed(s: string)
    requires s != [] ==> !IsSpace(s[0]) && !IsSpace(s[|s| - 1])
    ensures Strip(s) == s
  {
    if s != [] {
      assert LeadingSpaces(s) == 0;
      assert TrailingSpaces(s) == 0;
    }
  }

  /** Lower-cased text has no upper-case letters left. */
  lemma LowerHasNoUpper(s: string)
    ensures NoUpper(Lower(s))
  {
    var u := Lower(s);
    forall k | 0 <= k < |u|
      ensures !IsUpper(u[k])
    {
      assert u[k] == LowerChar(s[k]);
    }
  }

  /** A slice of text without upper-case letters has none either. */
  lemma NoUpperSlice(u: string, i: nat, j: nat)
    requires NoUpper(u) && i <= j <= |u|
    ensures NoUpper(u[i..j])
  {
    forall k | 0 <= k < j - i
      ensures !IsUpper(u[i..j][k])
    {
      assert u[i..j][k] == u[i + k];
    }
  }

  /** Stripping a text without upper-case letters leaves none. */
  lemma StripKeepsNoUpper(u: string)
    requires NoUpper(u)
    ensures NoUpper(Strip(u))
  {
    var i, j :| 0 <= i <= j <= |u| && Strip(u) == u[i..j];
    NoUpperSlice(u, i, j);
  }

  /** Normalizing is idempotent: a normalized text is its own normal form. */
  lemma NormalizeIdempotent(s: string)
    ensures Normalize(Normalize(s)) == Normalize(s)
  {
    var t := Normalize(s);
    LowerOfNoUpper(t);
    StripOfTrimmed(t);
  }

  /** `word` appears in `text` starting at position `i`. */
  ghost predicate OccursAt(text: string, word: string, i: int) {
    0 <= i && i + |word| <= |text| && text[i..i + |word|] == word
  }

  /** The characters of `word` from position `k` on agree with `text` from
      position `i + k` on. */
  predicate MatchesAt(text: string, word: string, i: nat, k: nat)
    requires i + |word| <= |text| && k <= |word|
    decreases |word| - k
  {
    k == |word| || (text[i + k] == word[k] && MatchesAt(text, word, i, k + 1))
  }

  /** Some occurrence of `word` in `text` starts at position `i` or later. */
  predicate ContainsFrom(text: string, word: string, i: nat)
    decreases |text| - i
  {
    i + |word| <= |text| && (MatchesAt(text, word, i, 0) || ContainsFrom(text, word, i + 1))
  }

  /** Python's `word in text`: a left-to-right scan for `word`. A word
      longer than the text is never in it. */
  predicate Contains(text: string, word: string)
    ensures Contains(text, word) ==> |word| <= |text|
  {
    ContainsFrom(text, word, 0)
  }

  lemma {:induction false} MatchesAtIff(text: string, word: string, i: nat, k: nat)
    requires i + |word| <= |text| && k <= |word|
    ensures MatchesAt(text, word, i, k) <==> forall m :: k <= m < |word| ==> text[i + m] == word[m]
    decreases |word| - k
  {
    if k < |word| {
      MatchesAtIff(text, word, i, k + 1);
    }
  }

  lemma {:induction false} ContainsFromIff(text: string, word: string, i: nat)
    ensures ContainsFrom(text, word, i) <==> exists p :: i <= p && OccursAt(text, word, p)
    decreases |text| - i
  {
    if i + |word| <= |text| {
      MatchesAtIff(text, word, i, 0);
      ContainsFromIff(text, word, i + 1);
      if MatchesAt(text, word, i, 0) {
        assert text[i..i + |word|] == word;
        assert OccursAt(text, word, i);
      }
      if OccursAt(text, word, i) {
        forall m | 0 <= m < |word|
          ensures text[i + m] == word[m]
        {
          assert text[i..i + |word|][m] == text[i + m];
        }
      }
    }
  }

  /** The scan agrees with the declarative meaning of `word in text`. */
  lemma ContainsIff(text: string, word: string)
    ensures Contains(text, word) <==> exists p :: OccursAt(text, word, p)
  {
    ContainsFromIff(text, word, 0);
  }

  /** Containment is transitive: a text containing `outer` contains every
      substring of `outer`. */
  lemma ContainsTransitive(text: string, outer: string, inner: string)
    requires Contains(text, outer) && Contains(outer, inner)
    ensures Contains(text, inner)
  {
    ContainsIff(text, outer);
    ContainsIff(outer, inner);
    var p :| OccursAt(text, outer, p);
    var q :| OccursAt(outer, inner, q);
    forall m | 0 <= m < |inner|
      ensures text[p + q + m] == inner[m]
    {
      assert inner[m] == outer[q..q + |inner|][m] == outer[q + m];
      assert outer[q + m] == text[p..p + |outer|][q + m] == text[p + q + m];
    }
    assert text[p + q..p + q + |inner|] == inner;
    assert OccursAt(text, inner, p + q);
    ContainsIff(text, inner);
  }

  /** Python's `sum(ord(c) for c in s)`. */
  function CodePointSum(s: string): (n: nat)
    ensures s == [] ==> n == 0
    ensures |s| == 1 ==> n == s[0] as nat
  {
    if s == [] then 0 else CodePointSum(s[..|s| - 1]) + s[|s| - 1] as nat
  }

  /** The generator sum as Python evaluates it: from the front, adding
      `ord(s[i])` to the running total `acc`, which starts at 0. */
  function SumFrom(s: string, i: nat, acc: nat): nat
    requires i <= |s|
    decreases |s| - i
  {
    if i == |s| then acc else SumFrom(s, i + 1, acc + s[i] as nat)
  }

  /** Summing from the front agrees with CodePointSum: the running total
      after position i, plus the sum of the rest. */
  lemma {:induction false} SumFromIsCodePointSum(s: string, i: nat, acc: nat)
    requires i <= |s|
    ensures SumFrom(s, i, acc) == acc + CodePointSum(s[i..])
    decreases |s| - i
  {
    if i < |s| {
      SumFromIsCodePointSum(s, i + 1, acc + s[i] as nat);
      assert s[i..] == [s[i]] + s[i + 1..];
      CodePointSumAppend([s[i]], s[i + 1..]);
    }
  }

  /** `sum(ord(c) for c in s)` starts at 0 and adds every code point from
      the front. */
  lemma CodePointSumIsPythonSum(s: string)
    ensures CodePointSum(s) == SumFrom(s, 0, 0)
  {
    SumFromIsCodePointSum(s, 0, 0);
    assert s[0..] == s;
  }

  /** The sum adds up: the sum of a concatenation is the sum of the parts. */
  lemma {:induction false} CodePointSumAppend(s: string, t: string)
    ensures CodePointSum(s + t) == CodePointSum(s) + CodePointSum(t)
    decreases |t|
  {
    if t != [] {
      var t' := t[..|t| - 1];
      assert (s + t)[..|s + t| - 1] == s + t';
      CodePointSumAppend(s, t');
    } else {
      assert s + t == s;
    }
  }
}
