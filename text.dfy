/** String operations the message handler relies on: JavaScript's `trim`,
    `toLowerCase`, `split(/\s+/)`, `split(' ')[0]`, `split('@')[0]` and
    `replace` with a string pattern. */
module Text {

  /** The characters JavaScript counts as white space, both in `trim` and in
      the regular-expression class `\s`. */
  predicate IsSpace(c: char) {
    var n := c as int;
    n == 0x09 || n == 0x0A || n == 0x0B || n == 0x0C || n == 0x0D || n == 0x20
    || n == 0xA0 || n == 0x1680 || (0x2000 <= n <= 0x200A)
    || n == 0x2028 || n == 0x2029 || n == 0x202F || n == 0x205F || n == 0x3000 || n == 0xFEFF
  }

  predicate NoSpace(s: string) {
    forall i :: 0 <= i < |s| ==> !IsSpace(s[i])
  }

  predicate AllSpace(s: string) {
    forall i :: 0 <= i < |s| ==> IsSpace(s[i])
  }

  // ---------------------------------------------------------------------
  // Lower case
  // ---------------------------------------------------------------------

  function LowerChar(c: char): char {
    if 'A' <= c <= 'Z' then (c as int + 32) as char else c
  }

  /** `s.toLowerCase()`, for the ASCII letters. */
  function Lower(s: string): (r: string)
    ensures |r| == |s|
    ensures forall i :: 0 <= i < |s| ==> r[i] == LowerChar(s[i])
  {
    if s == [] then [] else [LowerChar(s[0])] + Lower(s[1..])
  }

  // ---------------------------------------------------------------------
  // Trim
  // ---------------------------------------------------------------------

  /** Where the text starts: the length of the leading white-space run. */
  function TextStart(s: string): (a: nat)
    ensures a <= |s| && AllSpace(s[..a]) && (a < |s| ==> !IsSpace(s[a]))
  {
    if s == [] || !IsSpace(s[0]) then 0 else 1 + TextStart(s[1..])
  }

  /** Where the text ends, looking no further left than `a`: the trailing
      white space of `s` after `a` starts there. */
  function TextEnd(s: string, a: nat): (b: nat)
    requires a <= |s|
    ensures a <= b <= |s| && AllSpace(s[b..]) && (b > a ==> !IsSpace(s[b - 1]))
    decreases |s| - a
  {
    if |s| == a || !IsSpace(s[|s| - 1]) then |s| else TextEnd(s[..|s| - 1], a)
  }

  /** `s.trim()`: `s` without its leading and trailing white space. */
  function Trim(s: string): string {
    var a := TextStart(s);
    s[a..TextEnd(s, a)]
  }

  /** `r` is what is left of `s` after cutting the all-space prefix
      `s[..a]` and an all-space suffix. */
  predicate TrimsTo(s: string, r: string, a: int) {
    0 <= a <= |s| - |r| && r == s[a..a + |r|] && AllSpace(s[..a]) && AllSpace(s[a + |r|..])
  }

  /** The trimmed text is an infix of `s` with only white space around it,
      and it neither starts nor ends with white space. */
  lemma TrimSpec(s: string)
    ensures var r := Trim(s);
            (r == [] || (!IsSpace(r[0]) && !IsSpace(r[|r| - 1])))
            && exists a :: TrimsTo(s, r, a)
  {
    var a := TextStart(s);
    assert TrimsTo(s, Trim(s), a);
  }

  // ---------------------------------------------------------------------
  // Splitting
  // ---------------------------------------------------------------------

  /** Index of the first occurrence of `c` in `s`, or `|s|` when there is none. */
  function IndexOf(s: string, c: char): (i: nat)
    ensures i <= |s| && c !in s[..i] && (i < |s| ==> s[i] == c)
  {
    if s == [] || s[0] == c then 0 else 1 + IndexOf(s[1..], c)
  }

  /** `s.split(c)[0]`: everything before the first `c`. */
  function FirstField(s: string, c: char): string {
    s[..IndexOf(s, c)]
  }

  /** The first field is a prefix free of `c` that ends where `s` does or
      just before its first `c`. */
  lemma FirstFieldSpec(s: string, c: char)
    ensures var r := FirstField(s, c);
            c !in r && r <= s && (r == s || s[|r|] == c)
  {
  }

  /** Index of the first white-space character of `s`, or `|s|` when there is none. */
  function FirstSpace(s: string): (i: nat)
    ensures i <= |s| && NoSpace(s[..i]) && (i < |s| ==> IsSpace(s[i]))
  {
    if s == [] || IsSpace(s[0]) then 0 else 1 + FirstSpace(s[1..])
  }

  /** Index just past the run of white space that starts at `i`. */
  function SpaceRunEnd(s: string, i: nat): (j: nat)
    requires i <= |s|
    ensures i <= j <= |s| && AllSpace(s[i..j]) && (j < |s| ==> !IsSpace(s[j]))
    decreases |s| - i
  {
    if i < |s| && IsSpace(s[i]) then SpaceRunEnd(s, i + 1) else i
  }

  /** `s.split(/\s+/)`: the pieces between maximal runs of white space. A run
      at either end of `s` leaves an empty piece there, and `""` splits into
      `[""]`. */
  function SplitWords(s: string): (r: seq<string>)
    ensures |r| >= 1
    ensures forall k :: 0 <= k < |r| ==> NoSpace(r[k])
    decreases |s|
  {
    var i := FirstSpace(s);
    if i == |s| then [s]
    else
      var j := SpaceRunEnd(s, i);
      [s[..i]] + SplitWords(s[j..])
  }

  /** `w` stands in `s` at index `i` with white space (or an end of `s`) on
      both sides. */
  predicate WholeWordAt(s: string, w: string, i: int) {
    && 0 <= i && i + |w| <= |s| && s[i..i + |w|] == w
    && (i == 0 || IsSpace(s[i - 1]))
    && (i + |w| == |s| || IsSpace(s[i + |w|]))
  }

  /** `w` is a whole white-space-delimited word of `s`; occurring inside a
      longer word does not count. */
  predicate IsWholeWord(s: string, w: string) {
    NoSpace(w) && exists i :: 0 <= i <= |s| && WholeWordAt(s, w, i)
  }

  /** A non-empty string is one of the pieces of `s.split(/\s+/)` exactly
      when it is a whole word of `s`. */
  lemma {:induction false} SplitWordsAreWholeWords(s: string, w: string)
    requires w != []
    ensures w in SplitWords(s) <==> IsWholeWord(s, w)
    decreases |s|
  {
    var i := FirstSpace(s);
    if i == |s| {
      assert SplitWords(s) == [s];
      assert s[..i] == s;
      if w == s {
        assert WholeWordAt(s, w, 0);
      }
      if IsWholeWord(s, w) {
        var k :| 0 <= k <= |s| && WholeWordAt(s, w, k);
        WholeWordBeforeSpace(s, w, k, i);
      }
    } else {
      var j := SpaceRunEnd(s, i);
      var rest := s[j..];
      assert SplitWords(s) == [s[..i]] + SplitWords(rest);
      SplitWordsAreWholeWords(rest, w);
      if w == s[..i] {
        assert WholeWordAt(s, w, 0);
      } else if w in SplitWords(rest) {
        var k :| 0 <= k <= |rest| && WholeWordAt(rest, w, k);
        WholeWordAfterRun(s, w, i, j, k);
      }
      if IsWholeWord(s, w) {
        var k :| 0 <= k <= |s| && WholeWordAt(s, w, k);
        if k < i {
          WholeWordBeforeSpace(s, w, k, i);
        } else {
          WholeWordInRest(s, w, i, j, k);
        }
      }
    }
  }

  /** A whole word that starts before the first space `i` of `s` is `s[..i]`. */
  lemma WholeWordBeforeSpace(s: string, w: string, k: int, i: nat)
    requires w != [] && NoSpace(w) && WholeWordAt(s, w, k)
    requires i <= |s| && NoSpace(s[..i]) && (i < |s| ==> IsSpace(s[i]))
    requires k < i
    ensures k == 0 && w == s[..i]
  {
    assert forall t :: k <= t < k + |w| ==> s[t] == w[t - k];
    assert forall t :: 0 <= t < i ==> !IsSpace(s[t]);
  }

  /** A whole word of the text after the run of spaces `s[i..j]` is a whole
      word of `s`. */
  lemma WholeWordAfterRun(s: string, w: string, i: nat, j: nat, k: int)
    requires i < j <= |s| && AllSpace(s[i..j])
    requires WholeWordAt(s[j..], w, k)
    ensures WholeWordAt(s, w, j + k)
  {
    var rest := s[j..];
    assert s[j + k..j + k + |w|] == rest[k..k + |w|];
    if k == 0 {
      assert s[i..j][j - 1 - i] == s[j - 1];
    } else {
      assert s[j + k - 1] == rest[k - 1];
    }
    if k + |w| < |rest| {
      assert s[j + k + |w|] == rest[k + |w|];
    }
  }

  /** A whole word of `s` that does not start before the run of spaces
      `s[i..j]` is a whole word of the text after the run. */
  lemma WholeWordInRest(s: string, w: string, i: nat, j: nat, k: int)
    requires w != [] && NoSpace(w) && WholeWordAt(s, w, k)
    requires i <= k && i < j <= |s| && AllSpace(s[i..j]) && (j < |s| ==> !IsSpace(s[j]))
    ensures j <= k && WholeWordAt(s[j..], w, k - j)
  {
    var rest := s[j..];
    assert s[k] == s[k..k + |w|][0] == w[0];
    assert !IsSpace(s[k]);
    assert k >= j by {
      assert forall t :: i <= t < j ==> s[t] == s[i..j][t - i];
    }
    assert rest[k - j..k - j + |w|] == s[k..k + |w|];
    if k > j {
      assert rest[k - j - 1] == s[k - 1];
    }
    if k + |w| < |s| {
      assert rest[k - j + |w|] == s[k + |w|];
    }
  }

  // ---------------------------------------------------------------------
  // Replacing the first occurrence of a pattern
  // ---------------------------------------------------------------------

  predicate OccursAt(s: string, pat: string, i: nat) {
    i + |pat| <= |s| && s[i..i + |pat|] == pat
  }

  /** An occurrence in the tail is an occurrence one place further on. */
  lemma OccursInTail(s: string, pat: string, j: nat)
    requires s != []
    ensures OccursAt(s[1..], pat, j) <==> OccursAt(s, pat, j + 1)
  {
    if j + |pat| <= |s[1..]| {
      assert s[1..][j..j + |pat|] == s[j + 1..j + 1 + |pat|];
    }
  }

  /** `s.indexOf(pat)`: where the first occurrence of `pat` starts, or
      `|s| + 1` when there is none. */
  function Find(s: string, pat: string): (i: nat)
    ensures i <= |s| + 1
    decreases |s|
  {
    if OccursAt(s, pat, 0) then 0
    else if s == [] then 1
    else 1 + Find(s[1..], pat)
  }

  /** `Find` answers an occurrence with none before it, or no occurrence
      at all. */
  lemma {:induction false} FindSpec(s: string, pat: string)
    ensures var i := Find(s, pat);
            (i <= |s| ==> OccursAt(s, pat, i))
            && forall j :: 0 <= j <= |s| && j < i ==> !OccursAt(s, pat, j)
    decreases |s|
  {
    if !OccursAt(s, pat, 0) && s != [] {
      FindSpec(s[1..], pat);
      var k := Find(s[1..], pat);
      if k <= |s[1..]| {
        OccursInTail(s, pat, k);
      }
      forall j | 0 < j <= |s| && j < 1 + k
        ensures !OccursAt(s, pat, j)
      {
        OccursInTail(s, pat, j - 1);
      }
    }
  }

  /** The replacement text of `replace` with a string pattern, after the
      GetSubstitution operation of ECMA-262 (String.prototype.replace):
      `$$` stands for `$`, `$&` for the matched text, `` $` `` for the text
      before the match and `$'` for the text after it. With no capture
      groups, any other `$` (`$1`, `$<`, a final `$`) stands for itself. */
  function Substitute(rep: string, before: string, matched: string, after: string): string
    decreases |rep|
  {
    if rep == [] then []
    else if |rep| >= 2 && rep[0] == '$' && rep[1] == '$' then "$" + Substitute(rep[2..], before, matched, after)
    else if |rep| >= 2 && rep[0] == '$' && rep[1] == '&' then matched + Substitute(rep[2..], before, matched, after)
    else if |rep| >= 2 && rep[0] == '$' && rep[1] == '`' then before + Substitute(rep[2..], before, matched, after)
    else if |rep| >= 2 && rep[0] == '$' && rep[1] == '\'' then after + Substitute(rep[2..], before, matched, after)
    else [rep[0]] + Substitute(rep[1..], before, matched, after)
  }

  /** A replacement without `$` is inserted as it is. */
  lemma {:induction false} SubstituteLiteral(rep: string, before: string, matched: string, after: string)
    requires '$' !in rep
    ensures Substitute(rep, before, matched, after) == rep
    decreases |rep|
  {
    if rep != [] {
      assert rep[0] != '$' && '$' !in rep[1..];
      SubstituteLiteral(rep[1..], before, matched, after);
    }
  }

  /** The four patterns and a plain character, each at the head of any
      replacement: `$$` gives `$`, `$&` the match, `` $` `` the text before
      it, `$'` the text after it, and a character other than `$` itself. */
  lemma SubstitutePatterns(c: char, rest: string, before: string, matched: string, after: string)
    ensures Substitute("$$" + rest, before, matched, after) == "$" + Substitute(rest, before, matched, after)
    ensures Substitute("$&" + rest, before, matched, after) == matched + Substitute(rest, before, matched, after)
    ensures Substitute("$`" + rest, before, matched, after) == before + Substitute(rest, before, matched, after)
    ensures Substitute("$'" + rest, before, matched, after) == after + Substitute(rest, before, matched, after)
    ensures c != '$' ==> Substitute([c] + rest, before, matched, after) == [c] + Substitute(rest, before, matched, after)
    ensures rest == [] || rest[0] !in {'$', '&', '`', '\''} ==>
              Substitute("$" + rest, before, matched, after) == "$" + Substitute(rest, before, matched, after)
  {
    assert ("$" + rest)[1..] == rest;
    assert ("$$" + rest)[2..] == rest && ("$&" + rest)[2..] == rest;
    assert ("$`" + rest)[2..] == rest && ("$'" + rest)[2..] == rest;
    assert ([c] + rest)[1..] == rest;
  }

  /** A worked example: the replacement "a$&b" for the match
      "{nickname}" after "Hai " gives "a{nickname}b". */
  lemma MatchPatternExpands()
    ensures Substitute("a$&b", "Hai ", "{nickname}", "") == "a{nickname}b"
  {
    assert "a$&b"[1..] == "$&b" && "$&b"[2..] == "b" && "b"[1..] == [];
  }

  /** `s.replace(pat, rep)` with a string pattern: the first occurrence is
      replaced by the expansion of `rep`; without one, `s` is returned. */
  function ReplaceFirst(s: string, pat: string, rep: string): string {
    var i := Find(s, pat);
    if i + |pat| <= |s| then s[..i] + Substitute(rep, s[..i], pat, s[i + |pat|..]) + s[i + |pat|..]
    else s
  }

  /** Without an occurrence of the pattern, `replace` returns its input. */
  lemma ReplaceFirstAbsent(s: string, pat: string, rep: string)
    requires forall i :: 0 <= i <= |s| ==> !OccursAt(s, pat, i)
    ensures ReplaceFirst(s, pat, rep) == s
  {
    FindSpec(s, pat);
  }

  /** With a first occurrence at `i`, `replace` splices the expansion of
      `rep` in at `i` and keeps everything around the occurrence. */
  lemma ReplaceFirstAt(s: string, pat: string, rep: string, i: nat)
    requires OccursAt(s, pat, i)
    requires forall j :: 0 <= j < i ==> !OccursAt(s, pat, j)
    ensures ReplaceFirst(s, pat, rep)
            == s[..i] + Substitute(rep, s[..i], pat, s[i + |pat|..]) + s[i + |pat|..]
  {
    FindSpec(s, pat);
  }

  // ---------------------------------------------------------------------
  // Decimal numerals
  // ---------------------------------------------------------------------

  predicate IsDigit(c: char) {
    '0' <= c <= '9'
  }

  predicate AllDigits(s: string) {
    forall i :: 0 <= i < |s| ==> IsDigit(s[i])
  }

  function DigitChar(d: nat): (c: char)
    requires d < 10
    ensures IsDigit(c) && c as int - '0' as int == d
  {
    ('0' as int + d) as char
  }

  /** The decimal numeral of `n`, as template literals print a number. */
  function Decimal(n: nat): (r: string)
    ensures |r| >= 1 && AllDigits(r)
  {
    if n < 10 then [DigitChar(n)] else Decimal(n / 10) + [DigitChar(n % 10)]
  }

  /** The number a string of digits denotes. */
  function DigitsValue(s: string): nat
    requires AllDigits(s)
  {
    if s == [] then 0
    else 10 * DigitsValue(s[..|s| - 1]) + (s[|s| - 1] as int - '0' as int)
  }

  function Pow10(k: nat): (p: nat)
    ensures p >= 1
  {
    if k == 0 then 1 else 10 * Pow10(k - 1)
  }

  /** Reading a numeral back gives the number it was printed from. */
  lemma {:induction false} DecimalRoundTrip(n: nat)
    ensures DigitsValue(Decimal(n)) == n
  {
    if n >= 10 {
      DecimalRoundTrip(n / 10);
      var r := Decimal(n);
      assert r[..|r| - 1] == Decimal(n / 10);
    }
  }

  /** A number between 10^k and 10^(k+1) has a numeral of k + 1 digits. */
  lemma {:induction false} DecimalLength(n: nat, k: nat)
    requires Pow10(k) <= n < Pow10(k + 1)
    ensures |Decimal(n)| == k + 1
  {
    if k > 0 {
      DecimalLength(n / 10, k - 1);
    }
  }
}
