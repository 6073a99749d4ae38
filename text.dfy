/**
 * The JavaScript string operations the chat widget relies on, over `string`
 * (a sequence of Unicode scalar values):
 *   - `toLowerCase`, restricted to the ASCII letters;
 *   - `trim`, with the ECMAScript WhiteSpace and LineTerminator code points;
 *   - `includes`, as a substring test;
 *   - `split(/\s+/)`;
 *   - a match of `\b(w1|w2|...)\b`, with the ASCII word characters of `\b`.
 */
module Text {

  /** ECMAScript WhiteSpace and LineTerminator: what `trim` removes and `\s` matches. */
  predicate IsSpace(c: char) {
    var n := c as int;
    n == 0x09 || n == 0x0A || n == 0x0B || n == 0x0C || n == 0x0D || n == 0x20 ||
    n == 0xA0 || n == 0x1680 || (0x2000 <= n <= 0x200A) || n == 0x2028 ||
    n == 0x2029 || n == 0x202F || n == 0x205F || n == 0x3000 || n == 0xFEFF
  }

  predicate IsUpper(c: char) {
    'A' <= c <= 'Z'
  }

  predicate AllSpace(s: string) {
    forall i :: 0 <= i < |s| ==> IsSpace(s[i])
  }

  predicate NoSpace(s: string) {
    forall i :: 0 <= i < |s| ==> !IsSpace(s[i])
  }

  predicate NoUpper(s: string) {
    forall i :: 0 <= i < |s| ==> !IsUpper(s[i])
  }

  function LowerChar(c: char): (r: char)
    ensures !IsUpper(r)
    ensures !IsUpper(c) ==> r == c
    ensures IsSpace(r) == IsSpace(c)
  {
    if IsUpper(c) then (c as int + 32) as char else c
  }

  /** `toLowerCase` on the ASCII letters; every other character is kept. */
  function Lower(s: string): (r: string)
    ensures |r| == |s|
    ensures forall i :: 0 <= i < |s| ==> r[i] == LowerChar(s[i])
  {
    if s == [] then [] else [LowerChar(s[0])] + Lower(s[1..])
  }

  /** The number of whitespace characters that open `s`. */
  function LeadingSpaces(s: string): (n: nat)
    ensures n <= |s|
    ensures forall k :: 0 <= k < n ==> IsSpace(s[k])
    ensures n < |s| ==> !IsSpace(s[n])
  {
    if s == [] || !IsSpace(s[0]) then 0
    else 1 + LeadingSpaces(s[1..])
  }

  /** The number of whitespace characters that close `s`. */
  function TrailingSpaces(s: string): (n: nat)
    ensures n <= |s|
    ensures forall k :: |s| - n <= k < |s| ==> IsSpace(s[k])
    ensures n < |s| ==> !IsSpace(s[|s| - n - 1])
  {
    if s == [] || !IsSpace(s[|s| - 1]) then 0
    else 1 + TrailingSpaces(s[..|s| - 1])
  }

  /**
   * `trim`: what is left after removing the whitespace at both ends, so it
   * neither starts nor ends with whitespace, and it is empty only when `s`
   * is all whitespace.
   */
  function Trim(s: string): (r: string)
    ensures |r| <= |s|
    ensures r == [] || (!IsSpace(r[0]) && !IsSpace(r[|r| - 1]))
    ensures r == [] ==> AllSpace(s)
  {
    var a := LeadingSpaces(s);
    if a == |s| then []
    else s[a..|s| - TrailingSpaces(s)]
  }

  /** `r` is the slice of `s` from `i`, with only whitespace before and after it. */
  predicate SliceBetweenSpaces(s: string, r: string, i: int) {
    0 <= i <= |s| - |r| && s[i..i + |r|] == r &&
    (forall k :: 0 <= k < i ==> IsSpace(s[k])) &&
    (forall k :: i + |r| <= k < |s| ==> IsSpace(s[k]))
  }

  /** `trim` removes only whitespace, and only at the ends. */
  lemma TrimIsSlice(s: string)
    ensures exists i :: SliceBetweenSpaces(s, Trim(s), i)
  {
    assert SliceBetweenSpaces(s, Trim(s), LeadingSpaces(s));
  }

  /** Trimming adds no upper-case letter. */
  lemma TrimKeepsNoUpper(s: string)
    requires NoUpper(s)
    ensures NoUpper(Trim(s))
  {
    TrimIsSlice(s);
    var r := Trim(s);
    var i :| SliceBetweenSpaces(s, r, i);
    assert forall k :: 0 <= k < |r| ==> r[k] == s[i + k];
  }

  /** JavaScript's `includes`: `needle` starts at some position of `hay`. */
  predicate Contains(hay: string, needle: string) {
    needle <= hay || (hay != [] && Contains(hay[1..], needle))
  }

  /** `needle` occurs in `hay` starting at position `i`. */
  predicate OccursAt(hay: string, needle: string, i: int) {
    0 <= i <= |hay| - |needle| && needle <= hay[i..]
  }

  lemma OccursShift(hay: string, needle: string, i: int)
    requires 1 <= i <= |hay|
    ensures OccursAt(hay, needle, i) <==> OccursAt(hay[1..], needle, i - 1)
  {
    assert hay[1..][i - 1..] == hay[i..];
  }

  /** `Contains` is the substring relation. */
  lemma {:induction false} ContainsIff(hay: string, needle: string)
    ensures Contains(hay, needle) <==> exists i :: OccursAt(hay, needle, i)
  {
    if needle <= hay {
      assert OccursAt(hay, needle, 0);
    } else if hay != [] {
      ContainsIff(hay[1..], needle);
      if Contains(hay[1..], needle) {
        var i :| OccursAt(hay[1..], needle, i);
        OccursShift(hay, needle, i + 1);
      }
      if exists i :: OccursAt(hay, needle, i) {
        var i :| OccursAt(hay, needle, i);
        OccursShift(hay, needle, i);
      }
    }
  }

  /** Index of the first whitespace character of `s`, or `|s|` when there is none. */
  function FirstSpace(s: string): (i: nat)
    ensures i <= |s|
    ensures i < |s| ==> IsSpace(s[i])
    ensures NoSpace(s[..i])
  {
    if s == [] || IsSpace(s[0]) then 0
    else
      var m := FirstSpace(s[1..]);
      assert s[..m + 1] == [s[0]] + s[1..][..m];
      m + 1
  }

  /** The end of the whitespace run of `s` that starts at `i`. */
  function SpaceRunEnd(s: string, i: nat): (j: nat)
    requires i <= |s|
    ensures i <= j <= |s|
    ensures forall k :: i <= k < j ==> IsSpace(s[k])
    ensures j < |s| ==> !IsSpace(s[j])
    decreases |s| - i
  {
    if i == |s| || !IsSpace(s[i]) then i else SpaceRunEnd(s, i + 1)
  }

  /** Where the whitespace run that starts at the first whitespace of `s` ends. */
  function RunEnd(s: string): (j: nat)
    requires FirstSpace(s) < |s|
    ensures FirstSpace(s) < j <= |s|
    ensures forall k :: FirstSpace(s) <= k < j ==> IsSpace(s[k])
    ensures j < |s| ==> !IsSpace(s[j])
  {
    SpaceRunEnd(s, FirstSpace(s))
  }

  lemma SliceAllSpace(s: string, i: nat, j: nat)
    requires i <= j <= |s|
    requires forall k :: i <= k < j ==> IsSpace(s[k])
    ensures AllSpace(s[i..j])
  {
    assert forall k :: 0 <= k < j - i ==> s[i..j][k] == s[i + k];
  }

  /**
   * `s.split(/\s+/)`: the pieces between maximal runs of whitespace. A
   * leading or trailing run yields an empty first or last piece, and the
   * empty string yields one empty piece, as in JavaScript.
   */
  function Split(s: string): (words: seq<string>)
    ensures |words| >= 1
    ensures forall k :: 0 <= k < |words| ==> NoSpace(words[k])
    decreases |s|
  {
    var i := FirstSpace(s);
    if i == |s| then
      assert s[..i] == s;
      [s]
    else
      [s[..i]] + Split(s[RunEnd(s)..])
  }

  /** The whitespace runs `Split` cuts `s` at, in order. */
  function Separators(s: string): seq<string>
    decreases |s|
  {
    var i := FirstSpace(s);
    if i == |s| then []
    else
      var j := RunEnd(s);
      [s[i..j]] + Separators(s[j..])
  }

  /** `words[0] + seps[0] + words[1] + ... + words[|words| - 1]`. */
  function Interleave(words: seq<string>, seps: seq<string>): string
    requires |words| == |seps| + 1
    decreases |seps|
  {
    if seps == [] then words[0]
    else words[0] + seps[0] + Interleave(words[1..], seps[1..])
  }

  lemma InterleaveCons(w: string, words: seq<string>, sep: string, seps: seq<string>)
    requires |words| == |seps| + 1
    ensures Interleave([w] + words, [sep] + seps) == w + sep + Interleave(words, seps)
  {
    assert ([w] + words)[1..] == words;
    assert ([sep] + seps)[1..] == seps;
  }

  /** One cut of `Split`: the first piece, then the pieces of what follows the whitespace run. */
  lemma SplitCut(s: string, i: nat, j: nat)
    requires i == FirstSpace(s) < |s| && j == RunEnd(s)
    ensures Split(s) == [s[..i]] + Split(s[j..])
  {
  }

  /** One cut of `Separators`: the first whitespace run, then the runs of what follows it. */
  lemma SeparatorsCut(s: string, i: nat, j: nat)
    requires i == FirstSpace(s) < |s| && j == RunEnd(s)
    ensures Separators(s) == [s[i..j]] + Separators(s[j..])
    ensures AllSpace(s[i..j])
  {
    SliceAllSpace(s, i, j);
  }

  lemma ThreeSlices(s: string, i: nat, j: nat)
    requires i <= j <= |s|
    ensures s == s[..i] + s[i..j] + s[j..]
  {
    assert s[..i] + s[i..j] == s[..j];
  }

  /**
   * `Split` loses nothing but the separators: putting the pieces back
   * together with the whitespace runs between them gives `s` again, and
   * every separator is a non-empty run of whitespace.
   */
  lemma {:induction false} SplitRoundTrip(s: string)
    ensures |Separators(s)| == |Split(s)| - 1
    ensures forall k :: 0 <= k < |Separators(s)| ==> Separators(s)[k] != [] && AllSpace(Separators(s)[k])
    ensures Interleave(Split(s), Separators(s)) == s
    decreases |s|
  {
    var i := FirstSpace(s);
    if i == |s| {
      assert s[..i] == s;
    } else {
      var j := RunEnd(s);
      SplitCut(s, i, j);
      SeparatorsCut(s, i, j);
      ThreeSlices(s, i, j);
      SplitRoundTrip(s[j..]);
      InterleaveCons(s[..i], Split(s[j..]), s[i..j], Separators(s[j..]));
    }
  }

  /** A string with no whitespace at either end is non-empty and neither starts nor ends with whitespace. */
  predicate Trimmed(s: string) {
    s != [] && !IsSpace(s[0]) && !IsSpace(s[|s| - 1])
  }

  /** Splitting a trimmed string gives no empty piece. */
  lemma {:induction false} SplitTrimmedNoEmpty(s: string)
    requires Trimmed(s)
    ensures forall k :: 0 <= k < |Split(s)| ==> Split(s)[k] != []
    decreases |s|
  {
    var i := FirstSpace(s);
    if i < |s| {
      var j := RunEnd(s);
      assert j < |s|;
      var rest := s[j..];
      assert rest[0] == s[j] && rest[|rest| - 1] == s[|s| - 1];
      SplitTrimmedNoEmpty(rest);
      SplitCut(s, i, j);
    } else {
      assert s[..i] == s;
    }
  }

  /** ASCII word characters, those of `\w` and `\b` in a regular expression without the `u` flag. */
  predicate IsWordChar(c: char) {
    'a' <= c <= 'z' || 'A' <= c <= 'Z' || '0' <= c <= '9' || c == '_'
  }

  /** `\b` at position `i` of `s`: a word character on exactly one side. */
  predicate IsBoundary(s: string, i: int)
    requires 0 <= i <= |s|
  {
    (i > 0 && IsWordChar(s[i - 1])) != (i < |s| && IsWordChar(s[i]))
  }

  /** `w` occurs in `s` at position `i` with `\b` on both sides. */
  predicate WordAt(s: string, w: string, i: nat) {
    i + |w| <= |s| && w <= s[i..] && IsBoundary(s, i) && IsBoundary(s, i + |w|)
  }

  /** `w` occurs with `\b` on both sides at some position from `i` on. */
  predicate ContainsWordFrom(s: string, w: string, i: nat)
    decreases |s| - i
  {
    i + |w| <= |s| && (WordAt(s, w, i) || ContainsWordFrom(s, w, i + 1))
  }

  /** `w` occurs in `s` with `\b` on both sides. */
  predicate ContainsWord(s: string, w: string) {
    ContainsWordFrom(s, w, 0)
  }

  /** The scan from position `i` finds exactly the bounded occurrences at `i` or later. */
  lemma {:induction false} ContainsWordFromIff(s: string, w: string, i: nat)
    ensures ContainsWordFrom(s, w, i) <==> exists j :: i <= j && WordAt(s, w, j)
    decreases |s| - i
  {
    if i + |w| <= |s| {
      ContainsWordFromIff(s, w, i + 1);
      if exists j :: i <= j && WordAt(s, w, j) {
        var j :| i <= j && WordAt(s, w, j);
        assert j == i || i + 1 <= j;
      }
    } else {
      assert forall j :: i <= j ==> !WordAt(s, w, j);
    }
  }

  /** `s.match(/\b(w1|w2|...)\b/)` succeeds: one of the alternatives occurs as a bounded word. */
  predicate ContainsAnyWord(s: string, ws: seq<string>) {
    ws != [] && (ContainsWord(s, ws[0]) || ContainsAnyWord(s, ws[1..]))
  }

  lemma {:induction false} ContainsAnyWordIff(s: string, ws: seq<string>)
    ensures ContainsAnyWord(s, ws) <==> exists k, j :: 0 <= k < |ws| && WordAt(s, ws[k], j)
  {
    if ws != [] {
      ContainsWordFromIff(s, ws[0], 0);
      ContainsAnyWordIff(s, ws[1..]);
      if exists k, j :: 0 <= k < |ws| && WordAt(s, ws[k], j) {
        var k, j :| 0 <= k < |ws| && WordAt(s, ws[k], j);
        if k > 0 {
          assert ws[1..][k - 1] == ws[k];
        }
      }
      if ContainsAnyWord(s, ws[1..]) {
        var k, j :| 0 <= k < |ws[1..]| && WordAt(s, ws[1..][k], j);
        assert WordAt(s, ws[k + 1], j);
      }
    }
  }

  /** The normal form of the widget's input: lower-cased, then trimmed. */
  function Normalize(s: string): string {
    Trim(Lower(s))
  }

  /** A normal form has no upper-case letter. */
  lemma NormalHasNoUpper(s: string)
    ensures NoUpper(Normalize(s))
  {
    var l := Lower(s);
    forall i | 0 <= i < |l|
      ensures !IsUpper(l[i])
    {
      assert l[i] == LowerChar(s[i]);
    }
    TrimKeepsNoUpper(l);
    assert Normalize(s) == Trim(l);
  }

  /** A normal form has no whitespace at either end. */
  lemma NormalIsTrimmed(s: string)
    ensures Normalize(s) == [] || (!IsSpace(Normalize(s)[0]) && !IsSpace(Normalize(s)[|Normalize(s)| - 1]))
  {
  }

  lemma LowerOfNoUpper(s: string)
    requires NoUpper(s)
    ensures Lower(s) == s
  {
  }

  lemma TrimOfTrimmed(s: string)
    requires s == [] || (!IsSpace(s[0]) && !IsSpace(s[|s| - 1]))
    ensures Trim(s) == s
  {
  }

  /** Normalising twice is normalising once. */
  lemma NormalizeIdempotent(s: string)
    ensures Normalize(Normalize(s)) == Normalize(s)
  {
    var r := Normalize(s);
    NormalHasNoUpper(s);
    NormalIsTrimmed(s);
    LowerOfNoUpper(r);
    TrimOfTrimmed(r);
  }
}
