/** The string primitives the ingestion script leans on: JavaScript's `\s` and
    `\w` character classes, ASCII case mapping, `includes`, `split`/`join`,
    `trim` and the whitespace-run replacement `replace(/\s+/g, ' ')`. Case
    mapping is ASCII-only: a non-ASCII letter is left as it is. */
module Text {

  /** A character of the `\s` class of JavaScript regular expressions; this is
      also exactly the set that `String.prototype.trim` strips. */
  predicate IsSpace(c: char) {
    var n := c as int;
    || (9 <= n <= 13) || n == 32 || n == 0xA0 || n == 0x1680
    || (0x2000 <= n <= 0x200A) || n == 0x2028 || n == 0x2029
    || n == 0x202F || n == 0x205F || n == 0x3000 || n == 0xFEFF
  }

  predicate IsDigit(c: char) { '0' <= c <= '9' }

  predicate IsAsciiUpper(c: char) { 'A' <= c <= 'Z' }

  predicate IsAsciiLower(c: char) { 'a' <= c <= 'z' }

  /** A character of the `\w` class: what a `\b` word boundary separates from the rest. */
  predicate IsWordChar(c: char) {
    IsAsciiUpper(c) || IsAsciiLower(c) || IsDigit(c) || c == '_'
  }

  predicate AllDigits(s: string) {
    forall i :: 0 <= i < |s| ==> IsDigit(s[i])
  }

  /** No ASCII capital letter in `s`. */
  predicate NoUpper(s: string) {
    forall i :: 0 <= i < |s| ==> !IsAsciiUpper(s[i])
  }

  function LowerChar(c: char): char {
    if IsAsciiUpper(c) then (c as int + 32) as char else c
  }

  function UpperChar(c: char): char {
    if IsAsciiLower(c) then (c as int - 32) as char else c
  }

  /** `s.toLowerCase()` for ASCII letters. */
  function Lower(s: string): (r: string)
    ensures |r| == |s|
    ensures forall i :: 0 <= i < |s| ==> r[i] == LowerChar(s[i])
    ensures NoUpper(r)
  {
    if |s| == 0 then "" else [LowerChar(s[0])] + Lower(s[1..])
  }

  /** Lower-casing works character by character, so it distributes over concatenation. */
  lemma LowerAppend(a: string, b: string)
    ensures Lower(a + b) == Lower(a) + Lower(b)
  {
    var l, r := Lower(a + b), Lower(a) + Lower(b);
    assert |l| == |r|;
    forall i | 0 <= i < |l| ensures l[i] == r[i] {
      if i < |a| {
        assert (a + b)[i] == a[i];
      } else {
        assert (a + b)[i] == b[i - |a|];
      }
    }
  }

  lemma LowerOfLowercase(s: string)
    requires NoUpper(s)
    ensures Lower(s) == s
  {
  }

  // ---------------------------------------------------------------------------
  // Substring search: `s.includes(t)`
  // ---------------------------------------------------------------------------

  /** `t` occurs in `s` at index `k`. */
  predicate OccursAt(s: string, t: string, k: nat) {
    k + |t| <= |s| && s[k..k + |t|] == t
  }

  /** Characters `j..` of `t` agree with `s` from index `i + j` on. */
  predicate MatchesFrom(s: string, t: string, i: nat, j: nat)
    requires i + |t| <= |s|
    decreases |t| - j
  {
    j >= |t| || (s[i + j] == t[j] && MatchesFrom(s, t, i, j + 1))
  }

  /** `t` occurs in `s` at some index `i` or later. */
  predicate OccursFrom(s: string, t: string, i: nat)
    decreases |s| - i
  {
    i + |t| <= |s| && (MatchesFrom(s, t, i, 0) || OccursFrom(s, t, i + 1))
  }

  /** `s.includes(t)`: plain substring containment, no notion of words. */
  predicate Contains(s: string, t: string) {
    OccursFrom(s, t, 0)
  }

  lemma {:induction false} MatchesFromIff(s: string, t: string, i: nat, j: nat)
    requires i + |t| <= |s| && j <= |t|
    ensures MatchesFrom(s, t, i, j) <==> s[i + j..i + |t|] == t[j..]
    decreases |t| - j
  {
    if j < |t| {
      MatchesFromIff(s, t, i, j + 1);
      assert s[i + j..i + |t|] == [s[i + j]] + s[i + j + 1..i + |t|];
      assert t[j..] == [t[j]] + t[j + 1..];
    }
  }

  lemma {:induction false} OccursFromIff(s: string, t: string, i: nat)
    ensures OccursFrom(s, t, i) <==> exists k: nat :: i <= k && OccursAt(s, t, k)
    decreases |s| - i
  {
    if i + |t| <= |s| {
      MatchesFromIff(s, t, i, 0);
      assert t[0..] == t;
      OccursFromIff(s, t, i + 1);
      if OccursFrom(s, t, i) {
        if MatchesFrom(s, t, i, 0) {
          assert OccursAt(s, t, i);
        } else {
          var k: nat :| i + 1 <= k && OccursAt(s, t, k);
          assert i <= k;
        }
      }
      if exists k: nat :: i <= k && OccursAt(s, t, k) {
        var k: nat :| i <= k && OccursAt(s, t, k);
        if k == i {
          assert MatchesFrom(s, t, i, 0);
        } else {
          assert i + 1 <= k;
          assert OccursFrom(s, t, i + 1);
        }
      }
    } else {
      forall k: nat | i <= k
        ensures !OccursAt(s, t, k)
      {
      }
    }
  }

  /** `includes` is the existence of an occurrence. */
  lemma ContainsIff(s: string, t: string)
    ensures Contains(s, t) <==> exists k: nat :: OccursAt(s, t, k)
  {
    OccursFromIff(s, t, 0);
  }

  /** A term with a character that `s` lacks does not occur in `s`. */
  lemma NotContainedWithout(s: string, t: string, j: nat)
    requires j < |t| && t[j] !in s
    ensures !Contains(s, t)
  {
    ContainsIff(s, t);
    forall k: nat
      ensures !OccursAt(s, t, k)
    {
      if k + |t| <= |s| {
        assert s[k..k + |t|][j] == s[k + j];
        assert s[k + j] in s;
      }
    }
  }

  /** An occurrence at a known index makes `includes` true. */
  lemma ContainedAt(s: string, t: string, k: nat)
    requires OccursAt(s, t, k)
    ensures Contains(s, t)
  {
    ContainsIff(s, t);
  }

  /** `t` occurs in any text written around it. */
  lemma ContainedInMiddle(a: string, t: string, b: string)
    ensures Contains(a + t + b, t)
  {
    assert (a + t + b)[|a|..|a| + |t|] == t;
    ContainedAt(a + t + b, t, |a|);
  }

  /** An occurrence survives appending to either side. */
  lemma ContainedInExtension(s: string, t: string, a: string, b: string)
    requires Contains(s, t)
    ensures Contains(a + s + b, t)
  {
    ContainsIff(s, t);
    var k: nat :| OccursAt(s, t, k);
    assert (a + s + b)[|a| + k..|a| + k + |t|] == s[k..k + |t|];
    ContainedAt(a + s + b, t, |a| + k);
  }

  predicate StartsWith(s: string, p: string) {
    |p| <= |s| && s[..|p|] == p
  }

  lemma StartsWithAppend(p: string, t: string)
    ensures StartsWith(p + t, p)
  {
    assert (p + t)[..|p|] == p;
  }

  // ---------------------------------------------------------------------------
  // split / join
  // ---------------------------------------------------------------------------

  /** Index of the first `c` in `s`, or `|s|` when there is none. */
  function IndexOf(s: string, c: char): (k: nat)
    ensures k <= |s|
    ensures k < |s| ==> s[k] == c
    ensures forall j :: 0 <= j < k ==> s[j] != c
  {
    if |s| == 0 then 0 else if s[0] == c then 0 else 1 + IndexOf(s[1..], c)
  }

  /** `s.split(c)` for a one-character separator. */
  function Split(s: string, c: char): (parts: seq<string>)
    ensures |parts| > 0
    ensures forall p | p in parts :: c !in p
    ensures parts[0] == s[..IndexOf(s, c)]
    decreases |s|
  {
    var k := IndexOf(s, c);
    if k == |s| then [s] else [s[..k]] + Split(s[k + 1..], c)
  }

  /** `parts.join(c)`. */
  function Join(parts: seq<string>, c: char): string {
    if |parts| == 0 then ""
    else if |parts| == 1 then parts[0]
    else parts[0] + [c] + Join(parts[1..], c)
  }

  /** Splitting and re-joining on the same separator gives the string back. */
  lemma {:induction false} JoinSplit(s: string, c: char)
    ensures Join(Split(s, c), c) == s
    decreases |s|
  {
    var k := IndexOf(s, c);
    if k < |s| {
      var rest := s[k + 1..];
      var tail := Split(rest, c);
      JoinSplit(rest, c);
      JoinCons(s[..k], tail, c);
      SliceAround(s, k);
      calc {
        Join(Split(s, c), c);
        Join([s[..k]] + tail, c);
        s[..k] + [c] + Join(tail, c);
        s[..k] + [c] + rest;
        s;
      }
    } else {
      assert Split(s, c) == [s];
    }
  }

  lemma SliceAround(s: string, k: nat)
    requires k < |s|
    ensures s[..k] + [s[k]] + s[k + 1..] == s
  {
  }

  /** The characters of `a + [x] + b`, by position. */
  lemma AroundIndex(a: string, x: char, b: string)
    ensures |a + [x] + b| == |a| + 1 + |b|
    ensures forall i :: 0 <= i < |a| ==> (a + [x] + b)[i] == a[i]
    ensures (a + [x] + b)[|a|] == x
    ensures forall i :: 0 <= i < |b| ==> (a + [x] + b)[|a| + 1 + i] == b[i]
  {
  }

  lemma JoinCons(head: string, tail: seq<string>, c: char)
    requires |tail| > 0
    ensures Join([head] + tail, c) == head + [c] + Join(tail, c)
  {
    var parts := [head] + tail;
    assert parts[0] == head && parts[1..] == tail;
  }

  /** `s.split(' ')[0]`: everything before the first space. */
  function FirstWord(s: string): string {
    Split(s, ' ')[0]
  }

  // ---------------------------------------------------------------------------
  // Title case, as `extractVarietal` builds it
  // ---------------------------------------------------------------------------

  /** `w.charAt(0).toUpperCase() + w.slice(1)`. */
  function Capitalize(w: string): (r: string)
    ensures |r| == |w|
    ensures forall i :: 0 <= i < |w| ==> r[i] == (if i == 0 then UpperChar(w[0]) else w[i])
  {
    if |w| == 0 then w else [UpperChar(w[0])] + w[1..]
  }

  function CapitalizeAll(ws: seq<string>): (r: seq<string>)
    ensures |r| == |ws|
    ensures forall i :: 0 <= i < |ws| ==> r[i] == Capitalize(ws[i])
  {
    if |ws| == 0 then [] else [Capitalize(ws[0])] + CapitalizeAll(ws[1..])
  }

  /** `s.split(' ').map(capitalize).join(' ')`. */
  function TitleCase(s: string): string {
    Join(CapitalizeAll(Split(s, ' ')), ' ')
  }

  /** Title-casing upper-cases exactly the first character and every character
      that follows a space, and leaves the rest alone. */
  lemma {:induction false} TitleCaseChars(s: string)
    ensures |TitleCase(s)| == |s|
    ensures forall i :: 0 <= i < |s| ==>
      TitleCase(s)[i] == (if i == 0 || s[i - 1] == ' ' then UpperChar(s[i]) else s[i])
    decreases |s|
  {
    var k := IndexOf(s, ' ');
    if k == |s| {
      TitleCaseOneWordChars(s);
    } else {
      TitleCaseChars(s[k + 1..]);
      TitleCaseSpaceChars(s, k);
    }
  }

  lemma TitleCaseOneWordChars(s: string)
    requires IndexOf(s, ' ') == |s|
    ensures |TitleCase(s)| == |s|
    ensures forall i :: 0 <= i < |s| ==>
      TitleCase(s)[i] == (if i == 0 || s[i - 1] == ' ' then UpperChar(s[i]) else s[i])
  {
    TitleCaseOneWord(s);
  }

  /** `r` is `s` with its first character and every character after a space
      upper-cased. */
  predicate TitleCasedAs(s: string, r: string) {
    && |r| == |s|
    && forall i :: 0 <= i < |s| ==> r[i] == (if i == 0 || s[i - 1] == ' ' then UpperChar(s[i]) else s[i])
  }

  /** The step at the first space: from the characters of the title-cased
      rest to those of the whole. */
  lemma TitleCaseSpaceChars(s: string, k: nat)
    requires k == IndexOf(s, ' ') < |s|
    requires TitleCasedAs(s[k + 1..], TitleCase(s[k + 1..]))
    ensures |TitleCase(s)| == |s|
    ensures forall i :: 0 <= i < |s| ==>
      TitleCase(s)[i] == (if i == 0 || s[i - 1] == ' ' then UpperChar(s[i]) else s[i])
  {
    var rest := s[k + 1..];
    TitleCaseAtSpace(s, k);
    var after := TitleCase(rest);
    forall j | 0 <= j < |after|
      ensures after[j] == (if j == 0 || s[k + j] == ' ' then UpperChar(s[k + 1 + j]) else s[k + 1 + j])
    {
      assert rest[j] == s[k + 1 + j];
      if j > 0 {
        assert rest[j - 1] == s[k + j];
      }
    }
    TitleCaseHeadChars(s, k, after);
    TitleCaseTailChars(s, k, after);
  }

  /** Up to the first space, title-casing is capitalizing the first word. */
  lemma TitleCaseHeadChars(s: string, k: nat, after: string)
    requires k == IndexOf(s, ' ') < |s|
    ensures var r := Capitalize(s[..k]) + [' '] + after;
      forall i :: 0 <= i <= k ==> r[i] == (if i == 0 || s[i - 1] == ' ' then UpperChar(s[i]) else s[i])
  {
    var head := Capitalize(s[..k]);
    var r := head + [' '] + after;
    AroundIndex(head, ' ', after);
    forall i | 0 <= i <= k
      ensures r[i] == (if i == 0 || s[i - 1] == ' ' then UpperChar(s[i]) else s[i])
    {
      if i < k {
        assert r[i] == head[i];
        if i > 0 {
          assert s[i - 1] != ' ';
        }
      }
    }
  }

  /** After the first space, the characters are those of the title-cased rest. */
  lemma TitleCaseTailChars(s: string, k: nat, after: string)
    requires k < |s| && s[k] == ' ' && |after| == |s| - k - 1
    requires forall j :: 0 <= j < |after| ==>
      after[j] == (if j == 0 || s[k + j] == ' ' then UpperChar(s[k + 1 + j]) else s[k + 1 + j])
    ensures var r := Capitalize(s[..k]) + [' '] + after;
      forall i :: k < i < |s| ==> r[i] == (if i == 0 || s[i - 1] == ' ' then UpperChar(s[i]) else s[i])
  {
    var head := Capitalize(s[..k]);
    var r := head + [' '] + after;
    AroundIndex(head, ' ', after);
    forall i | k < i < |s|
      ensures r[i] == (if i == 0 || s[i - 1] == ' ' then UpperChar(s[i]) else s[i])
    {
      var j := i - k - 1;
      assert r[|head| + 1 + j] == after[j];
    }
  }

  /** A single word is just capitalized. */
  lemma TitleCaseOneWord(s: string)
    requires IndexOf(s, ' ') == |s|
    ensures TitleCase(s) == Capitalize(s)
  {
    assert Split(s, ' ') == [s];
  }

  /** Title-casing capitalizes the first word and title-cases what follows
      the first space. */
  lemma {:induction false} TitleCaseAtSpace(s: string, k: nat)
    requires k == IndexOf(s, ' ') < |s|
    ensures TitleCase(s) == Capitalize(s[..k]) + [' '] + TitleCase(s[k + 1..])
  {
    var tail := Split(s[k + 1..], ' ');
    SplitAtFirst(s, k);
    CapitalizeAllCons(s[..k], tail);
    JoinCons(Capitalize(s[..k]), CapitalizeAll(tail), ' ');
  }

  /** The first piece of a split ends at the first separator. */
  lemma {:induction false} SplitAtFirst(s: string, k: nat)
    requires k == IndexOf(s, ' ') < |s|
    ensures Split(s, ' ') == [s[..k]] + Split(s[k + 1..], ' ')
  {
  }

  lemma {:induction false} CapitalizeAllCons(w: string, ws: seq<string>)
    ensures CapitalizeAll([w] + ws) == [Capitalize(w)] + CapitalizeAll(ws)
  {
    assert ([w] + ws)[1..] == ws;
  }

  lemma LowerUpper(c: char)
    ensures LowerChar(UpperChar(c)) == LowerChar(c)
  {
  }

  /** Lower-casing a title-cased string gives back its lower-cased original. */
  lemma LowerTitleCase(s: string)
    ensures Lower(TitleCase(s)) == Lower(s)
  {
    TitleCaseChars(s);
    var r := TitleCase(s);
    forall i | 0 <= i < |s|
      ensures LowerChar(r[i]) == LowerChar(s[i])
    {
      assert r[i] == (if i == 0 || s[i - 1] == ' ' then UpperChar(s[i]) else s[i]);
      LowerUpper(s[i]);
    }
    var a, b := Lower(r), Lower(s);
    assert |a| == |b|;
    assert forall i :: 0 <= i < |a| ==> a[i] == b[i];
  }

  // ---------------------------------------------------------------------------
  // Whitespace: trim and run collapsing
  // ---------------------------------------------------------------------------

  /** Number of whitespace characters at the front of `s`. */
  function LeadingSpaces(s: string): (n: nat)
    ensures n <= |s|
    ensures forall i :: 0 <= i < n ==> IsSpace(s[i])
    ensures n < |s| ==> !IsSpace(s[n])
  {
    if |s| == 0 || !IsSpace(s[0]) then 0 else 1 + LeadingSpaces(s[1..])
  }

  /** Index of the first non-whitespace character of `s` at or after `e`, or
      `|s|`: where `\s*` starting at `e` stops. */
  function SpacesEnd(s: string, e: nat): (k: nat)
    requires e <= |s|
    ensures e <= k <= |s|
    decreases |s| - e
  {
    if e < |s| && IsSpace(s[e]) then SpacesEnd(s, e + 1) else e
  }

  /** Number of whitespace characters at the back of `s`. */
  function TrailingSpaces(s: string): (n: nat)
    ensures n <= |s|
    ensures forall i :: |s| - n <= i < |s| ==> IsSpace(s[i])
    ensures n < |s| ==> !IsSpace(s[|s| - 1 - n])
  {
    if |s| == 0 || !IsSpace(s[|s| - 1]) then 0 else 1 + TrailingSpaces(s[..|s| - 1])
  }

  /** `s.trim()`: the slice of `s` between its leading and trailing whitespace. */
  function Trim(s: string): (r: string)
    ensures |r| > 0 ==> !IsSpace(r[0]) && !IsSpace(r[|r| - 1])
    ensures |r| == 0 <==> forall i :: 0 <= i < |s| ==> IsSpace(s[i])
  {
    var t := s[LeadingSpaces(s)..];
    t[..|t| - TrailingSpaces(t)]
  }

  /** The characters of `s` that are not whitespace, in order. */
  function NonSpace(s: string): string {
    if |s| == 0 then ""
    else if IsSpace(s[0]) then NonSpace(s[1..])
    else [s[0]] + NonSpace(s[1..])
  }

  /** A string that opens with a visible character has a visible character. */
  lemma NonSpaceOfVisibleStart(s: string)
    requires |s| > 0 && !IsSpace(s[0])
    ensures NonSpace(s) != ""
  {
  }

  lemma {:induction false} NonSpaceSkipsSpaces(s: string, n: nat)
    requires n <= |s|
    requires forall i :: 0 <= i < n ==> IsSpace(s[i])
    ensures NonSpace(s) == NonSpace(s[n..])
  {
    if n > 0 {
      NonSpaceSkipsSpaces(s[1..], n - 1);
      assert s[1..][n - 1..] == s[n..];
    }
  }

  lemma {:induction false} NonSpaceAppend(a: string, b: string)
    ensures NonSpace(a + b) == NonSpace(a) + NonSpace(b)
    decreases |a|
  {
    if |a| == 0 {
      assert a + b == b;
    } else {
      NonSpaceAppend(a[1..], b);
      assert (a + b)[0] == a[0];
      assert (a + b)[1..] == a[1..] + b;
      if !IsSpace(a[0]) {
        assert NonSpace(a) == [a[0]] + NonSpace(a[1..]);
      }
    }
  }

  lemma {:induction false} NonSpaceOfSpaces(s: string)
    requires forall i :: 0 <= i < |s| ==> IsSpace(s[i])
    ensures NonSpace(s) == ""
    decreases |s|
  {
    if |s| > 0 {
      NonSpaceOfSpaces(s[1..]);
    }
  }

  /** Trimming removes whitespace only. */
  lemma TrimKeepsNonSpace(s: string)
    ensures NonSpace(Trim(s)) == NonSpace(s)
  {
    var n := LeadingSpaces(s);
    var t := s[n..];
    NonSpaceSkipsSpaces(s, n);
    NonSpaceDropsTrailing(t, |t| - TrailingSpaces(t));
  }

  lemma {:induction false} NonSpaceDropsTrailing(t: string, m: nat)
    requires m <= |t|
    requires forall i :: m <= i < |t| ==> IsSpace(t[i])
    ensures NonSpace(t[..m]) == NonSpace(t)
  {
    var tail := t[m..];
    assert t == t[..m] + tail;
    NonSpaceAppend(t[..m], tail);
    NonSpaceOfSpaces(tail);
  }

  /** Trimming a single-spaced string leaves it single-spaced. */
  lemma TrimKeepsSingleSpaced(s: string)
    requires SingleSpaced(s)
    ensures SingleSpaced(Trim(s))
  {
    var n := LeadingSpaces(s);
    var t := s[n..];
    assert SingleSpaced(t);
  }

  /** Trimming changes nothing in a string without whitespace at either end. */
  lemma TrimUntouched(s: string)
    requires |s| > 0 ==> !IsSpace(s[0]) && !IsSpace(s[|s| - 1])
    ensures Trim(s) == s
  {
  }

  /** `s.replace(/\s+/g, ' ')`: each maximal run of whitespace becomes a single
      space; every other character is kept in order. */
  function CollapseSpaces(s: string): (r: string)
    ensures forall i :: 0 <= i < |r| && IsSpace(r[i]) ==> r[i] == ' '
    ensures forall i :: 0 <= i < |r| - 1 ==> !(IsSpace(r[i]) && IsSpace(r[i + 1]))
    ensures |s| > 0 ==> |r| > 0 && (IsSpace(r[0]) <==> IsSpace(s[0]))
    ensures NonSpace(r) == NonSpace(s)
    decreases |s|
  {
    if |s| == 0 then ""
    else if IsSpace(s[0]) then
      var n := LeadingSpaces(s);
      NonSpaceSkipsSpaces(s, n);
      " " + CollapseSpaces(s[n..])
    else
      [s[0]] + CollapseSpaces(s[1..])
  }

  /** The collapsed string ends in whitespace exactly when the original does. */
  lemma {:induction false} CollapseLast(s: string)
    requires |s| > 0
    ensures |CollapseSpaces(s)| > 0
    ensures IsSpace(CollapseSpaces(s)[|CollapseSpaces(s)| - 1]) <==> IsSpace(s[|s| - 1])
    decreases |s|
  {
    if IsSpace(s[0]) {
      var n := LeadingSpaces(s);
      CollapseOfSpaceStart(s);
      if n < |s| {
        CollapseLast(s[n..]);
        LastOfConcat(" ", CollapseSpaces(s[n..]));
        assert s[n..][|s[n..]| - 1] == s[|s| - 1];
      }
    } else {
      CollapseOfVisibleStart(s);
      if |s| > 1 {
        CollapseLast(s[1..]);
        LastOfConcat([s[0]], CollapseSpaces(s[1..]));
        assert s[1..][|s[1..]| - 1] == s[|s| - 1];
      }
    }
  }

  /** The last character of a concatenation with a non-empty second part. */
  lemma LastOfConcat(x: string, y: string)
    requires |y| > 0
    ensures (x + y)[|x + y| - 1] == y[|y| - 1]
  {
  }

  /** Collapsing a text that opens with whitespace: one space, then the
      collapse of what follows the run. */
  lemma {:induction false} CollapseOfSpaceStart(s: string)
    requires |s| > 0 && IsSpace(s[0])
    ensures CollapseSpaces(s) == " " + CollapseSpaces(s[LeadingSpaces(s)..])
  {
  }

  /** Collapsing a text that opens with a visible character keeps it. */
  lemma {:induction false} CollapseOfVisibleStart(s: string)
    requires |s| > 0 && !IsSpace(s[0])
    ensures CollapseSpaces(s) == [s[0]] + CollapseSpaces(s[1..])
  {
  }

  /** Collapsing works piece by piece across a cut just after a visible
      character: no whitespace run straddles the cut. */
  lemma {:induction false} CollapseAppend(a: string, t: string)
    requires |a| > 0 ==> !IsSpace(a[|a| - 1])
    ensures CollapseSpaces(a + t) == CollapseSpaces(a) + CollapseSpaces(t)
    decreases |a|, 1
  {
    if |a| == 0 {
      assert a + t == t;
    } else if IsSpace(a[0]) {
      CollapseAppendAtSpace(a, t);
    } else {
      CollapseAppendAtVisible(a, t);
    }
  }

  /** `CollapseAppend` when `a` opens with a whitespace run. */
  lemma {:induction false} CollapseAppendAtSpace(a: string, t: string)
    requires |a| > 0 && IsSpace(a[0]) && !IsSpace(a[|a| - 1])
    ensures CollapseSpaces(a + t) == CollapseSpaces(a) + CollapseSpaces(t)
    decreases |a|, 0
  {
    var s := a + t;
    assert s[0] == a[0];
    var n := LeadingSpaces(a);
    assert n < |a|;
    LeadingSpacesPrefix(a, t);
    assert s[n..] == a[n..] + t;
    var rest := a[n..];
    assert rest[|rest| - 1] == a[|a| - 1];
    CollapseAppend(rest, t);
    CollapseOfSpaceStart(a);
    CollapseOfSpaceStart(s);
    assert CollapseSpaces(s) == " " + (CollapseSpaces(rest) + CollapseSpaces(t));
    ConcatAssoc(" ", CollapseSpaces(rest), CollapseSpaces(t));
  }

  /** `CollapseAppend` when `a` opens with a visible character. */
  lemma {:induction false} CollapseAppendAtVisible(a: string, t: string)
    requires |a| > 0 && !IsSpace(a[0]) && !IsSpace(a[|a| - 1])
    ensures CollapseSpaces(a + t) == CollapseSpaces(a) + CollapseSpaces(t)
    decreases |a|, 0
  {
    var s := a + t;
    assert s[0] == a[0];
    var rest := a[1..];
    assert s[1..] == rest + t;
    assert |rest| > 0 ==> rest[|rest| - 1] == a[|a| - 1];
    CollapseAppend(rest, t);
    CollapseOfVisibleStart(a);
    CollapseOfVisibleStart(s);
    assert CollapseSpaces(s) == [a[0]] + (CollapseSpaces(rest) + CollapseSpaces(t));
    ConcatAssoc([a[0]], CollapseSpaces(rest), CollapseSpaces(t));
  }

  /** Concatenation is associative. */
  lemma ConcatAssoc(x: string, y: string, z: string)
    ensures x + (y + z) == (x + y) + z
  {
  }

  /** A whitespace run of any length and kind, followed by a visible
      character or by nothing, becomes exactly one space. */
  lemma {:induction false} CollapseRun(ws: string, b: string)
    requires |ws| > 0 && forall i :: 0 <= i < |ws| ==> IsSpace(ws[i])
    requires |b| > 0 ==> !IsSpace(b[0])
    ensures CollapseSpaces(ws + b) == " " + CollapseSpaces(b)
  {
    var s := ws + b;
    var n := LeadingSpaces(s);
    assert forall i :: 0 <= i < |ws| ==> s[i] == ws[i];
    assert |b| > 0 ==> s[|ws|] == b[0];
    assert n == |ws|;
    assert s[n..] == b;
  }

  /** Text appended after a visible character leaves the leading run alone. */
  lemma {:induction false} LeadingSpacesPrefix(x: string, r: string)
    requires LeadingSpaces(x) < |x|
    ensures LeadingSpaces(x + r) == LeadingSpaces(x)
  {
    var s, n := x + r, LeadingSpaces(x);
    assert forall i :: 0 <= i <= n ==> s[i] == x[i];
  }

  /** Text put before a visible character leaves the trailing run alone. */
  lemma {:induction false} TrailingSpacesSuffix(l: string, y: string)
    requires TrailingSpaces(y) < |y|
    ensures TrailingSpaces(l + y) == TrailingSpaces(y)
  {
    var s, n := l + y, TrailingSpaces(y);
    assert forall j :: |l| <= j < |s| ==> s[j] == y[j - |l|];
    assert s[|s| - 1 - n] == y[|y| - 1 - n];
  }

  /** A whitespace run between two visible characters collapses to one
      space, and the two sides collapse on their own. */
  lemma {:induction false} CollapseJoin(a: string, ws: string, b: string)
    requires |a| > 0 && !IsSpace(a[|a| - 1])
    requires |ws| > 0 && forall i :: 0 <= i < |ws| ==> IsSpace(ws[i])
    requires |b| > 0 && !IsSpace(b[0])
    ensures CollapseSpaces(a + ws + b) == CollapseSpaces(a) + " " + CollapseSpaces(b)
  {
    ConcatAssoc(a, ws, b);
    CollapseAppend(a, ws + b);
    CollapseRun(ws, b);
    ConcatAssoc(CollapseSpaces(a), " ", CollapseSpaces(b));
  }

  /** A string ending in a visible character loses only its leading run. */
  lemma {:induction false} TrimVisibleEnd(x: string)
    requires |x| > 0 && !IsSpace(x[|x| - 1])
    ensures Trim(x) == x[LeadingSpaces(x)..]
  {
    assert TrailingSpaces(x[LeadingSpaces(x)..]) == 0;
  }

  /** A string starting with a visible character loses only its trailing run. */
  lemma {:induction false} TrimVisibleStart(y: string)
    requires |y| > 0 && !IsSpace(y[0])
    ensures Trim(y) == y[..|y| - TrailingSpaces(y)]
  {
    assert LeadingSpaces(y) == 0 && y[0..] == y;
  }

  /** The leading run of `x + " " + y` is that of `x`, when `x` ends visibly. */
  lemma {:induction false} JoinLeading(x: string, y: string)
    requires |x| > 0 && !IsSpace(x[|x| - 1])
    ensures LeadingSpaces(x + " " + y) == LeadingSpaces(x)
    ensures (x + " " + y)[LeadingSpaces(x)..] == x[LeadingSpaces(x)..] + " " + y
  {
    var lx := LeadingSpaces(x);
    assert x + " " + y == x + (" " + y);
    LeadingSpacesPrefix(x, " " + y);
  }

  /** The trailing run of `u + " " + y` is that of `y`, when `y` starts visibly. */
  lemma {:induction false} JoinTrailing(u: string, y: string)
    requires |y| > 0 && !IsSpace(y[0])
    ensures TrailingSpaces(u + " " + y) == TrailingSpaces(y)
    ensures (u + " " + y)[..|u| + 1 + |y| - TrailingSpaces(y)] == u + " " + y[..|y| - TrailingSpaces(y)]
  {
    TrailingSpacesSuffix(u + " ", y);
  }

  /** Trimming `x + " " + y` cuts the leading run of `x` and the trailing
      run of `y`. */
  lemma {:induction false} TrimOfJoin(x: string, y: string)
    requires |x| > 0 && !IsSpace(x[|x| - 1])
    requires |y| > 0 && !IsSpace(y[0])
    ensures Trim(x + " " + y) == x[LeadingSpaces(x)..] + " " + y[..|y| - TrailingSpaces(y)]
  {
    var u := x[LeadingSpaces(x)..];
    JoinLeading(x, y);
    JoinTrailing(u, y);
  }

  /** Trimming a join of two pieces at one space trims the outer ends only. */
  lemma {:induction false} TrimJoin(x: string, y: string)
    requires |x| > 0 && !IsSpace(x[|x| - 1])
    requires |y| > 0 && !IsSpace(y[0])
    ensures Trim(x + " " + y) == Trim(x) + " " + Trim(y)
  {
    TrimVisibleEnd(x);
    TrimVisibleStart(y);
    TrimOfJoin(x, y);
  }

  /** Whitespace in `s` is single spaces only, never two in a row. */
  predicate SingleSpaced(s: string) {
    && (forall i :: 0 <= i < |s| && IsSpace(s[i]) ==> s[i] == ' ')
    && (forall i :: 0 <= i < |s| - 1 ==> !(IsSpace(s[i]) && IsSpace(s[i + 1])))
  }

  /** Collapsing changes nothing in a string that is already single-spaced. */
  lemma {:induction false} CollapseSingleSpaced(s: string)
    requires SingleSpaced(s)
    ensures CollapseSpaces(s) == s
    decreases |s|
  {
    if |s| > 0 {
      assert SingleSpaced(s[1..]);
      CollapseSingleSpaced(s[1..]);
      if IsSpace(s[0]) {
        assert LeadingSpaces(s) == 1;
      }
    }
  }

  /** Number of newline characters at the front of `s`. */
  function LeadingNewlines(s: string): (n: nat)
    ensures 0 < |s| && s[0] == '\n' ==> 0 < n
    ensures n <= |s|
  {
    if |s| == 0 || s[0] != '\n' then 0 else 1 + LeadingNewlines(s[1..])
  }

  /** `s.replace(/\n+/g, ' ')`: each run of newlines becomes a single space. */
  function ReplaceNewlines(s: string): (r: string)
    ensures '\n' !in r
    decreases |s|
  {
    if |s| == 0 then ""
    else if s[0] == '\n' then " " + ReplaceNewlines(s[LeadingNewlines(s)..])
    else [s[0]] + ReplaceNewlines(s[1..])
  }

  lemma {:induction false} ReplaceNewlinesWithout(s: string)
    requires '\n' !in s
    ensures ReplaceNewlines(s) == s
    decreases |s|
  {
    if |s| > 0 {
      ReplaceNewlinesWithout(s[1..]);
    }
  }
}
