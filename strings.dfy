/** String operations the source takes from JavaScript's standard library
    (`includes`, `indexOf`, `trim`, `toLowerCase`, `split`/`join`,
    `replace` with a global pattern), written out on `seq<char>`. */
module Strings {
  import opened Wrappers

  /** `pat` occurs in `s` starting at index `i`. */
  predicate OccursAt(s: string, pat: string, i: int) {
    0 <= i && i + |pat| <= |s| && s[i..i + |pat|] == pat
  }

  /** `s.includes(w)`, defined by scanning from the left. */
  predicate Contains(s: string, w: string)
    decreases |s|
  {
    |w| <= |s| && (s[..|w|] == w || (|s| > 0 && Contains(s[1..], w)))
  }

  /** `includes` means an occurrence exists at some index. */
  lemma {:induction false} ContainsIff(s: string, w: string)
    ensures Contains(s, w) <==> exists i :: OccursAt(s, w, i)
    decreases |s|
  {
    if |w| > |s| {
      assert forall i :: !OccursAt(s, w, i);
    } else if s[..|w|] == w {
      assert OccursAt(s, w, 0);
    } else {
      assert |s| > 0;
      ContainsIff(s[1..], w);
      if Contains(s[1..], w) {
        var i :| OccursAt(s[1..], w, i);
        assert OccursAt(s, w, i + 1) by { assert s[1..][i..i + |w|] == s[i + 1..i + 1 + |w|]; }
      }
      if exists i :: OccursAt(s, w, i) {
        var i :| OccursAt(s, w, i);
        assert i != 0;
        assert OccursAt(s[1..], w, i - 1) by { assert s[1..][i - 1..i - 1 + |w|] == s[i..i + |w|]; }
      }
    }
  }

  /** The first index `i >= from` where `pat` occurs in `s`, as
      `s.indexOf(pat, from)` finds it. */
  function IndexOfFrom(s: string, pat: string, from: nat): (r: Option<nat>)
    ensures r.Some? ==> from <= r.value && OccursAt(s, pat, r.value)
    ensures r.Some? ==> forall j :: from <= j < r.value ==> !OccursAt(s, pat, j)
    ensures r.None? ==> forall j :: from <= j ==> !OccursAt(s, pat, j)
    decreases |s| - from
  {
    if from + |pat| > |s| then None
    else if s[from..from + |pat|] == pat then Some(from)
    else IndexOfFrom(s, pat, from + 1)
  }

  /** The least `k` with `p <= k < hi` at which `P` holds: how a regular
      expression engine picks the leftmost start (or shortest lazy extent)
      among the candidates it tries in order (`FirstWhereIsLeast`). */
  function FirstWhere(P: nat -> bool, p: nat, hi: nat): (r: Option<nat>)
    ensures r.Some? ==> p <= r.value < hi && P(r.value)
    decreases hi - p
  {
    if hi <= p then None
    else if P(p) then Some(p)
    else FirstWhere(P, p + 1, hi)
  }

  /** No candidate before the one found satisfies `P`, and the search fails
      only when none does. */
  lemma {:induction false} FirstWhereIsLeast(P: nat -> bool, p: nat, hi: nat)
    ensures FirstWhere(P, p, hi).Some? ==> forall k :: p <= k < FirstWhere(P, p, hi).value ==> !P(k)
    ensures FirstWhere(P, p, hi).None? ==> forall k :: p <= k < hi ==> !P(k)
    decreases hi - p
  {
    if p < hi && !P(p) {
      FirstWhereIsLeast(P, p + 1, hi);
    }
  }

  /** JavaScript's `\s`: white space and line terminators. `String.prototype.trim`
      strips the same set. */
  predicate IsSpace(c: char) {
    c == ' ' || c == '\t' || c == '\n' || c == '\U{000B}' || c == '\U{000C}' || c == '\r'
    || c == '\U{00A0}' || c == '\U{1680}' || ('\U{2000}' <= c <= '\U{200A}')
    || c == '\U{2028}' || c == '\U{2029}' || c == '\U{202F}' || c == '\U{205F}'
    || c == '\U{3000}' || c == '\U{FEFF}'
  }

  predicate AllSpace(s: string) {
    forall i :: 0 <= i < |s| ==> IsSpace(s[i])
  }

  /** The index of the first character of `s` at or after `i` that is not
      white space, or `|s|`: where a greedy `\s*` starting at `i` stops. */
  function SkipSpaces(s: string, i: nat): (j: nat)
    requires i <= |s|
    ensures i <= j <= |s|
    decreases |s| - i
  {
    if i < |s| && IsSpace(s[i]) then SkipSpaces(s, i + 1) else i
  }

  /** `SkipSpaces` passes over white space only and stops at the first
      character that is not. */
  lemma {:induction false} SkipSpacesStops(s: string, i: nat)
    requires i <= |s|
    ensures AllSpace(s[i..SkipSpaces(s, i)])
    ensures SkipSpaces(s, i) < |s| ==> !IsSpace(s[SkipSpaces(s, i)])
    decreases |s| - i
  {
    if i < |s| && IsSpace(s[i]) {
      SkipSpacesStops(s, i + 1);
      var j := SkipSpaces(s, i);
      assert s[i..j] == [s[i]] + s[i + 1..j];
    }
  }

  /** Where a white-space run that ends at `j` starts: the least `i <= j`
      with `s[i..j]` all white space. */
  function SkipSpacesBack(s: string, j: nat): (i: nat)
    requires j <= |s|
    ensures i <= j
    ensures AllSpace(s[i..j])
    ensures i > 0 ==> !IsSpace(s[i - 1])
  {
    if j > 0 && IsSpace(s[j - 1]) then
      var i := SkipSpacesBack(s, j - 1);
      assert s[i..j] == s[i..j - 1] + [s[j - 1]];
      i
    else j
  }

  /** `s.trim()`. */
  function Trim(s: string): string {
    var i := SkipSpaces(s, 0);
    var j := SkipSpacesBack(s, |s|);
    if j <= i then "" else s[i..j]
  }

  /** `trim` keeps a contiguous middle part of `s` and removes only white
      space around it; the result neither starts nor ends with white space. */
  lemma TrimSpec(s: string)
    ensures exists i, j :: 0 <= i <= j <= |s| && Trim(s) == s[i..j]
                           && AllSpace(s[..i]) && AllSpace(s[j..])
    ensures Trim(s) == [] || (!IsSpace(Trim(s)[0]) && !IsSpace(Trim(s)[|Trim(s)| - 1]))
  {
    SkipSpacesStops(s, 0);
    var i := SkipSpaces(s, 0);
    var j := SkipSpacesBack(s, |s|);
    assert s[..i] == s[0..i];
    if j <= i {
      assert i == |s|;
      assert AllSpace(s[..|s|]) by {
        forall k | 0 <= k < |s| ensures IsSpace(s[k]) {
          assert s[0..i][k] == s[k];
        }
      }
      assert Trim(s) == s[|s|..|s|];
    } else {
      assert s[j..] == s[j..|s|];
      assert Trim(s) == s[i..j];
    }
  }

  /** ASCII lower-casing, `toLowerCase` on the characters the judge's keywords use. */
  function ToLowerChar(c: char): char {
    if 'A' <= c <= 'Z' then (c as int + 32) as char else c
  }

  function ToLower(s: string): (r: string)
    ensures |r| == |s|
    ensures forall i :: 0 <= i < |s| ==> r[i] == ToLowerChar(s[i])
  {
    seq(|s|, i requires 0 <= i < |s| => ToLowerChar(s[i]))
  }

  /** Decimal rendering of a natural number, as a template literal prints it. */
  function NatToString(n: nat): (r: string)
    ensures |r| > 0
    ensures forall i :: 0 <= i < |r| ==> '0' <= r[i] <= '9'
  {
    if n < 10 then [('0' as int + n) as char]
    else NatToString(n / 10) + [('0' as int + n % 10) as char]
  }

  /** `parts.join(sep)`. */
  function Join(parts: seq<string>, sep: string): string
    decreases |parts|
  {
    if |parts| == 0 then ""
    else if |parts| == 1 then parts[0]
    else parts[0] + sep + Join(parts[1..], sep)
  }

  /** `s.split(pat)` for a non-empty `pat`: the pieces between leftmost,
      non-overlapping occurrences, scanning from the left. */
  function Split(s: string, pat: string): (parts: seq<string>)
    requires |pat| > 0
    ensures |parts| > 0
    decreases |s|
  {
    if |s| < |pat| then [s]
    else if s[..|pat|] == pat then [""] + Split(s[|pat|..], pat)
    else
      var rest := Split(s[1..], pat);
      [[s[0]] + rest[0]] + rest[1..]
  }

  /** `s.replace(/pat/g, rep)` for a literal `pat` and a replacement text
      without `$` patterns, scanning from the left. */
  function ReplaceAll(s: string, pat: string, rep: string): string
    requires |pat| > 0
    decreases |s|
  {
    if |s| < |pat| then s
    else if s[..|pat|] == pat then rep + ReplaceAll(s[|pat|..], pat, rep)
    else [s[0]] + ReplaceAll(s[1..], pat, rep)
  }

  lemma ConcatAssoc(a: string, b: string, c: string)
    ensures (a + b) + c == a + (b + c)
  {
  }

  /** Joining one more part appends the separator and that part. */
  lemma {:induction false} JoinSnoc(parts: seq<string>, p: string, sep: string)
    ensures Join(parts + [p], sep) == if |parts| == 0 then p else Join(parts, sep) + sep + p
    decreases |parts|
  {
    if |parts| == 1 {
      assert (parts + [p])[1..] == [p];
    } else if |parts| > 1 {
      var tail := parts[1..];
      assert (parts + [p])[1..] == tail + [p];
      JoinSnoc(tail, p, sep);
      var a, b := parts[0] + sep, Join(tail, sep);
      assert Join(parts + [p], sep) == a + (b + sep + p);
      assert a + (b + sep + p) == (a + b) + sep + p;
    }
  }

  lemma {:induction false} JoinConsFirst(c: char, parts: seq<string>, sep: string)
    requires |parts| > 0
    ensures Join([[c] + parts[0]] + parts[1..], sep) == [c] + Join(parts, sep)
  {
    var ps := [[c] + parts[0]] + parts[1..];
    if |parts| > 1 {
      assert ps[1..] == parts[1..];
    }
  }

  /** Splitting on `pat` and joining with `rep` is replacing every
      occurrence of `pat` by `rep`. */
  lemma {:induction false} ReplaceAllIsSplitJoin(s: string, pat: string, rep: string)
    requires |pat| > 0
    ensures ReplaceAll(s, pat, rep) == Join(Split(s, pat), rep)
    decreases |s|
  {
    if |s| < |pat| {
    } else if s[..|pat|] == pat {
      var rest := s[|pat|..];
      ReplaceAllIsSplitJoin(rest, pat, rep);
      var parts := Split(rest, pat);
      assert Split(s, pat) == [""] + parts;
      assert ([""] + parts)[1..] == parts;
    } else {
      ReplaceAllIsSplitJoin(s[1..], pat, rep);
      JoinConsFirst(s[0], Split(s[1..], pat), rep);
    }
  }

  /** Splitting on `pat` and joining with `pat` gives the text back. */
  lemma {:induction false} SplitJoinRoundTrip(s: string, pat: string)
    requires |pat| > 0
    ensures Join(Split(s, pat), pat) == s
    decreases |s|
  {
    if |s| < |pat| {
    } else if s[..|pat|] == pat {
      var rest := s[|pat|..];
      SplitJoinRoundTrip(rest, pat);
      var parts := Split(rest, pat);
      assert Split(s, pat) == [""] + parts;
      assert ([""] + parts)[1..] == parts;
      assert s == pat + rest;
    } else {
      SplitJoinRoundTrip(s[1..], pat);
      JoinConsFirst(s[0], Split(s[1..], pat), pat);
      assert s == [s[0]] + s[1..];
    }
  }
}
