/** `get_frame_number_from_path`: the frame number of an image-sequence file,
    found with the pattern `(\d+)\.\w+$` (digits, a `.`, then word characters
    up to the end of the path). The image-plane and the projection operators
    each carry an identical copy; this module models both. */
module PathFrame {
  import opened Common
  import opened Decimal
  import LeftmostSearch

  /** `\w` restricted to ASCII: letters, digits and the underscore. */
  predicate IsWordChar(c: char) {
    ('a' <= c <= 'z') || ('A' <= c <= 'Z') || IsDigit(c) || c == '_'
  }

  predicate AllWord(s: seq<char>) {
    forall i :: 0 <= i < |s| ==> IsWordChar(s[i])
  }

  /** Length of the maximal run of word characters starting at `i`. */
  function WordRunLength(s: seq<char>, i: nat): (k: nat)
    requires i <= |s|
    ensures i + k <= |s|
    ensures AllWord(s[i..i + k])
    ensures i + k == |s| || !IsWordChar(s[i + k])
    decreases |s| - i
  {
    if i < |s| && IsWordChar(s[i]) then
      var k := 1 + WordRunLength(s, i + 1);
      assert s[i..i + k] == [s[i]] + s[i + 1..i + k];
      k
    else 0
  }

  lemma {:induction false} WordRunLengthUnique(s: seq<char>, i: nat, k: nat)
    requires i + k <= |s|
    requires AllWord(s[i..i + k])
    requires i + k == |s| || !IsWordChar(s[i + k])
    ensures WordRunLength(s, i) == k
    decreases k
  {
    if k > 0 {
      assert IsWordChar(s[i..i + k][0]);
      assert s[i + 1..i + k] == s[i..i + k][1..];
      WordRunLengthUnique(s, i + 1, k - 1);
    }
  }

  /** A word run starting at `i` stops at or before the first non-word
      character from `i` on. */
  lemma {:induction false} WordRunStopsAt(s: seq<char>, i: nat, j: nat)
    requires i <= j < |s| && !IsWordChar(s[j])
    ensures i + WordRunLength(s, i) <= j
    decreases j - i
  {
    if i < j && IsWordChar(s[i]) {
      WordRunStopsAt(s, i + 1, j);
    }
  }

  /** Python's `$` without MULTILINE: the end of the string, or just before
      a single newline that ends it. */
  predicate AtEnd(s: seq<char>, q: nat) {
    q == |s| || (q + 1 == |s| && s[q] == '\n')
  }

  /** Declarative reading of the pattern: it matches at `p` with `l` digits
      in the group and `w` word characters after the `.`. */
  ghost predicate PatternAt(s: seq<char>, p: nat, l: nat, w: nat) {
    && l >= 1
    && w >= 1
    && p + l + 1 + w <= |s|
    && AllDigits(s[p..p + l])
    && s[p + l] == '.'
    && AllWord(s[p + l + 1..p + l + 1 + w])
    && AtEnd(s, p + l + 1 + w)
  }

  ghost predicate LeftmostPatternAt(s: seq<char>, p: nat, l: nat, w: nat) {
    PatternAt(s, p, l, w) && forall q: nat, l': nat, w': nat :: q < p ==> !PatternAt(s, q, l', w')
  }

  /** `s[i]` is the last `.` of `s`. */
  ghost predicate LastDot(s: seq<char>, i: nat) {
    i < |s| && s[i] == '.' && forall j :: i < j < |s| ==> s[j] != '.'
  }

  /** The matcher as the engine runs it at `p`: greedy `\d+` takes the whole
      digit run, greedy `\w+` the whole word run, and then `$` must hold;
      backtracking into either run cannot succeed. */
  predicate MatchesAt(s: seq<char>, p: nat) {
    && p <= |s|
    && var l := RunLength(s, p);
    && l >= 1
    && p + l < |s|
    && s[p + l] == '.'
    && AtEnd(s, p + l + 1 + WordRunLength(s, p + l + 1))
    && WordRunLength(s, p + l + 1) >= 1
  }

  /** `match.group(1)`: the digit run of the leftmost match, or None when
      the pattern is absent. */
  function FrameNumberField(path: seq<char>): (field: Option<seq<char>>)
    ensures field.Some? ==> |field.value| >= 1 && AllDigits(field.value)
  {
    match LeftmostSearch.Leftmost(path, 0, MatchesAt)
    case None => None
    case Some(p) => Some(path[p..p + RunLength(path, p)])
  }

  /** The frame number of a path (`int(match.group(1))`), or None when the
      pattern is absent. */
  function ParseFrameNumber(path: seq<char>): Option<nat> {
    match FrameNumberField(path)
    case None => None
    case Some(digits) => Some(Value(digits))
  }

  /** The engine's matcher finds a match of the declarative pattern. */
  lemma MatchesAtSound(s: seq<char>, p: nat)
    requires MatchesAt(s, p)
    ensures PatternAt(s, p, RunLength(s, p), WordRunLength(s, p + RunLength(s, p) + 1))
  {
  }

  /** The pattern can match at a given start in one way only, and the
      engine's matcher finds it. */
  lemma PatternAtUnique(s: seq<char>, p: nat, l: nat, w: nat)
    requires PatternAt(s, p, l, w)
    ensures MatchesAt(s, p) && l == RunLength(s, p) && w == WordRunLength(s, p + l + 1)
  {
    RunLengthUnique(s, p, l);
    WordRunLengthUnique(s, p + l + 1, w);
  }

  /** The `.` of any match is the last `.` of the string. */
  lemma MatchDotIsLast(s: seq<char>, p: nat)
    requires MatchesAt(s, p)
    ensures LastDot(s, p + RunLength(s, p))
  {
    var i := p + RunLength(s, p);
    var w := WordRunLength(s, i + 1);
    forall j | i < j < |s|
      ensures s[j] != '.'
    {
      if j < i + 1 + w {
        assert IsWordChar(s[i + 1..i + 1 + w][j - (i + 1)]);
      }
    }
  }

  /** No match found by the engine means no occurrence of the pattern. */
  lemma NoMatchNoPattern(s: seq<char>)
    requires forall q: nat :: q <= |s| ==> !MatchesAt(s, q)
    ensures forall p: nat, l: nat, w: nat :: !PatternAt(s, p, l, w)
  {
    forall p: nat, l: nat, w: nat
      ensures !PatternAt(s, p, l, w)
    {
      if PatternAt(s, p, l, w) {
        PatternAtUnique(s, p, l, w);
      }
    }
  }

  /** The engine's leftmost match is the leftmost occurrence of the pattern,
      its digit run is maximal and its `.` is the last one of the string. */
  lemma LeftmostMatch(s: seq<char>, p: nat)
    requires MatchesAt(s, p)
    requires forall q: nat :: q < p ==> !MatchesAt(s, q)
    ensures LeftmostPatternAt(s, p, RunLength(s, p), WordRunLength(s, p + RunLength(s, p) + 1))
    ensures p == 0 || !IsDigit(s[p - 1])
    ensures LastDot(s, p + RunLength(s, p))
  {
    MatchesAtSound(s, p);
    MatchDotIsLast(s, p);
    forall q: nat, l': nat, w': nat | q < p
      ensures !PatternAt(s, q, l', w')
    {
      if PatternAt(s, q, l', w') {
        PatternAtUnique(s, q, l', w');
      }
    }
    if p > 0 && IsDigit(s[p - 1]) {
      assert RunLength(s, p - 1) == 1 + RunLength(s, p);
      assert MatchesAt(s, p - 1);
      assert false;
    }
  }

  /** What the parser promises about a result `v`: the leftmost occurrence
      of the pattern is at `p`, its digit run of `l` digits is maximal and
      ends at the last `.` of `s`, and `v` is the value of that run. */
  ghost predicate FrameNumberAt(s: seq<char>, p: nat, l: nat, w: nat, v: nat) {
    && LeftmostPatternAt(s, p, l, w)
    && (p == 0 || !IsDigit(s[p - 1]))
    && LastDot(s, p + l)
    && v == Value(s[p..p + l])
  }

  /** The parser succeeds exactly when the pattern occurs in the path. */
  lemma ParseFrameNumberFound(s: seq<char>)
    ensures ParseFrameNumber(s).Some? <==> exists p: nat, l: nat, w: nat :: PatternAt(s, p, l, w)
  {
    var r := LeftmostSearch.Leftmost(s, 0, MatchesAt);
    if r.Some? {
      MatchesAtSound(s, r.value);
    } else {
      NoMatchNoPattern(s);
    }
  }

  /** The parser's result is the value of the maximal digit run that ends
      just before the last `.` of the path, and everything after that `.` is
      word characters (up to an optional final newline). */
  lemma ParseFrameNumberValue(s: seq<char>)
    requires ParseFrameNumber(s).Some?
    ensures exists p: nat, l: nat, w: nat :: FrameNumberAt(s, p, l, w, ParseFrameNumber(s).value)
  {
    var p := LeftmostSearch.Leftmost(s, 0, MatchesAt).value;
    var l := RunLength(s, p);
    LeftmostMatch(s, p);
    assert FrameNumberAt(s, p, l, WordRunLength(s, p + l + 1), ParseFrameNumber(s).value);
  }

  /** In `base + digits + "." + ext`, no match starts inside `base` when
      `base` does not end in a digit: a match's `.` is the last one, so its
      digit run would have to reach back over the end of `base`. */
  lemma NoMatchInBase(base: seq<char>, d: seq<char>, ext: seq<char>, q: nat)
    requires base == [] || !IsDigit(base[|base| - 1])
    requires |d| >= 1 && AllDigits(d)
    requires |ext| >= 1 && AllWord(ext)
    requires q < |base|
    ensures !MatchesAt(base + d + ['.'] + ext, q)
  {
    var s := base + d + ['.'] + ext;
    var dot := |base| + |d|;
    var i := q + RunLength(s, q);
    assert s[|base| - 1] == base[|base| - 1];
    RunStopsAt(s, q, |base| - 1);
    if s[i] == '.' {
      assert s[dot] == '.';
      WordRunStopsAt(s, i + 1, dot);
    }
  }

  /** In `base + digits + "." + ext` the pattern matches where the digits start. */
  lemma MatchAtDigits(s: seq<char>, base: seq<char>, d: seq<char>, ext: seq<char>)
    requires s == base + d + ['.'] + ext
    requires |d| >= 1 && AllDigits(d)
    requires |ext| >= 1 && AllWord(ext)
    ensures MatchesAt(s, |base|) && RunLength(s, |base|) == |d|
  {
    var dot := |base| + |d|;
    assert s[|base|..dot] == d;
    RunLengthUnique(s, |base|, |d|);
    assert s[dot] == '.';
    assert s[dot + 1..|s|] == ext;
    WordRunLengthUnique(s, dot + 1, |ext|);
  }

  /** In `base + digits + "." + ext`, with `base` not ending in a digit, the
      captured group is `digits`. */
  lemma FormattedPathField(s: seq<char>, base: seq<char>, d: seq<char>, ext: seq<char>)
    requires s == base + d + ['.'] + ext
    requires base == [] || !IsDigit(base[|base| - 1])
    requires |d| >= 1 && AllDigits(d)
    requires |ext| >= 1 && AllWord(ext)
    ensures FrameNumberField(s) == Some(d)
  {
    MatchAtDigits(s, base, d, ext);
    forall q: nat | q < |base|
      ensures !MatchesAt(s, q)
    {
      NoMatchInBase(base, d, ext, q);
    }
    LeftmostSearch.LeftmostIs(s, |base|, MatchesAt);
    assert s[|base|..|base| + |d|] == d;
  }

  /** A sequence file named the usual way (`shot_0042.png`,
      `render/frame1001.exr`) parses back to its frame number, provided the
      part before the number does not end in a digit. */
  lemma ParseFormattedPath(base: seq<char>, n: nat, width: nat, ext: seq<char>)
    requires base == [] || !IsDigit(base[|base| - 1])
    requires |ext| >= 1 && AllWord(ext)
    ensures ParseFrameNumber(base + ZeroPad(n, width) + ['.'] + ext) == Some(n)
  {
    FormattedPathField(base + ZeroPad(n, width) + ['.'] + ext, base, ZeroPad(n, width), ext);
  }
}
