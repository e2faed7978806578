/** "Set Start Seq No.": read the first frame number of an image sequence out
    of a movie clip's name with the pattern `[._](\d{4,})\.` (a `.` or `_`,
    at least four digits, then a `.`) and make it the clip's start frame. */
module StartFrame {
  import opened Common
  import opened Decimal
  import LeftmostSearch

  predicate IsSeparator(c: char) {
    c == '.' || c == '_'
  }

  /** Declarative reading of the pattern: it matches at `p` with a group of
      `k` digits. Any `k` the regular expression could pick is allowed here. */
  ghost predicate PatternAt(s: seq<char>, p: nat, k: nat) {
    && p + 1 + k < |s|
    && IsSeparator(s[p])
    && k >= 4
    && AllDigits(s[p + 1..p + 1 + k])
    && s[p + 1 + k] == '.'
  }

  /** The pattern matches at `p` with its leftmost possible start. */
  ghost predicate LeftmostPatternAt(s: seq<char>, p: nat, k: nat) {
    PatternAt(s, p, k) && forall q: nat, j: nat :: q < p ==> !PatternAt(s, q, j)
  }

  /** The matcher as the regular-expression engine runs it at `p`: the greedy
      `\d{4,}` takes the whole digit run after the separator, and giving digits
      back cannot help, since the character after a shorter run is a digit and
      not the required `.`. */
  predicate MatchesAt(s: seq<char>, p: nat) {
    && p < |s|
    && IsSeparator(s[p])
    && var k := RunLength(s, p + 1);
    && k >= 4
    && p + 1 + k < |s|
    && s[p + 1 + k] == '.'
  }

  /** `match.group(1)`: the digits captured at the leftmost match, or None
      when the pattern is absent. */
  function StartFrameField(name: seq<char>): (field: Option<seq<char>>)
    ensures field.Some? ==> |field.value| >= 4 && AllDigits(field.value)
  {
    match LeftmostSearch.Leftmost(name, 0, MatchesAt)
    case None => None
    case Some(p) => Some(name[p + 1..p + 1 + RunLength(name, p + 1)])
  }

  /** The frame number in a clip name (`int(match.group(1))`), or None when
      the pattern is absent. */
  function ParseStartFrame(name: seq<char>): Option<nat> {
    match StartFrameField(name)
    case None => None
    case Some(digits) => Some(Value(digits))
  }

  /** The engine's matcher agrees with the declarative pattern, and the group
      it captures is the only one possible at that start. */
  lemma MatchesAtIff(s: seq<char>, p: nat)
    ensures MatchesAt(s, p) ==> p < |s| && PatternAt(s, p, RunLength(s, p + 1))
    ensures forall k: nat :: PatternAt(s, p, k) ==> MatchesAt(s, p) && k == RunLength(s, p + 1)
  {
    forall k: nat | PatternAt(s, p, k)
      ensures MatchesAt(s, p) && k == RunLength(s, p + 1)
    {
      RunLengthUnique(s, p + 1, k);
    }
  }

  /** The parser succeeds exactly when the pattern occurs in the name, and its
      result is the value of the digit group at the leftmost occurrence. */
  lemma ParseStartFrameCorrect(s: seq<char>)
    ensures ParseStartFrame(s).Some? <==> exists p: nat, k: nat :: PatternAt(s, p, k)
    ensures ParseStartFrame(s).Some? ==>
      exists p: nat, k: nat :: && LeftmostPatternAt(s, p, k)
                              && ParseStartFrame(s).value == Value(s[p + 1..p + 1 + k])
  {
    var r := LeftmostSearch.Leftmost(s, 0, MatchesAt);
    if r.Some? {
      var p := r.value;
      var k := RunLength(s, p + 1);
      MatchesAtIff(s, p);
      forall q: nat, j: nat | q < p
        ensures !PatternAt(s, q, j)
      {
        MatchesAtIff(s, q);
      }
      assert LeftmostPatternAt(s, p, k);
    } else {
      forall p: nat, k: nat
        ensures !PatternAt(s, p, k)
      {
        MatchesAtIff(s, p);
      }
    }
  }

  /** In `base + sep + digits + "." + ext` the first match is at `sep` and
      its group is `digits`, provided no separator in `base` is followed by
      a digit (`my_clip.0042.png`, `plate_A_1001.exr`). */
  lemma FormattedNameField(s: seq<char>, base: seq<char>, sep: char, d: seq<char>, ext: seq<char>)
    requires s == base + [sep] + d + ['.'] + ext
    requires forall i :: 0 <= i < |base| - 1 ==> !(IsSeparator(base[i]) && IsDigit(base[i + 1]))
    requires IsSeparator(sep)
    requires |d| >= 4 && AllDigits(d)
    ensures StartFrameField(s) == Some(d)
  {
    var p := |base|;
    assert s[p + 1..p + 1 + |d|] == d;
    RunLengthUnique(s, p + 1, |d|);
    forall q: nat | q < p
      ensures !MatchesAt(s, q)
    {
      assert s[q] == base[q];
      if q + 1 < p {
        assert s[q + 1] == base[q + 1];
      } else {
        assert s[q + 1] == sep;
      }
    }
    LeftmostSearch.LeftmostIs(s, p, MatchesAt);
  }

  /** A name spelled the way the operator's description suggests
      (`clip.0042.png`, `clip_1001.exr`) parses back to its frame number,
      provided no `.` or `_` before the frame field is followed by a digit. */
  lemma ParseFormattedName(base: seq<char>, sep: char, n: nat, ext: seq<char>)
    requires forall i :: 0 <= i < |base| - 1 ==> !(IsSeparator(base[i]) && IsDigit(base[i + 1]))
    requires IsSeparator(sep)
    ensures ParseStartFrame(base + [sep] + ZeroPad(n, 4) + ['.'] + ext) == Some(n)
  {
    FormattedNameField(base + [sep] + ZeroPad(n, 4) + ['.'] + ext, base, sep, ZeroPad(n, 4), ext);
  }

  /** For instance, `my_clip.0042.png` yields 42. */
  lemma ParseExampleName()
    ensures ParseStartFrame("my_clip.0042.png") == Some(42)
  {
    assert "my_clip.0042.png" == "my_clip" + ['.'] + "0042" + ['.'] + "png";
    FormattedNameField("my_clip.0042.png", "my_clip", '.', "0042", "png");
    assert Value("0042") == 42 by {
      assert "0042"[..3] == "004" && "004"[..2] == "00" && "00"[..1] == "0" && "0"[..0] == [];
    }
  }

  /** The movie clip the operator edits: its name and its start frame. */
  class MovieClip {
    const name: seq<char>
    var frameStart: int

    constructor (name: seq<char>, frameStart: int)
      ensures this.name == name && this.frameStart == frameStart
    {
      this.name := name;
      this.frameStart := frameStart;
    }

    /** The operator's `execute`: cancel without touching the clip when the
        name holds no frame number, otherwise set the start frame to it. */
    method SetStartFrameFromFilename() returns (status: Status)
      modifies this
      ensures ParseStartFrame(name).None? ==> status == Cancelled && frameStart == old(frameStart)
      ensures ParseStartFrame(name).Some? ==> status == Finished && frameStart == ParseStartFrame(name).value
    {
      var parsed := ParseStartFrame(name);
      match parsed
      case None =>
        status := Cancelled;
      case Some(frame) =>
        frameStart := frame;
        status := Finished;
    }
  }
}
