/** "3D Markers to Empty": one empty object per tracked point that has a
    reconstructed 3D position (a bundle) and is selected, named after the
    track's position in the tracking object's track list, all parented to a
    "Trackpoint" empty. */
module TrackExport {
  import opened Common
  import opened Decimal

  /** A motion track, reduced to the two flags the export looks at. */
  datatype Track = Track(hasBundle: bool, select: bool)

  predicate Exported(t: Track) {
    t.hasBundle && t.select
  }

  const ParentName: seq<char> := "Trackpoint"

  /** `f"Track_{i + 1:03}"`: "Track_" then the one-based track number,
      zero-padded to at least three digits. */
  function TrackName(i: nat): (name: seq<char>)
    ensures |name| >= 9 && name[..6] == "Track_"
    ensures |name| == 6 + if |Digits(i + 1)| < 3 then 3 else |Digits(i + 1)|
    ensures AllDigits(name[6..]) && Value(name[6..]) == i + 1
  {
    var name := "Track_" + ZeroPad(i + 1, 3);
    assert name[6..] == ZeroPad(i + 1, 3);
    name
  }

  /** Distinct tracks get distinct names, and none is the parent's name. */
  lemma TrackNamesDistinct(i: nat, j: nat)
    ensures TrackName(i) == TrackName(j) <==> i == j
    ensures TrackName(i) != ParentName
  {
    var a, b := TrackName(i), TrackName(j);
    if a == b {
      assert a[6..] == b[6..];
    }
    assert a[..6][5] == '_' && ParentName[5] == 'p';
  }

  /** Indices of the tracks that get an empty, in track order. */
  function ExportedIndices(tracks: seq<Track>): (r: seq<nat>)
    ensures forall k :: 0 <= k < |r| ==> r[k] < |tracks| && Exported(tracks[r[k]])
    ensures forall i :: 0 <= i < |tracks| && Exported(tracks[i]) ==> i in r
    ensures forall a, b :: 0 <= a < b < |r| ==> r[a] < r[b]
  {
    if tracks == [] then []
    else
      var n := |tracks| - 1;
      var earlier := ExportedIndices(tracks[..n]);
      if Exported(tracks[n]) then earlier + [n] else earlier
  }

  /** The empty names for a list of track indices. */
  function NamesOf(idx: seq<nat>): (names: seq<seq<char>>)
    ensures |names| == |idx|
    ensures forall k :: 0 <= k < |idx| ==> names[k] == TrackName(idx[k])
  {
    if idx == [] then []
    else NamesOf(idx[..|idx| - 1]) + [TrackName(idx[|idx| - 1])]
  }

  /** Names of the empties the export creates, in creation order. */
  function ExportedNames(tracks: seq<Track>): seq<seq<char>> {
    NamesOf(ExportedIndices(tracks))
  }

  /** Scanning one more track appends its empty's name when it qualifies. */
  lemma ExportedNamesStep(tracks: seq<Track>, i: nat)
    requires i < |tracks|
    ensures ExportedNames(tracks[..i + 1])
         == ExportedNames(tracks[..i]) + (if Exported(tracks[i]) then [TrackName(i)] else [])
  {
    var t := tracks[..i + 1];
    assert t[..i] == tracks[..i];
    var extra: seq<nat> := if Exported(tracks[i]) then [i] else [];
    assert ExportedIndices(t) == ExportedIndices(tracks[..i]) + extra;
    if Exported(tracks[i]) {
      assert (ExportedIndices(tracks[..i]) + extra)[..|ExportedIndices(tracks[..i])|] == ExportedIndices(tracks[..i]);
    }
  }

  /** An empty is named after track `i` exactly when that track qualifies. */
  lemma ExportedNameIff(tracks: seq<Track>, i: nat)
    requires i < |tracks|
    ensures TrackName(i) in ExportedNames(tracks) <==> Exported(tracks[i])
  {
    var idx := ExportedIndices(tracks);
    var names := ExportedNames(tracks);
    if TrackName(i) in names {
      var k :| 0 <= k < |names| && names[k] == TrackName(i);
      TrackNamesDistinct(idx[k], i);
    }
    if Exported(tracks[i]) {
      var k :| 0 <= k < |idx| && idx[k] == i;
      assert names[k] == TrackName(i);
    }
  }

  /** The same, for every track at once. */
  lemma ExportedNamesExact(tracks: seq<Track>)
    ensures forall i :: 0 <= i < |tracks| ==>
      (TrackName(i) in ExportedNames(tracks) <==> Exported(tracks[i]))
  {
    forall i | 0 <= i < |tracks|
      ensures TrackName(i) in ExportedNames(tracks) <==> Exported(tracks[i])
    {
      ExportedNameIff(tracks, i);
    }
  }

  /** No two created empties share a name, none takes the parent's name, and
      nothing is created exactly when no track qualifies. */
  lemma ExportedNamesDistinct(tracks: seq<Track>)
    ensures forall a, b :: 0 <= a < b < |ExportedNames(tracks)| ==>
      ExportedNames(tracks)[a] != ExportedNames(tracks)[b]
    ensures ParentName !in ExportedNames(tracks)
    ensures ExportedNames(tracks) == [] <==> forall i :: 0 <= i < |tracks| ==> !Exported(tracks[i])
  {
    var idx := ExportedIndices(tracks);
    var names := ExportedNames(tracks);
    forall a, b | 0 <= a < b < |names|
      ensures names[a] != names[b]
    {
      TrackNamesDistinct(idx[a], idx[b]);
    }
    forall k | 0 <= k < |names|
      ensures names[k] != ParentName
    {
      TrackNamesDistinct(idx[k], idx[k]);
    }
    if names != [] {
      assert Exported(tracks[idx[0]]);
    }
  }

  /** The operator's `execute`. `tracks` is the active tracking object's track
      list, None when there is no active tracking object. `objects` lists the
      names of the objects the operator leaves in the scene: the "Trackpoint"
      parent followed by one empty per exported track, or nothing when it
      cancels (the parent it created is removed again). */
  method MarkersToEmpties(tracks: Option<seq<Track>>) returns (status: Status, objects: seq<seq<char>>)
    ensures tracks.None? ==> status == Cancelled && objects == []
    ensures tracks.Some? ==> (status == Cancelled <==> ExportedNames(tracks.value) == [])
    ensures status == Cancelled ==> objects == []
    ensures status == Finished ==> tracks.Some? && objects == [ParentName] + ExportedNames(tracks.value)
  {
    if tracks.None? {
      return Cancelled, [];
    }
    var ts := tracks.value;
    var created: seq<seq<char>> := [];
    for i := 0 to |ts|
      invariant created == ExportedNames(ts[..i])
    {
      ExportedNamesStep(ts, i);
      if Exported(ts[i]) {
        created := created + [TrackName(i)];
      }
    }
    assert ts[..|ts|] == ts;
    if created == [] {
      return Cancelled, [];
    }
    return Finished, [ParentName] + created;
  }

  /** Scene frame to reconstruction frame: the clip's own frame numbering
      starts at 1 on the clip's start frame. */
  function RelativeFrame(sceneCurrent: int, clipStart: int): (r: int)
    ensures SceneFrame(r, clipStart) == sceneCurrent
    ensures r == 1 <==> sceneCurrent == clipStart
  {
    sceneCurrent - clipStart + 1
  }

  /** Reconstruction frame back to scene frame. */
  function SceneFrame(relative: int, clipStart: int): int {
    clipStart + relative - 1
  }

  lemma RelativeFrameRoundTrip(relative: int, clipStart: int)
    ensures RelativeFrame(SceneFrame(relative, clipStart), clipStart) == relative
  {
  }

  /** The frame at which the camera's reconstruction is looked up, or None
      when there is no scene camera or no valid reconstruction (the empties
      are then placed with the identity transform). */
  function ReconstructionFrame(hasCamera: bool, reconstructionValid: bool,
                               sceneCurrent: int, clipStart: int): (r: Option<int>)
    ensures r.Some? <==> hasCamera && reconstructionValid
    ensures r.Some? ==> SceneFrame(r.value, clipStart) == sceneCurrent
  {
    if hasCamera && reconstructionValid then Some(RelativeFrame(sceneCurrent, clipStart)) else None
  }
}
