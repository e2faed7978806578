/** "Setup Camera Solver" and "Setup Object Solver": attach motion-tracking
    solver constraints to the scene camera or to the active object. */
module SolverSetup {
  import opened Common

  /** A constraint on an object's constraint stack. Solver constraints keep
      the clip they follow, whether they follow the editor's active clip
      instead, and (for an object solver) the tracking object and camera. */
  datatype Constraint =
    | CameraSolver(clip: seq<char>, useActiveClip: bool)
    | ObjectSolver(clip: seq<char>, useActiveClip: bool, trackingObject: seq<char>, camera: seq<char>)
    | OtherConstraint(typeName: seq<char>)

  predicate HasCameraSolver(cs: seq<Constraint>) {
    exists i :: 0 <= i < |cs| && cs[i].CameraSolver?
  }

  function CountCameraSolvers(cs: seq<Constraint>): (n: nat)
    ensures n == 0 <==> !HasCameraSolver(cs)
    ensures n <= |cs|
  {
    if cs == [] then 0
    else
      var n := CountCameraSolvers(cs[..|cs| - 1]);
      assert forall i :: 0 <= i < |cs| - 1 ==> cs[..|cs| - 1][i] == cs[i];
      if cs[|cs| - 1].CameraSolver? then n + 1 else n
  }

  /** The constraint stack after the camera-solver operator: a new camera
      solver bound to `clip` is appended only when none is present. */
  function WithCameraSolver(cs: seq<Constraint>, clip: seq<char>): (r: seq<Constraint>)
    ensures HasCameraSolver(r)
    ensures cs <= r && |r| <= |cs| + 1
    ensures |r| == |cs| + 1 <==> !HasCameraSolver(cs)
    ensures |r| == |cs| + 1 ==> r[|cs|] == CameraSolver(clip, false)
  {
    if HasCameraSolver(cs) then cs
    else
      var r := cs + [CameraSolver(clip, false)];
      assert r[|cs|].CameraSolver?;
      r
  }

  lemma {:induction false} CountAppend(cs: seq<Constraint>, c: Constraint)
    ensures CountCameraSolvers(cs + [c]) == CountCameraSolvers(cs) + (if c.CameraSolver? then 1 else 0)
  {
    assert (cs + [c])[..|cs|] == cs;
  }

  /** Running the operator again changes nothing, whatever clip it is given,
      and it leaves exactly one camera solver on a stack that had at most one. */
  lemma CameraSolverIdempotent(cs: seq<Constraint>, clip: seq<char>, clip': seq<char>)
    ensures WithCameraSolver(WithCameraSolver(cs, clip), clip') == WithCameraSolver(cs, clip)
    ensures CountCameraSolvers(cs) <= 1 ==> CountCameraSolvers(WithCameraSolver(cs, clip)) == 1
  {
    if !HasCameraSolver(cs) {
      CountAppend(cs, CameraSolver(clip, false));
    }
  }

  /** A 3D vector of the object's transform. */
  datatype Vec3 = Vec3(x: real, y: real, z: real)

  const Origin := Vec3(0.0, 0.0, 0.0)

  /** A scene object as the solver operators see it: its constraint stack
      and its location and rotation. */
  class SceneObject {
    var constraints: seq<Constraint>
    var location: Vec3
    var rotation: Vec3

    constructor (constraints: seq<Constraint>, location: Vec3, rotation: Vec3)
      ensures this.constraints == constraints && this.location == location && this.rotation == rotation
    {
      this.constraints := constraints;
      this.location := location;
      this.rotation := rotation;
    }

    /** The camera-solver operator's `execute` on the scene camera: cancel if
        a camera solver is already on the stack, otherwise append one bound
        to `clip` (not to the editor's active clip). */
    method SetupCameraSolver(clip: seq<char>) returns (status: Status)
      modifies this
      ensures status == Cancelled <==> HasCameraSolver(old(constraints))
      ensures constraints == WithCameraSolver(old(constraints), clip)
      ensures location == old(location) && rotation == old(rotation)
    {
      var i := 0;
      while i < |constraints|
        invariant 0 <= i <= |constraints|
        invariant forall j :: 0 <= j < i ==> !constraints[j].CameraSolver?
      {
        if constraints[i].CameraSolver? {
          return Cancelled;
        }
        i := i + 1;
      }
      constraints := constraints + [CameraSolver(clip, false)];
      return Finished;
    }

    /** The object-solver operator's `execute` on the active object: cancel
        without a scene camera; otherwise append an object solver for the
        active tracking object and reset location and rotation. */
    method SetupObjectSolver(clip: seq<char>, trackingObject: seq<char>, camera: Option<seq<char>>)
      returns (status: Status)
      modifies this
      ensures camera.None? ==>
        (&& status == Cancelled
         && constraints == old(constraints) && location == old(location) && rotation == old(rotation))
      ensures camera.Some? ==>
        (&& status == Finished
         && constraints == old(constraints) + [ObjectSolver(clip, false, trackingObject, camera.value)]
         && location == Origin && rotation == Origin)
    {
      if camera.None? {
        return Cancelled;
      }
      constraints := constraints + [ObjectSolver(clip, false, trackingObject, camera.value)];
      location := Origin;
      rotation := Origin;
      return Finished;
    }
  }

  /** The part of the context the object-solver poll inspects. */
  datatype ClipView = ClipView(activeTrackingObject: Option<seq<char>>)
  datatype PollContext = PollContext(hasActiveObject: bool, clip: Option<ClipView>)

  /** A poll either allows the operator or refuses it with the message it
      shows to the user. */
  datatype PollResult = Allowed | Refused(message: seq<char>)

  const NeedsActiveObject: seq<char> := "Requires an active object."
  const NeedsClip: seq<char> := "Requires an active clip in the editor."
  const NeedsTrackingObject: seq<char> := "No active tracking object in the movie clip."
  const RefusesCameraTrack: seq<char> := "Cannot setup Object Solver when 'Camera' track is active."

  /** The object-solver poll: its four checks, in order. */
  function PollObjectSolver(ctx: PollContext): PollResult {
    if !ctx.hasActiveObject then Refused(NeedsActiveObject)
    else if ctx.clip.None? then Refused(NeedsClip)
    else if ctx.clip.value.activeTrackingObject.None? then Refused(NeedsTrackingObject)
    else if ctx.clip.value.activeTrackingObject.value == "Camera" then Refused(RefusesCameraTrack)
    else Allowed
  }

  /** The four conditions, each stated on its own, and their messages. */
  function Checks(ctx: PollContext): (checks: seq<(bool, seq<char>)>)
    ensures |checks| == 4
  {
    var tracking := if ctx.clip.Some? then ctx.clip.value.activeTrackingObject else None;
    [ (ctx.hasActiveObject, NeedsActiveObject),
      (ctx.clip.Some?, NeedsClip),
      (tracking.Some?, NeedsTrackingObject),
      (tracking != Some("Camera"), RefusesCameraTrack) ]
  }

  /** The first failing check, if any. */
  function FirstFailure(checks: seq<(bool, seq<char>)>): (r: Option<nat>)
    ensures r.Some? ==> r.value < |checks| && !checks[r.value].0
    ensures r.Some? ==> forall k :: 0 <= k < r.value ==> checks[k].0
    ensures r.None? <==> forall k :: 0 <= k < |checks| ==> checks[k].0
  {
    if checks == [] then None
    else if !checks[0].0 then Some(0)
    else match FirstFailure(checks[1..])
      case None => None
      case Some(k) => Some(k + 1)
  }

  /** The poll allows the operator exactly when all four checks pass, and
      otherwise shows the message of the first check that fails. */
  lemma PollIsFirstFailure(ctx: PollContext)
    ensures PollObjectSolver(ctx) == Allowed <==> forall k :: 0 <= k < 4 ==> Checks(ctx)[k].0
    ensures PollObjectSolver(ctx).Refused? ==>
      && FirstFailure(Checks(ctx)).Some?
      && PollObjectSolver(ctx).message == Checks(ctx)[FirstFailure(Checks(ctx)).value].1
  {
    var checks := Checks(ctx);
    var f := FirstFailure(checks);
    if !checks[0].0 {
      assert f == Some(0);
    } else if !checks[1].0 {
      assert f == Some(1);
    } else if !checks[2].0 {
      assert f == Some(2);
    } else if !checks[3].0 {
      assert f == Some(3);
    }
  }

  /** When the poll allows the operator, the tracking object it solves for is
      not the camera track. */
  lemma PollAllowsOnlyObjectTracks(ctx: PollContext)
    requires PollObjectSolver(ctx) == Allowed
    ensures ctx.hasActiveObject && ctx.clip.Some?
    ensures ctx.clip.value.activeTrackingObject.Some?
    ensures ctx.clip.value.activeTrackingObject.value != "Camera"
  {
  }
}
