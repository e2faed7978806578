/** The driver variables of the image-plane operator. Each of the four drivers
    that size and place the image plane gets the same set of named inputs:
    camera angle, type and shift, render resolution and pixel aspect, the
    plane's depth and its vertical scale. A variable is only added when the
    driver has none of that name yet. */
module ImagePlaneDrivers {
  import opened Common

  datatype VariableType = SingleProp | Transforms

  /** The kind of data-block a variable's target points into. */
  datatype IdType = CameraId | SceneId

  /** The data-block a variable reads from. */
  datatype TargetId = CameraData | Scene | ImagePlane

  /** A driver variable: its name, type and single target. Target fields the
      operator does not set are None (they keep the host's defaults). */
  datatype DriverVariable = DriverVariable(
    name: seq<char>,
    varType: VariableType,
    idType: Option<IdType>,
    id: TargetId,
    dataPath: seq<char>,
    transformType: Option<seq<char>>,
    transformSpace: Option<seq<char>>)

  function Property(name: seq<char>, idType: IdType, id: TargetId, path: seq<char>): DriverVariable {
    DriverVariable(name, SingleProp, Some(idType), id, path, None, None)
  }

  /** The camera and scene properties, in the order the operator adds them. */
  const PropertyVariables: seq<DriverVariable> := [
    Property("cA", CameraId, CameraData, "angle"),
    Property("cT", CameraId, CameraData, "type"),
    Property("cSx", CameraId, CameraData, "shift_x"),
    Property("cSy", CameraId, CameraData, "shift_y"),
    Property("r_x", SceneId, Scene, "render.resolution_x"),
    Property("r_y", SceneId, Scene, "render.resolution_y"),
    Property("p_x", SceneId, Scene, "render.pixel_aspect_x"),
    Property("p_y", SceneId, Scene, "render.pixel_aspect_y")
  ]

  /** The plane's local Z location. */
  const DepthVariable := DriverVariable("depth", Transforms, None, ImagePlane, "location",
                                        Some("LOC_Z"), Some("LOCAL_SPACE"))

  /** The plane's Y scale. */
  const ScaleYVariable := DriverVariable("scale_y", SingleProp, None, ImagePlane, "scale[1]", None, None)

  /** Everything the operator ensures is present, in the order it checks. */
  const NeededVariables: seq<DriverVariable> := PropertyVariables + [DepthVariable] + [ScaleYVariable]

  const NeededNames: set<seq<char>> :=
    {"cA", "cT", "cSx", "cSy", "r_x", "r_y", "p_x", "p_y", "depth", "scale_y"}

  /** `name in driver.variables`: the collection is looked up by name. */
  predicate HasVariable(vs: seq<DriverVariable>, name: seq<char>) {
    exists i :: 0 <= i < |vs| && vs[i].name == name
  }

  /** No two variables share a name. */
  predicate NamesDistinct(vs: seq<DriverVariable>) {
    forall i, j :: 0 <= i < j < |vs| ==> vs[i].name != vs[j].name
  }

  /** One check of the operator: append `v` unless its name is taken. */
  function AddIfMissing(vs: seq<DriverVariable>, v: DriverVariable): (r: seq<DriverVariable>)
    ensures vs <= r && HasVariable(r, v.name)
    ensures r == vs <==> HasVariable(vs, v.name)
    ensures r != vs ==> r == vs + [v]
  {
    if HasVariable(vs, v.name) then vs
    else
      var r := vs + [v];
      assert r[|vs|].name == v.name;
      r
  }

  /** The variable list after checking each of `needed` in order and
      appending those whose name is missing. */
  function EnsureVariables(vs: seq<DriverVariable>, needed: seq<DriverVariable>): (r: seq<DriverVariable>)
    ensures vs <= r
    ensures forall v :: v in needed ==> HasVariable(r, v.name)
    ensures forall k :: |vs| <= k < |r| ==> r[k] in needed && !HasVariable(vs, r[k].name)
    ensures NamesDistinct(vs) ==> NamesDistinct(r)
  {
    if needed == [] then vs
    else
      var rest := EnsureVariables(vs, needed[..|needed| - 1]);
      var v := needed[|needed| - 1];
      var r := AddIfMissing(rest, v);
      assert forall w :: w in needed ==> w in needed[..|needed| - 1] || w == v;
      assert forall i :: 0 <= i < |rest| ==> r[i] == rest[i];
      r
  }

  lemma EnsureVariablesAppend(vs: seq<DriverVariable>, needed: seq<DriverVariable>, v: DriverVariable)
    ensures EnsureVariables(vs, needed + [v]) == AddIfMissing(EnsureVariables(vs, needed), v)
  {
    assert (needed + [v])[..|needed|] == needed;
  }

  /** When every needed name is already present nothing is added. */
  lemma {:induction false} EnsureVariablesNoop(vs: seq<DriverVariable>, needed: seq<DriverVariable>)
    requires forall v :: v in needed ==> HasVariable(vs, v.name)
    ensures EnsureVariables(vs, needed) == vs
  {
    if needed != [] {
      EnsureVariablesNoop(vs, needed[..|needed| - 1]);
    }
  }

  /** A second call changes nothing. */
  lemma EnsureVariablesIdempotent(vs: seq<DriverVariable>, needed: seq<DriverVariable>)
    ensures EnsureVariables(EnsureVariables(vs, needed), needed) == EnsureVariables(vs, needed)
  {
    EnsureVariablesNoop(EnsureVariables(vs, needed), needed);
  }

  /** After the operator's check every one of the ten names is present. */
  lemma NeededNamesPresent(vs: seq<DriverVariable>)
    ensures forall name :: name in NeededNames ==> HasVariable(EnsureVariables(vs, NeededVariables), name)
  {
    assert forall name :: name in NeededNames ==> exists v :: v in NeededVariables && v.name == name;
  }

  /** A driver of the image plane, reduced to its variable list. */
  class Driver {
    var variables: seq<DriverVariable>

    constructor (variables: seq<DriverVariable>)
      ensures this.variables == variables
    {
      this.variables := variables;
    }

    /** `setup_driver_variables`: the camera and scene properties in order,
        then the depth and the vertical scale, each added only if missing. */
    method SetupDriverVariables()
      modifies this
      ensures variables == EnsureVariables(old(variables), NeededVariables)
    {
      AddEach(PropertyVariables);
      EnsureVariablesAppend(old(variables), PropertyVariables, DepthVariable);
      AddVariable(DepthVariable);
      EnsureVariablesAppend(old(variables), PropertyVariables + [DepthVariable], ScaleYVariable);
      AddVariable(ScaleYVariable);
    }

    /** The loop over the property table: each entry in order, added only
        if its name is missing. */
    method AddEach(needed: seq<DriverVariable>)
      modifies this
      ensures variables == EnsureVariables(old(variables), needed)
    {
      for i := 0 to |needed|
        invariant variables == EnsureVariables(old(variables), needed[..i])
      {
        EnsureVariablesAppend(old(variables), needed[..i], needed[i]);
        assert needed[..i + 1] == needed[..i] + [needed[i]];
        AddVariable(needed[i]);
      }
      assert needed[..|needed|] == needed;
    }

    /** One `if name not in driver.variables` block: create the variable and
        set its name, type and target, unless the name is taken. */
    method AddVariable(v: DriverVariable)
      modifies this
      ensures variables == AddIfMissing(old(variables), v)
    {
      if !HasVariable(variables, v.name) {
        variables := variables + [v];
      }
    }
  }
}
