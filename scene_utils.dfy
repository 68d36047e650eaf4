/**
 * The pose controller of src/bssig/scene_utils.py. The Blender scene is a class
 * holding a map from object name to pose; `bpy.data.objects[name]` is a lookup in
 * that map and raises KeyError (here `UnknownObject`) for a missing name.
 * Every `random.uniform(lo, hi)` is given as the generator's unit draw `u`, and
 * Blender's orientation math is passed in as a pair of functions.
 */
module SceneUtils {
  import opened Outcomes

  datatype Vec3 = Vec3(x: real, y: real, z: real)

  /** An object's `location` and `rotation_euler`. */
  datatype Pose = Pose(location: Vec3, rotation: Vec3)

  type Objects = map<string, Pose>

  datatype SceneError =
    | UnknownObject(name: string)   // KeyError from bpy.data.objects[name]
    | UnknownFormat(path: string)   // 'Unknown file format'
    | NotOneImported(count: nat)    // 'Cannot import more than 1 object'

  /** The three importers `import_object` dispatches to. */
  datatype Format = Obj | Fbx | Stl

  /**
   * The parts of mathutils the camera framing uses: `trackEuler(d)` is
   * `d.to_track_quat('Z', 'Y').to_euler()`, `rotate(e, p)` is `e` after `e.rotate(p)`.
   */
  datatype Mathutils = Mathutils(trackEuler: Vec3 -> Vec3, rotate: (Vec3, Vec3) -> Vec3)

  const DefaultCamera: string := "Camera"

  function Add(a: Vec3, b: Vec3): Vec3 {
    Vec3(a.x + b.x, a.y + b.y, a.z + b.z)
  }

  function Sub(a: Vec3, b: Vec3): Vec3 {
    Vec3(a.x - b.x, a.y - b.y, a.z - b.z)
  }

  /** A three-element Python list assigned to a vector property. */
  function AsVec3(xyz: seq<real>): Vec3
    requires |xyz| == 3
  {
    Vec3(xyz[0], xyz[1], xyz[2])
  }

  /** `v` lies between `a` and `b`, whichever of the two is smaller. */
  predicate Between(v: real, a: real, b: real) {
    (a <= v <= b) || (b <= v <= a)
  }

  predicate InBox(v: Vec3, lo: real, hi: real) {
    Between(v.x, lo, hi) && Between(v.y, lo, hi) && Between(v.z, lo, hi)
  }

  /** A value `random.random()` can return (rounding may reach 1.0 in `uniform`). */
  predicate IsUnit(u: real) {
    0.0 <= u <= 1.0
  }

  /** Three unit draws, one per axis. */
  predicate UnitDraws(us: seq<real>) {
    |us| == 3 && forall k :: 0 <= k < 3 ==> IsUnit(us[k])
  }

  /** `random.uniform(lo, hi)`, which computes `lo + (hi - lo) * random()`. */
  function Uniform(lo: real, hi: real, u: real): (v: real)
    requires IsUnit(u)
    ensures Between(v, lo, hi)
    ensures lo == hi ==> v == lo
  {
    UniformWithin(lo, hi, u);
    lo + (hi - lo) * u
  }

  /** A unit fraction of the way from `lo` to `hi` lies between them, whichever is larger. */
  lemma UniformWithin(lo: real, hi: real, u: real)
    requires IsUnit(u)
    ensures Between(lo + (hi - lo) * u, lo, hi)
    ensures lo == hi ==> lo + (hi - lo) * u == lo
  {
    var span := hi - lo;
    var up := span * u;
    var down := span * (1.0 - u);
    assert up + down == span;
    if span >= 0.0 {
      ProductNonNegative(span, u);
      ProductNonNegative(span, 1.0 - u);
      assert lo <= lo + up <= hi;
    } else {
      ProductNonNegative(-span, u);
      ProductNonNegative(-span, 1.0 - u);
      assert (-span) * u == -up;
      assert (-span) * (1.0 - u) == -down;
      assert hi <= lo + up <= lo;
    }
  }

  lemma ProductNonNegative(a: real, b: real)
    requires a >= 0.0 && b >= 0.0
    ensures a * b >= 0.0
  {
  }

  /** What `rand_xyz(lo, hi)` returns for the given draws. */
  function DrawXyz(lo: real, hi: real, us: seq<real>): (xyz: seq<real>)
    requires UnitDraws(us)
    ensures |xyz| == 3
    ensures forall k :: 0 <= k < 3 ==> Between(xyz[k], lo, hi)
    ensures InBox(AsVec3(xyz), lo, hi)
  {
    [Uniform(lo, hi, us[0]), Uniform(lo, hi, us[1]), Uniform(lo, hi, us[2])]
  }

  /** `rand_xyz`: a list of three bounded draws, built by appending in a loop. */
  method RandXyz(minVal: real, maxVal: real, us: seq<real>) returns (xyz: seq<real>)
    requires UnitDraws(us)
    ensures xyz == DrawXyz(minVal, maxVal, us)
  {
    xyz := [];
    for k := 0 to 3
      invariant xyz == DrawXyz(minVal, maxVal, us)[..k]
    {
      xyz := xyz + [Uniform(minVal, maxVal, us[k])];
    }
  }

  predicate EndsWith(s: string, suffix: string) {
    |suffix| <= |s| && s[|s| - |suffix|..] == suffix
  }

  /** The importer `import_object` picks from the path's extension, or None when it raises. */
  function ImportFormat(path: string): (f: Option<Format>)
    ensures f == Some(Obj) <==> EndsWith(path, ".obj")
    ensures f == Some(Fbx) <==> EndsWith(path, ".fbx")
    ensures f == Some(Stl) <==> EndsWith(path, ".stl")
    ensures f.None? <==> !EndsWith(path, ".obj") && !EndsWith(path, ".fbx") && !EndsWith(path, ".stl")
  {
    if EndsWith(path, ".obj") then Some(Obj)
    else if EndsWith(path, ".fbx") then Some(Fbx)
    else if EndsWith(path, ".stl") then Some(Stl)
    else None
  }

  /** The scene after `objs[name].location = loc`: nothing else changes. */
  function Relocated(objs: Objects, name: string, loc: Vec3): (r: Objects)
    requires name in objs
    ensures r.Keys == objs.Keys
    ensures r[name] == Pose(loc, objs[name].rotation)
    ensures forall n :: n in objs && n != name ==> r[n] == objs[n]
  {
    objs[name := objs[name].(location := loc)]
  }

  /** The scene after `objs[name].rotation_euler = rot`: nothing else changes. */
  function Reoriented(objs: Objects, name: string, rot: Vec3): (r: Objects)
    requires name in objs
    ensures r.Keys == objs.Keys
    ensures r[name] == Pose(objs[name].location, rot)
    ensures forall n :: n in objs && n != name ==> r[n] == objs[n]
  {
    objs[name := objs[name].(rotation := rot)]
  }

  /** The camera rotation `rand_set_camera_rot` leaves: tracking toward the target, then perturbed. */
  function TrackedRotation(math: Mathutils, cameraLoc: Vec3, targetLoc: Vec3, perturb: Vec3): Vec3 {
    math.rotate(math.trackEuler(Sub(targetLoc, cameraLoc)), perturb)
  }

  /** The Blender scene: its objects by name, and the snapshots the renderer was given. */
  class Scene {
    var objects: Objects
    var renders: seq<Objects>

    /** The scene as `open_mainfile` loads it. */
    constructor (objects: Objects)
      ensures this.objects == objects && renders == []
    {
      this.objects := objects;
      renders := [];
    }

    /** `bpy.ops.render.render`: the renderer sees the scene as it is now. */
    method Render()
      modifies this`renders
      ensures renders == old(renders) + [objects]
    {
      renders := renders + [objects];
    }

    /**
     * `import_object`: reject an unknown extension before importing, then import and
     * require exactly one new object name. `importer` gives the objects each Blender
     * importer adds for a path; Blender names every new object apart from the existing
     * ones. Objects imported before the count check stay in the scene.
     */
    method ImportObject(path: string, importer: (Format, string) -> Objects) returns (r: Result<string, SceneError>)
      requires ImportFormat(path).Some? ==> importer(ImportFormat(path).value, path).Keys !! objects.Keys
      modifies this`objects
      ensures ImportFormat(path).None? ==> r == Failure(UnknownFormat(path)) && objects == old(objects)
      ensures ImportFormat(path).Some? ==> objects == old(objects) + importer(ImportFormat(path).value, path)
      ensures ImportFormat(path).Some? ==> objects.Keys - old(objects).Keys == importer(ImportFormat(path).value, path).Keys
      ensures forall n :: n in old(objects) ==> n in objects && objects[n] == old(objects)[n]
      ensures ImportFormat(path).Some? ==> (r.Success? <==> |objects.Keys - old(objects).Keys| == 1)
      ensures ImportFormat(path).Some? && r.Failure? ==> r.error == NotOneImported(|objects.Keys - old(objects).Keys|)
      ensures r.Success? ==> objects.Keys - old(objects).Keys == {r.value}
    {
      var format := ImportFormat(path);
      if format.None? {
        return Failure(UnknownFormat(path));
      }
      var before := objects.Keys;
      objects := objects + importer(format.value, path);
      var added := objects.Keys - before;
      if |added| != 1 {
        return Failure(NotOneImported(|added|));
      }
      var name :| name in added;
      assert |added - {name}| == 0;
      return Success(name);
    }

    /** `set_object_pos`. */
    method SetObjectPos(name: string, xyz: Vec3) returns (r: Outcome<SceneError>)
      modifies this`objects
      ensures name !in old(objects) ==> r == Fail(UnknownObject(name)) && objects == old(objects)
      ensures name in old(objects) ==> r == Pass && objects == Relocated(old(objects), name, xyz)
    {
      if name !in objects {
        return Fail(UnknownObject(name));
      }
      objects := Relocated(objects, name, xyz);
      return Pass;
    }

    /** `set_object_rot`. */
    method SetObjectRot(name: string, xyz: Vec3) returns (r: Outcome<SceneError>)
      modifies this`objects
      ensures name !in old(objects) ==> r == Fail(UnknownObject(name)) && objects == old(objects)
      ensures name in old(objects) ==> r == Pass && objects == Reoriented(old(objects), name, xyz)
    {
      if name !in objects {
        return Fail(UnknownObject(name));
      }
      objects := Reoriented(objects, name, xyz);
      return Pass;
    }

    /** `set_object_dist`: place `obj1` at `obj2`'s location plus `xyz`, axis by axis. */
    method SetObjectDist(obj1: string, obj2: string, xyz: Vec3) returns (r: Outcome<SceneError>)
      modifies this`objects
      ensures obj1 !in old(objects) ==> r == Fail(UnknownObject(obj1)) && objects == old(objects)
      ensures obj1 in old(objects) && obj2 !in old(objects) ==> r == Fail(UnknownObject(obj2)) && objects == old(objects)
      ensures obj1 in old(objects) && obj2 in old(objects) ==>
        r == Pass && objects == Relocated(old(objects), obj1, Add(old(objects)[obj2].location, xyz))
    {
      if obj1 !in objects {
        return Fail(UnknownObject(obj1));
      }
      if obj2 !in objects {
        return Fail(UnknownObject(obj2));
      }
      var target := objects[obj2].location;
      objects := Relocated(objects, obj1, Vec3(target.x + xyz.x, target.y + xyz.y, target.z + xyz.z));
      return Pass;
    }

    /** `set_camera_dist`: the camera placed at `xyz` from `obj`. */
    method SetCameraDist(obj: string, xyz: Vec3, cameraName: string := DefaultCamera) returns (r: Outcome<SceneError>)
      modifies this`objects
      ensures cameraName !in old(objects) ==> r == Fail(UnknownObject(cameraName)) && objects == old(objects)
      ensures cameraName in old(objects) && obj !in old(objects) ==> r == Fail(UnknownObject(obj)) && objects == old(objects)
      ensures cameraName in old(objects) && obj in old(objects) ==>
        r == Pass && objects == Relocated(old(objects), cameraName, Add(old(objects)[obj].location, xyz))
    {
      r := SetObjectDist(cameraName, obj, xyz);
    }

    /** `set_camera_rot`. */
    method SetCameraRot(xyz: Vec3, cameraName: string := DefaultCamera) returns (r: Outcome<SceneError>)
      modifies this`objects
      ensures cameraName !in old(objects) ==> r == Fail(UnknownObject(cameraName)) && objects == old(objects)
      ensures cameraName in old(objects) ==> r == Pass && objects == Reoriented(old(objects), cameraName, xyz)
    {
      r := SetObjectRot(cameraName, xyz);
    }

    /** `rand_set_object_pos`. */
    method RandSetObjectPos(name: string, minVal: real, maxVal: real, us: seq<real>) returns (r: Outcome<SceneError>)
      requires UnitDraws(us)
      modifies this`objects
      ensures name !in old(objects) ==> r == Fail(UnknownObject(name)) && objects == old(objects)
      ensures name in old(objects) ==>
        r == Pass && objects == Relocated(old(objects), name, AsVec3(DrawXyz(minVal, maxVal, us)))
      ensures name in old(objects) ==> InBox(objects[name].location, minVal, maxVal)
    {
      var xyz := RandXyz(minVal, maxVal, us);
      r := SetObjectPos(name, AsVec3(xyz));
    }

    /** `rand_set_object_rot`. */
    method RandSetObjectRot(name: string, minVal: real, maxVal: real, us: seq<real>) returns (r: Outcome<SceneError>)
      requires UnitDraws(us)
      modifies this`objects
      ensures name !in old(objects) ==> r == Fail(UnknownObject(name)) && objects == old(objects)
      ensures name in old(objects) ==>
        r == Pass && objects == Reoriented(old(objects), name, AsVec3(DrawXyz(minVal, maxVal, us)))
      ensures name in old(objects) ==> InBox(objects[name].rotation, minVal, maxVal)
    {
      var xyz := RandXyz(minVal, maxVal, us);
      r := SetObjectRot(name, AsVec3(xyz));
    }

    /** `rand_set_object_dist`: `obj1` at a random offset from `obj2`. */
    method RandSetObjectDist(obj1: string, obj2: string, minVal: real, maxVal: real, us: seq<real>)
      returns (r: Outcome<SceneError>)
      requires UnitDraws(us)
      modifies this`objects
      ensures obj1 !in old(objects) ==> r == Fail(UnknownObject(obj1)) && objects == old(objects)
      ensures obj1 in old(objects) && obj2 !in old(objects) ==> r == Fail(UnknownObject(obj2)) && objects == old(objects)
      ensures obj1 in old(objects) && obj2 in old(objects) ==>
        r == Pass && objects == Relocated(old(objects), obj1, Add(old(objects)[obj2].location, AsVec3(DrawXyz(minVal, maxVal, us))))
      ensures obj1 in old(objects) && obj2 in old(objects) ==>
        InBox(Sub(objects[obj1].location, old(objects)[obj2].location), minVal, maxVal)
    {
      var xyz := RandXyz(minVal, maxVal, us);
      r := SetObjectDist(obj1, obj2, AsVec3(xyz));
    }

    /** `rand_set_camera_dist`: the camera at a random offset from `target`. */
    method RandSetCameraDist(target: string, minVal: real, maxVal: real, us: seq<real>, cameraName: string := DefaultCamera)
      returns (r: Outcome<SceneError>)
      requires UnitDraws(us)
      modifies this`objects
      ensures cameraName !in old(objects) ==> r == Fail(UnknownObject(cameraName)) && objects == old(objects)
      ensures cameraName in old(objects) && target !in old(objects) ==> r == Fail(UnknownObject(target)) && objects == old(objects)
      ensures cameraName in old(objects) && target in old(objects) ==>
        r == Pass && objects == Relocated(old(objects), cameraName, Add(old(objects)[target].location, AsVec3(DrawXyz(minVal, maxVal, us))))
      ensures cameraName in old(objects) && target in old(objects) ==>
        InBox(Sub(objects[cameraName].location, old(objects)[target].location), minVal, maxVal)
    {
      r := RandSetObjectDist(cameraName, target, minVal, maxVal, us);
    }

    /**
     * `rand_set_camera_rot`: a random rotation is written first and then overwritten by
     * the rotation that tracks `target`, perturbed by three draws. The final rotation
     * depends on neither `minRot`/`maxRot` nor `rotDraws`; the camera does not move.
     * A missing target is found only after the random rotation was written.
     */
    method RandSetCameraRot(target: string, minRot: real, maxRot: real, rotDraws: seq<real>, perturbDraws: seq<real>,
                            math: Mathutils, minPerturb: real := 0.0, maxPerturb: real := 0.0,
                            cameraName: string := DefaultCamera)
      returns (r: Outcome<SceneError>)
      requires UnitDraws(rotDraws) && UnitDraws(perturbDraws)
      modifies this`objects
      ensures cameraName !in old(objects) ==> r == Fail(UnknownObject(cameraName)) && objects == old(objects)
      ensures cameraName in old(objects) && target !in old(objects) ==>
        r == Fail(UnknownObject(target)) &&
        objects == Reoriented(old(objects), cameraName, AsVec3(DrawXyz(minRot, maxRot, rotDraws)))
      ensures cameraName in old(objects) && target in old(objects) ==>
        r == Pass &&
        objects == Reoriented(old(objects), cameraName,
                              TrackedRotation(math, old(objects)[cameraName].location, old(objects)[target].location,
                                              AsVec3(DrawXyz(minPerturb, maxPerturb, perturbDraws))))
      ensures r.Pass? && minPerturb == 0.0 && maxPerturb == 0.0 ==>
        objects[cameraName].rotation ==
          math.rotate(math.trackEuler(Sub(old(objects)[target].location, old(objects)[cameraName].location)), Vec3(0.0, 0.0, 0.0))
    {
      r := RandSetObjectRot(cameraName, minRot, maxRot, rotDraws);
      if r.Fail? {
        return;
      }
      if target !in objects {
        return Fail(UnknownObject(target));
      }
      var camera := objects[cameraName];
      var direction := Sub(objects[target].location, camera.location);
      objects := Reoriented(objects, cameraName, math.trackEuler(direction));
      var perturb := Vec3(Uniform(minPerturb, maxPerturb, perturbDraws[0]),
                          Uniform(minPerturb, maxPerturb, perturbDraws[1]),
                          Uniform(minPerturb, maxPerturb, perturbDraws[2]));
      objects := Reoriented(objects, cameraName, math.rotate(objects[cameraName].rotation, perturb));
      return Pass;
    }
  }
}
