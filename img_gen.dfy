/**
 * One iteration of the render loop of src/bssig/img_gen.py: four pose updates in a
 * fixed order (object position, object rotation, camera distance, camera rotation),
 * then one render. The loop body is taken over already-parsed options, with the
 * attribute and type errors it contains kept as failures.
 */
module ImgGen {
  import opened Outcomes
  import opened SceneUtils

  /** The parsed options the loop body reads; `None` is an option left at its default. */
  datatype GenOptions = GenOptions(
    objectPos: Option<Vec3>,
    objPosAsDist: string,
    objectRot: Option<Vec3>,
    minObjectRot: real,
    maxObjectRot: real,
    cameraDist: Option<Vec3>,
    minCameraDist: real,
    maxCameraDist: real,
    cameraRot: Option<Vec3>,
    minCameraRot: real,
    maxCameraRot: real,
    minCameraRotPerturb: real)

  /** The generator's unit draws for the two random steps the body can complete. */
  datatype FrameDraws = FrameDraws(objectRot: seq<real>, cameraDist: seq<real>)

  datatype FrameError =
    | SceneFailed(error: SceneError)
    | AttributeMissing(attribute: string)   // AttributeError on the options namespace
    | LocationIsNone                       // TypeError assigning None to a location

  predicate ValidDraws(draws: FrameDraws) {
    UnitDraws(draws.objectRot) && UnitDraws(draws.cameraDist)
  }

  /** Every name the first step looks up is in the scene. */
  predicate FirstStepFinds(objs: Objects, obj: string, opts: GenOptions) {
    obj in objs && (opts.objPosAsDist == "" || opts.objPosAsDist in objs)
  }

  /** Every name the four steps look up is in the scene. */
  predicate NamesPresent(objs: Objects, obj: string, opts: GenOptions) {
    FirstStepFinds(objs, obj, opts) && DefaultCamera in objs
  }

  /** Where the first step puts the object: absolute, or relative to the named object. */
  function ObjectLocation(objs: Objects, opts: GenOptions): (loc: Vec3)
    requires opts.objectPos.Some? && (opts.objPosAsDist == "" || opts.objPosAsDist in objs)
    ensures opts.objPosAsDist == "" ==> loc == opts.objectPos.value
    ensures opts.objPosAsDist != "" ==> Sub(loc, objs[opts.objPosAsDist].location) == opts.objectPos.value
  {
    if opts.objPosAsDist == "" then opts.objectPos.value
    else Add(objs[opts.objPosAsDist].location, opts.objectPos.value)
  }

  /** The object's rotation after the second step. */
  function ObjectRotation(opts: GenOptions, draws: FrameDraws): (rot: Vec3)
    requires ValidDraws(draws)
    ensures opts.objectRot.Some? ==> rot == opts.objectRot.value
    ensures opts.objectRot.None? ==> InBox(rot, opts.minObjectRot, opts.maxObjectRot)
  {
    if opts.objectRot.Some? then opts.objectRot.value
    else AsVec3(DrawXyz(opts.minObjectRot, opts.maxObjectRot, draws.objectRot))
  }

  /** The camera's offset from the object after the third step. */
  function CameraOffset(opts: GenOptions, draws: FrameDraws): (offset: Vec3)
    requires ValidDraws(draws)
    ensures opts.cameraDist.Some? ==> offset == opts.cameraDist.value
    ensures opts.cameraDist.None? ==> InBox(offset, opts.minCameraDist, opts.maxCameraDist)
  {
    if opts.cameraDist.Some? then opts.cameraDist.value
    else AsVec3(DrawXyz(opts.minCameraDist, opts.maxCameraDist, draws.cameraDist))
  }

  /**
   * The body of the render loop for the imported object `obj`. Without `objectPos` it
   * fails before changing anything (line 179 reads `args.min`, line 181 assigns None);
   * without `cameraRot` it fails on the misspelt `args.max_camera_rot_pertub` after the
   * first three steps. The camera is placed from the object's already updated location,
   * and the render, when reached, sees the final poses.
   */
  method FrameStep(scene: Scene, obj: string, opts: GenOptions, draws: FrameDraws) returns (r: Outcome<FrameError>)
    requires ValidDraws(draws)
    modifies scene
    ensures r.Pass? <==> opts.objectPos.Some? && opts.cameraRot.Some? && NamesPresent(old(scene.objects), obj, opts)
    ensures r.Pass? ==> scene.renders == old(scene.renders) + [scene.objects]
    ensures r.Fail? ==> scene.renders == old(scene.renders)
    ensures opts.objectPos.None? ==> scene.objects == old(scene.objects)
    ensures opts.objectPos.None? && opts.objPosAsDist != "" ==> r == Fail(AttributeMissing("min"))
    ensures opts.objectPos.None? && opts.objPosAsDist == "" && obj in old(scene.objects) ==> r == Fail(LocationIsNone)
    ensures scene.objects.Keys == old(scene.objects).Keys
    ensures forall n :: n in old(scene.objects) && n != obj && n != DefaultCamera ==> scene.objects[n] == old(scene.objects)[n]
    ensures opts.objectPos.Some? && !FirstStepFinds(old(scene.objects), obj, opts) ==> scene.objects == old(scene.objects)
    ensures opts.objectPos.Some? && FirstStepFinds(old(scene.objects), obj, opts) && obj != DefaultCamera ==>
      scene.objects[obj] == Pose(ObjectLocation(old(scene.objects), opts), ObjectRotation(opts, draws))
    ensures opts.objectPos.Some? && NamesPresent(old(scene.objects), obj, opts) && obj != DefaultCamera ==>
      && scene.objects[DefaultCamera].location == Add(scene.objects[obj].location, CameraOffset(opts, draws))
      && (opts.cameraDist.None? ==>
            InBox(Sub(scene.objects[DefaultCamera].location, scene.objects[obj].location), opts.minCameraDist, opts.maxCameraDist))
    ensures opts.objectPos.Some? && NamesPresent(old(scene.objects), obj, opts) && opts.cameraRot.None? ==>
      r == Fail(AttributeMissing("max_camera_rot_pertub")) &&
      (obj != DefaultCamera ==> scene.objects[DefaultCamera].rotation == old(scene.objects)[DefaultCamera].rotation)
    ensures r.Pass? && obj != DefaultCamera ==> scene.objects[DefaultCamera].rotation == opts.cameraRot.value
  {
    // object position
    var s: Outcome<SceneError>;
    if opts.objectPos.Some? {
      if opts.objPosAsDist != "" {
        s := scene.SetObjectDist(obj, opts.objPosAsDist, opts.objectPos.value);
      } else {
        s := scene.SetObjectPos(obj, opts.objectPos.value);
      }
    } else {
      if opts.objPosAsDist != "" {
        return Fail(AttributeMissing("min"));
      } else if obj !in scene.objects {
        return Fail(SceneFailed(UnknownObject(obj)));
      } else {
        return Fail(LocationIsNone);
      }
    }
    if s.Fail? {
      return Fail(SceneFailed(s.error));
    }

    // object rotation
    if opts.objectRot.Some? {
      s := scene.SetObjectRot(obj, opts.objectRot.value);
    } else {
      s := scene.RandSetObjectRot(obj, opts.minObjectRot, opts.maxObjectRot, draws.objectRot);
    }
    assert s == Pass;  // the first step already found `obj`

    // camera distance, from the object's updated location
    if opts.cameraDist.Some? {
      s := scene.SetCameraDist(obj, opts.cameraDist.value);
    } else {
      s := scene.RandSetCameraDist(obj, opts.minCameraDist, opts.maxCameraDist, draws.cameraDist);
    }
    if s.Fail? {
      return Fail(SceneFailed(s.error));
    }

    // camera rotation
    if opts.cameraRot.Some? {
      s := scene.SetCameraRot(opts.cameraRot.value);
    } else {
      return Fail(AttributeMissing("max_camera_rot_pertub"));
    }
    assert s == Pass;  // the third step already found the camera

    scene.Render();
    return Pass;
  }

  /**
   * One frame with an absolute object position (10, 0, 0), a camera 5 above the object
   * and explicit rotations: one render, object at (10, 0, 0), camera at (10, 0, 5).
   */
  method OneFrameExample(draws: FrameDraws)
    requires ValidDraws(draws)
  {
    var origin := Vec3(0.0, 0.0, 0.0);
    var scene := new Scene(map["Camera" := Pose(origin, origin), "Satellite" := Pose(origin, origin)]);
    var opts := GenOptions(Some(Vec3(10.0, 0.0, 0.0)), "", Some(origin), 0.0, 360.0,
                           Some(Vec3(0.0, 0.0, 5.0)), 5.0, 10.0, Some(origin), 0.0, 360.0, 0.0);
    var r := FrameStep(scene, "Satellite", opts, draws);
    assert r == Pass;
    assert |scene.renders| == 1;
    assert scene.objects["Satellite"].location == Vec3(10.0, 0.0, 0.0);
    assert scene.objects["Camera"].location == Vec3(10.0, 0.0, 5.0);
  }
}
