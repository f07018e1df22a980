/**
 * The scene container of the ray tracer: the `World` struct, which owns the
 * ordered list of geometric objects and the ordered list of lights, holds
 * three nullable references (ambient light, camera, tracer), and validates
 * that configuration with check() before rendering.
 *
 * The element types are type parameters: a value of `GeometricObject`,
 * `Light`, `Camera` or `Tracer` stands for the C++ pointer the World stores,
 * whose pointee this model never looks at. A nullable pointer field is an
 * `Option`, with `None` for nullptr; a value under `Some` is never null. The
 * list elements are pointers passed to add_object and add_light, which the
 * source does not test for null, so an element may stand for nullptr.
 */
module World {

  datatype Option<T> = None | Some(value: T)

  /** The non-fatal diagnostics check() reports, declared in the order it reports them. */
  datatype Warning = NoAmbientLight | NoLights | NoObjects
  {
    /** Position of the diagnostic in check()'s fixed reporting order. */
    function Rank(): nat
    {
      match this
      case NoAmbientLight => 0
      case NoLights => 1
      case NoObjects => 2
    }

    /** The text check() logs for this diagnostic. */
    function Text(): string
    {
      match this
      case NoAmbientLight => "World has no ambient light...\n"
      case NoLights => "World has no lights...\n"
      case NoObjects => "World has no objects to display...\n"
    }
  }

  /** Every diagnostic, in reporting order. */
  const AllWarnings: seq<Warning> := [NoAmbientLight, NoLights, NoObjects]

  /** The messages of the two fatal configuration errors. */
  const NoCameraMessage: string := "World doesn't have a camera\n"
  const NoTracerMessage: string := "World doesn't have a ray tracer\n"

  /** What check() does: throw a logic error with a message, or return after logging warnings. */
  datatype Outcome = Fatal(message: string) | Ok(warnings: seq<Warning>)

  /** The part of a World's state that its inline operations read and write. */
  datatype Config<GeometricObject, Light, Camera, Tracer> = Config(
    objects: seq<GeometricObject>,
    lights: seq<Light>,
    ambient: Option<Light>,
    camera: Option<Camera>,
    tracer: Option<Tracer>)

  /** Whether diagnostic `w` describes configuration `c`. */
  predicate Applies<GeometricObject, Light, Camera, Tracer>(c: Config<GeometricObject, Light, Camera, Tracer>, w: Warning)
  {
    match w
    case NoAmbientLight => c.ambient.None?
    case NoLights => |c.lights| == 0
    case NoObjects => |c.objects| == 0
  }

  /** `ws` lists diagnostics in strictly increasing reporting order (so none twice). */
  predicate StrictlyRanked(ws: seq<Warning>)
  {
    forall i, j :: 0 <= i < j < |ws| ==> ws[i].Rank() < ws[j].Rank()
  }

  /** The diagnostics of `ws` that describe `c`, keeping the order of `ws`. */
  function Select<GeometricObject, Light, Camera, Tracer>(ws: seq<Warning>, c: Config<GeometricObject, Light, Camera, Tracer>): seq<Warning>
  {
    if ws == [] then []
    else (if Applies(c, ws[0]) then [ws[0]] else []) + Select(ws[1..], c)
  }

  /** Selecting keeps exactly the listed diagnostics that describe `c`. */
  lemma {:induction false} SelectMembers<GeometricObject, Light, Camera, Tracer>(ws: seq<Warning>, c: Config<GeometricObject, Light, Camera, Tracer>)
    ensures forall w :: w in Select(ws, c) <==> w in ws && Applies(c, w)
  {
    if ws != [] {
      SelectMembers(ws[1..], c);
      assert ws == [ws[0]] + ws[1..];
    }
  }

  /** Selecting from a list in reporting order yields a list in reporting order. */
  lemma {:induction false} SelectRanked<GeometricObject, Light, Camera, Tracer>(ws: seq<Warning>, c: Config<GeometricObject, Light, Camera, Tracer>)
    requires StrictlyRanked(ws)
    ensures StrictlyRanked(Select(ws, c))
  {
    if ws != [] {
      var rest := Select(ws[1..], c);
      SelectRanked(ws[1..], c);
      SelectMembers(ws[1..], c);
      forall k | 0 <= k < |rest| ensures ws[0].Rank() < rest[k].Rank() {
        assert rest[k] in ws[1..];
        var m :| 0 <= m < |ws[1..]| && ws[1..][m] == rest[k];
        assert ws[m + 1] == rest[k];
      }
    }
  }

  /**
   * The outcome of check() on configuration `c`: a missing camera is fatal and
   * is tested first, then a missing tracer; otherwise check() succeeds and
   * reports exactly the diagnostics that hold, in the fixed order.
   */
  function Verdict<GeometricObject, Light, Camera, Tracer>(c: Config<GeometricObject, Light, Camera, Tracer>): (r: Outcome)
    ensures r == Fatal(NoCameraMessage) <==> c.camera.None?
    ensures r == Fatal(NoTracerMessage) <==> c.camera.Some? && c.tracer.None?
    ensures r.Ok? <==> c.camera.Some? && c.tracer.Some?
    ensures r.Ok? ==> forall w :: w in r.warnings <==> Applies(c, w)
    ensures r.Ok? ==> StrictlyRanked(r.warnings)
  {
    if c.camera.None? then Fatal(NoCameraMessage)
    else if c.tracer.None? then Fatal(NoTracerMessage)
    else
      SelectMembers(AllWarnings, c);
      SelectRanked(AllWarnings, c);
      Ok(Select(AllWarnings, c))
  }

  /** Selecting from all diagnostics is the chain of three tests, in reporting order. */
  lemma AllWarningsInOrder<GeometricObject, Light, Camera, Tracer>(c: Config<GeometricObject, Light, Camera, Tracer>)
    ensures Select(AllWarnings, c)
         == (if c.ambient.None? then [NoAmbientLight] else [])
          + (if |c.lights| == 0 then [NoLights] else [])
          + (if |c.objects| == 0 then [NoObjects] else [])
  {
    assert AllWarnings == [NoAmbientLight] + ([NoLights] + ([NoObjects] + []));
    SelectCons(NoObjects, [], c);
    SelectCons(NoLights, [NoObjects], c);
    SelectCons(NoAmbientLight, [NoLights, NoObjects], c);
  }

  /** Selecting from a list with a first element tests that element, then selects from the rest. */
  lemma SelectCons<GeometricObject, Light, Camera, Tracer>(w: Warning, ws: seq<Warning>, c: Config<GeometricObject, Light, Camera, Tracer>)
    ensures Select([w] + ws, c) == (if Applies(c, w) then [w] else []) + Select(ws, c)
  {
  }

  /** One call of a World mutator: add_object, add_light, set_ambient_light or set_camera. */
  datatype Op<GeometricObject, Light, Camera> =
    | AddObject(obj: GeometricObject)
    | AddLight(light: Light)
    | SetAmbientLight(ambient: Option<Light>)
    | SetCamera(camera: Option<Camera>)

  /** The configuration after one mutator call. */
  function Apply<GeometricObject, Light, Camera, Tracer>(c: Config<GeometricObject, Light, Camera, Tracer>, op: Op<GeometricObject, Light, Camera>): Config<GeometricObject, Light, Camera, Tracer>
  {
    match op
    case AddObject(o) => c.(objects := c.objects + [o])
    case AddLight(l) => c.(lights := c.lights + [l])
    case SetAmbientLight(a) => c.(ambient := a)
    case SetCamera(cam) => c.(camera := cam)
  }

  /** The configuration after the mutator calls `ops`, first to last. */
  function Run<GeometricObject, Light, Camera, Tracer>(c: Config<GeometricObject, Light, Camera, Tracer>, ops: seq<Op<GeometricObject, Light, Camera>>): Config<GeometricObject, Light, Camera, Tracer>
    decreases |ops|
  {
    if ops == [] then c else Apply(Run(c, ops[..|ops| - 1]), ops[|ops| - 1])
  }

  /** The arguments of the add_object calls in `ops`, in call order. */
  function AddedObjects<GeometricObject, Light, Camera>(ops: seq<Op<GeometricObject, Light, Camera>>): seq<GeometricObject>
    decreases |ops|
  {
    if ops == [] then []
    else
      var last := ops[|ops| - 1];
      AddedObjects(ops[..|ops| - 1]) + (if last.AddObject? then [last.obj] else [])
  }

  /** The arguments of the add_light calls in `ops`, in call order. */
  function AddedLights<GeometricObject, Light, Camera>(ops: seq<Op<GeometricObject, Light, Camera>>): seq<Light>
    decreases |ops|
  {
    if ops == [] then []
    else
      var last := ops[|ops| - 1];
      AddedLights(ops[..|ops| - 1]) + (if last.AddLight? then [last.light] else [])
  }

  /** The argument of the last set_ambient_light call in `ops`, or `initial` if there is none. */
  function LastAmbient<GeometricObject, Light, Camera>(ops: seq<Op<GeometricObject, Light, Camera>>, initial: Option<Light>): Option<Light>
    decreases |ops|
  {
    if ops == [] then initial
    else if ops[|ops| - 1].SetAmbientLight? then ops[|ops| - 1].ambient
    else LastAmbient(ops[..|ops| - 1], initial)
  }

  /** The argument of the last set_camera call in `ops`, or `initial` if there is none. */
  function LastCamera<GeometricObject, Light, Camera>(ops: seq<Op<GeometricObject, Light, Camera>>, initial: Option<Camera>): Option<Camera>
    decreases |ops|
  {
    if ops == [] then initial
    else if ops[|ops| - 1].SetCamera? then ops[|ops| - 1].camera
    else LastCamera(ops[..|ops| - 1], initial)
  }

  /** `ops` calls only add_object and add_light. */
  predicate OnlyAdds<GeometricObject, Light, Camera>(ops: seq<Op<GeometricObject, Light, Camera>>)
  {
    forall i :: 0 <= i < |ops| ==> ops[i].AddObject? || ops[i].AddLight?
  }

  /**
   * Any sequence of mutator calls appends the added objects and lights, in
   * call order, behind the ones already there; the last setter call of each
   * kind decides the ambient light and the camera; the tracer is never touched.
   */
  lemma {:induction false} RunState<GeometricObject, Light, Camera, Tracer>(c: Config<GeometricObject, Light, Camera, Tracer>, ops: seq<Op<GeometricObject, Light, Camera>>)
    ensures Run(c, ops) == Config(
      c.objects + AddedObjects(ops),
      c.lights + AddedLights(ops),
      LastAmbient(ops, c.ambient),
      LastCamera(ops, c.camera),
      c.tracer)
    decreases |ops|
  {
    if ops != [] {
      var init := ops[..|ops| - 1];
      RunState(c, init);
      assert c.objects + AddedObjects(init) + (if ops[|ops| - 1].AddObject? then [ops[|ops| - 1].obj] else [])
          == c.objects + AddedObjects(ops);
      assert c.lights + AddedLights(init) + (if ops[|ops| - 1].AddLight? then [ops[|ops| - 1].light] else [])
          == c.lights + AddedLights(ops);
    }
  }

  /** Calls that only add objects and lights leave both setters' fields as they were. */
  lemma {:induction false} OnlyAddsKeepReferences<GeometricObject, Light, Camera>(ops: seq<Op<GeometricObject, Light, Camera>>, ambient: Option<Light>, camera: Option<Camera>)
    requires OnlyAdds(ops)
    ensures LastAmbient(ops, ambient) == ambient
    ensures LastCamera(ops, camera) == camera
    decreases |ops|
  {
    if ops != [] {
      assert OnlyAdds(ops[..|ops| - 1]);
      OnlyAddsKeepReferences(ops[..|ops| - 1], ambient, camera);
    }
  }

  /** Some call in `ops` is add_object exactly when add_object contributed an element. */
  lemma {:induction false} AddedObjectsNonEmpty<GeometricObject, Light, Camera>(ops: seq<Op<GeometricObject, Light, Camera>>)
    ensures |AddedObjects(ops)| > 0 <==> exists i :: 0 <= i < |ops| && ops[i].AddObject?
    decreases |ops|
  {
    if ops != [] {
      var init := ops[..|ops| - 1];
      AddedObjectsNonEmpty(init);
      if exists i :: 0 <= i < |init| && init[i].AddObject? {
        var i :| 0 <= i < |init| && init[i].AddObject?;
        assert ops[i].AddObject?;
      }
      if exists i :: 0 <= i < |ops| && ops[i].AddObject? {
        var i :| 0 <= i < |ops| && ops[i].AddObject?;
        if i < |init| { assert init[i].AddObject?; }
      }
    }
  }

  /** Some call in `ops` is add_light exactly when add_light contributed an element. */
  lemma {:induction false} AddedLightsNonEmpty<GeometricObject, Light, Camera>(ops: seq<Op<GeometricObject, Light, Camera>>)
    ensures |AddedLights(ops)| > 0 <==> exists i :: 0 <= i < |ops| && ops[i].AddLight?
    decreases |ops|
  {
    if ops != [] {
      var init := ops[..|ops| - 1];
      AddedLightsNonEmpty(init);
      if exists i :: 0 <= i < |init| && init[i].AddLight? {
        var i :| 0 <= i < |init| && init[i].AddLight?;
        assert ops[i].AddLight?;
      }
      if exists i :: 0 <= i < |ops| && ops[i].AddLight? {
        var i :| 0 <= i < |ops| && ops[i].AddLight?;
        if i < |init| { assert init[i].AddLight?; }
      }
    }
  }

  /**
   * Adding objects and lights never changes whether check() throws, nor which
   * error it throws; when it succeeds, it reports the warnings it reported
   * before, minus "no objects" once an object was added and minus "no lights"
   * once a light was added.
   */
  lemma AddsOnlyClearWarnings<GeometricObject, Light, Camera, Tracer>(c: Config<GeometricObject, Light, Camera, Tracer>, ops: seq<Op<GeometricObject, Light, Camera>>)
    requires OnlyAdds(ops)
    ensures Verdict(c).Fatal? ==> Verdict(Run(c, ops)) == Verdict(c)
    ensures Verdict(c).Ok? ==> Verdict(Run(c, ops)).Ok?
    ensures Verdict(c).Ok? ==> forall w :: w in Verdict(Run(c, ops)).warnings <==>
      w in Verdict(c).warnings
      && (w == NoObjects ==> forall i :: 0 <= i < |ops| ==> !ops[i].AddObject?)
      && (w == NoLights ==> forall i :: 0 <= i < |ops| ==> !ops[i].AddLight?)
  {
    RunState(c, ops);
    OnlyAddsKeepReferences(ops, c.ambient, c.camera);
    AddedObjectsNonEmpty(ops);
    AddedLightsNonEmpty(ops);
  }

  /** Calling set_camera or set_ambient_light twice with one argument is the same as calling it once. */
  lemma SettersIdempotent<GeometricObject, Light, Camera, Tracer>(c: Config<GeometricObject, Light, Camera, Tracer>, op: Op<GeometricObject, Light, Camera>)
    requires op.SetCamera? || op.SetAmbientLight?
    ensures Apply(Apply(c, op), op) == Apply(c, op)
  {
  }

  /**
   * The World struct. Its fields are public in the source, so a client may also
   * assign them directly, which is how the tracer is installed.
   */
  class World<GeometricObject, Light, Camera, Tracer>
  {
    var objects: seq<GeometricObject>
    var lights: seq<Light>
    var ambient: Option<Light>
    var camera: Option<Camera>
    var tracer: Option<Tracer>

    /** The abstract value of this World. */
    function State(): Config<GeometricObject, Light, Camera, Tracer>
      reads this
    {
      Config(objects, lights, ambient, camera, tracer)
    }

    /**
     * A World whose object and light lists start empty, as default-constructed
     * vectors do. The initial references are parameters, because what World()
     * stores in them is not given by its declaration.
     */
    constructor (initialAmbient: Option<Light>, initialCamera: Option<Camera>, initialTracer: Option<Tracer>)
      ensures State() == Config([], [], initialAmbient, initialCamera, initialTracer)
    {
      objects, lights := [], [];
      ambient, camera, tracer := initialAmbient, initialCamera, initialTracer;
    }

    /** add_object: appends `o`; nothing else changes. */
    method AddObject(o: GeometricObject)
      modifies this
      ensures objects == old(objects) + [o]
      ensures lights == old(lights) && ambient == old(ambient)
      ensures camera == old(camera) && tracer == old(tracer)
      ensures State() == Apply(old(State()), Op.AddObject(o))
    {
      objects := objects + [o];
    }

    /** add_light: appends `l`; nothing else changes. */
    method AddLight(l: Light)
      modifies this
      ensures lights == old(lights) + [l]
      ensures objects == old(objects) && ambient == old(ambient)
      ensures camera == old(camera) && tracer == old(tracer)
      ensures State() == Apply(old(State()), Op.AddLight(l))
    {
      lights := lights + [l];
    }

    /** set_ambient_light: overwrites the ambient reference; nothing else changes. */
    method SetAmbientLight(l: Option<Light>)
      modifies this
      ensures ambient == l
      ensures objects == old(objects) && lights == old(lights)
      ensures camera == old(camera) && tracer == old(tracer)
      ensures State() == Apply(old(State()), Op.SetAmbientLight(l))
    {
      ambient := l;
    }

    /** set_camera: overwrites the camera reference; nothing else changes. */
    method SetCamera(c: Option<Camera>)
      modifies this
      ensures camera == c
      ensures objects == old(objects) && lights == old(lights)
      ensures ambient == old(ambient) && tracer == old(tracer)
      ensures State() == Apply(old(State()), Op.SetCamera(c))
    {
      camera := c;
    }

    /**
     * check(): the camera test, then the tracer test, then the three
     * diagnostics in order. It has no modifies clause, so it changes no field.
     */
    method Check() returns (r: Outcome)
      ensures r == Verdict(State())
    {
      if camera.None? {
        return Fatal(NoCameraMessage);
      }
      if tracer.None? {
        return Fatal(NoTracerMessage);
      }
      var log: seq<Warning> := [];
      if ambient.None? {
        log := log + [NoAmbientLight];
      }
      if |lights| == 0 {
        log := log + [NoLights];
      }
      if |objects| == 0 {
        log := log + [NoObjects];
      }
      AllWarningsInOrder(State());
      r := Ok(log);
    }
  }
}
