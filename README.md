# World: the ray tracer's scene container, modelled in Dafny

This project models the part of the ray tracer's `World` struct that has
behaviour in `World/World.h`. `World` is the scene container. It owns an
ordered list of geometric objects and an ordered list of lights. It also holds
three nullable references: the ambient light, the camera and the tracer.
It has four inline mutators. `add_object` and `add_light` append to the
lists, and `set_ambient_light` and `set_camera` overwrite one reference each.
Before rendering, `check()` validates the configuration. A missing camera is
fatal, and so is a missing tracer; the camera is tested first. A missing
ambient light, an empty light list and an empty object list only produce
diagnostics, always in that order.

Everything is in `world.dfy`, module `World`:

- `Config` is the abstract state: both lists and the three references.
  `Option` stands for a nullable reference field, with `None` for null; a
  value under `Some` is never null. The element types are type parameters,
  and a list element stands for the pointer the C++ code stored, which may be
  null.
- `Verdict` specifies `check()`. It returns `Fatal(message)` or
  `Ok(warnings)`. `Select` is the reference definition of the warnings: the
  diagnostics of the fixed list `AllWarnings` that hold, kept in list order.
- `Op`, `Apply` and `Run` describe a single call of one of the four mutators
  and any sequence of such calls. The lemmas about them relate several calls
  to each other. Direct writes to the public fields (the tracer, the view
  plane, the background colour) are not calls of a mutator and are outside
  `Op`.
- `class World` has the struct's fields. Each mutator is a `modifies this`
  method whose contract gives the new value of every field and ties the new
  state to `Apply`. `Check` follows the source's chain of tests and is proved
  equal to `Verdict`. `Check` has no `modifies` clause, so it cannot change
  any field.

## Model

| member | source | states |
|---|---|---|
| `World.Verdict` | World/World.h:49-61 | check() throws "World doesn't have a camera" exactly when the camera is null, and it does so even when the tracer is null too. It throws "World doesn't have a ray tracer" exactly when the camera is set and the tracer is null. It succeeds exactly when both are set, whatever the lights and objects. On success it reports each diagnostic exactly when that diagnostic's condition holds, in strictly increasing reporting order with no repeats. |
| `World.SelectMembers` | World/World.h:58-60 | Selecting diagnostics from a list keeps exactly the listed diagnostics that hold for the configuration. |
| `World.SelectRanked` | World/World.h:58-60 | If the list is in reporting order, the selection is too, with no diagnostic twice. |
| `World.AllWarningsInOrder` | World/World.h:58-60 | Selecting from all three diagnostics gives the same list as the source's three tests run one after another (ambient, then lights, then objects). |
| `World.World.Check` | World/World.h:49-61 | The method runs the source's test chain, with early returns for the two fatal cases, and returns exactly `Verdict` of the current state. It changes no field. |
| `World.World.AddObject` | World/World.h:41 | `objects` becomes the old list with `o` appended at the end. The length grows by one and every earlier element keeps its position. `lights`, `ambient`, `camera` and `tracer` do not change. |
| `World.World.AddLight` | World/World.h:42 | `lights` becomes the old list with `l` appended at the end. `objects` and all three references do not change. |
| `World.World.SetAmbientLight` | World/World.h:44 | `ambient` becomes the argument, which may be null. Every other field keeps its value. |
| `World.World.SetCamera` | World/World.h:45 | `camera` becomes the argument, which may be null. Every other field keeps its value. |
| `World.World.constructor` | World/World.h:38 | A new World has empty object and light lists, as default-constructed vectors are; its ambient light, camera and tracer are the given initial references (see Left out). |
| `World.SettersIdempotent` | World/World.h:44-45 | Calling `set_camera` or `set_ambient_light` twice with the same argument has the same effect as calling it once. |
| `World.RunState` | World/World.h:41-45 | After any sequence of mutator calls, each list holds its old elements, unchanged and in place, followed by the added elements in call order. The ambient light and the camera are the arguments of the last matching setter call, or their old values if there was none. The tracer is untouched. |
| `World.OnlyAddsKeepReferences` | World/World.h:41-42 | A sequence of `add_object` and `add_light` calls leaves the ambient light and the camera as they were. |
| `World.AddedObjectsNonEmpty` | World/World.h:41 | A call sequence adds at least one object exactly when it contains an `add_object` call. |
| `World.AddedLightsNonEmpty` | World/World.h:42 | A call sequence adds at least one light exactly when it contains an `add_light` call. |
| `World.AddsOnlyClearWarnings` | World/World.h:41-61 | Adding objects and lights never changes whether check() throws, or which error it throws. If check() succeeded before, it still succeeds. It then reports the same warnings, except that "no objects" disappears once an object is added and "no lights" disappears once a light is added. |

## Left out

- The World() constructor's body is not part of this model, because only its declaration is in World/World.h. The Dafny constructor starts with empty lists, as default-constructed vectors are, and takes the initial ambient light, camera and tracer as parameters instead of choosing them. check() handles every combination, and the mutators work the same from any state.
- There is no setter for the tracer, because the source has none. `tracer_ptr` is a public field assigned directly, and the Dafny field `tracer` can be assigned the same way.
- The diagnostic output (`qDebug`) is not modelled as I/O. The warnings come back as an ordered value, and `Warning.Text` gives the logged text. The fatal case logs its message and then throws. It throws `new std::logic_error(...)`, which is a pointer to the exception object. The model returns `Fatal(message)` and does not tell a thrown pointer from a thrown object.
- A null pointer passed to `add_object` or `add_light` is stored like any other element, so it also clears the matching warning. The model gets this for free because it never inspects the element values. An `ambient` of `Some(l)` means a non-null ambient light, so a list element that stands for null is never passed to `SetAmbientLight` under `Some`; `set_ambient_light(nullptr)` is `SetAmbientLight(None)`.
- `hit_objects`, `hit_bare_bones_objects`, `max_to_one`, `clamp_to_color`, `render_scene`, `render_perspective` and `display_pixel` are declarations without bodies in World/World.h, so there is no behaviour to model. The colour functions are also floating-point arithmetic.
- `build`, `init_cameras`, `init_viewplane`, `init_ambient_light`, `init_lights`, `init_plane` and `set_material` are scene-setup code with no bodies shown.
- The destructor, `delete_objects` and `delete_lights` are manual memory management with no bodies shown. Dafny's memory is garbage-collected, so ownership teardown has nothing to model.
- The fields `vp`, `background_color`, `sphere`, `paintArea` and `canvas` are not read or written by any modelled operation. The last two are GUI and render-thread plumbing.
- World/Worlds/6.cpp is entirely commented out. It is scene construction driven by a global seeded random generator and `float` geometry.
- Geometric objects, lights, cameras and tracers have no internals in this model, because their headers are not part of it.
