# MageReactCam control state, in Dafny

A model of the camera control inside the `MageReactCam` React component
(`src/MageReactCam.tsx`): the zoom level, the maximum zoom discovered from the
camera, and the facing mode; the three commands that change them (`zoomIn`,
`zoomOut`, `switchFacingMode`) and the capability update that sets the maximum
zoom when a stream arrives; the getters of the imperative handle; the
constraint record sent to `getUserMedia`; and the branch and sizing of
`snapshot`.

- `wrappers.dfy` — `Option`, standing for a JavaScript value that may be `undefined`.
- `cam_control.dfy` (module `CamControl`) — the pure side: the updater
  expressions given to React's state setters, the capability update, the
  constraint builder, and lemmas about arbitrary sequences of commands.
- `mage_react_cam.dfy` (module `MageReactCam`) — the component as a class
  `Camera` whose fields are the React state and the element behind the
  internal ref. Each command method applies the matching `CamControl`
  updater, so the lemmas about `CamControl.Run` describe any sequence of
  handle calls.

Modelling choices:

- `maxZoom` is a `real`, since `capabilities.zoom.max` is an arbitrary
  number. `zoomLevel` is an `int`: it starts at 1 and only moves by 1.
- The `width` and `height` props are `Option<int>`. `x || 500` gives 500 for
  `undefined` and for 0, and keeps every other value, negative ones included.
- Two behaviours of the code a reader might not expect:
  - A capability update does not clamp `zoomLevel`. After a lower `maxZoom` arrives,
    `zoomLevel <= maxZoom` no longer holds (`CamControl.CapabilityUpdateDoesNotClamp`).
  - The `videoConstraints` prop is never read when the request is built. It appears
    only in the effect's dependency list, so there is no override path.
- The success handler reads `getVideoTracks()[0]`. On a stream with no video track,
  `getCapabilities` is then called on `undefined` and throws. The rejection handler
  receives that error, and no state changes. `Camera.OnStreamAcquired` reports this
  case as `threw`.
- `Camera.Snapshot` receives whether `getContext("2d")` returned a context as a
  parameter. It returns the encoded surface as a `DataUrl` value that records the
  MIME type requested from `toDataURL` and the surface. The encoded bytes are not modelled. A
  surface of zero size, such as one taken before the video's metadata arrives, encodes as `data:,`
  in a browser rather than as a JPEG.

## Model

| member | source | states |
|---|---|---|
| `CamControl.Initial` | src/MageReactCam.tsx:54-64 | the first state has zoom 1, maximum zoom 1 and the facing mode of the prop |
| `CamControl.ZoomInStep` | src/MageReactCam.tsx:86-90 | zoom-in raises the level by exactly 1 iff `prev + 1 <= maxZoom`, otherwise keeps it; a level within `maxZoom` stays within it |
| `CamControl.ZoomOutStep` | src/MageReactCam.tsx:92-94 | zoom-out lowers the level by exactly 1 iff it is above 1, otherwise keeps it; a level of at least 1 stays at least 1 |
| `CamControl.Toggle` | src/MageReactCam.tsx:99-103 | switching always yields the other facing mode |
| `CamControl.UpdateMaxZoom` | src/MageReactCam.tsx:137-140 | `maxZoom` becomes the reported `zoom.max` when a zoom capability is present and is unchanged otherwise |
| `CamControl.OrDefaultSize` | src/MageReactCam.tsx:118-119 | the defaulting to 500 never yields 0: 500 for an absent or zero size, the size itself otherwise |
| `CamControl.BuildConstraints` | src/MageReactCam.tsx:115-126 | the request carries the current facing mode, ideal width and height defaulted to 500, and exactly one `advanced` entry whose zoom is the zoom level |
| `CamControl.ConstraintsDetermineState` | src/MageReactCam.tsx:115-126 | for fixed size props, two requests are equal iff they were built from the same facing mode and zoom level |
| `CamControl.ApplyFrame` | src/MageReactCam.tsx:86-103 | zoom commands change neither `maxZoom` nor the facing mode; switching changes no zoom state; a capability update changes neither zoom level nor facing mode |
| `CamControl.SwitchTwiceRestores` | src/MageReactCam.tsx:99-103 | switching twice restores the whole state; environment maps to user and user to environment |
| `CamControl.ZoomInOutInverse` | src/MageReactCam.tsx:86-94 | a zoom-out undoes a zoom-in that took effect, and a zoom-in undoes a zoom-out that took effect within `maxZoom` |
| `CamControl.CapabilityUpdateDoesNotClamp` | src/MageReactCam.tsx:137-140 | a capability update lowering `maxZoom` to 2 leaves a zoom level of 3 above it |
| `CamControl.RunKeepsZoomPositive` | src/MageReactCam.tsx:86-94 | from a zoom level of at least 1, every sequence of commands keeps it at least 1 |
| `CamControl.RunStaysWithinMaxZoom` | src/MageReactCam.tsx:86-103 | without capability updates `maxZoom` never changes, and a zoom level within it stays within it |
| `CamControl.InitialZoomFixedWithoutCapabilities` | src/MageReactCam.tsx:60-94 | from the initial state, zoom stays 1 and `maxZoom` stays 1 until a capability update arrives |
| `CamControl.RunFacingModeParity` | src/MageReactCam.tsx:99-103 | after any sequence the facing mode is the original one iff the number of switches is even |
| `CamControl.RunZoomIgnoresFacingMode` | src/MageReactCam.tsx:86-103 | the zoom state after any sequence does not depend on the facing mode |
| `CamControl.RepeatedZoomInReachesCeiling` | src/MageReactCam.tsx:86-90 | `k` zoom-ins climb one step each, up to the largest whole number within `maxZoom`, and never lower a level already at or above it |
| `CamControl.RepeatedZoomOutReachesFloor` | src/MageReactCam.tsx:92-94 | `k` zoom-outs descend one step each down to 1, and never change a level at or below 1 |
| `MageReactCam.Camera.constructor` | src/MageReactCam.tsx:54-64 | a new component holds the initial control state and has no mounted element |
| `MageReactCam.Camera.SetVideoElement` | src/MageReactCam.tsx:165 | mounting or unmounting the element changes only the ref |
| `MageReactCam.Camera.ZoomIn` | src/MageReactCam.tsx:86-90 | the new state is the zoom-in updater applied to the old one; nothing else changes; the zoom level stays positive |
| `MageReactCam.Camera.ZoomOut` | src/MageReactCam.tsx:92-94 | the new state is the zoom-out updater applied to the old one; nothing else changes; the zoom level stays positive |
| `MageReactCam.Camera.SwitchFacingMode` | src/MageReactCam.tsx:99-103 | the facing mode toggles; nothing else changes |
| `MageReactCam.Camera.GetMaxZoomLevel` | src/MageReactCam.tsx:96 | returns `maxZoom` and changes nothing |
| `MageReactCam.Camera.GetCurrentZoomLevel` | src/MageReactCam.tsx:97 | returns the zoom level and changes nothing |
| `MageReactCam.Camera.RequestedConstraints` | src/MageReactCam.tsx:114-126 | the effect requests the current facing mode, the defaulted size props, and the current zoom level as the only advanced entry |
| `MageReactCam.Camera.OnStreamAcquired` | src/MageReactCam.tsx:132-147 | a stream with a video track updates `maxZoom` from that track's capabilities and becomes the mounted element's source; a stream without one throws into the rejection handler and changes nothing |
| `MageReactCam.Camera.Snapshot` | src/MageReactCam.tsx:66-84 | no result iff no element is mounted; otherwise the encoding, requested as `image/jpeg`, of a surface sized to the video's native `videoWidth` by `videoHeight`, drawn onto iff a 2D context was available |
| `MageReactCam.ZoomInGatedByCapability` | src/MageReactCam.tsx:86-90 | on a fresh component zoom-in is a no-op; after a stream reports a maximum zoom of 2, two zoom-ins end at 2 |

## Left out

- Stream cleanup (src/MageReactCam.tsx:128-153) is not modelled. It is asynchronous and its order is driven by React. In the code, cleanup stops tracks only when the promise had already resolved and assigned `stream`. A stream that resolves after cleanup is still attached and is never stopped. The model makes no claim that every stream is released.
- The rejection handler's call of `onUserMediaError` (src/MageReactCam.tsx:145-147) is a foreign callback. It is not modelled beyond `OnStreamAcquired`'s `threw` flag.
- The effect's dependency list and when React re-runs it (src/MageReactCam.tsx:154-163) are scheduling, not logic.
- Creating the canvas and encoding the JPEG (src/MageReactCam.tsx:69-81) are DOM calls. Only the branch, the sizing and whether a frame is drawn are kept.
- `forwardRef`, `useImperativeHandle`, rendering and prop spreading (src/MageReactCam.tsx:10-47, 105-112, 165) are framework plumbing.
- The `facingMode` prop seeds `currentFacingMode` only on first render. A later change of the prop does not reach the state, and the model has no operation for it.
- MageReactCam.Camera.GetCurrentZoomLevel, MageReactCam.Camera.GetMaxZoomLevel: these return the value right after the last command, so the model assumes React commits a render between any two handle calls. In the code the getters (src/MageReactCam.tsx:96-97) and `zoomIn`'s `maxZoom` read the values of the last render, and the handle (src/MageReactCam.tsx:105-112) is replaced only after the next commit. So `zoomIn(); getCurrentZoomLevel()` in one handler returns the level before the zoom, and a caller that kept an earlier `ref.current` keeps that render's closures. `ZoomInGatedByCapability` relies on the same assumption. React batching is not modelled.
- MageReactCam.Camera: the `width` and `height` props are fixed for the object's lifetime. The effect reads the current props each time it runs (src/MageReactCam.tsx:118-119), and `CamControl.BuildConstraints` takes them as arguments, but the class has no operation that changes them.
- `NaN`, fractional or non-finite `width`/`height` values are not modelled, since the props are integers here.
