# VideoIOComponent — a Dafny model

This project models the bookkeeping of HaishinKit's `VideoIOComponent`. That is the video stage of the capture pipeline. It keeps an ordered registry of visual effects. It runs those effects over every camera frame and re-materialises the result as an encoder-ready pixel buffer. It then forwards camera and screen frames, with their timing, to the AVC encoder. It also maps an AVFoundation video gravity to a Core Animation contents gravity.

Modules:

- `Media` (`media.dfy`): the value types. A pixel buffer keeps its width, its height, its pixel format and its content as an image. The module also holds CMTime as an opaque timestamp, the CGSize of a size notification, Swift's `Int32`, and the `Int32(CGFloat)` conversion.
- `Gravity` (`gravity.dfy`): `getContentsGravity` as a total function on strings.
- `EffectChain` (`effect_chain.dfy`): one pipeline pass as a specification. The effects form a left fold (`ApplyChain`) over uninterpreted `(effect, image) -> image` steps. `EffectOutput` is the output buffer: the post-effect image at the pre-effect width and height, in the `'420v'` format.
- `EffectRegistry` (`effect_registry.dfy`): the registry as a value. It holds `indexOf`, `removeAtIndex`, the states after register and after unregister, and the no-duplicates invariant over any sequence of calls.
- `VideoIO` (`video_io_component.dfy`): the classes. `AVCEncoder` is reduced to its `width`, `height` and an append-only log of encoded frames. `VideoIOComponent` holds the `effects` field and the encoder. Its methods mutate state as the source does. `Effect` keeps the source's `for` loop, proved against `EffectOutput`.

Effects are a type parameter `E` compared with `==`, which stands for the identity comparison of `indexOf`. What an effect does is the component's `execute` function. Images are a type parameter `I`.

## Model

| member | source | states |
|---|---|---|
| `Media.TruncateToInt32` | lf/Media/VideoIOComponent.swift:107-108 | `Int32(size.width)` drops the fraction toward zero: for non-negative x the result r has `r <= x < r + 1`, for negative x `r - 1 < x <= r`; outside the Int32 range the conversion traps, so that range is required |
| `Media.TruncateWhole` | lf/Media/VideoIOComponent.swift:107-108 | a size that is a whole number converts to exactly that Int32 |
| `Gravity.ContentsGravity` | lf/Media/VideoIOComponent.swift:7-18 | the result is always one of the three contents gravities; it is resize-aspect-fill iff the input is the aspect-fill video gravity, resize iff the input is the resize video gravity, and resize-aspect for every other string, the named resize-aspect case included |
| `Gravity.ContentsGravityRoundTrip` | lf/Media/VideoIOComponent.swift:8-14 | on the three named video gravities the mapping is one-to-one (the inverse `VideoGravity` recovers the input) |
| `Gravity.ContentsGravityOnto` | lf/Media/VideoIOComponent.swift:8-14 | every contents gravity is produced by some named video gravity |
| `Gravity.ContentsGravityDefault` | lf/Media/VideoIOComponent.swift:15-16 | an unrecognised gravity yields the same result as resize-aspect |
| `EffectChain.ApplyChainAppend` | lf/Media/VideoIOComponent.swift:45-47 | running the chain `s + t` equals running `t` on the result of running `s`: effects apply strictly in list order, each to the previous result |
| `EffectChain.ApplyChainSnoc` | lf/Media/VideoIOComponent.swift:45-47 | an effect at the end of the list runs last, on the output of all earlier effects |
| `EffectChain.ApplyChainPair` | lf/Media/VideoIOComponent.swift:43-47 | with effects `[A, B]` the image is `B(A(input))` |
| `EffectChain.EffectOutput` | lf/Media/VideoIOComponent.swift:39-55 | the output buffer has the input buffer's width and height whatever the effects do, is in the 4:2:0 bi-planar video-range format, and with no effects carries the input image unchanged |
| `EffectRegistry.IndexOf` | lf/Media/VideoIOComponent.swift:59 | `indexOf` is None exactly when the effect is absent; otherwise it is a position holding the effect with no earlier occurrence (the first index) |
| `EffectRegistry.RemoveAt` | lf/Media/VideoIOComponent.swift:71 | `removeAtIndex(i)` shortens the list by one, keeps the elements before i in place, shifts later ones down by one, and removes exactly one copy of the element at i |
| `EffectRegistry.Registered` | lf/Media/VideoIOComponent.swift:57-66 | after register the effect is present; the list is unchanged when it already was; otherwise the effect is the new last element after all earlier elements in order |
| `EffectRegistry.Unregistered` | lf/Media/VideoIOComponent.swift:68-77 | an absent effect leaves the list unchanged; a present one has the entry at its first index removed (order of the rest kept), and exactly one copy of the effect leaves the multiset |
| `EffectRegistry.RegisteredNoDuplicates` | lf/Media/VideoIOComponent.swift:57-66 | register preserves "no effect twice" |
| `EffectRegistry.UnregisteredNoDuplicates` | lf/Media/VideoIOComponent.swift:68-77 | unregister preserves "no effect twice", and afterwards the effect is not in the list at all |
| `EffectRegistry.RegisteredIdempotent` | lf/Media/VideoIOComponent.swift:59-62 | registering the same effect twice is the same as registering it once |
| `EffectRegistry.UnregisterUndoesRegister` | lf/Media/VideoIOComponent.swift:57-77 | unregistering a freshly registered effect restores the previous list exactly |
| `EffectRegistry.ReplayNoDuplicates` | lf/Media/VideoIOComponent.swift:57-77 | over any sequence of register and unregister calls the list never holds an effect twice |
| `VideoIO.AVCEncoder.constructor` | lf/Media/VideoIOComponent.swift:21 | a new encoder has the given dimensions and has received no frames |
| `VideoIO.AVCEncoder.EncodeImageBuffer` | lf/Media/VideoIOComponent.swift:95-99 | each encoded frame is logged after all earlier ones, with its buffer, timestamp and duration; the dimensions are untouched |
| `VideoIO.VideoIOComponent.constructor` | lf/Media/VideoIOComponent.swift:33-37 | a new component has an empty effect list (so no duplicates) and uses the given encoder |
| `VideoIO.VideoIOComponent.Effect` | lf/Media/VideoIOComponent.swift:39-55 | the loop over the effects computes `EffectOutput`: the effects' left fold over the input image, in a buffer of the input's pre-effect width and height |
| `VideoIO.VideoIOComponent.RegisterEffect` | lf/Media/VideoIOComponent.swift:57-66 | returns true iff the effect was absent; then it is appended after the unchanged earlier elements; otherwise the list is unchanged; no duplicates before implies none after |
| `VideoIO.VideoIOComponent.UnregisterEffect` | lf/Media/VideoIOComponent.swift:68-77 | returns true iff the effect was present; then its first entry is removed and it is no longer in the list; otherwise the list is unchanged; no duplicates is preserved |
| `VideoIO.VideoIOComponent.CaptureOutput` | lf/Media/VideoIOComponent.swift:91-100 | a sample without an image buffer encodes nothing; otherwise exactly one frame is encoded: the processed buffer, with the sample's own timestamp and duration; encoder dimensions unchanged |
| `VideoIO.VideoIOComponent.DidSetSize` | lf/Media/VideoIOComponent.swift:105-110 | the encoder's width and height become the size's width and height truncated to Int32 |
| `VideoIO.VideoIOComponent.PixelBufferOutput` | lf/Media/VideoIOComponent.swift:111-117 | a screen frame is encoded unchanged, its timestamp used as both presentation time and duration |
| `VideoIO.CameraFrameScenario` | lf/Media/VideoIOComponent.swift:91-100 | with `[Sharpen, Grayscale]` registered, a 1920x1080 frame at pts 1000 and duration 33 reaches the encoder exactly once, as a 1920x1080 buffer holding `Grayscale(Sharpen(input))`, with pts 1000 and duration 33 |

## Left out

- CIContext construction with the hardware-to-software fallback and its logging (lines 25-32): a framework call. Rendering is modelled as the output buffer holding the post-effect image.
- Pixel buffer lock and unlock, CIImage creation and CVPixelBuffer allocation (lines 40, 43, 53, 79-86): native memory management. A buffer's content is read directly as its image.
- Allocation failure in `createImageBuffer`: the source force-unwraps the new buffer (line 54) and has no drop-frame path, so none is modelled.
- Preview delivery (lines 48-51): the CGImage render and the `dispatch_async` to the main queue that sets `layer.contents` are UI work with no result the encode path uses.
- `objc_sync_enter`/`objc_sync_exit` and the serial `lockQueue` (lines 22-24, 58-75, 106): concurrency. Registry and encoder updates are sequential steps, and `didSetSize`'s asynchronous block is applied at once. Snapshot isolation of a frame pass is therefore not modelled beyond `Effect` iterating a copy of the list.
- `AVCEncoder` internals and `CMSampleBuffer` extraction (lines 92-98): foreign types. The encoder is its width, height and frame log. A sample buffer is its optional image buffer plus its timestamp and duration.
- Stateful effects: `VisualEffect.execute` may keep state between calls. The model treats each effect as a fixed function of the effect and the image.
- The `autoreleasepool` and Core Image's lazy evaluation: memory management with no observable behaviour here.
- `Media.TruncateToInt32`: CGFloat is modelled as an exact real. Floating-point rounding, NaN and infinities are not modelled.
- The string values of the AVFoundation and Core Animation gravity constants come from those frameworks, not from this file. Only their distinctness matters to the model.
