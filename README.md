# Cat-vs-dog classifier: a Dafny model of its capture-to-decision core

The repository is a single React component, `src/CatDogClassifier.js`,
that shows a camera feed, captures a 32x32 frame on request, encodes it
as a planar float tensor, runs a two-class ONNX model on it and shows
"cat", "dog" or "neither". This project models the parts of that
component that carry logic, and proves what they promise:

- `tensor_encoder.dfy` (module `TensorEncoder`): `preprocessImage`.
  The loop that turns the canvas's interleaved RGBA bytes (4096 entries)
  into a planar buffer of 3072 reals is a method filling an array. It is
  proved equal to a reference encoding: the red plane, then the green
  plane, then the blue plane, each byte divided by 255. Lemmas about the
  reference encoding give the planar layout and the shape [1, 3, 32, 32].
  They also show that the three planes cover the output exactly once,
  that alpha bytes never matter (and colour bytes always do), and that
  every entry lies in [0, 1].
- `decision.dfy` (module `Decision`): the threshold rule of
  `classifyImage`. The label is Cat, Dog or Unknown, with a strict 0.9
  threshold and the larger probability chosen. Lemmas cover a genuine
  probability distribution (the tie-break never names a class below the
  threshold) and the boundary cases.
- `camera.dfy` (module `Camera`): the facing-mode toggle and its
  involution, and the stream bookkeeping of `startCamera`. The state is
  the referenced stream, the set of running streams and a counter for new
  stream identities. It is proved that non-overlapping calls never leave
  more than one stream running. It also shows that overlapping calls, as
  the component is written, can (see Findings).
- `classifier.dfy` (module `Classifier`): the component as a class whose
  fields are its state and refs (`result`, `facingMode`, `sessionRef`,
  `streamRef`, the running streams, the video element's source). Its
  methods model the handlers: model loading, camera toggle, the two halves
  of `startCamera` around its `await`, and `classifyImage`. Each method
  ties the new state to the functions above. The second half of
  `startCamera` is the corrected completion of the Findings section, not
  the code as written.
- `wrappers.dfy` (module `Wrappers`): an `Option` type standing for a
  nullable reference.

Bytes are integers in [0, 255] and the division by 255 is exact over
`real`. Probabilities are reals. Device access, model loading and
inference are parameters: the outcome of `getUserMedia` (`Acquisition`),
the outcome of `InferenceSession.create` (an `Option<Session>`), and a
function from session and tensor to the probabilities.

The model keeps these choices of the code:
- The frame size is the constant 32x32, not a configuration read from the model.
- The result is a bare label with no confidence value.
- No explicit shape check happens before inference. Here the shape is
  proved to match (`InputShapeVolume`).
- A failed request leaves the previous result on screen.

## Model

| member | source | states |
|---|---|---|
| TensorEncoder.PreprocessImage | src/CatDogClassifier.js:69-81 | the filled buffer equals the reference planar encoding of the frame, tagged "float32" with shape [1, 3, 32, 32], and holds exactly as many entries as that shape |
| TensorEncoder.Normalize | src/CatDogClassifier.js:75-77 | a byte divided by 255 lies in [0, 1], and is 0 or 1 exactly for bytes 0 and 255 |
| TensorEncoder.Encode | src/CatDogClassifier.js:72-78 | the reference encoding has 3*32*32 = 3072 entries |
| TensorEncoder.InputShapeVolume | src/CatDogClassifier.js:72-80 | the shape [1, 3, 32, 32] holds exactly the 3072 entries the buffer is allocated with |
| TensorEncoder.EncodeAt | src/CatDogClassifier.js:74-78 | output entry k is the input byte at 4*(k mod 1024) + k div 1024, scaled |
| TensorEncoder.PlanarLayout | src/CatDogClassifier.js:74-78 | for every pixel i, entries i, i+1024, i+2048 are its red, green and blue bytes divided by 255 |
| TensorEncoder.PlanesPartitionOutput | src/CatDogClassifier.js:74-78 | every output index is written by exactly one (plane, pixel) pair |
| TensorEncoder.SourceIndexSkipsAlpha | src/CatDogClassifier.js:74-78 | no output entry reads an alpha byte, the channel read is the output's plane, and distinct outputs read distinct bytes |
| TensorEncoder.EncodeIgnoresOnlyAlpha | src/CatDogClassifier.js:74-78 | two frames encode identically if and only if they agree on every red, green and blue byte |
| TensorEncoder.AlphaIgnored | src/CatDogClassifier.js:74-78 | frames differing only in alpha bytes encode identically |
| TensorEncoder.ColourByteIsRead | src/CatDogClassifier.js:74-78 | every colour byte of the frame appears, scaled, at a definite output index |
| TensorEncoder.EncodeBounded | src/CatDogClassifier.js:75-77 | every entry of the encoding lies in [0, 1] |
| Decision.Decide | src/CatDogClassifier.js:103-107 | the label is Unknown exactly when neither probability exceeds 0.9; Cat only when the cat probability is the strictly larger one and above 0.9; Dog only when the dog probability is at least the cat one and above 0.9 |
| Decision.DistributionLabels | src/CatDogClassifier.js:103-104 | for non-negative probabilities summing to one, Cat holds iff the cat probability exceeds 0.9, Dog iff the dog probability does, Unknown iff neither does |
| Decision.TieAbstains | src/CatDogClassifier.js:103-104 | equal probabilities of a distribution always give Unknown |
| Decision.BoundaryCases | src/CatDogClassifier.js:103-107 | (0.9, 0.1) and (0.1, 0.9) give Unknown, (0.95, 0.05) Cat, (0.05, 0.95) Dog, (0.6, 0.4) Unknown |
| Camera.ToggleFacing | src/CatDogClassifier.js:52 | the new facing mode is "user" or "environment", and it is "environment" exactly when the old one was "user" |
| Camera.ToggleTwice | src/CatDogClassifier.js:52 | toggling twice gives back the facing mode if and only if it was "user" or "environment" |
| Camera.ToggleFlips | src/CatDogClassifier.js:52 | from either facing mode, one toggle changes it and a second restores it |
| Camera.ValidAtMostOneLive | src/CatDogClassifier.js:29-39 | in a state without leaked streams at most one stream runs |
| Camera.StopPrevious | src/CatDogClassifier.js:29-31 | afterwards the referenced stream no longer runs, every other running stream still does, and the reference is kept |
| Camera.Install | src/CatDogClassifier.js:34-39 | a granted stream is new, running and referenced; a failed acquisition changes nothing |
| Camera.StartCamera | src/CatDogClassifier.js:26-44 | one call keeps the no-leak invariant; on success exactly the new stream runs and it replaced the old reference; on failure no stream runs and the old (stopped) reference stays |
| Camera.StartAllKeepsOneStream | src/CatDogClassifier.js:26-44 | after any sequence of non-overlapping calls at most one stream runs, the referenced one, and one runs exactly when the last acquisition succeeded |
| Camera.OverlappingStartsLeak | src/CatDogClassifier.js:26-44 | as written, two overlapping calls that both succeed leave streams 0 and 1 running with only 1 referenced |
| Camera.FinishGuarded | src/CatDogClassifier.js:34-40 | the corrected completion keeps the no-leak invariant: on success exactly the new stream runs; on failure nothing changes |
| Camera.Step | src/CatDogClassifier.js:26-44 | each half of a call, with the corrected completion, keeps the no-leak invariant |
| Camera.RunKeepsOneStream | src/CatDogClassifier.js:26-44 | with the corrected completion, any interleaving of calls leaves at most one stream running |
| Camera.GuardedAgreesWhenSequential | src/CatDogClassifier.js:26-44 | for calls that do not overlap, the corrected completion gives exactly the component's states |
| Classifier.CatDogClassifier.constructor | src/CatDogClassifier.js:5-10 | no result, facing mode "user", no session, no stream referenced or running |
| Classifier.CatDogClassifier.LoadModel | src/CatDogClassifier.js:13-23 | a created session is stored; a failed creation leaves the session as it was |
| Classifier.CatDogClassifier.ToggleCamera | src/CatDogClassifier.js:51-53 | the facing mode becomes its toggle |
| Classifier.CatDogClassifier.BeginStartCamera | src/CatDogClassifier.js:29-31 | the stream state becomes StopPrevious of the old one, keeping the invariant |
| Classifier.CatDogClassifier.FinishStartCamera | src/CatDogClassifier.js:34-40 | the stream state becomes the corrected completion of the old one; on success the video element shows the new stream |
| Classifier.CatDogClassifier.StartCamera | src/CatDogClassifier.js:26-44 | the stream state becomes StartCamera of the old one; at most one stream runs, and on success it is the referenced one; the video element shows the new stream on success and keeps its old source on failure |
| Classifier.CatDogClassifier.ClassifyImage | src/CatDogClassifier.js:84-111 | without a session the result is unchanged; otherwise the frame's planar encoding is given to inference, and the result becomes the decision on its probabilities, or stays unchanged if inference fails |

## Left out

- Softmax (src/CatDogClassifier.js:97-99): it is floating-point `Math.exp` arithmetic. The `infer` parameter of `ClassifyImage` yields probabilities directly, and the decision rule takes them as given reals.
- Float32 storage: the buffer holds exact reals `b / 255`, with no rounding to 32-bit floats. NaN and infinite probabilities do not arise over `real`.
- The ONNX runtime (`InferenceSession.create`, `session.run`, `ort.Tensor`): an external engine. Its outcomes are parameters, and `ort.Tensor` is the `Tensor` datatype.
- Frame capture (`captureImage`, src/CatDogClassifier.js:56-66) and `getImageData`: browser canvas I/O with resampling the source does not show. The captured pixel buffer is the input of the encoder.
- TensorEncoder.PreprocessImage: requires a 4096-entry buffer. `getImageData(0, 0, 32, 32)` always returns one.
- Classifier.CatDogClassifier.ClassifyImage: exceptions thrown while capturing the frame are not modelled, only a failing inference. Both are caught by the same handler and leave the result unchanged. The result is a `Label`, not the exact display strings with emoji.
- Camera access (`getUserMedia`): its outcome is a parameter. The facing-mode constraint it is called with is not recorded on the streams.
- A stream's tracks are not modelled one by one. Stopping every track of a stream takes it out of the running set.
- React wiring: `useState`, `useRef`, the effects (including the restart of the camera whenever `facingMode` changes, src/CatDogClassifier.js:46-48), and the JSX. Also left out is the error thrown if the video element is missing.
- Console logging.
- Classifier.CatDogClassifier.FinishStartCamera: it is the corrected completion (`Camera.FinishGuarded`), not lines 34-40 as written. It stops the stream referenced when `getUserMedia` resolves, which the code never does. So the class cannot show the leak of overlapping calls; the as-written behaviour is modelled only on values (`Camera.StepAsWritten`, `Camera.OverlappingStartsLeak`).
- Classifier.CatDogClassifier.ClassifyImage: the `await session.run` (src/CatDogClassifier.js:93) is one atomic step. Overlapping classification requests, where the last one to resolve sets the result, are not represented.

## Findings

| source | as written | input that shows it | evidently intended | confidence | as-written member | corrected member |
|---|---|---|---|---|---|---|
| src/CatDogClassifier.js:26-44 | `startCamera` stops the referenced stream, awaits `getUserMedia`, then overwrites `streamRef.current` without stopping whatever was stored there in the meantime | two `startCamera` calls overlapping: the camera flipped twice before the first `getUserMedia` resolves (or the mount effect run twice), both acquisitions granted | at most one camera stream running: the stream referenced when a new one arrives is stopped before it is replaced | medium; not executed | Camera.OverlappingStartsLeak | Camera.FinishGuarded |

The class `Classifier.CatDogClassifier` uses the corrected completion.
`Camera.GuardedAgreesWhenSequential` shows that it differs from the code
only when calls overlap.
