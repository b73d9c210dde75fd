# Photographer.js, modelled in Dafny

Photographer.js wraps a browser webcam: `new Photographer(config)` attaches a
live `<video>` preview to a container element, `start`/`stop` acquire and
release the camera stream, and `takePhoto` draws the current frame on a
`<canvas>`, encodes it as a data URL and appends a photo record to an
in-memory collection that `getPhotos`, `removePhoto` and `clearAll` manage.

This project models the sequential core of that wrapper:

- `wrappers.dfy` — `Option` and `Result`.
- `js_values.dfy` (module `JsValues`) — the JavaScript values a configuration
  holds, truthiness (ToBoolean), property reads, and the `extend` helper: the
  pure right-biased merge `Merge` and the two-loop `Extend` the source runs,
  proved equal to it.
- `data_url.dfy` (module `DataUrls`) — the format extraction
  `src.match(/^data:image\/(\w+);/)[1]` over data URLs (section 3 of RFC 2397):
  `WordRun` is the greedy `\w+`, `ParseFormat` the whole match, and
  `MatchesFormat` an independent, position-based statement of what the
  pattern matches and captures. The two are proved equivalent.
- `array_splice.dfy` (module `ArraySplice`) — `Array.prototype.splice(start, 1)`
  as specified in section 23.1.3.31 of ECMA-262 (2023 edition), including
  negative starts counting from the end.
- `photographer.dfy` (module `Photographers`) — the construction logic as the
  pure function `Configure` with lemmas, and the class `Photographer` with
  fields `config`, `capable`, `video`, `canvas`, `stream`, `photos`, a ghost
  log `events` of the requests made of the browser and of the flash callback,
  and a ghost count `pending` of `getUserMedia` requests awaiting their
  callback. `Valid()` holds throughout: the container is an element, the
  canvas has the capture dimensions, every stored photo's `format` is the
  format its `src` names and its size is the capture size, and a controller
  without capture capability never holds a stream.

Browser inputs become parameters: `capable` (whether any `getUserMedia` entry
point exists), the container's `clientWidth`/`clientHeight`, the string the
canvas encodes to (`src` of `TakePhoto`) and the stream a granted request
delivers (`StreamGranted`). Constructing can throw, so `new Photographer(…)`
is the static method `Photographer.New`, returning `Result<Photographer, Error>`;
the constructor `Init` runs the part after the checks.

Some edge cases of the code, which the model keeps: the constructor rejects
any falsy container, not only a missing one; a truthy container that is not an
element makes `appendChild` throw a `TypeError` (`ContainerNotElement`); the
capture dimensions are replaced whenever they are falsy, so an explicit `0` is
replaced too; and `removePhoto` with a negative index removes from the end, as
`splice` does, rather than doing nothing.

## Model

| member | source | states |
|---|---|---|
| `JsValues.Merge` | photographer.js:169-186 | the result has every own key of either argument except `__proto__` (whose assignment runs the prototype setter and creates no property); on a shared key the second argument's value wins, whatever it is (`null` and `undefined` too); keys only the first has keep its value |
| `JsValues.MergeLookup` | photographer.js:169-186 | the merged object never has an own `__proto__`; reading any other property of it gives the second argument's own property if it has one, otherwise the first argument's (or `undefined`) |
| `JsValues.MergeWithNothingCopies` | photographer.js:141 | `extend(x)` with no second argument copies every own property of `x` except `__proto__` (a photo record has none, so its copy is exact) |
| `JsValues.Extend` | photographer.js:169-186 | the two `for…in` loops filling a fresh object produce exactly the right-biased merge of the two arguments, skipping `__proto__`; the arguments are left as they were |
| `DataUrls.WordRun` | photographer.js:131 | the greedy `\w+`: a prefix of its input, made only of `[A-Za-z0-9_]`, and not followed by another word character |
| `DataUrls.ParseFormat` | photographer.js:131 | whenever a format is found, the pattern `^data:image\/(\w+);` matches the src with that format as its group |
| `DataUrls.WordRunStopsAt` | photographer.js:131 | a run of word characters followed by a non-word character is exactly what the greedy `\w+` takes |
| `DataUrls.CaptureIsUnique` | photographer.js:131 | the pattern can match a src with only one group value |
| `DataUrls.ParseFormatMatches` | photographer.js:131 | `ParseFormat(src) == Some(f)` if and only if the pattern matches `src` with group `f` |
| `DataUrls.NoFormatMeansNoMatch` | photographer.js:131 | when no format is found, the pattern does not match at all (the case in which `takePhoto` throws) |
| `DataUrls.ParseFormatOfDataUrl` | photographer.js:131 | `"data:image/" + f + ";" + rest` yields `f` for every non-empty word-character `f` and every `rest` |
| `ArraySplice.ActualStart` | photographer.js:153 | the start splice deletes at lies within the array, and strictly inside it exactly when the array is non-empty and the index is below its length |
| `ArraySplice.SpliceRemove` | photographer.js:151-154 | `splice(i, 1)` shortens the array by one exactly when it is non-empty and `i` is below its length, otherwise keeps its length, and keeps only elements it had (as a sub-multiset) |
| `ArraySplice.SpliceRemoveInRange` | photographer.js:151-154 | for `0 <= i < n` exactly the i-th element goes: earlier elements keep their index, later ones move down by one |
| `ArraySplice.SpliceRemoveBeyondEnd` | photographer.js:151-154 | for `i >= n` the array is unchanged |
| `ArraySplice.SpliceRemoveFromEnd` | photographer.js:151-154 | for negative `i` the element at `max(n + i, 0)` goes when `n > 0`, and an empty array stays empty |
| `ArraySplice.SpliceRemoveLosesOnlyOne` | photographer.js:151-154 | when something is removed, the result plus the removed element is the original multiset |
| `Photographers.Configure` | photographer.js:28-62 | the configuration the constructor settles on, starting from the defaults `flash: null`, `container: null`, `imgFormat: 'png'`, `imgWidth: null`, `imgHeight: null` (the constant `Defaults`): it fails only with the missing-container or not-an-element error, and on success has exactly the keys of the defaults and of the user configuration except `__proto__`, with an element as its container |
| `Photographers.ConfigureNeedsContainer` | photographer.js:37-42 | construction throws the missing-container error if and only if the user configuration has no truthy `container` |
| `Photographers.OmittedContainerFails` | photographer.js:28-42 | leaving `container` out always throws, since its default is `null` |
| `Photographers.ConfigureSucceeds` | photographer.js:37-62 | construction succeeds if and only if the configured container is an element |
| `Photographers.ConfigureDimensions` | photographer.js:49-55 | `imgWidth`/`imgHeight` are the configured values when those are truthy and the container's `clientWidth`/`clientHeight` otherwise |
| `Photographers.ConfigureKeepsOtherKeys` | photographer.js:28-37 | the settled configuration has the keys of the defaults and of the user configuration except `__proto__`; every other key has the user's value if given, the default otherwise |
| `Photographers.Photographer.Init` | photographer.js:44-67 | no stream and no photos at first; the video is sized to the container, the canvas to the capture dimensions |
| `Photographers.Photographer.New` | photographer.js:36-82 | `new Photographer(config)` succeeds exactly when `Configure` does, throws the same error otherwise, and on success yields a fresh valid controller with the settled configuration, the given capability, no stream, no photos and nothing requested yet |
| `Photographers.Photographer.Start` | photographer.js:73-114 | with capture capability: one video request issued, `true` returned whether or not a stream arrives, stream and photos untouched; without: `false` and nothing changes |
| `Photographers.Photographer.StreamGranted` | photographer.js:91-103 | a granted request's stream becomes the handle; only a pending request can be granted |
| `Photographers.Photographer.StreamDenied` | photographer.js:105-111 | a denied request stores nothing and changes no state but the pending count |
| `Photographers.Photographer.Stop` | photographer.js:116-121 | with capability: any held stream is stopped, no handle remains, `true` is returned; without: `false`; with no handle it changes nothing, so stopping twice is stopping once |
| `Photographers.Photographer.TakePhoto` | photographer.js:123-144 | without capability `false` and no change; a configured non-function flash throws before anything happens; otherwise the flash is called with the container before the frame is drawn, and either the src has no format and it throws with photos unchanged, or exactly one photo is appended at the end, earlier ones unchanged, whose src is the encoding, whose format is the pattern's group in it and whose size is the capture size |
| `Photographers.Photographer.GetPhotos` | photographer.js:146-149 | returns the photos in capture order; the returned array is a copy, so adding or removing entries on either side never reaches the other |
| `Photographers.Photographer.RemovePhoto` | photographer.js:151-154 | the photos become `splice(index, 1)` of the old ones; the stream and requests are untouched; works with or without capture capability |
| `Photographers.Photographer.ClearAll` | photographer.js:156-159 | the photos become empty whatever the argument; nothing else changes; works with or without capture capability |

## Left out

- Vendor-prefix probing (photographer.js:10-22, 73) is reduced to the `capable` argument of `New`; which prefixed name was found and the `URL` constructor are not modelled.
- The asynchronous `getUserMedia` exchange is reduced to the request event, `StreamGranted` and `StreamDenied`; binding the stream to the preview (`URL.createObjectURL`, the `video.src` fallback) and `video.play()` are browser work, and the denial callback's throw does not reach any caller.
- Canvas drawing and encoding are foreign: `TakePhoto` receives the encoded string as `src`, and records only that a frame was drawn at the capture size and encoding was asked for in the configured format. Image contents and the browser's fallback to PNG are not modelled.
- DOM work (creating the `<video>` and `<canvas>`, `appendChild`, the `window.Photographer` export) is not modelled beyond the sizes given to the two elements.
- Photographers.Photographer.Stop: the model assumes the held stream's own `stop()` exists and returns normally; if it is missing (as on stream objects where only the tracks have `stop`) or throws, the source throws at that call, keeps `_stream` set and never returns `true`, which the model does not capture.
- The flash callback is only recorded as invoked with the container; what it does, including throwing, is not modelled.
- Numbers are integers: `NaN`, fractions and `-0` are not modelled, and neither is a non-integer `removePhoto` argument (`undefined` counts as 0 and fractions are truncated by `splice`).
- A configuration is modelled by its own enumerable properties; a primitive passed as the configuration, inherited properties and the enumeration order of keys are not modelled. Calling the constructor with no argument is calling it with an empty object.
- Objects are known by identity and role only: only an `Element` value is taken to have `appendChild`, and only a `Callable` value can be called.
- The difference between the photo returned by `takePhoto` and the copy stored is not modelled: both are the same value.
- Photographers.Photographer.GetPhotos: the source's copy (`slice(0)`) is shallow, so the returned array shares the photo records with the controller as mutable objects, and changing a field of a returned record changes the stored one; the model treats records as values and does not capture this sharing.
- JsValues.Merge: an own `__proto__` key of either argument creates no property, and the model drops it; what the source does with it instead — an object or `null` value becomes the merged object's prototype, so its properties (a `container`, say) become readable through inheritance, and a read of `__proto__` gives that prototype — is not modelled, since objects here carry no properties of their own.
- JsValues.Extend: `extend` calls `hasOwnProperty` on each argument, so a configuration with an own `hasOwnProperty` property that is not a function makes construction throw a `TypeError`, and one that is a function decides which keys are copied; the model assumes `hasOwnProperty` is the built-in one and does not capture either case.
- A `_stream` set to `null` and a deleted `_stream` are both `None`.
