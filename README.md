# Handwritten-digit sketch pad: session model

This project models the client script of a browser sketch pad,
`static/script.js`. The user draws one digit on a canvas. The script keeps a
capped undo history of canvas snapshots and sends the drawing to a remote
classifier. It then shows the returned prediction, or an error, in a result
element.

The model has these parts:

- `History`: the undo log as sequence values. `saveState` is `Pushed`, which
  appends and evicts the oldest entry past `MAX_HISTORY = 10`. The history
  step of the undo button is `Undone`. A run of saves is `PushAll`, and it is
  proved equal to the newest ten of everything pushed.
- `Canvas`: pointer events, `getPos`, and an abstract raster. A raster is the
  set of inked line segments. The blank canvas is the empty set. A snapshot
  is the raster it captures.
- `Js`: the JavaScript behaviour the submit handler depends on. It covers
  parsed JSON values, truthiness for `||`, conversion to text inside a
  template literal, and property reads that throw on `null`.
- `Submit`: the pure choice of the result text, and of whether the star burst
  fires, from how the request ended.
- `Sketchpad.Session`: one object for the module-level state. That is the
  `drawing` flag, `history`, the raster, the context's current path and pen,
  and the result text. Each handler is a method on it. `Valid()` says the log
  holds 1 to 10 entries. It also says that whenever no stroke is in progress,
  the canvas equals the newest snapshot. Every handler keeps `Valid()`.

Three facts about the script shape the model:

- Clearing pushes one more snapshot and keeps the earlier history.
- The newest snapshot equals the visible canvas only while no stroke is in
  progress.
- A submit makes one request and shows one reply for it.

Some edge cases of the script are kept as written:

- `startDraw` sets `drawing` before it calls `getPos`. On a touch event with
  an empty touch list, `getPos` throws. The flag is then set and the old path
  is kept.
- Clearing in the middle of a stroke does not begin a new path. The next
  `stroke()` inks the old path's segments again.
- A JSON `null` body makes the property read throw. The thrown `TypeError`
  then becomes the error text.
- An `error` value that is an object with its own `toString` entry cannot be
  converted to text. The conversion throws, and the catch block shows that
  `TypeError` instead.

## Model

| member | source | states |
|---|---|---|
| History.Pushed | static/script.js:19-22 | Pushing onto a log of at most 10 entries leaves 1 to 10 entries, with the new snapshot last. Below the cap the old entries are kept. At the cap only index 0 is evicted. |
| History.Window | static/script.js:12 | The newest min(n, 10) entries of a sequence, in order. |
| History.Undone | static/script.js:76-78 | With at most one entry the log is unchanged. Otherwise exactly the top entry is removed, the rest stay in order, and at least one entry remains. |
| History.PushAllKeepsNewest | static/script.js:19-22 | After any number of saves onto a log within the cap, the log equals the newest 10 of all entries pushed. |
| History.StrokeHistoryLength | static/script.js:19-26 | Starting from the initial blank snapshot, N saves leave min(N+1, 10) entries, never zero, with the newest save on top. |
| History.UndoAfterPush | static/script.js:76-79 | Undo reverses a save that evicted nothing. After a save that evicted, undo gives the old log without its oldest entry. |
| Canvas.GetPos | static/script.js:35-39 | Fails exactly on a touch event with no touches. Otherwise adding the rect's left/top back gives the event's client point, and a touch event uses its first touch. |
| Canvas.InkAppend | static/script.js:50-51 | Stroking a path inks what stroking its two parts inks. Every line of non-zero length that is added appears on the canvas. |
| Js.DigitsRoundTrip | static/script.js:123 | The decimal numeral of a natural number is all digits, has no leading zero and reads back as the number. |
| Js.NumberTextRoundTrip | static/script.js:123 | The text of an integer reads back as that integer. A digit 0 to 9 prints as one character. |
| Js.GetProp | static/script.js:117-126 | Reading `error` or `prediction` throws exactly on null. It is defined exactly when the body is an object holding that key, and then it is that entry. |
| Js.TextOr | static/script.js:118 | For `${v \|\| fallback}`: a non-empty string shows as itself, and an empty one gives the fallback. Undefined, null, false and 0 give the fallback. A non-zero number shows its numeral, and `[]` or `[null]` show as "". An object gives "[object Object]", or throws the not-a-primitive TypeError exactly when it has its own `toString` entry. No other error is thrown. |
| Js.TextThrowsOnlyNotPrimitive | static/script.js:118 | Converting any JSON value to text either succeeds or throws the not-a-primitive TypeError, including through nested arrays. |
| Submit.SubmitReply | static/script.js:104-131 | The burst fires exactly when the response is ok and its body has a numeric `prediction`, and then the text is "Prediction: N". Every other reply starts with "Error: ". A thrown fetch shows its message. A null body shows the TypeError of the first property read. Otherwise the reply shows the text of a truthy `error`, or "invalid response" (ok) or "request failed" (not ok). When that text cannot be made, it shows the conversion's TypeError instead. |
| Submit.NotOkIgnoresPrediction | static/script.js:117-124 | With a numeric prediction in the body, a non-ok status still gives an error, and an ok status celebrates. |
| Submit.UnparsableIsEmptyObject | static/script.js:115 | A body that does not parse is handled as `{}` and gives the default error for its status. |
| Submit.EmptyErrorFallsBack | static/script.js:118-126 | For any body object, an empty `error` string gives the same reply as no `error` entry at all. |
| Submit.UnprintableErrorShown | static/script.js:118-129 | An `error` object with its own `toString` entry gives "Error: Cannot convert object to primitive value", whatever the status. |
| Submit.DigitPrediction | static/script.js:122-124 | An ok body with prediction d in 0..9 gives "Prediction: d" and fires the burst. |
| Submit.ErrorStringShown | static/script.js:126 | A non-empty error string is shown verbatim after "Error: ", whatever the status. |
| Sketchpad.Session.constructor | static/script.js:24-26 | On page load the canvas is blank, the log is one blank snapshot, and no stroke is in progress. |
| Sketchpad.Session.ResetCanvas | static/script.js:15-18 | The canvas becomes blank. |
| Sketchpad.Session.SaveState | static/script.js:19-22 | The log becomes `Pushed` of the old log and the current canvas. The session invariant holds afterwards. |
| Sketchpad.Session.StartDraw | static/script.js:40-46 | `drawing` is always true afterwards. When `getPos` succeeds, a new empty path starts at that point. When it throws, the path is kept. |
| Sketchpad.Session.MoveDraw | static/script.js:47-53 | Outside a stroke, or when `getPos` throws, nothing changes. Otherwise one segment from the pen is added to the path, the pen moves, and the whole path is inked. A new segment of non-zero length is then on the canvas, and nothing inked before is lost. |
| Sketchpad.Session.EndDraw | static/script.js:54-58 | Leaving a stroke clears the flag and pushes exactly one snapshot of the canvas. Outside a stroke nothing changes. |
| Sketchpad.Session.Clear | static/script.js:70-74 | The canvas becomes blank and one blank snapshot is pushed without dropping earlier history. `drawing` is untouched, and the text is "Canvas cleared". |
| Sketchpad.Session.Undo | static/script.js:76-87 | With one entry, history, canvas and text are unchanged. Otherwise the top entry is popped, the canvas is the new top, and the text is "Last stroke undone". |
| Sketchpad.Session.OnSubmit | static/script.js:104-131 | The final text and the burst are those of `SubmitReply`. History, canvas, path and `drawing` are unchanged. |

## Left out

- DOM lookups and listener registration (lines 2-8, 60-67): plain wiring. Each handler is a method of `Session`.
- Rendering details: line width, joins, caps and colour, and anti-aliasing. Re-stroking an anti-aliased edge darkens it, but the raster is modelled as a set of inked segments, so stroking again adds nothing.
- `toDataURL` encoding and `Image` decoding: a snapshot is taken to be the raster it captures.
- Sketchpad.Session.Undo: the repaint and the "Last stroke undone" text happen in `img.onload`, after decoding. The model applies them at the moment of undo.
- `preventDefault` calls: they have no state in the model.
- Network I/O: the request to `/predict`, `window.API_BASE` and `res.json()` are not modelled. Their result is the `Outcome` input, and the image sent is not modelled.
- Sketchpad.Session.OnSubmit: the handler runs atomically in the model. The script awaits `fetch` and `res.json()` (lines 109-115) and disables no control, so strokes, clear, undo and further submits can run while it waits. Meanwhile "Predicting…" stays on screen, a text such as "Canvas cleared" set during the wait is overwritten by the reply, and of two overlapping submits the reply that arrives last wins. The model states only the final text of one uninterrupted submit.
- `burst` (lines 90-101): it relies on `Math.random` and `setTimeout`. Only whether it is called is modelled, as `celebrate`.
- Js.Json: JSON numbers are integers of safe magnitude. Fractional numbers, exponent notation and numbers beyond 2^53 are floating-point formatting and are not modelled.
- Canvas.GetPos: coordinates are exact reals, so floating-point rounding in the subtraction is not modelled.
- Js.NullReadMessage: this TypeError text, and that of Js.NotPrimitiveMessage, is the wording of Chromium's engine. Other engines word them differently.
