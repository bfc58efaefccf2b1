# Wisdom-tooth overlay and chat context, in Dafny

This project models the two pieces of client-side logic of the DentAI Scan
front end: the detection overlay of the analysis page and the context
injection of the chat panel.

1. `frontend/src/App.js`:
   - `drawBoxes` maps the detector's boxes, given in the natural pixel space
     of the uploaded X-ray, into the space of the image as laid out on the
     page. It draws one outline, one translucent fill and one label per
     detection on a canvas stacked over the image.
   - Around it sit the page's state updates: file selection, image load,
     the two halves of an upload and the detection-log entry. The
     `detectionContext` sentence handed to the chat panel is derived from
     the detections.
2. `frontend/src/ChatBot.jsx`, `handleSend`:
   - A question is "relevant" when one of ten fixed trigger words occurs
     anywhere in its lower-cased text.
   - A relevant question is prefixed with `[Context: …] Question: ` when the
     page has a detection context.
   - The message log starts with a greeting and grows by one user message
     per send and one reply (or error text) per answer.

Layout:

- `common.dfy` (module `Common`): `Option`, the `Reply` of an awaited
  request, and sequence lemmas. These include `FlatMap`, the
  concatenate-per-element shape of a `forEach` that emits calls.
- `text.dfy` (module `Text`): the string operations the code relies on.
  These are the decimal numeral written by a template literal, ASCII
  `toLowerCase`, `includes` and `trim`.
- `overlay.dfy` (module `Overlay`):
  - the specification function `Render`, from the detections, the image's
    sizes and a text-width oracle to the list of 2D-context calls;
  - a `Canvas` class recording those calls;
  - the imperative `DrawBoxes`, with its per-detection loop, proved to emit
    exactly `Render`;
  - the effect that calls it.
- `session.dfy` (module `Session`): the `App` component's state as a class
  with one method per event, and the context sentence.
- `chatbot.dfy` (module `ChatBot`): relevance, the prompt choice and the
  `Chat` class holding the message log.

An `await` splits an asynchronous handler in two. `BeginUpload` and
`FinishUpload` are `handleUpload` before and after its request. `Send` and
`Resolve` are `handleSend` before and after. The network's answer is a
`Reply` parameter: the decoded body arrives, or the request fails.

Behaviour of the code that the model keeps:

- `drawBoxes` divides by the image's natural width and height without a
  guard. A natural size of 0 is therefore a precondition of `Render` and
  `DrawBoxes`.
- The trigger list is exactly the ten words in `ChatBot.jsx`.
- When there are no detections, `drawBoxes` is not run at all: the effect
  skips it, so the canvas keeps what it had. `drawBoxes` itself, on an
  empty list, would still clear the canvas.
- A failed upload leaves the current detections and the log as they were.
- The chat reply is `data.responses`, taken as it is.

## Model

| member | source | states |
|---|---|---|
| Text.NatToStringRoundTrip | frontend/src/App.js:195 | the decimal numeral written for a count reads back as that count |
| Text.NatToStringInjective | frontend/src/App.js:195 | distinct counts give distinct numerals |
| Text.NatToString | frontend/src/App.js:195 | the numeral is a non-empty string of decimal digits, with a leading 0 only for the number 0 |
| Text.IntToString | frontend/src/App.js:90 | the numeral is non-empty, starts with a minus sign exactly for negative values, and is NatToString's numeral for the others |
| Text.IntToStringInjective | frontend/src/App.js:90 | distinct rounded percentages give distinct numerals |
| Text.LowerChar | frontend/src/ChatBot.jsx:39 | an ASCII capital becomes its lower-case letter, 32 code points above it; any other character is kept |
| Text.Lower | frontend/src/ChatBot.jsx:39 | lower-casing keeps the length, turns each ASCII capital into its lower-case letter, changes no other character, and leaves no capital |
| Text.LowerIdempotent | frontend/src/ChatBot.jsx:39 | lower-casing an already lower-cased text changes nothing |
| Text.Contains | frontend/src/ChatBot.jsx:39 | `includes`, trying each start position from left to right; its contract is Text.ContainsIff |
| Text.ContainsIff | frontend/src/ChatBot.jsx:39 | `includes` holds exactly when the word occurs at some position of the text |
| Text.ContainsNeedsChar | frontend/src/ChatBot.jsx:39 | every character of a contained word occurs in the text |
| Text.TrimStart | frontend/src/ChatBot.jsx:27 | the result is a suffix, everything dropped is white space, and the result does not start with white space |
| Text.TrimEnd | frontend/src/ChatBot.jsx:27 | the result is a prefix, everything dropped is white space, and the result does not end with white space |
| Text.Trim | frontend/src/ChatBot.jsx:27 | `trim()` is the slice of the input that has only white space before and after it, and neither starts nor ends with white space |
| Text.TrimEmptyIff | frontend/src/ChatBot.jsx:27 | `input.trim()` is empty exactly when every character is white space |
| Overlay.ScaleX | frontend/src/App.js:69 | the natural width times the scale is the displayed width |
| Overlay.ScaleY | frontend/src/App.js:70 | the natural height times the scale is the displayed height |
| Overlay.DisplayRect | frontend/src/App.js:82-85 | the scaled box's right and bottom edges are the scaled `x2` and `y2` |
| Overlay.Round | frontend/src/App.js:90 | `Math.round` gives the integer within half a unit, halves rounding up |
| Overlay.LabelText | frontend/src/App.js:90 | the label template; its properties are Overlay.LabelPercent and Overlay.LabelExample |
| Overlay.DetectionCommands | frontend/src/App.js:87-100 | each detection yields four calls |
| Overlay.BoxesCommands | frontend/src/App.js:80-101 | the loop's calls, four per detection |
| Overlay.Render | frontend/src/App.js:60-102 | everything `drawBoxes` issues: 1 + 4n calls, the first clearing the whole canvas at the displayed size |
| Overlay.BoxesCommandsAt | frontend/src/App.js:80-101 | the loop's output has four calls per detection, and detection i owns calls 4i to 4i+3, in input order |
| Overlay.BoxesCommandsSnoc | frontend/src/App.js:80-101 | one more loop iteration appends exactly that detection's four calls |
| Overlay.BoxesCommandsDoNotClear | frontend/src/App.js:80-101 | no call issued inside the loop clears the canvas |
| Overlay.RenderAt | frontend/src/App.js:72-101 | after the clear, detection i owns calls 4i+1 to 4i+4 |
| Overlay.RenderShape | frontend/src/App.js:65-101 | 1 + 4n calls; the first clears the whole resized canvas; then each detection's four calls in input order; no later call clears |
| Overlay.BoxGeometry | frontend/src/App.js:69-94 | the outline and the fill of detection i are `(x1*sx, y1*sy, (x2-x1)*sx, (y2-y1)*sy)`, where sx and sy are display/natural per axis |
| Overlay.DoubleSizeDoublesBoxes | frontend/src/App.js:69-85 | at twice the natural size, every coordinate and dimension of each drawn box is doubled |
| Overlay.NaturalSizeKeepsBoxes | frontend/src/App.js:69-85 | at the natural size, each drawn box is the detector's box itself |
| Overlay.LabelAboveBox | frontend/src/App.js:90-100 | the label background is black, 25 high and measured width + 10 wide, and sits on the box's top edge; the text is green, at (x+5, y-7), inside the background |
| Overlay.LabelPercent | frontend/src/App.js:90 | for a confidence in [0, 1], the label is the class name, a space, a whole percentage from 0 to 100 within half a unit of confidence×100, and "%" |
| Overlay.LabelExample | frontend/src/App.js:90 | `Tooth37` at confidence 0.873 is labelled "Tooth37 87%" |
| Overlay.SinceLastClearAppend | frontend/src/App.js:72 | calls that clear nothing add to what is visible since the last full clear |
| Overlay.OnlyLatestRenderVisible | frontend/src/App.js:65-72 | whatever was drawn before, after a render the visible calls are exactly that render's: nothing from an earlier call survives |
| Overlay.Canvas.constructor | frontend/src/App.js:140 | a fresh canvas element: 300 by 150, black fill, nothing drawn |
| Overlay.Canvas.Resize | frontend/src/App.js:65-66 | assigning `width` and `height` sets the size and resets the fill colour; nothing is drawn |
| Overlay.Canvas.SetFillStyle | frontend/src/App.js:93-99 | assigning `fillStyle` changes only the fill colour |
| Overlay.Canvas.ClearRect | frontend/src/App.js:72 | `clearRect` appends one clear and changes nothing else |
| Overlay.Canvas.StrokeRect | frontend/src/App.js:87 | `strokeRect` appends one outline and changes nothing else |
| Overlay.Canvas.FillRect | frontend/src/App.js:94-97 | `fillRect` appends one fill in the current colour and changes nothing else |
| Overlay.Canvas.FillText | frontend/src/App.js:100 | `fillText` appends one text in the current colour and changes nothing else |
| Overlay.DrawDetection | frontend/src/App.js:81-100 | one callback run appends that detection's four calls, keeps the canvas size and leaves the fill colour green |
| Overlay.ForEachDetection | frontend/src/App.js:80-101 | the loop appends the calls of every detection, in input order, and keeps the canvas size |
| Overlay.DrawBoxes | frontend/src/App.js:60-102 | the canvas takes the displayed image's size and a green fill; its log grows by exactly Render; what is visible since the last full clear is exactly Render |
| Overlay.RefreshOverlay | frontend/src/App.js:54-58 | it draws only with detections, a mounted image and a mounted canvas; otherwise the canvas is untouched, so an empty list issues no calls |
| Session.DetectionContext | frontend/src/App.js:195 | the context is empty exactly when there are no detections |
| Session.ContextReportsCount | frontend/src/App.js:195 | a non-empty context is the fixed sentence around a numeral without a leading zero that reads back as the detection count |
| Session.App.constructor | frontend/src/App.js:6-10 | nothing selected, no detections, not loading, an empty log |
| Session.App.HandleFileChange | frontend/src/App.js:15-22 | a chosen file becomes the image and is previewed, and the detections are emptied; no file changes nothing |
| Session.App.OnImageLoad | frontend/src/App.js:139 | loading the preview empties the detections and changes nothing else |
| Session.App.BeginUpload | frontend/src/App.js:24-26 | without an image nothing changes and nothing is sent; otherwise the image is sent and loading is raised |
| Session.App.FinishUpload | frontend/src/App.js:36-51 | on a response, the detections are replaced wholesale and one entry counting them goes in front of the unchanged earlier entries; on a failure both stay; loading drops either way |
| ChatBot.AnyOccurs | frontend/src/ChatBot.jsx:39 | `some`, trying the words in order; its contract is ChatBot.AnyOccursIff |
| ChatBot.AnyOccursIff | frontend/src/ChatBot.jsx:39 | `some(includes)` holds exactly when one of the words occurs at some position |
| ChatBot.NoneOccurs | frontend/src/ChatBot.jsx:39 | when no word is contained in the text, `some` is false |
| ChatBot.IsRelevant | frontend/src/ChatBot.jsx:36-39 | `isRelevant`; its contract is ChatBot.RelevantIff |
| ChatBot.RelevantIff | frontend/src/ChatBot.jsx:36-39 | relevant exactly when one of the ten triggers occurs anywhere in the lower-cased input |
| ChatBot.RelevanceIgnoresCase | frontend/src/ChatBot.jsx:39 | lower-casing the input first does not change relevance |
| ChatBot.RelevanceCaseInsensitive | frontend/src/ChatBot.jsx:39 | two inputs that agree up to ASCII case at every position are equally relevant |
| ChatBot.WithoutTriggerLettersIrrelevant | frontend/src/ChatBot.jsx:36-39 | every trigger has one of the letters a, d, e, h or x, so an input without any of them is not relevant |
| ChatBot.IrrelevanceExample | frontend/src/ChatBot.jsx:36-39 | "Is it sunny?" is not relevant |
| ChatBot.RelevanceExamples | frontend/src/ChatBot.jsx:36-39 | "painted", "TEETH" and "How many teeth were found?" are relevant |
| ChatBot.FinalPrompt | frontend/src/ChatBot.jsx:42-44 | the prompt choice; its contracts are ChatBot.PromptAugmentedIff and ChatBot.PromptEndsWithInput |
| ChatBot.PromptAugmentedIff | frontend/src/ChatBot.jsx:42-44 | the prompt differs from the input exactly when the context is non-empty and the input is relevant, and then it is `[Context: ctx] Question: input` |
| ChatBot.PromptEndsWithInput | frontend/src/ChatBot.jsx:42-44 | the original, case-preserved input is always a suffix of the prompt |
| ChatBot.PromptWithoutContext | frontend/src/ChatBot.jsx:43 | with no detection context the prompt is the input as typed |
| ChatBot.PromptExampleRelevant | frontend/src/ChatBot.jsx:42-44 | "How many teeth were found?" with a context goes out wrapped in that context |
| ChatBot.PromptExampleIrrelevant | frontend/src/ChatBot.jsx:42-44 | "Is it sunny?" goes out as typed, even with a detection context |
| ChatBot.ChoosePrompt | frontend/src/ChatBot.jsx:36-46 | the `let finalPrompt` statements compute FinalPrompt |
| ChatBot.Chat.constructor | frontend/src/ChatBot.jsx:6-10 | the log holds exactly the bot's greeting; the input is empty; not loading |
| ChatBot.Chat.SetInput | frontend/src/ChatBot.jsx:115 | typing replaces the input and changes nothing else |
| ChatBot.Chat.Send | frontend/src/ChatBot.jsx:26-46 | a blank input changes nothing and sends nothing; otherwise exactly one user message with the original input is appended, the input is emptied, loading is raised and FinalPrompt is sent |
| ChatBot.Chat.Resolve | frontend/src/ChatBot.jsx:55-63 | exactly one entry is appended, the models' answers or the error text; earlier entries are unchanged; loading drops |

## Left out

- JSX rendering, CSS, the navbar and tech-stack markup, `scrollIntoView`
  and the chat window's `toggleChat` visibility: presentation only.
- `fetch`, `FormData`, `response.json()`, `alert` and `console`: network
  and I/O. The outcome of a request is the `Reply` parameter.
- `URL.createObjectURL`, `new Date().toLocaleTimeString()` and
  `ctx.measureText(text).width`: foreign calls. Their results are
  parameters (`objectUrl`, `time`, `measure`).
- `strokeStyle`, `lineWidth` and `font`: canvas styling. They are constant
  throughout `drawBoxes` and do not affect the calls' geometry. Only the
  fill colour is recorded, as a tag on each fill call.
- Overlay.Render: the division of the sizes and `confidence * 100` are
  IEEE-754 operations in the code. Here they are exact reals, so the
  geometry is exact only up to floating-point rounding.
- Overlay.DrawBoxes: assigning `canvas.width` also erases the browser's
  bitmap. The model records only the calls and judges visibility from the
  last full-canvas `clearRect`, which `drawBoxes` issues right after
  resizing.
- Overlay.RefreshOverlay: React runs the effect after every change of
  `detections` or `previewUrl`. The model leaves the scheduling to the
  caller.
- Session.App.FinishUpload: a response body without a `detections` field
  is not modelled. The code would then set the detections to `undefined`
  before `.length` throws into its `catch`.
- ChatBot.Chat.Resolve: a response body without `responses` is not
  modelled. The reply carries the four answers, each possibly absent.
- Text.Lower: only the ASCII capitals are lowered. `toLowerCase` also maps
  other characters, and a few of them become ASCII. U+212A (Kelvin sign)
  becomes 'k', which no trigger contains. U+0130 becomes 'i' followed by
  U+0307, and every 'i' in a trigger (wisdom, image, pain) is followed by a
  letter, not by U+0307. The other mappings produce non-ASCII characters,
  which no trigger contains. So relevance is the same as with the full
  mapping.
- Overlapping requests (a second upload or send before the first
  resolves): asynchronous interleaving. One request at a time is modelled.
- `backend/app.py` and the training scripts: the detector, the four model
  clients and the dataset tools are not part of this model.
