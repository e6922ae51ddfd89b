# checkmycar: gateway normaliser, fallback classifier, resize and history

checkmycar is a small web app. The user uploads a photo of a car's
dashboard warning light. A serverless gateway forwards the photo to a vision
model and turns the model's free-text reply into a record
`{code, title, steps[3], source}`. This project models the decision logic
of that pipeline in Dafny and proves its properties:

- **Gateway dispatch** (`Gateway`). It covers both handler variants:
  `api/analyze.js` (Web `Request`/`Response`) and `api/index.js` (Node
  `req`/`res`). The dispatch order is:
  1. A method other than POST gives 405.
  2. A missing `imageBase64` gives 400.
  3. Missing credentials give a 200 "demo" record, and the upstream call is
     not made.
  4. An image that cannot be converted to a string for the prompt (an
     object with its own `toString`, or an array holding one) gives 500
     before any upstream call.
  5. An exception thrown by the upstream call gives 500 `{error: String(e)}`.
  6. Otherwise the normalised reply is returned with 200.
- **Response normaliser** (`Normalizer`). It takes `raw`, the first truthy
  of `result.response`, `result.text` and `result.output_text`, and parses
  it. When that gives a falsy value and `raw` is a string, it re-parses the
  slice from the first `{` to the last `}`. It then fills in per-field
  defaults. `code` and `title` keep any truthy value. `steps` keeps the
  parsed array only if it has exactly three elements; otherwise it becomes
  the whole default triple.
- **JavaScript semantics** the core depends on (`Js`, `Strings`):
  - truthiness, `||` and `?.` property access;
  - `String(x)`;
  - `indexOf`, `lastIndexOf`, `includes` and `toLowerCase`.
- **Client** (`App`, from `src/App.jsx`):
  - the file-name fallback classifier;
  - the target-size arithmetic of the image resize;
  - `analyzeWithServer`: a network failure or a status outside 200–299
    is a thrown error, anything else serves the reply's JSON body;
  - the `runAnalyze` history update, as a `Session` class whose methods
    change its fields.

`JSON.parse` is a parameter `parse: string -> Option<JsValue>`. `None`
stands for the exception it throws. Every property is proved for every
such function. The upstream call is an input: either the reply body or the
text of the exception. `Date.now()` and `toLocaleString()` are inputs too.

## Model

| member | source | states |
|---|---|---|
| Js.ToStringThrows | checkmycar-serverless-easy/api/analyze.js:40 | converting a JSON value to a string throws exactly for an object with its own `toString` and for an array with such an element; primitives never throw |
| Strings.IndexOf | checkmycar-serverless-easy/api/analyze.js:56 | `indexOf('{')` returns -1 exactly when the character is absent; otherwise it returns a position holding the character with no earlier occurrence |
| Strings.LastIndexOf | checkmycar-serverless-easy/api/analyze.js:56 | `lastIndexOf('}')` returns -1 exactly when the character is absent; otherwise it returns a position holding the character with no later occurrence |
| Strings.IncludesIffOccurs | checkmycar-serverless-easy/src/App.jsx:95 | the left-to-right `includes` scan succeeds exactly when the keyword occurs at some position of the name |
| Strings.ToLower | checkmycar-serverless-easy/src/App.jsx:94 | lowercasing keeps the length and maps each character on its own |
| Strings.ToLowerIdempotent | checkmycar-serverless-easy/src/App.jsx:94 | lowercasing twice equals lowercasing once, and the result has no `A`–`Z` |
| Normalizer.RawOf | checkmycar-serverless-easy/api/analyze.js:52 | `raw` is the first truthy of `response`, `text`, `output_text` under `result`, else `''` |
| Normalizer.BraceSpan | checkmycar-serverless-easy/api/analyze.js:56-57 | the slice bounds exist exactly when some `{` precedes some `}`; they are the first `{` and the last `}` |
| Normalizer.BraceSpanOfWrapped | checkmycar-serverless-easy/api/analyze.js:55-58 | for a prefix with no `{` and a suffix with no `}`, the slice is exactly the braced middle part |
| Normalizer.Resolve | checkmycar-serverless-easy/api/analyze.js:53-58 | the fallback re-parse runs exactly when the first value was falsy, `raw` is a string and it has a brace pair; then a successful parse of `raw[a..b]` inclusive becomes `parsed`, and a throwing one leaves the first value |
| Normalizer.Shape | checkmycar-serverless-easy/api/analyze.js:60-65 | the output has source `ai`, exactly 3 steps and truthy code and title; a truthy parsed code or title is kept, and a falsy one becomes its default; a 3-element parsed steps array is kept, and anything else becomes the whole default triple |
| Normalizer.Normalize | checkmycar-serverless-easy/api/index.js:52-66 | the normalised record always has source `ai`, exactly 3 steps, and a truthy code and title |
| Normalizer.CodeNotValidated | checkmycar-serverless-easy/api/analyze.js:61 | any truthy code is passed through, including one outside the nine advertised labels |
| Normalizer.WellFormedPassesThrough | checkmycar-serverless-easy/api/index.js:61-66 | an object with a truthy code and title and 3 steps comes out field for field |
| Normalizer.NonObjectGivesDefault | checkmycar-serverless-easy/api/index.js:61-64 | a parsed value that is not an object, such as the `null` of a failed parse, gives `{INFO, default title, default steps}` |
| Normalizer.MalformedStepsReplaced | checkmycar-serverless-easy/api/analyze.js:63 | steps that are not a 3-element array are replaced by the default triple as a whole |
| Normalizer.NoBracePairGivesDefault | checkmycar-serverless-easy/api/index.js:54-64 | a string reply with no `{`…`}` pair and no parsed object gives the default record |
| Normalizer.UnparsableSliceGivesDefault | checkmycar-serverless-easy/api/index.js:54-64 | a string reply whose brace slice does not parse to an object (and whose first parse gave none) gives the default record |
| Gateway.IndexImage | checkmycar-serverless-easy/api/index.js:4 | a falsy body is replaced by an empty object, so destructuring it never throws |
| Gateway.AnalyzeFirstParse | checkmycar-serverless-easy/api/analyze.js:53-54 | a string `raw` is parsed, and a parse that throws leaves `null`; any other `raw` is used as it is |
| Gateway.IndexFirstParse | checkmycar-serverless-easy/api/index.js:52-53 | on a string it agrees with analyze.js's first parse; a value whose `String()` throws leaves `null`; a plain object is parsed as "[object Object]" |
| Gateway.AnalyzeHandler | checkmycar-serverless-easy/api/analyze.js:4-70 | 405 exactly for non-POST, before anything else is looked at; 400 exactly for a falsy image; demo 200 with 3 steps exactly when credentials are missing; an image that cannot be converted to a string gives 500 before any upstream call; otherwise an upstream exception gives 500 with its text; a JSON `null` body gives 500; the demo record carries the demo code, title and steps; on the normal path the 200 body is the normaliser's record for the upstream reply's `raw`, which is parsed when it is a string and used as is otherwise |
| Gateway.IndexHandler | checkmycar-serverless-easy/api/index.js:1-71 | the same dispatch contract, with a falsy body read as `{}` and its own demo steps; on the normal path the 200 body is the normaliser's record for `JSON.parse(String(raw))`, or for `null` when `String(raw)` throws |
| Gateway.UnconfiguredIgnoresUpstream | checkmycar-serverless-easy/api/analyze.js:18-25 | without credentials, neither handler's response depends on the upstream reply or the parser, so no upstream call is made |
| Gateway.UnconvertibleImageRejected | checkmycar-serverless-easy/api/analyze.js:35-45 | with credentials set, an image `{"toString": 0}` gets 500 with the conversion TypeError from both handlers, whatever the upstream would reply |
| Gateway.MissingBodyRejected | checkmycar-serverless-easy/api/analyze.js:9-12 | a missing body is 400 in both handlers; a JSON `null` body is 500 in analyze.js and 400 in index.js |
| Gateway.FirstParsesAgreeOnStrings | checkmycar-serverless-easy/api/index.js:52-53 | for a string `raw`, both handlers' first parses and normalised records coincide |
| Gateway.HandlersAgreeOnStringReplies | checkmycar-serverless-easy/api/index.js:46-67 | when both requests name the same image, credentials are set and any raw reply is a string, the two handlers return the same response |
| Gateway.HandlersDifferOnObjectReplies | checkmycar-serverless-easy/api/analyze.js:54 | a raw reply that is already an object is used as is by analyze.js; index.js parses "[object Object]" and gives the default record |
| Gateway.ParsedReplyPassesThrough | checkmycar-serverless-easy/api/analyze.js:52-65 | a reply that parses as a whole to a well-formed object comes out unchanged in both handlers |
| Gateway.WrappedObjectRecovered | checkmycar-serverless-easy/api/index.js:54-59 | an object wrapped in prose (prefix with no `{`, suffix with no `}`) is recovered by the brace fallback in both handlers |
| Gateway.NoisyReplyExample | checkmycar-serverless-easy/api/analyze.js:55-58 | `prefix-noise {"code":"BRAKE",…} suffix-noise` gives code BRAKE, title T and steps a, b, c |
| App.Includes | checkmycar-serverless-easy/src/App.jsx:95 | `name.includes(keyword)` is true exactly when the keyword occurs in the name |
| App.Classify | checkmycar-serverless-easy/src/App.jsx:93-105 | TPMS iff tire/tpms occurs; BATT iff battery occurs and no earlier rule matched; ENGINE iff engine/check occurs and no earlier rule matched; INFO iff nothing matched; always source `local` and 3 steps |
| App.ClassifyIgnoresCase | checkmycar-serverless-easy/src/App.jsx:94 | a name and its lowercase are classified alike; a missing name behaves like `''` and gives INFO |
| App.TireWins | checkmycar-serverless-easy/src/App.jsx:95-97 | a name mentioning `tire` gives TPMS, whatever else it mentions |
| App.TirePressureExample | checkmycar-serverless-easy/src/App.jsx:95-97 | `Tire_Pressure.jpg` gives the TPMS record |
| App.RandomNameExample | checkmycar-serverless-easy/src/App.jsx:104 | `random.png` gives the INFO record |
| App.RoundDiv | checkmycar-serverless-easy/src/App.jsx:69 | the result is the nearest integer to n/d, with halves rounded up |
| App.TargetSize | checkmycar-serverless-easy/src/App.jsx:64-74 | dimensions within the limit are unchanged; otherwise the longer side (width on a tie) becomes the limit and the other side is the nearest integer to its proportional value, at most the limit |
| App.ScaledSideFits | checkmycar-serverless-easy/src/App.jsx:67-73 | the rounded shorter side never exceeds the limit |
| App.TargetSizeExamples | checkmycar-serverless-easy/src/App.jsx:65-74 | 4000x2000 becomes 1280x640 and 800x600 stays 800x600 |
| App.ClientOutcome | checkmycar-serverless-easy/src/App.jsx:83-91 | a network failure or a status outside 200–299 is a thrown error (Failed); otherwise the reply's JSON body, always an object, is served, so the `try` block of `runAnalyze` completes |
| App.Entry | checkmycar-serverless-easy/src/App.jsx:164-171 | the history item carries the id, file name, preview and time it was given; when the `try` block completes, its title and code are the body's and its source is the body's truthy `source` or `ai`; otherwise they are the heuristic's and its source is `local` |
| App.Shown | checkmycar-serverless-easy/src/App.jsx:164-169 | the displayed result is never `null` or `undefined`: it is the body when the `try` block completes and the heuristic record, tagged `local`, otherwise |
| App.ServedEntryKeepsSource | checkmycar-serverless-easy/src/App.jsx:163-166 | a 200 gateway result is recorded with its own code, title and `ai`/`demo` source |
| App.FailureEntryIsLocal | checkmycar-serverless-easy/src/App.jsx:167-171 | a network failure or a 400/405/500 reply is recorded with source `local` and the heuristic's code and title, and the heuristic record is shown |
| App.NullishDataTakesLocalPath | checkmycar-serverless-easy/src/App.jsx:164-171 | a `null` or `undefined` body throws at `data.title`, so the entry and the shown result are the heuristic ones with source `local`, as for a failed call |
| App.Session.constructor | checkmycar-serverless-easy/src/App.jsx:115-126 | a session starts with no file, no result and the stored history |
| App.Session.Pick | checkmycar-serverless-easy/src/App.jsx:149-156 | an empty pick changes nothing; otherwise the file and preview are stored and the result is cleared |
| App.Session.RunAnalyze | checkmycar-serverless-easy/src/App.jsx:158-175 | without a file, the user is alerted and nothing changes; otherwise the result is shown and exactly one entry is put in front of the earlier history, which keeps its order; the entry and the result come from the reply when the `try` block completes and from the heuristic otherwise |

## Behaviour worth noting

- The status of the upstream reply is never checked (there is no test of
  `cf.ok`). The JSON body of a non-2xx reply is normalised like any other;
  it usually has no `result`, so the answer is 200 with the default INFO
  record.
- The brace fallback runs whenever the first parse gives a falsy value and
  `raw` is a string. Besides a parse that throws, this includes replies such as `0`, `false`,
  `null` or `""`. If the slice parse then throws, that falsy value is kept.
- `code` and `title` may be any truthy JSON value, including a number or
  an object.
- In `api/analyze.js`, a request whose body is JSON `null` gives 500:
  destructuring `null` throws a TypeError inside the `try` block.
- In `runAnalyze`, a gateway body that is JSON `null` makes `data.title`
  throw, so the entry is recorded from the heuristic with source `local`.
- The two handlers treat a non-string `raw` differently.
  `api/analyze.js` uses the value itself, while `api/index.js` parses
  `String(raw)` and never runs the brace fallback. When `String(raw)`
  throws (an object with its own `toString`), the error is caught and
  `parsed` stays `null`, so the default record is returned. Their demo steps also
  differ in wording.

## Left out

- The implementation of `JSON.parse`. It is a parameter of every member
  that parses.
- The `fetch` calls, the endpoint URL (`encodeURIComponent` of
  `CF_MODEL`, which could throw on a lone surrogate before the image is
  converted for the prompt, so that its URIError would win over the
  conversion error) and the prompt text.
  The upstream outcome is an input.
- Response headers. The `content-type` is always JSON.
- JSON numbers are integers in the model. Fractional numbers are not
  represented, and `NaN` cannot come from `JSON.parse`.
- Property access reads own properties of objects only. None of the keys
  the core reads is inherited from a prototype.
- Gateway.NullBodyError: the exact wording of the 500 body comes from V8
  and is engine-dependent.
- Gateway.ConvertError: the same holds for the TypeError of a failed
  string conversion.
- Strings.ToLower: only maps `A`–`Z`. Full Unicode case mapping is not
  modelled. For example, the Kelvin sign lowercases to `k`, so a name
  spelling "check" with it would match the ENGINE rule in the browser.
- Strings.IndexOf: positions count characters, while JavaScript counts
  UTF-16 code units. `{` and `}` are never part of a surrogate pair, so the
  slice taken between them is the same either way.
- App.RoundDiv: this is exact rational half-up rounding. The source's
  floating-point `Math.round(height * (max / width))` can differ from it in
  rare cases where the product falls just below or above a half.
- FileReader, image decoding, canvas drawing and JPEG encoding. Only the
  width/height arithmetic is modelled.
- localStorage (loading and saving history and profile), React rendering,
  tabs, the auth stub and the `isAnalyzing` flag. The flag is set and then
  cleared within `runAnalyze`, so it is unchanged afterwards.
- The alert shown when no file is picked. The model returns it as a
  boolean.
- Overlapping `runAnalyze` calls. Each call is modelled as one atomic step.
