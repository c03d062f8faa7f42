# PhotoTagger networking core, in Dafny

PhotoTagger uploads a photo to the Imagga image-tagging service. It reads a content id
from the upload acknowledgement, fetches the photo's tags and then its dominant colours
under that id, and hands both lists to one completion callback. This project models the
non-UI logic of that flow:

- `router.dfy` (module `Router`): the request builder `ImaggaRouter`. It maps each of the
  three operations (`Content`, `Tags(id)`, `Colors(id)`) to a request description: URL,
  HTTP method, parameter map, `Authorization` header and timeout. `OperationOf` is the
  service's reading of a request, and it serves as the builder's inverse.
- `json.dfy` (module `Json`): the loosely typed JSON value the transport delivers, and the
  Swift conditional casts (`as? String`, `as? [AnyObject]`, `as? [String: AnyObject]`,
  `as? [[String: AnyObject]]`) applied to it.
- `int_parse.dfy` (module `IntParse`): Swift's failable `Int(String)`, which the colour
  decoder applies to the channel strings, with `String(n)` as its printing partner.
- `decoders.dfy` (module `Decoders`): the three tolerant decoders for the upload
  acknowledgement, the tag list and the colour list. Each guard chain becomes a chain of
  `:-` bindings, and each `flatMap` becomes a recursive function. Each decoder has a wire
  builder that it inverts.
- `networking.dfy` (module `Networking`): the requests issued by `downloadTags` and
  `downloadColors`, and the upload-and-enrich sequence.
  - The sequence appears twice. `Step`/`Run` is a state machine fed by the transport's
    callbacks. `UploadImageEvents` reads the nested callbacks directly. A lemma shows that
    the two agree.
  - The class `ViewController` holds the stored `tags` and `colors` that the completion
    closure assigns. Its methods are the callbacks, each proved against `Step`.

The transport (Alamofire), JPEG compression and the multipart encoder are abstract. Their
outcomes are inputs: a `Response` (transport failure or JSON body) for each request, and a
boolean each for JPEG compression and multipart encoding.

Some points where the code decides behaviour:

- A colour entry whose `r`, `g` or `b` text is not a numeral is kept, not dropped. The
  code passes the optional results of `Int(r)`, `Int(g)`, `Int(b)` to `PhotoColor`. The
  definition of `PhotoColor` is not part of this model. So the channels are `Option<int>`,
  and no 0–255 range check is made (`WorkedExample` shows such an entry).
- `downloadTags` and `downloadColors` write their requests out by hand instead of using
  the router. They carry the same URL, parameters and credential, but not the router's
  10 000-second timeout (`FetchRequestsMatchRouter`).
- The tag handler does not cast `results.first` to a dictionary. The `tags` subscript on
  that `AnyObject` is modelled as answered only by a dictionary (`Json.KeyedSubscript`).
  Any other first result gives the empty tag list.
- The timeout is `10 * 1000` seconds. It is kept as written.
- When JPEG compression or multipart encoding fails, completion is never invoked, and no
  request is issued.

## Model

| member | source | states |
|---|---|---|
| Router.URLRequest | PhotoTagger/ImaggaRouter.swift:20-43 | Every operation yields a request, with no failure branch. The URL starts with `http://api.imagga.com/v1`. The only header is `Authorization` set to the fixed token. The timeout is 10000 s for all three. The method is POST for `Content` and GET otherwise. Parameters are empty exactly for `Content`. Both fetches carry `content` equal to the id, unchanged |
| Router.RouteOf | PhotoTagger/ImaggaRouter.swift:21-32 | The switch gives a path beginning with `/`. The method is POST for `Content` and GET otherwise. Parameters are empty exactly for `Content`. Both fetches carry `content` equal to the id, and only `Colors` carries `extract_object_colors` |
| Router.RequestTable | PhotoTagger/ImaggaRouter.swift:13-38 | The three requests in full. `/content` is POST with no parameters. `/tagging` is GET with exactly `{content: id}`. `/colors` is GET with exactly `{content: id, extract_object_colors: 0}`. Each has the base URL, the token and timeout 10000 |
| Router.OperationRoundTrip | PhotoTagger/ImaggaRouter.swift:21-35 | The service reads every built request back as the operation it was built from, content id included |
| Router.OperationOfSound | PhotoTagger/ImaggaRouter.swift:21-35 | A request the service reads as an operation has the URL, method and parameters the builder makes for that operation |
| Router.URLRequestInjective | PhotoTagger/ImaggaRouter.swift:16-35 | Distinct operations (or distinct ids) give distinct requests |
| IntParse.ParseInt | PhotoTagger/ViewController.swift:267-269 | `Int(s)` is present exactly when `s` is an optional sign followed by one or more decimal digits whose signed value fits in 64 bits. It then equals that value |
| IntParse.DigitsRoundTrip | PhotoTagger/ViewController.swift:267-269 | The decimal digits of any natural number read back as that number |
| IntParse.ParseFormatRoundTrip | PhotoTagger/ViewController.swift:267-269 | `Int(String(n)) == n` for every 64-bit `n` |
| IntParse.ParseRejectsNonDigit | PhotoTagger/ViewController.swift:267-269 | Text with a non-digit after the optional sign parses to nil |
| Json.AsObjectArray | PhotoTagger/ViewController.swift:216 | The cast to a list of dictionaries (also at line 253) succeeds exactly when the value is an array whose every element is an object. A single non-object element makes the whole cast fail. The list is then unchanged |
| Json.KeyedSubscript | PhotoTagger/ViewController.swift:215-216 | The `tags` subscript on the uncast `results.first` answers exactly when that value is an object holding the key, and then gives the field's value |
| Decoders.DecodeUploadAck | PhotoTagger/ViewController.swift:165-168 | The id is present exactly when the top level is an object, `uploaded` is a non-empty array, its first element is an object, and that object's `id` is a string. The id is then that string. An empty array is invalid, and later elements are never consulted |
| Decoders.AckRoundTrip | PhotoTagger/ViewController.swift:165-168 | An acknowledgement built for `id` (with any further files) decodes to `id` |
| Decoders.TagEntries | PhotoTagger/ViewController.swift:213-216 | The guard chain succeeds exactly when `results` is a non-empty array whose first element is an object holding a `tags` array of objects only. It then yields that list |
| Decoders.TagOf | PhotoTagger/ViewController.swift:224 | An entry yields a tag exactly when its `tag` field is a string, and the tag is that string |
| Decoders.FlatMap | PhotoTagger/ViewController.swift:223-225 | Swift `flatMap` with an optional-returning transform, shared by the tag list and by the colour list at lines 260-271. It returns no more values than there are entries |
| Decoders.DownloadTags | PhotoTagger/ViewController.swift:206-228 | The tag list is empty on transport failure and on any break in the `results[0].tags` shape, including a single non-object entry. Otherwise it is the `flatMap` of the entries |
| Decoders.FlatMapAppend | PhotoTagger/ViewController.swift:223-225 | The `flatMap` distributes over concatenation, so order is preserved and entries are handled independently |
| Decoders.FlatMapMembership | PhotoTagger/ViewController.swift:223-225 | A value is returned exactly when some entry transforms to it. Entries whose transform gives nil contribute nothing |
| Decoders.FlatMapComplete | PhotoTagger/ViewController.swift:223-225 | When every entry transforms to a value, the result lists them all, position by position |
| Decoders.TagsRoundTrip | PhotoTagger/ViewController.swift:213-228 | A tag list in the service's wire shape decodes to exactly its tags, in order |
| Decoders.ColorEntries | PhotoTagger/ViewController.swift:249-253 | The guard chain succeeds exactly when `results[0].info.image_colors` exists as an array of objects only. It then yields that list |
| Decoders.ColorOf | PhotoTagger/ViewController.swift:260-271 | An entry is kept exactly when `r`, `g`, `b` and `closest_palette_color` are all strings. Its channels are then `Int` of the three strings, which may be absent, and its name is the palette colour |
| Decoders.DownloadColors | PhotoTagger/ViewController.swift:242-274 | The colour list is empty on transport failure and on any break in the `results[0].info.image_colors` path, including a single non-object entry. Otherwise it is the `flatMap` of the entries |
| Decoders.ColorsRoundTrip | PhotoTagger/ViewController.swift:249-274 | A colour list in the service's wire shape, with 64-bit channels, decodes to one colour per entry, in order. The channels are read back exactly and the names are unchanged |
| Decoders.ExampleTagsDecode | PhotoTagger/ViewController.swift:213-228 | Of the entries `cat`, `grass` and one without `tag`, the decoder returns `["cat", "grass"]` |
| Decoders.ExampleColorsDecode | PhotoTagger/ViewController.swift:249-274 | An entry with red text `x` is kept, with an absent red channel |
| Networking.UploadRequest | PhotoTagger/ViewController.swift:140 | The upload uses the router's `Content` request: POST to the base URL plus `/content`, no parameters, the fixed credential and the router's 10000 s timeout |
| Networking.TagsFetchRequest | PhotoTagger/ViewController.swift:197-202 | The tags fetch is a GET of the base URL plus `/tagging` with the fixed credential. Its only parameter is `content`, equal to the id. It sets no timeout of its own |
| Networking.ColorsFetchRequest | PhotoTagger/ViewController.swift:234-239 | The colours fetch is a GET of the base URL plus `/colors` with the fixed credential. Its parameters are exactly `content`, equal to the id, and `extract_object_colors`, equal to 0. It sets no timeout of its own |
| Networking.FetchRequestsMatchRouter | PhotoTagger/ViewController.swift:195-239 | The hand-written tags and colours requests equal the router's `Tags(id)` and `Colors(id)` requests, apart from the timeout |
| Networking.FetchRequestsCarryContentID | PhotoTagger/ViewController.swift:195-239 | The service reads the two fetch requests as `Tags(id)` and `Colors(id)` for the very id passed in |
| Networking.UploadAck | PhotoTagger/ViewController.swift:159-172 | A transport failure yields no id. A success yields the id that the acknowledgement decoder finds |
| Networking.Step | PhotoTagger/ViewController.swift:130-192 | A callback the current phase is not waiting for changes nothing. Every awaited callback except a progress report moves the phase on. An awaited progress report adds one progress event and keeps the phase. Each callback produces at most one event, and an early exit produces none |
| Networking.Run | PhotoTagger/ViewController.swift:130-192 | Callbacks are applied in arrival order, and the event log only grows: the old log is always a prefix of the new one |
| Networking.UploadImageEvents | PhotoTagger/ViewController.swift:134-184 | The nested callbacks produce no event exactly when JPEG compression or multipart encoding fails. Otherwise the first event is the upload request and the last is the completion |
| Networking.AfterUpload | PhotoTagger/ViewController.swift:156-184 | The upload handler produces three events with a valid acknowledgement and one without. The last is always the completion, and every earlier one is a request |
| Networking.StepKeepsInv | PhotoTagger/ViewController.swift:130-192 | Every callback keeps the invariant. Early exits have an empty log. Completion has run once exactly in the finished state and never before it. A colours request is always preceded by the tags request for the same id |
| Networking.RunKeepsInv | PhotoTagger/ViewController.swift:130-192 | The invariant holds after any sequence of callbacks |
| Networking.CompletionAtMostOnce | PhotoTagger/ViewController.swift:130-192 | For any sequence of callbacks, completion runs at most once, and exactly once iff the workflow finished. An abandoned upload issued nothing and completed nothing. Tags are requested before colours with the same id |
| Networking.RunAbandoned | PhotoTagger/ViewController.swift:134-188 | After an early exit, no callback has any effect |
| Networking.RunProgress | PhotoTagger/ViewController.swift:149-153 | While uploading, each byte-count report produces one progress event, in order, and nothing else |
| Networking.RunResponses | PhotoTagger/ViewController.swift:156-184 | From the upload on, the three responses produce exactly the handler's events |
| Networking.RunFetches | PhotoTagger/ViewController.swift:179-183 | From the tags fetch on, the tags response issues the colours request for the same id, and the colours response completes with both decoders' results |
| Networking.RunIgnoresFetchesWhenDone | PhotoTagger/ViewController.swift:159-172 | Once a failed upload has completed, any sequence of tags and colours responses has no effect, since no fetch was started |
| Networking.ScheduleMatchesCallbacks | PhotoTagger/ViewController.swift:130-192 | Fed the callbacks in arrival order, the state machine produces exactly the events of the nested callbacks |
| Networking.UploadFailureShortCircuits | PhotoTagger/ViewController.swift:159-172 | On upload transport failure or an invalid acknowledgement, only the upload request is issued, and completion runs once with empty tags and colours |
| Networking.UploadSuccessSequencing | PhotoTagger/ViewController.swift:179-183 | On a valid acknowledgement, exactly these requests are issued in this order: upload, tags(id), colours(id). Completion runs once, as the last event, with the two decoders' results |
| Networking.CompletionExactlyOnce | PhotoTagger/ViewController.swift:130-192 | Completion runs exactly once, as the last event, whenever the upload response is reached, so every progress event precedes it. On JPEG or encoding failure nothing happens at all |
| Networking.TagFailureKeepsColors | PhotoTagger/ViewController.swift:179-183 | A failed tag fetch still leads to the colour fetch. Completion carries no tags and the decoded colours |
| Networking.WorkedExample | PhotoTagger/ViewController.swift:156-183 | With ack `abc123`, tags `cat`, `grass` and an untagged entry, and colours `10/20/30 forest` and `x/1/2 bad`, completion receives `["cat", "grass"]` and both colours, the second without red |
| Networking.ViewController.constructor | PhotoTagger/ViewController.swift:36-37 | The stored tags and colours start absent, before any upload |
| Networking.ViewController.Complete | PhotoTagger/ViewController.swift:105-112 | The completion closure stores the tags and colours it receives, and records its one invocation |
| Networking.ViewController.UploadImage | PhotoTagger/ViewController.swift:130-137 | JPEG failure returns at once, with nothing issued and no completion. Otherwise encoding starts |
| Networking.ViewController.OnEncodingCompletion | PhotoTagger/ViewController.swift:145-188 | Encoding success issues the upload request. Encoding failure ends the invocation silently |
| Networking.ViewController.OnUploadProgress | PhotoTagger/ViewController.swift:149-153 | Each byte-count report invokes the progress callback once. Nothing else changes |
| Networking.ViewController.OnUploadResponse | PhotoTagger/ViewController.swift:156-183 | On failure or an invalid ack, completion runs with empty lists and they are stored. Otherwise the tags request for the acknowledged id is issued |
| Networking.ViewController.OnTagsResponse | PhotoTagger/ViewController.swift:179-180 | The decoded tags are kept, and the colours request for the same id is issued |
| Networking.ViewController.OnColorsResponse | PhotoTagger/ViewController.swift:180-182 | Completion runs with the kept tags and the decoded colours, and stores them |

## Left out

- UIKit code: view lifecycle, image picker, outlets, progress view, activity indicator and
  the results segue (ViewController.swift:27-124, apart from the two stored properties
  and the assignments at 111-112). It is user interface, with no contract to state.
- Alamofire transport: sending, `validate()`, `responseJSON` and the multipart body
  (`imagefile`, `image.jpg`, `image/jpeg`). These are foreign library calls. Each response
  is an input, a transport failure or a JSON body. Only the upload calls `validate()`
  (ViewController.swift:155), so only there does a non-2xx status count as transport
  failure. The two fetches do not validate: a non-2xx reply with a JSON body reaches
  their handlers as `Success(body)`, which the model allows.
- `ParameterEncoding.URL`: parameters stay a map. The query string or form body is not
  built, because that happens inside the library.
- Progress percentage: the `Float` division `totalBytesWritten / totalBytesExpectedToWrite`
  and its dispatch to the main queue. The progress event carries the two byte counts
  instead, because floating point and thread marshalling are outside the model.
- Timing between progress and responses. Progress reports are accepted in any phase
  where the upload exists, as the unguarded closure would accept them. The claim that
  progress precedes completion rests on the transport's delivery order (`Schedule`).
- JPEG compression (`UIImageJPEGRepresentation`). It is a success-or-failure input.
- `print` logging. It has no observable effect on the result.
- `PhotoColor` internals. Its definition is not part of this model, so only the four
  values passed to it are kept.
- The transport's default timeout for the two hand-written fetch requests. It is shown as
  `None`, because its value is set by the platform and is not in the code.
- JSON numbers are reals that no decoder reads. NSNumber-bridged booleans are separate
  JSON booleans. Both fail every `as? String` cast, as in the source.
- IntParse.ParseInt: accepts only an optional sign, then digits, on a 64-bit `Int`. It
  does not claim any other corner of Swift's parser.
- Networking.Step: a callback arriving in a phase that is not waiting for it changes
  nothing. The transport never delivers one there. The class methods require the right
  phase instead.
- Networking.ViewController: the class covers a single invocation of `uploadImage` per
  controller. In the app every photo pick calls `uploadImage` again
  (ViewController.swift:102). The lists stored by the previous upload stay until the next
  completion overwrites them (111-112), and the results segue reads them (62-63). So
  `Valid()`'s "lists present exactly when finished" holds for the first upload only.
  Repeated uploads on one controller are not modelled.
