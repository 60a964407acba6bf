# Sequential thinking server, modelled in Dafny

This project models the request engine of the Go `sequentialthinking` server
(`main.go`). The server speaks the Model Context Protocol (revision
`2025-03-26`) over JSON-RPC 2.0. It offers one tool, `sequentialthinking`. A
client submits numbered reasoning steps to it. The server validates each step,
records it in a history, files it under a branch when it opens one, and reports
a summary. It can also broadcast every event to event-stream listeners.

The model has these modules:

- `Wrappers`: the `Option` and `Result` types.
- `Json`: decoded JSON values and Go's type assertions on an argument map
  (`args[key].(string)` and so on).
- `Text`: Go's `len` as a UTF-8 byte count, `strings.Repeat`, the `%-*s`
  padding and the `%d` rendering.
- `Thoughts`: the `ThoughtData` record, `validateThoughtData` (`Validate`) and
  the permissive step-count policy (`RaiseTotal`).
- `Display`: `formatThought`, as a `Box` of five lines (`Layout`) that are then
  joined.
- `Protocol`: requests, responses, the tool descriptor and routing by method
  name.
- `Server`: the `SequentialThinkingServer` class with its seven fields, the hub
  of listener queues (capacity 10, the full one is evicted), `processThought`
  and `handleRequest`.
- `Sessions`: whole sessions. It covers a run of submissions and the
  three-request exchange of a stdio client.

The state-changing operations are methods of the class. Their contracts are
stated against functions of the old state:

- `Accept` is the history after a submission.
- `AddToBranch` is the branch map after a step.
- `Delivered` is the listener queues after a broadcast.

The class invariant `Valid()` says two things. First, the branch map is exactly
the index of the history (`BranchIndexed`). Second, no queue holds more than 10
events.

The tool's own descriptor promises more than `validateThoughtData` checks.
The schema declares `minimum: 1` for `thoughtNumber`, `totalThoughts`,
`revisesThought` and `branchFromThought` (`main.go:445-465`). The description
says that `revises_thought` names the reconsidered step when `is_revision` is
true (`main.go:414`). The validator enforces neither, and this model follows
the code:

- `thoughtNumber` and `totalThoughts` are not required to be positive.
- A revision need not name the step it revises.
- A step beyond the estimate raises the estimate (`main.go:316-318`), as the
  description allows (`main.go:411`). It is not rejected.
- Branch buckets hold whole steps (`main.go:139`).

## Model

| member | source | states |
|---|---|---|
| Json.GetString | main.go:205 | a string is found exactly when the key is present and holds a string, and it is that string |
| Json.GetNumber | main.go:210 | a number is found exactly when the key is present and holds a number, and it is that number |
| Json.GetBool | main.go:222 | a boolean is found exactly when the key is present and holds a boolean, and it is that boolean |
| Json.StringsIn | main.go:573-578 | the roots list holds exactly the string elements of the array and is never longer than it |
| Json.StringsInAllStrings | main.go:573-578 | an array of strings only is kept whole, element by element in order |
| Text.Utf8LenBounds | main.go:279-280 | the byte length is between the code-point count and four times it |
| Text.Utf8LenAppend | main.go:279 | the byte length of a concatenation is the sum of the parts' byte lengths |
| Text.Utf8LenAscii | main.go:279 | for ASCII text the byte length equals the code-point count |
| Text.Utf8Len | main.go:279-280 | no contract of its own: it is Go's `len` on a string, and its properties are the contracts of `Text.Utf8LenBounds`, `Text.Utf8LenAppend` and `Text.Utf8LenAscii` |
| Text.Repeat | main.go:287 | the border is exactly `n` copies of the rule character |
| Text.PadRight | main.go:293-294 | `%-*s` keeps the text as a prefix, pads with spaces only and reaches the width when the text is shorter |
| Text.DigitsRoundTrip | main.go:266 | the decimal digits of a natural number read back as that number |
| Text.FormatInt | main.go:266-279 | `%d` prints an optionally signed run of decimal digits, all ASCII, that starts with `-` exactly for a negative number |
| Text.FormatIntRoundTrip | main.go:276 | the `%d` text of any integer reads back as that integer |
| Thoughts.FieldError.Message | main.go:206-226 | every validation error has a non-empty message, namely the Go error text |
| Thoughts.Validate | main.go:204-258 | it fails with the error of the first failing required field, in the order thought (missing, not a string or empty), thoughtNumber, totalThoughts, nextThoughtNeeded; it succeeds exactly when all four pass, whatever the optional fields hold |
| Thoughts.ValidateCopiesArguments | main.go:228-255 | on success the four required values are copied unchanged, and each optional field is set exactly when present with the right type, with that value (branchId is "" otherwise) |
| Thoughts.OptionalFieldNeverFails | main.go:234-255 | changing or adding an optional argument, even with a wrong type, never changes whether validation succeeds, nor the error reported |
| Thoughts.RaiseTotal | main.go:315-318 | the estimate becomes max(totalThoughts, thoughtNumber) and nothing else of the step changes |
| Display.Colorize | main.go:31-33 | the result is the colour code, then the text, then the reset code, and nothing else |
| Display.LabelOf | main.go:263-274 | Revision exactly when isRevision is present and true; otherwise Branch exactly when branchFromThought is present; otherwise Thought |
| Display.Context | main.go:263-274 | a revision has a note exactly when it names the revised step, and the number in the note reads back as that step; a branch's note reads back as its origin step, followed by `, ID: `, its id and the closing parenthesis; a plain step has no note |
| Display.RevisionNote | main.go:265-267 | the note opens with ` (revising thought `, closes with `)`, and the text between reads back as the revised step |
| Display.BranchNote | main.go:270 | the note opens with ` (from thought `, ends with `, ID: `, the id and `)`, and the text between reads back as the origin step |
| Display.Prefix | main.go:263-274 | no contract of its own: the label is chosen by `Display.LabelOf` and wrapped by `Display.Colorize`, whose contracts state the choice and the colouring |
| Display.Counter | main.go:276 | the `n/total` counter has a slash with the step number reading back before it and the estimate reading back after it, and it is plain ASCII, so its byte length equals its length (used by `Display.HeaderLenInBytes`) |
| Display.Header | main.go:276 | no contract of its own: the header line that holds it is stated by `Display.Layout` |
| Display.HeaderLen | main.go:279 | no contract of its own: its byte count is stated by `Display.HeaderLenInBytes` |
| Display.HeaderLenInBytes | main.go:279 | the measured header counts 13 bytes for the plain label (its emoji takes four), plus the counter and the note's byte length |
| Display.BorderLen | main.go:279-285 | the border width is max(header bytes, thought bytes) + 4, and so at least the thought's code points + 4 |
| Display.BorderLine | main.go:287-294 | a border line is a corner, `width` rule characters and a corner |
| Display.BodyLine | main.go:293-294 | the body line is `│ `, the thought, space padding and ` │`, exactly width + 2 code points |
| Display.Layout | main.go:276-294 | the top, separator, body and bottom lines are all border width + 2 wide, with the right corners; the header line holds the coloured header; the body holds the thought padded with spaces |
| Display.Render | main.go:289-294 | no contract of its own: the template join, a leading newline and the five box lines separated by newlines; the lines are stated by `Display.Layout` |
| Display.FormatThought | main.go:260-295 | no contract of its own: it joins the five lines of `Display.Layout`, after a leading newline, and the box is stated by `Display.Layout` |
| Protocol.RouteOf | main.go:561-660 | each route is taken exactly for its method name (and tool name for tools/call); both notification names share one route |
| Protocol.ProtocolError | main.go:633-658 | -32602 exactly for tools/call of another tool, -32601 exactly for an unknown method, and no other error |
| Protocol.EmptyResponse | main.go:624 | no contract of its own: the zero response returned for a notification; `Server.SequentialThinkingServer.HandleRequest` and `HandleInitialized` state that notifications get it |
| Protocol.FailedCall | main.go:298-312 | a failed submission gives one text item holding the error message and status "failed", flagged as an error |
| Protocol.InitializeReply | main.go:595-611 | the initialize result echoes the client's protocol version, names the server `sequentialthinking` with the build version, and declares the tool list as changeable |
| Protocol.RootsList | main.go:570-572 | the roots array is found exactly when capabilities.roots is an object whose roots member is an array |
| Protocol.ToolSchema | main.go:431-476 | the schema declares the nine arguments with their JSON types; integer arguments have minimum 1 and the others none; the required list is exactly the four arguments validation insists on |
| Protocol.SequentialThinkingTool | main.go:374-478 | no contract of its own: the descriptor is named `sequentialthinking`, its schema is stated by `Protocol.ToolSchema`, and its description is the lines of `Protocol.DescriptionLines` |
| Server.Bucket | main.go:324-329 | a branch bucket holds only steps of the history filed under that id |
| Server.BucketSnoc | main.go:324-329 | recording a step extends only the bucket of its own branch |
| Server.AddToBranch | main.go:324-329 | a step that names a branching point and a non-empty id is appended to that bucket, which is created if needed; every other bucket is kept; any other step leaves the map as it was |
| Server.RecordKeepsIndex | main.go:321-329 | appending a step and filing it keeps the branch map equal to the index of the history: a key is present exactly when some step is filed under it, and its bucket lists those steps in order |
| Server.Accept | main.go:297-321 | a failed submission leaves the history as it was; an accepted one appends exactly one entry, the step with its estimate raised |
| Server.ThoughtMessage | main.go:337-343 | no contract of its own: the `thought` event with the formatted box and the accepted step; `Server.StepEffect` in `ProcessThought` states that listeners receive it outside stdio mode |
| Server.InitializeMessage | main.go:586-592 | no contract of its own: the `initialize` event with the client identity and protocol version; `HandleInitialize` states its delivery outside stdio mode |
| Server.HandshakeMessage | main.go:617-622 | no contract of its own: the `initialized` event with the handshake-complete text; `HandleInitialized` states its delivery outside stdio mode |
| Server.Delivered | main.go:193-202 | after a broadcast a listener is present exactly when its queue had room, and its queue has the event appended |
| Server.SlowListenerEvicted | main.go:193-202 | a listener that does not read gets the events in publish order while its queue has room, and is dropped by the first event that finds it full |
| Server.AbsentListenerStaysAbsent | main.go:193-202 | broadcasting never adds a listener |
| Server.StringRoots | main.go:573-578 | the loop keeps exactly the string elements of the roots array, in order |
| Server.SequentialThinkingServer.constructor | main.go:152-161 | a new server has empty history, branches, roots and listeners, protocol version 2025-03-26, and is not in stdio mode |
| Server.SequentialThinkingServer.SetStdioMode | main.go:163-165 | sets only the stdio flag |
| Server.SequentialThinkingServer.SetClientInfo | main.go:167-171 | sets only the client identity and the protocol version |
| Server.SequentialThinkingServer.SetWorkspaceRoots | main.go:173-176 | sets only the workspace roots |
| Server.SequentialThinkingServer.AddClient | main.go:178-183 | subscribes the id with an empty queue and touches no other listener |
| Server.SequentialThinkingServer.RemoveClient | main.go:185-191 | unsubscribes the id; an id that is not subscribed changes nothing |
| Server.SequentialThinkingServer.BroadcastMessage | main.go:193-202 | the queues become `Delivered` of the old queues, whatever order the listeners are visited in, and stay within capacity |
| Server.SequentialThinkingServer.BranchKeys | main.go:347-350 | the reported keys are exactly the branch map's keys, each once |
| Server.SequentialThinkingServer.Record | main.go:320-329 | the step is appended to the history and filed by `AddToBranch`, keeping the index invariant |
| Server.SequentialThinkingServer.ProcessThought | main.go:297-372 | `StepEffect`: a failed validation returns the error-flagged result and changes nothing; an accepted step, with its estimate raised, is appended and filed, broadcast unless in stdio mode, and reported with its numbers, the exact set of branch keys, the new history length, the roots, the client identity and the protocol version; the roots, client identity, version and stdio flag never change |
| Server.SequentialThinkingServer.HandleRequest | main.go:561-660 | notifications get the empty response; every other request echoes its id, carries exactly the protocol error of its route, and has a result exactly when it has no error; protocol errors and tools/list change nothing; tools/list returns the one tool; initialize records the client and the version and replaces the roots only when a roots array is given; tools/call of the known tool has exactly the effect and the result of `processThought` (`StepEffect`: history, branch map, listener queues and step report) |
| Server.SequentialThinkingServer.HandleInitialize | main.go:563-612 | records the identity and version, replaces the roots with the array's strings when there is one, announces the client unless in stdio mode, and echoes the client's version |
| Server.SequentialThinkingServer.HandleInitialized | main.go:613-624 | answers with the empty response and announces the handshake unless in stdio mode |
| Server.SequentialThinkingServer.HandleToolCall | main.go:633-649 | the known tool has exactly the effect and the result of `processThought` (`StepEffect`), an error result exactly when validation fails; another tool name is -32602 and changes nothing |
| Sessions.ReplayGrowsByAccepted | main.go:297-321 | over a run of submissions the history grows by one entry per accepted submission and its old entries stay in place |
| Sessions.ReplayKeepsOrder | main.go:297-321 | N valid submissions give N new entries in submission order, each the submitted step with its estimate raised |
| Sessions.SubmitAll | main.go:297-372 | feeding submissions one by one yields the replayed history; each result is an error exactly when its submission fails, and an accepted one reports the history length right after it |
| Sessions.OpenSession | stdio_test.go:17-19 | a stdio server answers `initialize` and then `tools/list` without a protocol error, with the initialize reply and the one-tool list, and records no step |
| Sessions.CallTool | stdio_test.go:20 | a `tools/call` of the known tool is answered without a protocol error, is an error result exactly when the arguments fail validation, and leaves the history as `Accept` gives it |
| Sessions.StdioSession | stdio_test.go:14-79 | a fresh server in stdio mode answers initialize, tools/list and tools/call without a protocol error; the call is an error result exactly when its arguments fail validation, and the history then holds only the accepted step |

## Left out

- The stdio loop, HTTP and event-stream handlers, the index page and `main`
  (`main.go:484-559`, `662-798`) are transport plumbing and are not modelled.
  `handleRequest` is modelled on already decoded requests.
- JSON encoding and decoding are not modelled. Results are structured records
  (`Payload`, `RpcResult`, `EventData`) rather than the indented JSON text the
  server writes into `Content.Text`. The parse-error path (-32700) and its `%.0f`
  id recovery belong to the stdio loop and are left out with it.
- Numbers are whole: `Json.JNum` holds an `int`. The float64 the decoder
  produces and its truncation by `int(...)` (`main.go:214`, `220`, `240`, `245`)
  are not modelled.
- Server.SequentialThinkingServer.BroadcastMessage: the Go channel is a queue
  of at most 10 events. The goroutine that drains it toward the listener is
  concurrency and is not modelled, so listeners never read here. Closing the
  channel on eviction is modelled as removal from the map. Go's random map
  iteration order is a nondeterministic choice, and the result does not
  depend on it.
- Server.SequentialThinkingServer.BranchKeys: the order of the reported keys
  is Go's map iteration order. The model only fixes it as some order of the
  keys, each key once.
- Unsynchronised access from concurrent HTTP handlers is concurrency and is
  not modelled. Every operation here runs alone.
- Logging (`log.Printf`, `log.Print`) has no effect on state and is not
  modelled.
- The build-time `version` variable becomes the `version` parameter of
  `HandleRequest`.
- Time-based client ids (`main.go:515`) belong to the event-stream handler.
  Ids are plain parameters of `AddClient` and `RemoveClient`.
- Protocol.SequentialThinkingTool: the long description text is kept as its
  lines (`Protocol.DescriptionLines`), joined by `Description.Text()`. The
  descriptor carries a tag for it rather than the string, and nothing is proved
  about the text.
- `main_test.go` tests a different implementation with a strict step-count
  policy and is not modelled.
