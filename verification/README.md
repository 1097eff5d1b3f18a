# sdkgolib client core in Dafny

This project models the client side of `sdkgolib` (`client.go`). A client
declaration names a route (HTTP method and path) and two line-schema texts.

- `RegisterClient` compiles the two schemas on every call and stores the
  artifacts under the route key `lower(method) + "_" + path`, replacing
  whatever was there. The artifacts are JSON-Schema validators, gjson
  format paths and the default input document.
- `GetClient` binds the stored artifacts to a caller's instance without
  compiling again. Only on a miss does it register a fresh instance of the
  caller's type, and so compile.
- `_Client.RequestFn` runs one call with early return on every error:
  1. marshal;
  2. merge the default document;
  3. format outbound;
  4. validate the input;
  5. send through a pluggable transport;
  6. validate the raw response;
  7. format inbound;
  8. decode;
  9. ask the output object for its business error.
- The transport helpers choose the Content-Type and where a body goes for
  each HTTP method.

The libraries the core calls are function values handed to the model. These
are the line-schema compiler, JSON marshal/unmarshal, the default merge,
gjson, the JSON-Schema validator and the transport. Every property below
therefore holds whatever those libraries do. The process-wide `sync.Map` is
an immutable value passed in and returned.

Each call carries a trace: the list of collaborator invocations it made, in
order. The trace is an observation added by the model. The ordering and
data-flow properties of `RequestFn` are stated over it. Likewise, a failed
call's outcome is tagged with the stage it failed in; client.go returns the
bare error, and the error in the model is exactly that error.

Modules:

- `Base`: errors, `Option`, `Result`.
- `Text`: ASCII case mapping.
- `Route`: route keys.
- `Collaborators`: the declaration and the library interfaces.
- `Descriptor`: schema compilation.
- `Registry`: the registry with the route list kept in its own map.
- `SharedStore`: the registry as written, with one shared map.
- `Trace`: invocation records.
- `Glue`: the opt-in steps.
- `Pipeline`: `RequestFn`.
- `PipelineFacts`: consequences of `RequestFn`'s shape.
- `Transport`: content type and body placement.

`modifyTypeByFormat` (client.go:236-243) never returns an error, so
formatting has no failure stage in `RequestFn`: the checks of its error at
client.go:285-287 and 305-307 can never fire.

## Model

| member | source | states |
|---|---|---|
| Text.Lower | client.go:437 | Lower-casing keeps the length and maps each character on its own: ASCII capitals to small letters, every other character unchanged. |
| Text.Upper | client.go:363 | Upper-casing keeps the length and maps each character on its own: ASCII small letters to capitals, every other character unchanged. |
| Pipeline.RequestFn | client.go:268-272 | Every call starts with the marshal. A marshal error ends the call at once with that error (the model tags it with the marshal stage). |
| Pipeline.MergeStep | client.go:274-281 | With a default document, the merge is the next invocation, and a merge error ends the call wrapped with "merge default value error". Without one, no merge runs and the marshalled request goes on to the outbound step unchanged. |
| Pipeline.OutboundStep | client.go:283-291 | The next invocation is the outbound format when there is an input format path, else the input validation when there is an input loader, else the transport with the request unchanged. When the input validator rejects the body, the call ends with the validator's error and the validation is the last invocation: nothing is sent. |
| Pipeline.SendStep | client.go:293-298 | The transport is invoked next, with the caller's context, method, path and the body; a transport error ends the call verbatim, with nothing after it. |
| Pipeline.ReceiveStep | client.go:299-307 | With an output loader, validation of the raw response is next, and its error ends the call. Without one, the inbound format is next when there is an output format path, and otherwise the decode of the raw response. |
| Pipeline.DecodeStep | client.go:309-318 | The decode is next. A decode error ends the call. Otherwise the output's error check follows, and the call fails with its error or succeeds with the decoded output. |
| Transport.Placement | client.go:363-372 | Query parameters exactly when the upper-cased method is GET; request body exactly when it is POST, PUT or PATCH; no payload otherwise. |
| Transport.SetContentType | client.go:327-334 | Afterwards the context carries exactly the given content type. |
| Transport.RestyRequestFn | client.go:353-354 | Every call of the returned transport is one request preparation and execution as stated for `RestyRequest`. |
| Route.RouteKey | client.go:436-438 | The key is the lower-cased method, one underscore, then the path, character for character. |
| Route.SameKeyIffSameRoute | client.go:436-438 | For methods without an underscore, two routes share a key exactly when their methods agree up to ASCII case and their paths are equal. |
| Route.RouteKeyIgnoresMethodCase | client.go:436-438 | Upper-casing the method does not change the key. |
| Route.UnderscoreMethodsCollide | client.go:436-438 | A method containing an underscore can collide with another route: ("a_b", "c") and ("a", "b_c") share a key. |
| Route.SplitRouteKey | client.go:436-438 | A key built from a method without an underscore splits back into the lower-cased method and the path. |
| Descriptor.NewJsonschemaLoader | client.go:440-456 | An empty text fails with the "arg lineSchemaStr required" error. Otherwise the loader exists exactly when the text parses and compiles to JSON-Schema, and it wraps that JSON-Schema. A parse error and a JSON-Schema conversion error are each returned as is. |
| Descriptor.CompileHalf | client.go:137-166 | An empty schema compiles to no loader, no path and no default without calling the library. A non-empty one succeeds exactly when it parses, yields a JSON-Schema and, on the input side, a default document. The artifacts are the library's. Parse and JSON-Schema errors are returned as is; a default-document error is wrapped with "get input default json error". |
| Descriptor.Compile | client.go:136-166 | Compilation succeeds exactly when both sides compile. An input-side error takes precedence over an output-side one. The input loader, input format path and default document are what the input schema compiles to; the output loader and output format path are what the output schema compiles to. A loader exists exactly when its schema is non-empty. A route without schemas compiles to the empty descriptor. |
| Registry.RegisterClient | client.go:130-178 | Registration fails exactly when compilation fails, with the compiler's error, and stores nothing. On success, the route key maps to the compiled descriptor and to the route `[method, path]`. The key sets grow by that key and every other entry is unchanged. |
| Registry.LastWriterWins | client.go:167-176 | Registering a second declaration on the same key after a first gives the same registry as registering only the second. |
| Registry.RegisterIdempotent | client.go:130-178 | Registering the same declaration twice equals registering it once. |
| Registry.GetClient | client.go:180-211 | A hit returns the stored descriptor bound to the caller's instance and leaves the registry alone. On a miss, the registry afterwards is the one registering the fresh instance produced, or the old one if that registration failed. A failed registration's error is the result; after a successful one the result is the freshly compiled descriptor bound to the caller when the fresh instance has the caller's key, and API_NOT_FOUND otherwise. |
| Registry.LazyRegistrationFindsRoute | client.go:183-199 | When the fresh instance declares the caller's route, the lookup succeeds exactly when the key was present or the schemas compile. A failure is the compile error and leaves the registry unchanged. |
| Registry.NotFoundWhenSourceRouteDiffers | client.go:196-199 | When the fresh instance declares a different route, the lookup stores that route and reports API_NOT_FOUND with the caller's method and path. |
| Registry.SecondLookupHits | client.go:183-210 | After one successful lookup, every later lookup of the same key returns the same artifacts, bound to the later instance, and changes nothing. |
| Registry.MethodCaseSharesEntry | client.go:180-210 | A route registered under one spelling of its method is found, with its compiled descriptor, by callers spelling the method in any ASCII case. |
| Glue.MergeDefault | client.go:275-281 | An empty default document leaves the request untouched and calls nothing. Otherwise the merge is invoked once, its result is the request, and its error is wrapped with "merge default value error". |
| Glue.ModifyTypeByFormat | client.go:236-243 | An empty format path returns the document itself and calls nothing. Otherwise the result is the gjson evaluation. There is never an error. |
| Glue.FormatAsInput | client.go:253-257 | Formatting with the input format path: the document itself with no invocation when the path is empty, otherwise the gjson evaluation of that path with one outbound format invocation. It never fails. |
| Glue.FormatAsOutput | client.go:259-263 | Formatting with the output format path: the document itself with no invocation when the path is empty, otherwise the gjson evaluation of that path with one inbound format invocation. It never fails. |
| Glue.ValidateWith | client.go:213-234 | A nil loader passes without calling the validator. Otherwise validation passes exactly when the validator reports nothing, and a failure is the validator's error. |
| Glue.InputValidate | client.go:213-223 | A route without an input loader always passes without calling the validator. With one, the validator is called once on the body and validation passes exactly when it reports nothing; a failure is its error. |
| Glue.OutputValidate | client.go:224-234 | A route without an output loader always passes without calling the validator. With one, the validator is called once on the response and validation passes exactly when it reports nothing; a failure is its error. |
| Pipeline.NextPlanned | client.go:268-319 | The next scheduled step after position k is scheduled, and no step between them is. |
| Pipeline.RequestFnFailsFast | client.go:268-319 | Collaborators run in pipeline order, each at most once. Every invocation but the last succeeded, and the call succeeds exactly when the last did, which is then the output's error check. Otherwise the call returns the last invocation's error (the model tags it with its stage), and nothing later ran. Each invocation is the next scheduled step, consumes what the previous one produced, and uses the route's artifacts, route and context. |
| PipelineFacts.CoversPlan | client.go:268-319 | A wired trace skips no scheduled step up to the position it reached. |
| PipelineFacts.SuccessRanEveryPlannedStep | client.go:268-319 | A nil result means every scheduled step ran and succeeded, ending with the output's own error check. |
| PipelineFacts.TransportOnlyAfterInputChecks | client.go:268-301 | The transport is invoked exactly when marshal, merge and input validation passed. It receives the caller's route and context and the body the previous step produced, which is the body the input validator accepted when there is one. |
| PipelineFacts.TransportErrorVerbatim | client.go:295-298 | A transport error is returned unchanged as the call's error (the model tags it with the transport stage), and nothing runs after it. |
| PipelineFacts.OutputValidatedOnRawResponse | client.go:299-304 | Output validation runs straight after the transport, on the raw response it returned, with the output loader. When it fails, no inbound format, decode or business check runs. |
| PipelineFacts.BusinessErrorOnlyAfterDecode | client.go:310-317 | The business error comes from the object the decode just produced, after every earlier step, including the transport, succeeded. |
| PipelineFacts.NoSchemasDirectDispatch | client.go:268-301 | For a route without schemas, the transport receives the marshalled request straight after the marshal, and no merge, format or validation is invoked. |
| PipelineFacts.OnlyPlanned | client.go:268-319 | Every invocation of a call is one the route's descriptor schedules. |
| Transport.GetContentType | client.go:343-350 | The content type is never empty. It is the context's value when that value is set and non-empty, and "application/json" otherwise. |
| Transport.ContentTypeRoundTrip | client.go:327-350 | Reading back a set content type gives it, except that an empty one reads back as "application/json". |
| Transport.SetContentTypeOverrides | client.go:327-334 | A later `SetContentType` replaces an earlier one. |
| Transport.PlacementIgnoresCase | client.go:363-372 | Where the body goes depends on the method only up to ASCII case. |
| Transport.LowerCaseGetIsQuery | client.go:363-368 | Any spelling of GET sends the body as query parameters. |
| Transport.SameRouteKeySamePlacement | client.go:363-372 | For methods without an underscore, two routes that share a registry key place their bodies the same way. |
| Transport.UnderscoreMethodsPlaceDifferently | client.go:363-372 | With an underscore allowed in the method, sharing a key does not fix the placement: ("GET", "_x") and ("GET_", "x") share the key "get__x", and the first sends query parameters while the second sends no payload. |
| Transport.BuildRequest | client.go:355-372 | The URL is host followed by path, the method is passed on as spelled, and the Content-Type header is `getContentType` of the context: its non-empty value, or "application/json". The body goes to query parameters exactly for GET, to the request body exactly for POST, PUT and PATCH, and nowhere otherwise. A failed form conversion of a GET body is the error. |
| Transport.RestyRequest | client.go:353-392 | A GET whose form conversion fails returns that error without executing. Every other call executes the request built from host, path, content type and placed body, and returns the execution's result. |
| SharedStore.RegisterShared | client.go:130-178 | Registering as written succeeds exactly when compilation does, with the same error. It always leaves a route list holding this route under the reserved key. The store's keys grow by the route key and the reserved key, and every other slot is unchanged. For any other key than the reserved one, the compiled descriptor is stored under the key, and an existing route list keeps its earlier routes while a missing one starts with this route alone. For the reserved key, the slot ends up holding a route list with only this route. |
| SharedStore.GetClientShared | client.go:180-211 | A hit on a descriptor slot returns that descriptor bound to the caller and changes nothing; a hit on the route-list slot panics. On a miss, a failed registration of the fresh instance returns its error and leaves the store alone. After a successful one, the lookup panics when the caller's key is the reserved one; otherwise it returns the freshly compiled descriptor bound to the caller when the fresh instance has the caller's key, and API_NOT_FOUND otherwise, with the registered store. A lookup panics in no other case. |
| SharedStore.ReservedRoutePanics | client.go:167-200 | Registering a route whose key is "___all_client_add___" succeeds when its schemas compile, replaces the route list by that one route and makes its lookup panic. |
| SharedStore.ReservedRouteCounterexample | client.go:167-176 | The route ("", "__all_client_add___") registers into an empty store without error when its schemas compile, and looking it up then panics. |
| SharedStore.RegisterRefines | client.go:167-176 | Away from the reserved key, registration on the shared map agrees with the separate-map registry and keeps the two related. |
| SharedStore.GetClientRefines | client.go:180-211 | Away from the reserved key, a lookup on the shared map never panics and returns what the separate-map lookup returns. |
| SharedStore.SeparateMapsFindReservedRoute | client.go:180-211 | With the route list kept apart, a route whose key is the reserved one is found with its compiled descriptor after registering. |

## Left out

- The bodies of the libraries are parameters of the model: `jsonschemaline` parsing, `GjsonPath`, `DefaultJson` and `MergeDefault`; `json.Marshal` and `json.Unmarshal` (`convertOutput`, client.go:245-251); `gjson.Get`; and the JSON-Schema validator.
- `str2FormMap`, the resty execution and logging in `RestyRequestFn`, and all of `ChasissRequestFn` are network I/O. Only request preparation is modelled, with form conversion and execution as parameters. `execute` stands for `r.Execute` followed by `res.Body()` (client.go:380-390): it fails only when resty reports an error, so a reply with a non-2xx HTTP status is a successful transport result carrying its body.
- `logchan` logging and `LogInfoClientRun` have no effect on results.
- Concurrency of `sync.Map` is not modelled. Each registry operation is atomic here, and the in-place sharing of the route list between concurrent registrations is not modelled either.
- Reflection in `GetClient` (`reflect.New` followed by `Init()`) is not modelled. The fresh instance is the `source` parameter, taken as already initialised. The `client.Init()` call before binding (client.go:201) is not modelled, because every instance is taken as initialised.
- `GetCClient`, `JsonMarshal` and the default-implementation helpers are simple passthroughs.
- Context values other than the content type, and cancellation, are not modelled. A non-string value stored under the content-type key, which `cast.ToString` would convert, is not modelled either: the context is reduced to an optional content-type string, as `SetContentType` writes it.
- Text.Lower: `strings.ToLower` is modelled on ASCII letters only. Other Unicode letters are left unchanged, where Go would lower-case them.
- Text.Upper: `strings.ToUpper` is modelled on ASCII letters only. Other Unicode letters are left unchanged, where Go would upper-case them.
- Pipeline.DecodeStep: `json.Unmarshal` decodes into the caller's output object in place (client.go:246). The model returns the decoded output only on success. On a business error or a partial decode failure, the caller's object keeps the (partly) decoded value, and `Failed` does not carry it. The model also takes both `GetOutputRef()` calls (client.go:246 and 313) to return the same object, so the business check inspects what was decoded.

## Findings

| source | as written | input that shows it | evidently intended | confidence | as-written member | corrected member |
|---|---|---|---|---|---|---|
| client.go:125, 167-176, 200 | The route list is stored in the descriptor map itself, under the key "___all_client_add___". A route whose key equals it overwrites the list with its descriptor. The list, freshly reset to that one route, then overwrites the descriptor, and `GetClient`'s `apiAny.(*_Client)` assertion panics. | `RegisterClient` of a declaration with method "" and path "__all_client_add___", then `GetClient` of it | The route list is kept apart from the descriptors, so every registered route can be looked up | not executed; medium (needs an unusual route) | SharedStore.ReservedRouteCounterexample | SharedStore.SeparateMapsFindReservedRoute |
