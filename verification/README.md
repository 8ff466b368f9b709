# cfgkit rendering core in Dafny

cfgkit serves a per-device configuration file over HTTP. A device logs in with
basic auth. Its name selects a template and a set of device variables from the
loaded configuration. The template is executed against two scopes, `.Global`
and `.Device`, and executed again on its own output until the output stops
changing. The result is then sent either verbatim as text or re-indented as
JSON.

This project models the parts of that the repository itself decides:

- `Renderer` (internal/renderer/renderer.go) covers the following.
  - Renderer construction: device lookup, the `"default"` template name, template lookup, and injection of `Device.Name`.
  - The fixed-point loop `renderLoop`.
  - The output formatter `format`.
  - `Render`.
- `FixedPoint` describes the loop independently, as the trace of executions it would make if it never stopped. It proves that `renderLoop` stops at the first execution that fails or repeats its predecessor's output.
- `Server` (internal/server/server.go) covers the following.
  - The credential check `auth`.
  - The order in which `ServeHTTP` maps outcomes to statuses: a config load error gives 500, bad or missing credentials give 403, a construction or render error gives 500, and otherwise the reply is 200 with the render's content type.
- `ConfigTypes` holds the configuration records of internal/config/config.go.
- `Wrappers` holds `Option` and `Result`.

Template execution is foreign code: Go's text/template with the sprig functions, `fromFile` and `fromYaml`. It enters the model as a function-valued parameter `Engine`. So does `json.Indent`, as `JsonCodec`. Apart from being functions (see "## Left out"), nothing is assumed about either.

The source loop has no iteration bound. The model runs it with a `fuel` budget. `LoopOutOfFuel` means only "has not stopped within the budget". `FixedPoint.FuelMonotone` shows that more fuel never changes an outcome the loop has already reached.

Three facts about the loop matter for what follows:

- The loop compares each output with the previous one, starting from the empty string. There is no sentinel. A body whose first execution yields `""` therefore stops after one execution.
- A non-empty body without template syntax, which executes to itself, stops after two executions. See `FixedPoint.TwoExecutions`.
- The loop has no iteration cap and no non-convergence error.

## Model

| member | source | states |
|---|---|---|
| Renderer.EffectiveTemplateName | internal/renderer/renderer.go:38-40 | the template used is never empty: a device's own template name is kept, and an empty one becomes "default" |
| Renderer.WithName | internal/renderer/renderer.go:47 | the device scope maps `Name` to the device name, overriding any earlier `Name`; its keys are the old keys plus `Name`; every other entry is unchanged |
| Renderer.New | internal/renderer/renderer.go:32-62 | construction succeeds iff the device exists and its effective template exists. A missing device is `DeviceNotFound(name)`; otherwise a failure is `TemplateNotFound(effective name)`. On success: the body and type are those of the selected template; `Global` is exactly the configuration's variables; `Device` is the device's variables with `Name` forced to the device name and all other entries kept. A device without variables gets only `Name` |
| Renderer.NewAsWritten | internal/renderer/renderer.go:32-47 | construction as written panics exactly when the device and its template exist but the device's variable map is nil |
| Renderer.NilVariablesPanic | internal/renderer/renderer.go:47 | for a concrete device without `variables` whose default template exists, the source panics while the corrected `New` builds a renderer whose device scope is `{Name: device}` |
| Renderer.NewAgreesWithSource | internal/renderer/renderer.go:32-62 | whenever the source does not panic, the corrected `New` returns the same renderer or the same error |
| Renderer.Iterate | internal/renderer/renderer.go:78-97 | from any loop state, convergence happens after at least one more execution and within the remaining budget |
| Renderer.RenderLoop | internal/renderer/renderer.go:73-100 | convergence happens after at least one and at most `fuel` executions |
| Renderer.RunRenderLoop | internal/renderer/renderer.go:73-100 | the imperative loop over `prevResult` and `currentTmplStr`, with early returns on error and on repetition, has exactly the outcome of the functional loop |
| Renderer.Format | internal/renderer/renderer.go:102-119 | for type "json", success iff the text is valid JSON, giving the two-space indentation with content type `application/json`, and `InvalidJson` otherwise. For every other type, including "text", "inline" and "", the bytes are unchanged with `text/plain; charset=utf-8` |
| Renderer.Render | internal/renderer/renderer.go:64-71 | a loop error is returned unchanged; the render hangs iff the loop does; a converged loop gives `Rendered` of the formatted text when formatting succeeds and `RenderFailed(InvalidJson)` when it fails; every successful render is the formatted loop result |
| FixedPoint.IterateFrom | internal/renderer/renderer.go:73-100 | after i continuing executions, the loop converges, fails or keeps running exactly as the execution trace says, with the stop index, output and error determined by the trace |
| FixedPoint.LoopConvergesIff | internal/renderer/renderer.go:74-97 | the loop returns o after k executions iff execution k is the first whose output equals its predecessor's ("" before the first) and that output is o |
| FixedPoint.LoopFailsIff | internal/renderer/renderer.go:81-88 | the loop fails with e iff some execution fails with e after every earlier one produced a new output; no text is returned then |
| FixedPoint.LoopParseFailsIff | internal/renderer/renderer.go:81-84 | the loop fails with a `parse template` error carrying cause c iff the first non-continuing execution is a parse failure with cause c |
| FixedPoint.LoopExecFailsIff | internal/renderer/renderer.go:86-88 | the loop fails with a `render` error carrying cause c iff the first non-continuing execution is an execution failure with cause c |
| FixedPoint.LoopOutOfFuelIff | internal/renderer/renderer.go:78-97 | the loop is still running after n executions iff each of them succeeded with an output different from the previous one |
| FixedPoint.FuelMonotone | internal/renderer/renderer.go:78-97 | once the loop converged or failed within some budget, every larger budget gives the same outcome |
| FixedPoint.ConvergedIsFixedPoint | internal/renderer/renderer.go:90-96 | a result reached after two or more executions is a fixed point: executing it yields itself |
| FixedPoint.ConvergedAfterOne | internal/renderer/renderer.go:74-93 | a result reached after one execution is "" and the body executed to "" |
| FixedPoint.TwoExecutions | internal/renderer/renderer.go:74-97 | if the body executes to a non-empty b and b executes to itself, the loop returns b after exactly two executions |
| FixedPoint.EmptyFirstOutput | internal/renderer/renderer.go:74-93 | if the body executes to "", the loop returns "" after exactly one execution |
| FixedPoint.RenderedIsFormattedFixedPoint | internal/renderer/renderer.go:64-71 | a successful render is the JSON-indented or verbatim form of a loop result that is a fixed point of execution, unless the first execution already gave "" |
| Server.Auth | internal/server/server.go:75-83 | the scan over the device map, taking keys in any order, answers true iff the user is a device whose password equals the given one exactly |
| Server.Serve | internal/server/server.go:39-73 | a config load error gives 500 whatever the credentials. Then missing or failed credentials give 403. Then a construction or render error gives 500. A successful render gives its content type and data |
| Server.ServedIff | internal/server/server.go:48-72 | a 200 reply with content type c and data d happens iff the config loaded, the credentials authenticate, the renderer was built and its render produced (d, c) |
| Server.AuthenticatedDeviceExists | internal/server/server.go:48-57 | after successful authentication, construction can only fail with a missing template, never a missing device |
| Server.StatusCodes | internal/server/server.go:39-73 | every reply has status 200, 403 or 500, and 200 exactly for a served body |

## Left out

- Template parsing and execution (text/template, the sprig function map, `fromFile`, `fromYaml`; internal/renderer/renderer.go:49-51, 81-86, 121-140) are foreign code, modelled as the uninterpreted `Engine` parameter. Nothing is claimed about the template grammar or the helper functions.
- Template execution is treated as a fixed function of the body, the two scopes and `workDir`. In the source it need not be one. Sprig's `now`, `randAlphaNum`, `uuidv4` and `env` and the file reads of `fromFile` (internal/renderer/renderer.go:121-130) can give different outputs for the same body on different executions. Executions are also assumed to leave `.Global` and `.Device` unchanged, so `Renderer.Iterate` passes the initial scopes to every execution. In the source, the scopes are the configuration's own maps (internal/renderer/renderer.go:57-58). Sprig's dict functions `set`, `unset`, `merge` and `mergeOverwrite` write into them in place, so a later pass can see changed scopes, even a `Name` other than the device's. The fixed-point reading of `FixedPoint.ConvergedIsFixedPoint`, stated against the initial scopes, and the never-stopping cycles of `FixedPoint.LoopOutOfFuelIff` rely on these assumptions.
- `json.Indent` is foreign code, modelled as `JsonCodec`: a validity predicate plus the indented text. The error's detail text is not carried, so `InvalidJson` has no cause.
- `config.Load` does directory listing, file I/O and YAML decoding. `Server.Serve` takes its outcome as a `LoadResult`.
- Go strings and byte buffers are modelled as `string`. No encoding is involved.
- Nil maps for the global variables, the device table and the template table are modelled as empty maps. The repository's own code only reads them. A template that applies sprig's `set` to a nil global map panics, and text/template reports that as an execution error, where the same call on an empty map succeeds. That difference lies inside the abstract `Engine` and is not modelled. The device's own variable map keeps its nil case because `New` writes to it.
- `New` writes `Name` into the configuration's own device map. The model builds a new map instead and leaves the configuration unchanged. The sharing is only visible across renders of the same loaded configuration, and each request loads its own.
- HTTP plumbing is left out: `Server.New`, `Start`, header and body writes, the failure branch of the body write (internal/server/server.go:67-70), the status text `http.Error` writes, and request logging.
- cmd/cfgkit/main.go and internal/logging/logging.go do process wiring and logging.
- Renderer.RenderLoop: results are stated for a fuel budget because the source loop need not terminate. Non-termination shows up only as `LoopOutOfFuel`, and as `RenderOutOfFuel` and `Hang` in `Render` and `Serve`.
- The `fmt.Errorf` message texts (internal/renderer/renderer.go:35, 44, 83, 87, 107) are not modelled. Errors are told apart by their constructor and carried cause only.
- Server.Serve: it uses the corrected `Renderer.New` (see "## Findings"). An authenticated device without `variables` is rendered with the device scope `{Name}`. In the source, `renderer.New` panics for that device (internal/server/server.go:53, internal/renderer/renderer.go:47), and net/http drops the connection without sending a status.
- Server.ServedIff: its iff is over the corrected `Renderer.New`, so it counts an authenticated device without `variables` as served when its render succeeds, where the source panics instead of replying.
- Server.Serve: a render that never stops is modelled as `Hang` rather than as a status.

## Findings

| source | as written | input that shows it | evidently intended | confidence | as-written member | corrected member |
|---|---|---|---|---|---|---|
| internal/renderer/renderer.go:47 | `New` assigns `Name` into the device's variable map, which is nil when the device has no `variables` key; assigning into a nil Go map panics | device `d` with password `p`, no template name and no `variables`, with a `default` template present (`Renderer.NilVariablesPanic`) | a device without variables renders with a device scope holding only `Name` | high; not executed | Renderer.NewAsWritten | Renderer.New |

The renderer tests give a non-nil variable map to every device that reaches construction (internal/renderer/renderer_test.go:32, 58, 88). That is consistent with this panic. `Server.Serve` uses the corrected `Renderer.New`.

## Notes on the tests

- internal/renderer/renderer_test.go:23 calls `New(cfg, "d", "")` with the work directory and device name swapped. So "template not found" is tested through the device-not-found path. `Renderer.New` has both error cases.
- cmd/cfgkit/main.go:19 and internal/server/server_test.go:46 call the four-parameter `server.New` with three arguments. Server construction is not modelled.
