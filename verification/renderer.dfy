/** The rendering orchestration of internal/renderer/renderer.go: renderer
    construction (`New`), the fixed-point loop (`renderLoop`) and the output
    formatter (`format`). Template parsing/execution (text/template with the
    sprig functions, `fromFile`, `fromYaml`) and `json.Indent` are foreign
    code: they enter as the function-valued parameters `Engine` and
    `JsonCodec`. Beyond being functions, nothing is assumed about them: each
    execution is taken to depend only on the body, the two scopes and the
    work directory, and to leave the scopes unchanged. */
module Renderer {
  import opened Wrappers
  import opened ConfigTypes

  const DefaultTemplateName := "default"
  /** The device-scope key that `New` forces to the device name. */
  const NameKey := "Name"
  const JsonType := "json"
  const JsonContentType := "application/json"
  const TextContentType := "text/plain; charset=utf-8"
  /** The prefix and indent strings `format` passes to `json.Indent`. */
  const IndentPrefix := ""
  const IndentUnit := "  "

  /** The two top-level scopes a template sees: `.Global` and `.Device`. */
  datatype Variables = Variables(global: Vars, device: Vars)

  /** The function map handed to the template engine: sprig plus `fromFile`
      bound to `workDir` plus `fromYaml`. Only `workDir` varies. */
  datatype Funcs = Funcs(workDir: string)

  datatype Renderer = Renderer(tmplStr: string, resultType: string, vars: Variables, funcs: Funcs)

  /** A successful render: the payload bytes and the Content-Type header. */
  datatype RenderResult = RenderResult(data: string, contentType: string)

  datatype Error =
    | DeviceNotFound(device: string)
    | TemplateNotFound(template: string)
    | ParseTemplate(cause: string)
    | RenderFailure(cause: string)
    | InvalidJson

  /** One parse-then-execute of a template body. */
  datatype Step = ParseFailed(cause: string) | ExecFailed(cause: string) | Output(text: string)

  /** `template.New("").Funcs(funcs).Parse(body)` followed by `Execute(buf, vars)`. */
  type Engine = (string, Variables, Funcs) -> Step

  /** `json.Indent`: `valid` says whether it succeeds on a text, `indent` what
      it writes when it does (source, prefix, indent unit). */
  datatype JsonCodec = JsonCodec(valid: string -> bool, indent: (string, string, string) -> string)

  /** What `renderLoop` does within a budget of `fuel` executions. The source
      loop has no bound; `LoopOutOfFuel` only means "has not stopped yet". */
  datatype LoopOutcome =
    | Converged(text: string, executions: nat)
    | LoopFailed(err: Error)
    | LoopOutOfFuel

  datatype RenderOutcome =
    | Rendered(result: RenderResult)
    | RenderFailed(err: Error)
    | RenderOutOfFuel

  /** The template a device uses: its own name, or "default" when empty. */
  function EffectiveTemplateName(name: string): (n: string)
    ensures n != ""
    ensures name != "" ==> n == name
    ensures name == "" ==> n == DefaultTemplateName
  {
    if name == "" then DefaultTemplateName else name
  }

  /** The device scope with `Name` forced to the device name. */
  function WithName(vars: Vars, deviceName: string): (v: Vars)
    ensures NameKey in v && v[NameKey] == Str(deviceName)
    ensures v.Keys == vars.Keys + {NameKey}
    ensures forall k :: k in vars && k != NameKey ==> v[k] == vars[k]
  {
    vars[NameKey := Str(deviceName)]
  }

  function StepError(s: Step): (e: Error)
    requires !s.Output?
  {
    match s
    case ParseFailed(c) => ParseTemplate(c)
    case ExecFailed(c) => RenderFailure(c)
  }

  /** `New` with a nil device map read as the empty map (see `NewAsWritten`
      for the source's behaviour on a nil map). Never panics: it fails exactly
      when the device or its template is missing. */
  function New(cfg: Config, workDir: string, deviceName: string): (r: Result<Renderer, Error>)
    ensures r.Success? <==>
      deviceName in cfg.devices
      && EffectiveTemplateName(cfg.devices[deviceName].templateName) in cfg.templates
    ensures deviceName !in cfg.devices ==> r == Failure(DeviceNotFound(deviceName))
    ensures deviceName in cfg.devices && r.Failure? ==>
      r.error == TemplateNotFound(EffectiveTemplateName(cfg.devices[deviceName].templateName))
    ensures r.Success? ==>
      var d := cfg.devices[deviceName];
      var t := cfg.templates[EffectiveTemplateName(d.templateName)];
      && r.value.tmplStr == t.template
      && r.value.resultType == t.kind
      && r.value.vars.global == cfg.variables
      && r.value.funcs == Funcs(workDir)
      && r.value.vars.device.Keys == ReadableVars(d.variables).Keys + {NameKey}
      && r.value.vars.device[NameKey] == Str(deviceName)
      && (forall k :: k in ReadableVars(d.variables) && k != NameKey ==>
            r.value.vars.device[k] == ReadableVars(d.variables)[k])
  {
    if deviceName !in cfg.devices then Failure(DeviceNotFound(deviceName))
    else
      var d := cfg.devices[deviceName];
      var name := EffectiveTemplateName(d.templateName);
      if name !in cfg.templates then Failure(TemplateNotFound(name))
      else
        var t := cfg.templates[name];
        Success(Renderer(t.template, t.kind,
          Variables(cfg.variables, WithName(ReadableVars(d.variables), deviceName)),
          Funcs(workDir)))
  }

  /** `New` exactly as written: the assignment into the device's variable map
      panics when that map is nil. */
  datatype NewOutcome = Built(renderer: Renderer) | NotBuilt(err: Error) | Panicked

  function NewAsWritten(cfg: Config, workDir: string, deviceName: string): (r: NewOutcome)
    ensures r.Panicked? <==>
      deviceName in cfg.devices
      && EffectiveTemplateName(cfg.devices[deviceName].templateName) in cfg.templates
      && cfg.devices[deviceName].variables.None?
  {
    if deviceName !in cfg.devices then NotBuilt(DeviceNotFound(deviceName))
    else
      var d := cfg.devices[deviceName];
      var name := EffectiveTemplateName(d.templateName);
      if name !in cfg.templates then NotBuilt(TemplateNotFound(name))
      else match d.variables
        case None => Panicked
        case Some(vars) =>
          var t := cfg.templates[name];
          Built(Renderer(t.template, t.kind,
            Variables(cfg.variables, WithName(vars, deviceName)),
            Funcs(workDir)))
  }

  /** The loop from a state: `prev` is the last output, `current` the body to
      run next, `done` the executions so far. */
  function Iterate(engine: Engine, vars: Variables, funcs: Funcs,
                   prev: string, current: string, done: nat, fuel: nat): (out: LoopOutcome)
    ensures out.Converged? ==> done < out.executions <= done + fuel
    decreases fuel
  {
    if fuel == 0 then LoopOutOfFuel
    else
      var step := engine(current, vars, funcs);
      if !step.Output? then LoopFailed(StepError(step))
      else if prev == step.text then Converged(step.text, done + 1)
      else Iterate(engine, vars, funcs, step.text, step.text, done + 1, fuel - 1)
  }

  /** `renderLoop`: the previous output starts as the empty string. */
  function RenderLoop(r: Renderer, engine: Engine, fuel: nat): (out: LoopOutcome)
    ensures out.Converged? ==> 1 <= out.executions <= fuel
  {
    Iterate(engine, r.vars, r.funcs, "", r.tmplStr, 0, fuel)
  }

  /** `renderLoop` as the source writes it, a loop that keeps `prevResult`
      and `currentTmplStr`; `fuel` caps the number of passes. */
  method RunRenderLoop(r: Renderer, engine: Engine, fuel: nat) returns (out: LoopOutcome)
    ensures out == RenderLoop(r, engine, fuel)
  {
    var prevResult := "";
    var currentTmplStr := r.tmplStr;
    var executions := 0;
    var remaining := fuel;
    while remaining > 0
      invariant executions + remaining == fuel
      invariant Iterate(engine, r.vars, r.funcs, prevResult, currentTmplStr, executions, remaining)
                == RenderLoop(r, engine, fuel)
      decreases remaining
    {
      var step := engine(currentTmplStr, r.vars, r.funcs);
      if !step.Output? {
        return LoopFailed(StepError(step));
      }
      var newResult := step.text;
      executions := executions + 1;
      if prevResult == newResult {
        return Converged(newResult, executions);
      }
      prevResult := newResult;
      currentTmplStr := newResult;
      remaining := remaining - 1;
    }
    return LoopOutOfFuel;
  }

  /** `format`: "json" means indent-or-fail; every other type is verbatim text. */
  function Format(r: Renderer, json: JsonCodec, text: string): (res: Result<RenderResult, Error>)
    ensures r.resultType == JsonType ==> (res.Success? <==> json.valid(text))
    ensures r.resultType == JsonType && res.Success? ==>
      res.value == RenderResult(json.indent(text, IndentPrefix, IndentUnit), JsonContentType)
    ensures r.resultType != JsonType ==> res == Success(RenderResult(text, TextContentType))
    ensures res.Failure? ==> res.error == InvalidJson
  {
    if r.resultType == JsonType then
      if json.valid(text) then Success(RenderResult(json.indent(text, IndentPrefix, IndentUnit), JsonContentType))
      else Failure(InvalidJson)
    else Success(RenderResult(text, TextContentType))
  }

  /** `Render`: loop to a fixed point, then format. */
  function Render(r: Renderer, engine: Engine, json: JsonCodec, fuel: nat): (out: RenderOutcome)
    ensures RenderLoop(r, engine, fuel).LoopFailed? ==>
      out == RenderFailed(RenderLoop(r, engine, fuel).err)
    ensures RenderLoop(r, engine, fuel).LoopOutOfFuel? <==> out.RenderOutOfFuel?
    ensures RenderLoop(r, engine, fuel).Converged? ==>
      var f := Format(r, json, RenderLoop(r, engine, fuel).text);
      && (f.Success? ==> out == Rendered(f.value))
      && (f.Failure? ==> out == RenderFailed(InvalidJson))
    ensures out.Rendered? ==>
      RenderLoop(r, engine, fuel).Converged?
      && Format(r, json, RenderLoop(r, engine, fuel).text) == Success(out.result)
  {
    match RenderLoop(r, engine, fuel)
    case LoopOutOfFuel => RenderOutOfFuel
    case LoopFailed(e) => RenderFailed(e)
    case Converged(text, _) =>
      match Format(r, json, text)
      case Success(res) => Rendered(res)
      case Failure(e) => RenderFailed(e)
  }

  /** A device declared without `variables` panics the source's `New` at the
      `Name` assignment, while its template exists and `New` builds a
      renderer whose device scope holds only `Name`. */
  lemma NilVariablesPanic()
    ensures var cfg := Config(map["d" := DeviceConfig("p", "", None)], map[],
                              map[DefaultTemplateName := TemplateConfig("text", "hi")]);
      && NewAsWritten(cfg, "", "d") == Panicked
      && New(cfg, "", "d").Success?
      && New(cfg, "", "d").value.vars.device == map[NameKey := Str("d")]
  {
    var cfg := Config(map["d" := DeviceConfig("p", "", None)], map[],
                      map[DefaultTemplateName := TemplateConfig("text", "hi")]);
    assert EffectiveTemplateName("") in cfg.templates;
    assert New(cfg, "", "d").value.vars.device.Keys == {NameKey};
  }

  /** Apart from the nil-map panic, the corrected `New` is the source's. */
  lemma {:induction false} NewAgreesWithSource(cfg: Config, workDir: string, deviceName: string)
    requires !NewAsWritten(cfg, workDir, deviceName).Panicked?
    ensures match NewAsWritten(cfg, workDir, deviceName)
      case Built(rd) => New(cfg, workDir, deviceName) == Success(rd)
      case NotBuilt(e) => New(cfg, workDir, deviceName) == Failure(e)
      case Panicked => false
  {
  }
}
