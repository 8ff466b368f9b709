/** The in-memory configuration the renderer and the server read
    (internal/config/config.go). Loading it from YAML files is not modelled:
    every operation takes an already-built `Config`. */
module ConfigTypes {
  import opened Wrappers

  /** A YAML-decoded variable value (Go's `any`): a tagged JSON-like sum. */
  datatype Value =
    | Str(s: string)
    | Int(i: int)
    | Float(f: real)
    | Bool(b: bool)
    | Null
    | List(items: seq<Value>)
    | Object(fields: map<string, Value>)

  /** A variable scope, `VariablesConfig` in the source. A nil Go map reads
      like the empty map, so where only reads happen it is the empty map here. */
  type Vars = map<string, Value>

  /** One device (identity). `variables` is `None` when the YAML gave no
      `variables` key: Go then holds a nil map, which can be read but not
      written. */
  datatype DeviceConfig = DeviceConfig(password: string, templateName: string, variables: Option<Vars>)

  /** A template: `kind` is the declared output type (`Type`, e.g. "json" or
      "text"), `template` its body (`Template`, YAML key `data`). */
  datatype TemplateConfig = TemplateConfig(kind: string, template: string)

  datatype Config = Config(
    devices: map<string, DeviceConfig>,
    variables: Vars,
    templates: map<string, TemplateConfig>)

  /** What a read of the device's variable map sees: nil reads as empty. */
  function ReadableVars(v: Option<Vars>): Vars
  {
    match v
    case None => map[]
    case Some(m) => m
  }
}
