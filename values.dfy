/**
 * Values shared by the sync engine and the format adapters: the optional and
 * failure wrappers, the document tree that YAML frontmatter and JSON settings
 * load into, Python truthiness on that tree, the configuration kinds, and the
 * injected (de)serialisers.
 */
module Values {

  datatype Option<+T> = None | Some(value: T)

  /** Every exception the modelled code can raise, one constructor per cause. */
  datatype Failure =
    | NoFrontmatter                      // content does not match `---\n...\n---\n...`
    | YamlSyntax                         // the YAML loader rejected the frontmatter
    | NotAMapping                        // `.get` or `in` on a loaded value that is not a mapping
    | NotAString(field: string)          // `.lower()` on a value that is not a string
    | NonStringTool                      // `', '.join` over a list holding a non-string
    | InvalidJson                        // "Invalid JSON in settings file"
    | UnsupportedConfigType(kind: ConfigType)
    | ExpectedPermission                 // "Expected CanonicalPermission for PERMISSION config type"
    | NotAnAgent                         // a permission object handed to the agent serialiser
    | MissingFile(name: string)          // `open` of a path that does not exist

  datatype Result<+T> = Ok(value: T) | Err(failure: Failure)

  /** The configuration kinds of the canonical model. */
  datatype ConfigType = Agent | Permission | SlashCommand

  /** A loaded YAML or JSON document. */
  datatype Value =
    | Null
    | Bool(b: bool)
    | Num(n: int)
    | Str(s: string)
    | List(items: seq<Value>)
    | Mapping(fields: map<string, Value>)

  /** Python's truthiness of a loaded value. */
  predicate Truthy(v: Value)
  {
    match v
    case Null => false
    case Bool(b) => b
    case Num(n) => n != 0
    case Str(s) => s != ""
    case List(items) => items != []
    case Mapping(fields) => fields != map[]
  }

  /** `d.get(key, default)` on a mapping. */
  function Get(d: map<string, Value>, key: string, default: Value): Value
  {
    if key in d then d[key] else default
  }

  /**
   * A serialiser pair (yaml.safe_load / yaml.dump, or json.loads / json.dumps).
   * `load` answers None where the library raises its parse error.
   */
  datatype Codec = Codec(load: string -> Option<Value>, dump: Value -> string)

  /** A JSON codec whose loader reads back what its dumper writes. */
  ghost predicate JsonFaithful(c: Codec)
  {
    forall v :: c.load(c.dump(v)) == Some(v)
  }
}
