/**
 * Options of the authentication subsystem and the raw-JSON holder for a
 * plugin's own settings (pkg/auth/options.go).
 */
module AuthOptions {

  import opened Wrappers
  import opened AuthPlugins

  /** The four bytes of the JSON literal `null`. */
  const Null: seq<bv8> := [0x6e, 0x75, 0x6c, 0x6c]

  /**
   * The contents of a plugin-options byte slice: `None` is a nil slice,
   * `Some([])` an empty but allocated one.
   */
  type RawJson = Option<seq<bv8>>

  datatype AuthError =
    | UnmarshalOnNil                                   // UnmarshalJSON got a nil input
    | MethodRequired                                   // no plugin method named
    | PluginUnavailable(pluginMethod: string, cause: PluginError)
    | PluginSetupFailed(pluginMethod: string)
    | PluginInvalid(pluginMethod: string)

  /** What a plugin's own Setup and Validate make of the options they are given. */
  datatype PluginVerdict = Accepted | SetupRejected | ValidateRejected

  /**
   * The JSON encoding of a holder's contents: the literal `null` for a nil
   * slice, the stored bytes verbatim otherwise (`MarshalJSON` is declared on
   * the value, so it is a function of the contents).
   */
  function MarshalJSON(p: RawJson): (r: seq<bv8>)
    ensures p == None ==> r == Null
    ensures p.Some? ==> r == p.value
  {
    match p
    case None => Null
    case Some(bytes) => bytes
  }

  /**
   * The contents after overwriting `p` with `val`, as `append(p[0:0], val...)`
   * does: the result holds exactly `val`, except that appending nothing to a
   * nil slice leaves it nil.
   */
  function Overwrite(p: RawJson, val: seq<bv8>): (r: RawJson)
    ensures r.Some? ==> r.value == val
    ensures r == None <==> p == None && val == []
  {
    if p == None && val == [] then None else Some(val)
  }

  /**
   * The contents after a successful `UnmarshalJSON(val)`: the literal `null`
   * leaves them alone, anything else overwrites them.
   */
  function Unmarshaled(p: RawJson, val: seq<bv8>): (r: RawJson)
    ensures val == Null ==> r == p
    ensures val != Null ==> r == Overwrite(p, val)
  {
    if val == Null then p else Overwrite(p, val)
  }

  /**
   * Decoding then encoding gives back any input other than `null`, except an
   * empty input decoded into a nil holder.
   */
  lemma UnmarshalThenMarshal(p: RawJson, val: seq<bv8>)
    requires val != Null && (val != [] || p != None)
    ensures MarshalJSON(Unmarshaled(p, val)) == val
  {
  }

  /** An empty input on a nil holder leaves it nil, so it encodes as `null`, not as the input. */
  lemma UnmarshalEmptyIntoNil()
    ensures Unmarshaled(None, []) == None && MarshalJSON(Unmarshaled(None, [])) == Null
  {
  }

  /** Decoding a holder's own encoding back into it changes nothing. */
  lemma MarshalThenUnmarshal(p: RawJson)
    ensures Unmarshaled(p, MarshalJSON(p)) == p
  {
  }

  /** A byte slice holding a plugin's raw JSON settings, like `json.RawMessage`. */
  class PluginOptions {
    var Raw: RawJson

    /** `NewPluginOptions`: a pointer to a nil slice. */
    constructor ()
      ensures Raw == None
    {
      Raw := None;
    }

    /**
     * Refuses a nil input and leaves the contents alone; otherwise takes the
     * input as the new contents, the literal `null` excepted, which changes
     * nothing. A later `MarshalJSON` gives back any input that is not `null`,
     * unless an empty input met a nil holder.
     */
    method UnmarshalJSON(val: Option<seq<bv8>>) returns (err: Option<AuthError>)
      modifies this
      ensures val == None ==> err == Some(UnmarshalOnNil) && Raw == old(Raw)
      ensures val.Some? ==> err == None && Raw == Unmarshaled(old(Raw), val.value)
      ensures val.Some? && val.value != Null && (val.value != [] || old(Raw) != None) ==> MarshalJSON(Raw) == val.value
    {
      if val == None {
        return Some(UnmarshalOnNil);
      }
      if val.value != Null {
        Raw := Overwrite(Raw, val.value);
      }
      err := None;
    }

    /**
     * The command-line setter: `UnmarshalJSON` of the bytes of `s` (a Go
     * string is a byte string, and converting it never gives a nil slice,
     * so `Set` never fails).
     */
    method Set(s: seq<bv8>) returns (err: Option<AuthError>)
      modifies this
      ensures err == None && Raw == Unmarshaled(old(Raw), s)
    {
      err := UnmarshalJSON(Some(s));
    }
  }

  class Options {
    var Method: string
    var Options: PluginOptions?

    /** `NewOptions`: no method, and a holder with nil contents. */
    constructor NewOptions()
      ensures Method == "" && Options != null && fresh(Options) && Options.Raw == None
    {
      Method := "";
      Options := new PluginOptions();
    }

    /**
     * Selects the STATIC plugin; a holder is allocated only when there is
     * none, so plugin options already present are kept.
     */
    method SetDefaults()
      modifies this
      ensures Method == "STATIC"
      ensures old(Options) != null ==> Options == old(Options) && Options.Raw == old(Options.Raw)
      ensures old(Options) == null ==> Options != null && fresh(Options) && Options.Raw == None
    {
      Method := "STATIC";
      if Options == null {
        Options := new PluginOptions();
      }
    }

    /**
     * An empty method is refused before the registry is consulted; then the
     * method must name a registered plugin, whose own Setup and Validate
     * (`verdict`) must accept the options.
     */
    function Validate(registry: Registry, verdict: PluginKind -> PluginVerdict): (err: Option<AuthError>)
      reads this, registry
      ensures Method == "" ==> err == Some(MethodRequired)
      ensures Method != "" && Upper(Method) !in registry.plugins ==>
                err == Some(PluginUnavailable(Method, NotRegistered(Method)))
      ensures err == None <==>
                Method != "" && Upper(Method) in registry.plugins && verdict(registry.plugins[Upper(Method)]) == Accepted
    {
      if Method == "" then Some(MethodRequired)
      else
        match registry.NewPlugin(Method)
        case Failure(cause) => Some(PluginUnavailable(Method, cause))
        case Success(kind) =>
          match verdict(kind)
          case SetupRejected => Some(PluginSetupFailed(Method))
          case ValidateRejected => Some(PluginInvalid(Method))
          case Accepted => None
    }
  }
}
