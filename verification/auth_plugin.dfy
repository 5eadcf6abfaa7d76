/**
 * The process-wide table of authentication plugins, keyed by the upper-case
 * form of the plugin id (pkg/auth/plugin.go).
 */
module AuthPlugins {

  import opened Wrappers

  /**
   * The implementation type a plugin was registered with. Looking a plugin
   * up yields a new, zero-valued instance of that type, which this model
   * identifies with the kind itself.
   */
  datatype PluginKind = PluginKind(typeName: string)

  datatype PluginError =
    | AlreadyRegistered(key: string)   // the upper-cased id was taken (a panic in the source)
    | NotRegistered(id: string)        // no plugin under the upper-cased id

  /** ASCII upper-casing of one character. */
  function UpperChar(c: char): (u: char)
    ensures 'a' <= c <= 'z' ==> u as int == c as int - 32
    ensures !('a' <= c <= 'z') ==> u == c
    ensures !('a' <= u <= 'z')
  {
    if 'a' <= c <= 'z' then (c as int - 32) as char else c
  }

  /** ASCII upper-casing of a string, character by character. */
  function Upper(s: string): (u: string)
    ensures |u| == |s|
    ensures forall i :: 0 <= i < |s| ==> u[i] == UpperChar(s[i])
  {
    if s == [] then [] else [UpperChar(s[0])] + Upper(s[1..])
  }

  /** Upper-casing an upper-cased string changes nothing. */
  lemma UpperIdempotent(s: string)
    ensures Upper(Upper(s)) == Upper(s)
  {
  }

  /** Lower-case, capitalised and upper-case spellings of one id all name the same key. */
  lemma FakeSpellingsShareKey()
    ensures Upper("fake") == "FAKE" && Upper("Fake") == "FAKE" && Upper("FAKE") == "FAKE"
  {
  }

  class Registry {
    var plugins: map<string, PluginKind>

    /** Every key is stored in its upper-case form. */
    ghost predicate Valid()
      reads this
    {
      forall k :: k in plugins ==> Upper(k) == k
    }

    /** The empty table the process starts with. */
    constructor ()
      ensures Valid() && plugins == map[]
    {
      plugins := map[];
    }

    /**
     * Stores `kind` under the upper-case form of `id` unless that key is
     * already taken, in which case the table is left exactly as it was.
     * After a successful registration every spelling of `id` that
     * upper-cases to the same key finds `kind`.
     */
    method RegisterPlugin(id: string, kind: PluginKind) returns (err: Option<PluginError>)
      requires Valid()
      modifies this
      ensures Valid()
      ensures Upper(id) in old(plugins) ==> err == Some(AlreadyRegistered(Upper(id))) && plugins == old(plugins)
      ensures Upper(id) !in old(plugins) ==> err == None && plugins == old(plugins)[Upper(id) := kind]
      ensures err == None ==> plugins.Keys == old(plugins).Keys + {Upper(id)} && |plugins| == |old(plugins)| + 1
      ensures err == None ==> forall alias :: Upper(alias) == Upper(id) ==> NewPlugin(alias) == Success(kind)
    {
      var key := Upper(id);
      if key in plugins {
        return Some(AlreadyRegistered(key));
      }
      UpperIdempotent(id);
      plugins := plugins[key := kind];
      err := None;
    }

    /**
     * Looks up the upper-case form of `id`: the registered kind when there
     * is one, a "not registered" error naming `id` as given otherwise.
     */
    function NewPlugin(id: string): (r: Result<PluginKind, PluginError>)
      reads this
      ensures r.Success? <==> Upper(id) in plugins
      ensures r.Success? ==> r.value == plugins[Upper(id)]
      ensures r.Failure? ==> r.error == NotRegistered(id)
    {
      if Upper(id) in plugins then Success(plugins[Upper(id)]) else Failure(NotRegistered(id))
    }

    /**
     * Because every key is stored upper-cased, a stored entry is found by
     * every spelling of the id that upper-cases to its key.
     */
    lemma StoredKeyFoundBySpelling(k: string, id: string)
      requires Valid() && k in plugins && Upper(id) == Upper(k)
      ensures NewPlugin(id) == Success(plugins[k])
    {
    }
  }
}
