/**
 * The provider factory. Its table of providers outlives every call: each
 * access first walks the two provider classes and, for each whose API key is
 * set in the environment, builds a new adapter that replaces the stored one.
 * Nothing is ever removed from the table.
 */
module Factory {
  import opened Wrappers
  import Groq
  import Gemini

  datatype Adapter = GeminiAdapter(gemini: Gemini.GeminiProvider) | GroqAdapter(groq: Groq.GroqProvider)

  /** The provider classes a name can be bound to. */
  datatype ProviderClass = GeminiClass | GroqClass

  function ApiKeyOf(a: Adapter): string {
    match a
    case GeminiAdapter(g) => g.apiKey
    case GroqAdapter(q) => q.apiKey
  }

  function ObjectOf(a: Adapter): object {
    match a
    case GeminiAdapter(g) => g
    case GroqAdapter(q) => q
  }

  function ClassOf(a: Adapter): ProviderClass {
    match a
    case GeminiAdapter(_) => GeminiClass
    case GroqAdapter(_) => GroqClass
  }

  /** The table of provider classes: the name, the class and the variable holding its key, in order. */
  const ProviderClasses: seq<(string, ProviderClass, string)> :=
    [("gemini", GeminiClass, "GEMINI_API_KEY"), ("groq", GroqClass, "GROQ_API_KEY")]

  const KnownNames: set<string> := {"gemini", "groq"}

  function ClassNamed(name: string): ProviderClass {
    if name == "gemini" then GeminiClass else GroqClass
  }

  function KeyVariable(name: string): string {
    if name == "gemini" then "GEMINI_API_KEY" else "GROQ_API_KEY"
  }

  /** `os.getenv(var)` is a non-empty string. */
  predicate Keyed(env: map<string, string>, variable: string) {
    variable in env && env[variable] != ""
  }

  /** The names of the listed classes whose key is set, in order. */
  function Configured(env: map<string, string>, classes: seq<(string, ProviderClass, string)>): seq<string> {
    if classes == [] then []
    else
      var last := classes[|classes| - 1];
      Configured(env, classes[..|classes| - 1]) + (if Keyed(env, last.2) then [last.0] else [])
  }

  /** The keys of a dict after storing `name`: a new name goes last, a present one keeps its place. */
  function AddName(names: seq<string>, name: string): seq<string> {
    if name in names then names else names + [name]
  }

  function AddNames(names: seq<string>, added: seq<string>): seq<string> {
    if added == [] then names else AddName(AddNames(names, added[..|added| - 1]), added[|added| - 1])
  }

  /** Storing names keeps the old ones in place, in front, and holds exactly the old and the stored names. */
  lemma {:induction false} AddNamesKeeps(names: seq<string>, added: seq<string>)
    ensures |AddNames(names, added)| >= |names| && AddNames(names, added)[..|names|] == names
    ensures forall n :: n in AddNames(names, added) <==> n in names || n in added
  {
    if added != [] {
      AddNamesKeeps(names, added[..|added| - 1]);
      var before := AddNames(names, added[..|added| - 1]);
      assert (before + [added[|added| - 1]])[..|names|] == before[..|names|];
      forall n ensures n in added <==> n in added[..|added| - 1] || n == added[|added| - 1] {
        assert added == added[..|added| - 1] + [added[|added| - 1]];
      }
    }
  }

  lemma {:induction false} AddNamesDistinct(names: seq<string>, added: seq<string>)
    requires Distinct(names)
    ensures Distinct(AddNames(names, added))
  {
    if added != [] {
      AddNamesDistinct(names, added[..|added| - 1]);
    }
  }

  /** Storing names that are all present already changes nothing. */
  lemma {:induction false} AddNamesPresent(names: seq<string>, added: seq<string>)
    requires forall n :: n in added ==> n in names
    ensures AddNames(names, added) == names
  {
    if added != [] {
      assert added[|added| - 1] in added;
      forall n | n in added[..|added| - 1] ensures n in names {
        assert n in added;
      }
      AddNamesPresent(names, added[..|added| - 1]);
    }
  }

  predicate Distinct(names: seq<string>) {
    forall i, j :: 0 <= i < j < |names| ==> names[i] != names[j]
  }

  /** The place of a listed name in the table. */
  function Position(name: string): nat {
    if name == "gemini" then 0 else 1
  }

  lemma TableEntries()
    ensures forall n :: n in KnownNames ==>
              Position(n) < |ProviderClasses|
              && ProviderClasses[Position(n)] == (n, ClassNamed(n), KeyVariable(n))
    ensures forall k :: 0 <= k < |ProviderClasses| ==>
              ProviderClasses[k].0 in KnownNames && Position(ProviderClasses[k].0) == k
  {
  }

  /** The provider is listed and its key is set: each initialisation builds it anew. */
  predicate Refreshed(name: string, env: map<string, string>) {
    name in KnownNames && Keyed(env, KeyVariable(name))
  }

  /** Among the first `i` rows of the table, the provider's key is set. */
  predicate RefreshedBefore(name: string, env: map<string, string>, i: nat) {
    Refreshed(name, env) && Position(name) < i
  }

  /** The configured names are the listed names whose key is set, each once, in table order. */
  lemma ConfiguredExactly(env: map<string, string>)
    ensures Distinct(Configured(env, ProviderClasses))
    ensures forall n :: n in Configured(env, ProviderClasses) <==> Refreshed(n, env)
  {
    ConfiguredStep(env, 0);
    ConfiguredStep(env, 1);
    assert ProviderClasses[..0] == [];
    assert ProviderClasses[..2] == ProviderClasses;
  }

  /** Storing one more name after a run of names. */
  lemma AddNamesSnoc(names: seq<string>, added: seq<string>, name: string)
    ensures AddNames(names, added + [name]) == AddName(AddNames(names, added), name)
  {
    assert (added + [name])[..|added|] == added;
  }

  lemma ConfiguredStep(env: map<string, string>, i: nat)
    requires i < |ProviderClasses|
    ensures Configured(env, ProviderClasses[..i + 1])
            == Configured(env, ProviderClasses[..i])
               + (if Keyed(env, ProviderClasses[i].2) then [ProviderClasses[i].0] else [])
  {
    assert ProviderClasses[..i + 1][..i] == ProviderClasses[..i];
  }

  /**
   * After the first `i` rows, the table `now` holds what `start` held plus the
   * refreshed names; the entries not refreshed are untouched and the refreshed
   * ones carry the key from the environment.
   */
  ghost predicate Tracks(start: map<string, Adapter>, now: map<string, Adapter>, env: map<string, string>, i: nat) {
    (forall n :: n in now <==> n in start || RefreshedBefore(n, env, i))
    && (forall n :: n in start && !RefreshedBefore(n, env, i) ==> now[n] == start[n])
    && (forall n :: RefreshedBefore(n, env, i) ==> ApiKeyOf(now[n]) == env[KeyVariable(n)])
  }

  /** One row of the table keeps `Tracks`, one row further. */
  lemma TracksStep(start: map<string, Adapter>, before: map<string, Adapter>, after: map<string, Adapter>,
                   env: map<string, string>, i: nat)
    requires i < |ProviderClasses| && Tracks(start, before, env, i)
    requires var (name, _, variable) := ProviderClasses[i];
             if Keyed(env, variable) then
               name in after && after == before[name := after[name]] && ApiKeyOf(after[name]) == env[variable]
             else after == before
    ensures Tracks(start, after, env, i + 1)
  {
    TableEntries();
  }

  class ProviderFactory {
    /** The keys of `_providers`, in insertion order. */
    var names: seq<string>
    /** `_providers` itself. */
    var adapters: map<string, Adapter>

    /** The table holds the listed names only, each bound to an adapter of its class, in one order. */
    ghost predicate Valid()
      reads this
    {
      Distinct(names)
      && (forall n :: n in names <==> n in adapters)
      && (forall n :: n in adapters ==> n in KnownNames && ClassOf(adapters[n]) == ClassNamed(n))
    }

    /**
     * What one initialisation does to the table: a new name is listed after the
     * old ones, every listed provider whose key is set is bound to a newly built
     * adapter holding that key, and every other entry is left as it was.
     */
    twostate predicate Reinitialized(env: map<string, string>)
      reads this
    {
      Valid()
      && names == AddNames(old(names), Configured(env, ProviderClasses))
      && (forall n :: n in adapters <==> n in old(adapters) || Refreshed(n, env))
      && (forall n :: n in old(adapters) && !Refreshed(n, env) ==> adapters[n] == old(adapters)[n])
      && (forall n :: Refreshed(n, env) ==>
            fresh(ObjectOf(adapters[n])) && ApiKeyOf(adapters[n]) == env[KeyVariable(n)])
    }

    constructor()
      ensures Valid() && names == [] && adapters == map[]
    {
      names := [];
      adapters := map[];
    }

    /**
     * `_initialize_providers`: every class whose key is set gets a new adapter
     * of its class built with that key, stored under its name; every other
     * entry stays as it was, and a new name is listed after the old ones.
     */
    method InitializeProviders(env: map<string, string>)
      requires Valid()
      modifies this
      ensures Reinitialized(env)
    {
      var i := 0;
      while i < |ProviderClasses|
        invariant 0 <= i <= |ProviderClasses|
        invariant Valid()
        invariant names == AddNames(old(names), Configured(env, ProviderClasses[..i]))
        invariant Tracks(old(adapters), adapters, env, i)
        invariant forall n :: RefreshedBefore(n, env, i) ==> n in adapters && fresh(ObjectOf(adapters[n]))
      {
        ConfiguredStep(env, i);
        AddNamesSnoc(old(names), Configured(env, ProviderClasses[..i]), ProviderClasses[i].0);
        ghost var before := adapters;
        InitializeClass(i, env);
        TracksStep(old(adapters), before, adapters, env, i);
        TableEntries();
        i := i + 1;
      }
      assert ProviderClasses[..i] == ProviderClasses;
    }

    /** One row of the table: build the class's adapter when its key is set, else change nothing. */
    method InitializeClass(i: nat, env: map<string, string>)
      requires i < |ProviderClasses| && Valid()
      modifies this
      ensures Valid()
      ensures var (name, _, variable) := ProviderClasses[i];
              if Keyed(env, variable) then
                names == AddName(old(names), name)
                && name in adapters && adapters == old(adapters)[name := adapters[name]]
                && fresh(ObjectOf(adapters[name])) && ApiKeyOf(adapters[name]) == env[variable]
              else
                names == old(names) && adapters == old(adapters)
    {
      var (name, cls, variable) := ProviderClasses[i];
      if variable in env && env[variable] != "" {
        var apiKey := env[variable];
        var adapter;
        if cls == GeminiClass {
          var g := new Gemini.GeminiProvider(apiKey);
          adapter := GeminiAdapter(g);
        } else {
          var q := new Groq.GroqProvider(apiKey);
          adapter := GroqAdapter(q);
        }
        names := AddName(names, name);
        adapters := adapters[name := adapter];
      }
    }

    /** `get_provider`: re-initialise, then look the name up. */
    method GetProvider(name: string, env: map<string, string>) returns (provider: Option<Adapter>)
      requires Valid()
      modifies this
      ensures Reinitialized(env)
      ensures provider == if name in adapters then Some(adapters[name]) else None
    {
      InitializeProviders(env);
      provider := if name in adapters then Some(adapters[name]) else None;
    }

    /** `get_available_providers`: re-initialise, then list the names in insertion order. */
    method GetAvailableProviders(env: map<string, string>) returns (available: seq<string>)
      requires Valid()
      modifies this
      ensures Reinitialized(env)
      ensures available == names && forall n :: n in available <==> n in adapters
    {
      InitializeProviders(env);
      available := names;
    }
  }
}
