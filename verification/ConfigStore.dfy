/** The configuration store: the configuration it holds, and the file it keeps. */
module ConfigStores {
  import opened Prelude
  import opened Json
  import opened DeepMerge
  import opened Config
  import opened ConfigAnswers

  class ConfigStore {
    const setup: Setup
    const persistOnLoad: bool
    var config: Option<Json>
    /** The configuration file, if there is one. */
    var document: Option<string>

    constructor (setup: Setup, document: Option<string>, persistOnLoad: bool := true)
      ensures this.setup == setup && this.document == document && this.persistOnLoad == persistOnLoad && config == None
    {
      this.setup, this.persistOnLoad, this.config, this.document := setup, persistOnLoad, None, document;
    }

    method Load(env: Installation, persist: Option<bool>) returns (r: Result<Json, Refusal>)
      modifies this
      ensures r == Loaded(setup, old(document), env) && LoadAnswered(setup, old(document), env, r)
      ensures r.Failure? ==> config == old(config) && document == old(document)
      ensures r.Success? ==> config == Some(r.value)
      ensures r.Success? ==>
        document == if (if persist.Some? then persist.value else persistOnLoad)
                    then Some(Persisted(setup, r.value, env)) else old(document)
    {
      LoadExactly(setup, document, env);
      var stored := Obj(map[]);
      if document.Some? {
        var parsed := setup.codec.parse(document.value);
        if parsed.None? { return Failure(Unparsable); }
        stored := parsed.value;
      }
      var source := if stored.Obj? then stored else Obj(map[]);
      if !Clean(source) { return Failure(LegacyCredentials); }
      var merged := DropRetired(Merge(setup.defaults, source));
      var parsed := setup.schema(merged);
      if parsed.None? { return Failure(Rejected); }
      var loaded := Effective(Normalize(parsed.value, setup.defaultModel), env);
      config := Some(loaded);
      if (if persist.Some? then persist.value else persistOnLoad) {
        Persist(env);
        EffectiveTwice(Normalize(parsed.value, setup.defaultModel), env);
      }
      return Success(loaded);
    }

    /** Credentials are looked up anew at each reading. */
    method Current(env: Installation) returns (r: Result<Json, Refusal>)
      modifies this`config
      ensures config == if old(config).None? then None else Some(Effective(old(config).value, env))
      ensures r == if config.None? then Failure(NotLoaded) else Success(config.value)
      ensures old(config).Some? ==> r.Success? && WithCredentials(old(config).value, env, r.value)
    {
      if config.None? { return Failure(NotLoaded); }
      EffectiveExactly(config.value, env);
      config := Some(Effective(config.value, env));
      return Success(config.value);
    }

    method Update(patch: Json, env: Installation) returns (r: Result<Json, Refusal>)
      modifies this
      ensures old(config).None? ==> r == Failure(NotLoaded) && config.None?
      ensures old(config).Some? ==>
        r == Admitted(setup, Merge(Effective(old(config).value, env), patch), env)
        && UpdateAnswered(setup, old(config).value, patch, env, r)
      ensures r.Success? ==> config == Some(r.value) && document == Some(Persisted(setup, r.value, env))
      ensures r.Failure? ==> document == old(document)
      ensures r.Failure? && old(config).Some? ==> config == Some(Effective(old(config).value, env))
    {
      var current := Current(env);
      if current.Failure? { return current; }
      UpdateExactly(setup, old(config).value, patch, env);
      var parsed := setup.schema(Merge(current.value, patch));
      if parsed.None? { return Failure(Rejected); }
      config := Some(Effective(Normalize(parsed.value, setup.defaultModel), env));
      r := Success(config.value);
      Persist(env);
      EffectiveTwice(Normalize(parsed.value, setup.defaultModel), env);
    }

    method Persist(env: Installation)
      requires config.Some?
      modifies this
      ensures config == Some(Effective(old(config).value, env))
      ensures document == Some(Persisted(setup, old(config).value, env))
      ensures exists stored :: InTheFile(config.value, stored) && !HoldsCredentials(stored)
                               && document == Some(setup.codec.render(stored))
    {
      var current := Current(env);
      StoredExactly(current.value);
      document := Some(setup.codec.render(WithoutInstallationFields(current.value)));
    }
  }
}
