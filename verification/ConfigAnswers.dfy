/** What the configuration store answers, said on the fields of the documents. */
module ConfigAnswers {
  import opened Prelude
  import opened Json
  import opened DeepMerge
  import opened Config
  import opened ConfigLaws

  // ---- Credentials ------------------------------------------------------------------------------------

  /** The installation's own client, its key for the configuration's provider, and every other field as it was. */
  ghost predicate WithCredentials(was: Json, env: Installation, now: Json) {
    && now.Obj? && Field(now, "google").Obj?
    && Field(Field(now, "google"), "clientId") == Str(env.clientId)
    && Field(Field(now, "google"), "clientSecret") == Str(env.clientSecret)
    && (forall p :: Field(was, "provider") == Str(p) ==> Field(now, "apiKey") == Str(env.providerKey(p)))
    && FieldsOf(now).Keys == FieldsOf(was).Keys + {"apiKey", "google"}
    && (forall k :: k != "apiKey" && k != "google" ==> Field(now, k) == Field(was, k))
    && FieldsOf(Field(now, "google")).Keys == FieldsOf(Field(was, "google")).Keys + {"clientId", "clientSecret"}
    && (forall k :: k != "clientId" && k != "clientSecret" ==>
          Field(Field(now, "google"), k) == Field(Field(was, "google"), k))
  }

  lemma EffectiveExactly(config: Json, env: Installation)
    ensures WithCredentials(config, env, Effective(config, env))
  {
    assert "clientId" != "clientSecret" by { assert |"clientId"| != |"clientSecret"|; }
    assert "apiKey" != "google" by { assert "apiKey"[0] == 'a' && "google"[0] == 'g'; }
  }

  // ---- The normal form ------------------------------------------------------------------------------------

  /** A purpose split off takes the research model where it has none of its own; nothing else changes. */
  ghost predicate PurposesSeeded(was: Json, now: Json) {
    && now.Obj? == was.Obj? && (!was.Obj? ==> now == was)
    && forall purpose ::
         Field(now, purpose)
           == if purpose in {"personProfileClaims", "personDossierExtraction"} && Field(was, purpose).Undefined?
                 && Truthy(Field(was, "personResearch"))
              then Field(was, "personResearch") else Field(was, purpose)
  }

  ghost predicate ModelsSeeded(was: Json, now: Json) {
    if !was.Obj? then now == was
    else now.Obj? && now.fields.Keys == was.fields.Keys
         && forall provider :: provider in was.fields ==> PurposesSeeded(was.fields[provider], now.fields[provider])
  }

  /** An empty model is the provider's default one, the split purposes are seeded, and every other field is as it was. */
  ghost predicate InNormalForm(was: Json, defaultModel: string -> string, now: Json) {
    if !was.Obj? then now == was
    else
      && now.Obj? && now.fields.Keys == was.fields.Keys + {"model"}
      && (forall k :: k != "model" && k != "models" ==> Field(now, k) == Field(was, k))
      && (if Field(was, "model") == Str("")
          then forall p :: Field(was, "provider") == Str(p) ==> Field(now, "model") == Str(defaultModel(p))
          else Field(now, "model") == Field(was, "model"))
      && (if Truthy(Field(was, "models")) then ModelsSeeded(Field(was, "models"), Field(now, "models"))
          else Field(now, "models") == Field(was, "models"))
  }

  lemma SeededPurposes(was: Json)
    ensures PurposesSeeded(was, SeedOne(SeedOne(was, "personProfileClaims"), "personDossierExtraction"))
  {
    var p, q := "personProfileClaims", "personDossierExtraction";
    assert |p| != |q| && |p| != |"personResearch"| && |q| != |"personResearch"|;
  }

  lemma SeededModels(was: Json)
    ensures ModelsSeeded(was, SeedBoth(was))
  {
    if was.Obj? {
      forall provider | provider in was.fields ensures PurposesSeeded(was.fields[provider], SeedBoth(was).fields[provider]) {
        SeededPurposes(was.fields[provider]);
      }
    }
  }

  lemma NormalizeExactly(config: Json, defaultModel: string -> string)
    ensures InNormalForm(config, defaultModel, Normalize(config, defaultModel))
  {
    assert "model" != "models" by { assert |"model"| != |"models"|; }
    SeededModels(Field(config, "models"));
  }

  // ---- What the schema is given ------------------------------------------------------------------------------

  /** The document without what old versions stored: two fields, and one of each of two Modules. */
  ghost predicate WithoutRetired(was: Json, now: Json) {
    if !was.Obj? then now == was
    else
      && now.Obj? && now.fields.Keys == was.fields.Keys - {"fireflies", "watch"}
      && (forall k :: k in now.fields && k != "modules" ==> now.fields[k] == was.fields[k])
      && ModulesWithoutRetired(Field(was, "modules"), Field(now, "modules"))
  }

  ghost predicate ModulesWithoutRetired(was: Json, now: Json) {
    if !was.Obj? then now == was
    else
      && now.Obj? && now.fields.Keys == was.fields.Keys
      && forall name :: name in was.fields ==>
           now.fields[name]
             == if !was.fields[name].Obj? then was.fields[name]
                else if name == "meeting-brief-generator" then Obj(was.fields[name].fields - {"guestProfile"})
                else if name == "content-scout" then Obj(was.fields[name].fields - {"notion"})
                else was.fields[name]
  }

  lemma RetiredModules(modules: Json)
    ensures ModulesWithoutRetired(modules, DropFromModule(DropFromModule(modules, BRIEFS, "guestProfile"), SCOUT, "notion"))
  {
    assert |BRIEFS| != |SCOUT|;
  }

  lemma RetiredExactly(merged: Json)
    ensures WithoutRetired(merged, DropRetired(merged))
  {
    assert "modules" != "fireflies" && "modules" != "watch" by {
      assert |"modules"| == 7 && |"fireflies"| == 9 && |"watch"| == 5;
    }
    RetiredModules(Field(merged, "modules"));
  }

  // ---- Loading and updating --------------------------------------------------------------------------------------

  /** A credential stands in a document that may hold none. */
  predicate HoldsCredentials(stored: Json) {
    "apiKey" in FieldsOf(stored) || "clientId" in FieldsOf(Field(stored, "google"))
    || "clientSecret" in FieldsOf(Field(stored, "google"))
  }

  /** The schema's answer to `merged`, in normal form and with the installation's credentials; or its refusal. */
  ghost predicate AdmissionAnswered(s: Setup, merged: Json, env: Installation, r: Result<Json, Refusal>) {
    match s.schema(merged)
    case None => r == Failure(Rejected)
    case Some(parsed) =>
      r.Success? && exists normal :: InNormalForm(parsed, s.defaultModel, normal) && WithCredentials(normal, env, r.value)
  }

  lemma AdmitExactly(s: Setup, merged: Json, env: Installation)
    ensures AdmissionAnswered(s, merged, env, Admitted(s, merged, env))
  {
    if s.schema(merged).Some? {
      var normal := Normalize(s.schema(merged).value, s.defaultModel);
      NormalizeExactly(s.schema(merged).value, s.defaultModel);
      EffectiveExactly(normal, env);
    }
  }

  /** The stored document as an object; no file, or no object, is an empty one. */
  function StoredFields(stored: Json): Json { Obj(FieldsOf(stored)) }

  /**
    A file that does not parse is refused, then one that holds a credential, then one the schema does
    not accept over the defaults without what is retired; all others are admitted.
   */
  ghost predicate LoadAnswered(s: Setup, document: Option<string>, env: Installation, r: Result<Json, Refusal>) {
    var stored := if document.None? then Some(Null) else s.codec.parse(document.value);
    if stored.None? then r == Failure(Unparsable)
    else if HoldsCredentials(stored.value) then r == Failure(LegacyCredentials)
    else exists given :: WithoutRetired(Merge(s.defaults, StoredFields(stored.value)), given)
                         && AdmissionAnswered(s, given, env, r)
  }

  lemma LoadExactly(s: Setup, document: Option<string>, env: Installation)
    ensures LoadAnswered(s, document, env, Loaded(s, document, env))
  {
    var stored := if document.None? then Some(Obj(map[])) else s.codec.parse(document.value);
    if stored.Some? && !HoldsCredentials(stored.value) {
      var merged := Merge(s.defaults, Source(stored.value));
      RetiredExactly(merged);
      AdmitExactly(s, DropRetired(merged), env);
    }
  }

  /** The patch goes over the configuration held, with the credentials as they are now. */
  ghost predicate UpdateAnswered(s: Setup, held: Json, patch: Json, env: Installation, r: Result<Json, Refusal>) {
    exists current :: WithCredentials(held, env, current) && AdmissionAnswered(s, Merge(current, patch), env, r)
  }

  lemma UpdateExactly(s: Setup, held: Json, patch: Json, env: Installation)
    ensures UpdateAnswered(s, held, patch, env, Admitted(s, Merge(Effective(held, env), patch), env))
  {
    EffectiveExactly(held, env);
    AdmitExactly(s, Merge(Effective(held, env), patch), env);
  }

  // ---- The file -------------------------------------------------------------------------------------------------------

  /** Every field that is set, as text can hold it, but for the three credentials. */
  ghost predicate InTheFile(config: Json, stored: Json) {
    && stored.Obj?
    && (forall k :: Field(stored, k) == if k == "apiKey" then Undefined
                                        else if k == "google" then Field(stored, k) else Written(Field(config, k)))
    && (if Field(config, "google").Obj?
        then Field(stored, "google").Obj?
             && forall k :: Field(Field(stored, "google"), k)
                              == if k in {"clientId", "clientSecret"} then Undefined
                                 else Written(Field(Field(config, "google"), k))
        else Field(stored, "google") == Written(Field(config, "google")))
  }

  lemma StoredExactly(config: Json)
    requires config.Obj?
    ensures InTheFile(config, WithoutInstallationFields(config)) && !HoldsCredentials(WithoutInstallationFields(config))
  {
    assert "google" != "apiKey" by { assert "apiKey"[0] == 'a' && "google"[0] == 'g'; }
    assert "clientId" != "clientSecret" by { assert |"clientId"| != |"clientSecret"|; }
    WrittenField(config, "google");
    assert Field(Written(config), "google").Obj? == Field(config, "google").Obj?;
    GoogleStored(config);
  }

  lemma GoogleStored(config: Json)
    requires config.Obj? && Field(Written(config), "google") == Written(Field(config, "google"))
    ensures Field(Stripped(Written(config)), "google")
         == (if Field(config, "google").Obj?
             then DropKey(DropKey(Written(Field(config, "google")), "clientId"), "clientSecret")
             else Written(Field(config, "google")))
  {
    assert "google" != "apiKey" by { assert "apiKey"[0] == 'a' && "google"[0] == 'g'; }
  }
}
