/** The Workspace configuration: defaults under what is stored, credentials kept out of the file. */
module Config {
  import opened Prelude
  import opened Json
  import opened DeepMerge

  function Field(v: Json, key: string): Json {
    if v.Obj? then Get(v.fields, key) else Undefined
  }

  function FieldsOf(v: Json): map<string, Json> { if v.Obj? then v.fields else map[] }

  predicate Truthy(v: Json) {
    match v
    case Undefined => false
    case Null => false
    case Bool(flag) => flag
    case Num(number) => number != 0.0
    case Str(text) => text != ""
    case Arr(_) => true
    case Obj(_) => true
  }

  // ---- Purposes split off later ------------------------------------------------------------------------

  function SeedOne(purposes: Json, purpose: string): Json {
    if purposes.Obj? && Truthy(Field(purposes, "personResearch")) && Field(purposes, purpose).Undefined?
    then Obj(purposes.fields[purpose := Field(purposes, "personResearch")])
    else purposes
  }

  function Seed(models: Json, purpose: string): Json {
    if models.Obj? then Obj(map provider | provider in models.fields :: SeedOne(models.fields[provider], purpose))
    else models
  }

  function SeedClaimsPurpose(models: Json): Json { Seed(models, "personProfileClaims") }

  function SeedDossierExtractionPurpose(models: Json): Json { Seed(models, "personDossierExtraction") }

  /** The purpose answers with its own model if it ever had one, and with the research model otherwise. */
  lemma SeedMeaning(models: Json, purpose: string, provider: string, other: string)
    requires models.Obj? && provider in models.fields && models.fields[provider].Obj?
    ensures var was, now := models.fields[provider], Field(Seed(models, purpose), provider);
      && Field(now, other)
         == (if other != purpose then Field(was, other)
             else if !Field(was, purpose).Undefined? then Field(was, purpose)
             else if Truthy(Field(was, "personResearch")) then Field(was, "personResearch")
             else Undefined)
  {
  }

  lemma SeedTwice(models: Json, purpose: string)
    ensures Seed(Seed(models, purpose), purpose) == Seed(models, purpose)
  {
    if models.Obj? { SameFields(Seed(Seed(models, purpose), purpose).fields, Seed(models, purpose).fields); }
  }

  /** The two seeds do not look at each other's purpose. */
  lemma SeedsCommute(models: Json, p: string, q: string)
    requires p != "personResearch" && q != "personResearch" && p != q
    ensures Seed(Seed(models, p), q) == Seed(Seed(models, q), p)
  {
    if models.Obj? {
      forall provider | provider in models.fields
        ensures SeedOne(SeedOne(models.fields[provider], p), q) == SeedOne(SeedOne(models.fields[provider], q), p)
      {
        var purposes := models.fields[provider];
        if purposes.Obj? {
          SameFields(SeedOne(SeedOne(purposes, p), q).fields, SeedOne(SeedOne(purposes, q), p).fields);
        }
      }
      SameFields(Seed(Seed(models, p), q).fields, Seed(Seed(models, q), p).fields);
    }
  }

  function SeedBoth(models: Json): Json { SeedDossierExtractionPurpose(SeedClaimsPurpose(models)) }

  lemma SeedBothTwice(models: Json)
    ensures SeedBoth(SeedBoth(models)) == SeedBoth(models)
  {
    var p, q := "personProfileClaims", "personDossierExtraction";
    assert p != q by { assert |p| != |q|; }
    assert p != "personResearch" by { assert |p| != |"personResearch"|; }
    assert q != "personResearch" by { assert |q| != |"personResearch"|; }
    SeedsCommute(Seed(models, p), p, q);
    SeedTwice(models, p);
    SeedTwice(Seed(models, p), q);
  }

  // ---- Normal form, credentials, and what is stored ---------------------------------------------------------

  function ProviderOf(config: Json): string {
    if Field(config, "provider").Str? then Field(config, "provider").text else ""
  }

  /** An empty model becomes the provider's default, and the split purposes are seeded. */
  function Normalize(config: Json, defaultModel: string -> string): Json {
    if !config.Obj? then config
    else
      var model := if Field(config, "model") == Str("") then Str(defaultModel(ProviderOf(config))) else Field(config, "model");
      var fields := config.fields["model" := model];
      if Truthy(Field(config, "models")) then Obj(fields["models" := SeedBoth(Field(config, "models"))]) else Obj(fields)
  }

  lemma NormalizeTwice(config: Json, defaultModel: string -> string)
    ensures Normalize(Normalize(config, defaultModel), defaultModel) == Normalize(config, defaultModel)
  {
    if config.Obj? {
      SeedBothTwice(Field(config, "models"));
      SameFields(Normalize(Normalize(config, defaultModel), defaultModel).fields, Normalize(config, defaultModel).fields);
    }
  }

  /** The installation's own credentials, looked up at each reading. */
  datatype Installation = Installation(clientId: string, clientSecret: string, providerKey: string -> string)

  function Effective(config: Json, env: Installation): Json {
    var google := FieldsOf(Field(config, "google"))["clientId" := Str(env.clientId)]["clientSecret" := Str(env.clientSecret)];
    Obj(FieldsOf(config)["apiKey" := Str(env.providerKey(ProviderOf(config)))]["google" := Obj(google)])
  }

  /** A value written out as text and read back: unset fields are gone, unset items are null. */
  function Written(v: Json): Json
    decreases v
  {
    match v
    case Obj(fields) => Obj(map k | k in fields && !fields[k].Undefined? :: Written(fields[k]))
    case Arr(items) => Arr(seq(|items|, i requires 0 <= i < |items| =>
                                 if items[i].Undefined? then Null else Written(items[i])))
    case _ => v
  }

  function DropKey(v: Json, key: string): Json { if v.Obj? then Obj(v.fields - {key}) else v }

  function Adjusted(v: Json, key: string, entry: Json): Json
    requires v.Obj?
  {
    Obj(v.fields[key := entry])
  }

  /** Without the fields only the installation may hold. */
  function Stripped(v: Json): Json {
    var document := DropKey(v, "apiKey");
    if Field(document, "google").Obj?
    then Adjusted(document, "google", DropKey(DropKey(Field(document, "google"), "clientId"), "clientSecret"))
    else document
  }

  function WithoutInstallationFields(config: Json): Json { Stripped(Written(config)) }

  predicate Clean(source: Json) {
    && "apiKey" !in FieldsOf(source)
    && "clientId" !in FieldsOf(Field(source, "google"))
    && "clientSecret" !in FieldsOf(Field(source, "google"))
  }

  const BRIEFS := "meeting-brief-generator"
  const SCOUT := "content-scout"

  function DropFromModule(modules: Json, name: string, key: string): Json {
    if Field(modules, name).Obj? then Adjusted(modules, name, DropKey(Field(modules, name), key)) else modules
  }

  /** Fields that old versions stored and the schema no longer knows. */
  function DropRetired(merged: Json): Json {
    var current := DropKey(DropKey(merged, "fireflies"), "watch");
    var modules := Field(current, "modules");
    if modules.Obj?
    then Adjusted(current, "modules", DropFromModule(DropFromModule(modules, BRIEFS, "guestProfile"), SCOUT, "notion"))
    else current
  }

  predicate NothingRetired(v: Json) {
    && "fireflies" !in FieldsOf(v) && "watch" !in FieldsOf(v)
    && "guestProfile" !in FieldsOf(Field(Field(v, "modules"), BRIEFS))
    && "notion" !in FieldsOf(Field(Field(v, "modules"), SCOUT))
  }

  // ---- Loading -------------------------------------------------------------------------------------------------

  /** `schema` is None for a document it refuses, and otherwise the document as it accepts it. */
  datatype Setup = Setup(codec: Codec, defaults: Json, schema: Json -> Option<Json>, defaultModel: string -> string)

  datatype Refusal = Unparsable | LegacyCredentials | Rejected | NotLoaded

  function Source(stored: Json): Json { if stored.Obj? then stored else Obj(map[]) }

  function Admitted(s: Setup, merged: Json, env: Installation): Result<Json, Refusal> {
    match s.schema(merged)
    case None => Failure(Rejected)
    case Some(parsed) => Success(Effective(Normalize(parsed, s.defaultModel), env))
  }

  /** What a document loads as; an absent file loads as the defaults. */
  function Loaded(s: Setup, document: Option<string>, env: Installation): Result<Json, Refusal> {
    var stored := if document.None? then Some(Obj(map[])) else s.codec.parse(document.value);
    if stored.None? then Failure(Unparsable)
    else if !Clean(Source(stored.value)) then Failure(LegacyCredentials)
    else Admitted(s, DropRetired(Merge(s.defaults, Source(stored.value))), env)
  }

  function Persisted(s: Setup, config: Json, env: Installation): string {
    s.codec.render(WithoutInstallationFields(Effective(config, env)))
  }

  lemma EffectiveTwice(config: Json, env: Installation)
    ensures Effective(Effective(config, env), env) == Effective(config, env)
  {
    var once := Effective(config, env);
    assert Field(once, "google").fields["clientId" := Str(env.clientId)]["clientSecret" := Str(env.clientSecret)]
        == Field(once, "google").fields;
    assert ProviderOf(once) == ProviderOf(config);
    SameFields(Effective(once, env).fields, once.fields);
  }
}
