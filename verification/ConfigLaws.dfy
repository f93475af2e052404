/** What was stored loads back as what it was. */
module ConfigLaws {
  import opened Prelude
  import opened Json
  import opened DeepMerge
  import opened Config

  /** No field and no item is unset, at any depth. */
  predicate Storable(v: Json)
    decreases v
  {
    match v
    case Undefined => false
    case Obj(fields) => forall k :: k in fields ==> Storable(fields[k])
    case Arr(items) => forall i :: 0 <= i < |items| ==> Storable(items[i])
    case _ => true
  }

  lemma {:induction false} StorableWritten(v: Json)
    requires Storable(v)
    ensures Written(v) == v
    decreases v
  {
    match v
    case Obj(fields) =>
      forall k | k in fields ensures Written(fields[k]) == fields[k] { StorableWritten(fields[k]); }
      SameFields(Written(v).fields, fields);
    case Arr(items) =>
      forall i | 0 <= i < |items| ensures Written(items[i]) == items[i] { StorableWritten(items[i]); }
      assert Written(v).items == items;
    case _ =>
  }

  lemma WrittenIsWhole(v: Json)
    ensures Storable(v) ==> Written(v) == v
  {
    if Storable(v) { StorableWritten(v); }
  }

  /** The default document has a place for each credential, and is an object with a `google` object. */
  predicate DefaultsShaped(d: Json) {
    && d.Obj? && "apiKey" in d.fields && Field(d, "google").Obj?
    && "clientId" in Field(d, "google").fields && "clientSecret" in Field(d, "google").fields
  }

  /** The configuration with the defaults' own credentials in place of the installation's. */
  function Blanked(d: Json, n: Json): Json
    requires DefaultsShaped(d) && n.Obj? && Field(n, "google").Obj?
  {
    var google := Field(n, "google").fields["clientId" := Field(d, "google").fields["clientId"]]
                                           ["clientSecret" := Field(d, "google").fields["clientSecret"]];
    Obj(n.fields["apiKey" := d.fields["apiKey"]]["google" := Obj(google)])
  }

  /**
    A configuration at rest: it can be written as text, holds nothing retired, has every default's
    key, and is accepted by the schema as it stands.
   */
  ghost predicate Settled(s: Setup, n: Json) {
    && DefaultsShaped(s.defaults)
    && n.Obj? && Field(n, "google").Obj?
    && Storable(n) && NothingRetired(n)
    && Covers(Stripped(s.defaults), Stripped(n))
    && s.schema(Blanked(s.defaults, n)) == Some(Blanked(s.defaults, n))
  }

  // ---- What the file holds ---------------------------------------------------------------------------------

  lemma EffectiveStorable(n: Json, env: Installation)
    requires n.Obj? && Field(n, "google").Obj? && Storable(n)
    ensures Storable(Effective(n, env))
  {
    assert Storable(Field(n, "google"));
    assert Storable(Field(Effective(n, env), "google"));
  }

  lemma StrippedEffective(n: Json, env: Installation)
    requires n.Obj? && Field(n, "google").Obj?
    ensures Stripped(Effective(n, env)) == Stripped(n)
  {
    var ours, plain := Stripped(Effective(n, env)), Stripped(n);
    SameFields(Field(ours, "google").fields, Field(plain, "google").fields);
    SameFields(ours.fields, plain.fields);
  }

  lemma EffectiveStored(n: Json, env: Installation)
    requires n.Obj? && Field(n, "google").Obj? && Storable(n)
    ensures WithoutInstallationFields(Effective(n, env)) == Stripped(n)
  {
    EffectiveStorable(n, env);
    StorableWritten(Effective(n, env));
    StrippedEffective(n, env);
  }

  lemma StrippedClean(n: Json)
    requires n.Obj? && Field(n, "google").Obj?
    ensures Stripped(n).Obj? && Clean(Stripped(n))
  {
  }

  // ---- What the file loads as -----------------------------------------------------------------------------------

  lemma GoogleRefilled(d: map<string, Json>, n: map<string, Json>)
    requires "clientId" in d && "clientSecret" in d
    requires Covers(Obj(d - {"clientId"} - {"clientSecret"}), Obj(n - {"clientId"} - {"clientSecret"}))
    ensures Merge(Obj(d), Obj(n - {"clientId"} - {"clientSecret"}))
         == Obj(n["clientId" := d["clientId"]]["clientSecret" := d["clientSecret"]])
  {
    var rest := n - {"clientId"} - {"clientSecret"};
    forall k | k in rest ensures Merge(Get(d, k), rest[k]) == rest[k] {
      assert Covers(Get(d - {"clientId"} - {"clientSecret"}, k), rest[k]);
      CoversExactly(Get(d, k), rest[k]);
    }
    SameFields(Merge(Obj(d), Obj(rest)).fields, n["clientId" := d["clientId"]]["clientSecret" := d["clientSecret"]]);
  }

  /** The defaults under the stored document put back exactly the blank credentials. */
  lemma DefaultsRefill(d: Json, n: Json)
    requires DefaultsShaped(d) && n.Obj? && Field(n, "google").Obj? && Covers(Stripped(d), Stripped(n))
    ensures Merge(d, Stripped(n)) == Blanked(d, n)
  {
    var sd, sn := Stripped(d), Stripped(n);
    forall k | k in sn.fields && k != "google" ensures Merge(Get(d.fields, k), sn.fields[k]) == n.fields[k] {
      assert Covers(Get(sd.fields, k), sn.fields[k]);
      CoversExactly(Get(d.fields, k), sn.fields[k]);
    }
    assert Covers(Get(sd.fields, "google"), sn.fields["google"]);
    GoogleRefilled(Field(d, "google").fields, Field(n, "google").fields);
    SameFields(Merge(d, sn).fields, Blanked(d, n).fields);
  }

  lemma NothingToDrop(v: Json)
    requires v.Obj? && NothingRetired(v)
    ensures DropRetired(v) == v
  {
    var modules := Field(v, "modules");
    assert DropKey(DropKey(v, "fireflies"), "watch").fields == v.fields;
    if modules.Obj? {
      assert DropFromModule(modules, BRIEFS, "guestProfile") == modules by { NothingToDropFrom(modules, BRIEFS, "guestProfile"); }
      assert DropFromModule(modules, SCOUT, "notion") == modules by { NothingToDropFrom(modules, SCOUT, "notion"); }
      SameFields(v.fields["modules" := modules], v.fields);
    }
  }

  lemma NothingToDropFrom(modules: Json, name: string, key: string)
    requires modules.Obj? && key !in FieldsOf(Field(modules, name))
    ensures DropFromModule(modules, name, key) == modules
  {
    if Field(modules, name).Obj? {
      assert Field(modules, name).fields - {key} == Field(modules, name).fields;
      SameFields(modules.fields[name := Field(modules, name)], modules.fields);
    }
  }

  /** Neither the normal form nor the credentials looked up depend on the blanks. */
  lemma BlanksDoNotMatter(s: Setup, n: Json, env: Installation)
    requires DefaultsShaped(s.defaults) && n.Obj? && Field(n, "google").Obj?
    requires Normalize(n, s.defaultModel) == n && NothingRetired(n)
    ensures Normalize(Blanked(s.defaults, n), s.defaultModel) == Blanked(s.defaults, n)
    ensures Effective(Blanked(s.defaults, n), env) == Effective(n, env)
    ensures NothingRetired(Blanked(s.defaults, n))
  {
    var b := Blanked(s.defaults, n);
    var m := Normalize(n, s.defaultModel);
    assert ProviderOf(b) == ProviderOf(n) && Field(b, "model") == Field(n, "model") && Field(b, "models") == Field(n, "models");
    assert m.fields["model"] == n.fields["model"];
    SameFields(Normalize(b, s.defaultModel).fields, b.fields);
    SameFields(Field(Effective(b, env), "google").fields, Field(Effective(n, env), "google").fields);
    SameFields(Effective(b, env).fields, Effective(n, env).fields);
  }

  /** Storing a settled configuration and loading the file, on one installation, gives it back. */
  lemma StoredLoadsBack(s: Setup, n: Json, env: Installation)
    requires Settled(s, n) && Normalize(n, s.defaultModel) == n && RoundTrips(s.codec, Stripped(n))
    ensures Loaded(s, Some(Persisted(s, Effective(n, env), env)), env) == Success(Effective(n, env))
  {
    EffectiveTwice(n, env);
    EffectiveStored(n, env);
    StrippedClean(n);
    DefaultsRefill(s.defaults, n);
    BlanksDoNotMatter(s, n, env);
    NothingToDrop(Blanked(s.defaults, n));
  }

  /** The configuration a document or a patch is admitted as, before the credentials. */
  function AdmittedForm(s: Setup, merged: Json): Json {
    match s.schema(merged)
    case None => Undefined
    case Some(parsed) => Normalize(parsed, s.defaultModel)
  }

  lemma AdmittedNormal(s: Setup, merged: Json)
    ensures Normalize(AdmittedForm(s, merged), s.defaultModel) == AdmittedForm(s, merged)
  {
    if s.schema(merged).Some? { NormalizeTwice(s.schema(merged).value, s.defaultModel); }
  }

  // ---- Unset fields ------------------------------------------------------------------------------------------

  lemma {:induction false} WrittenStorable(v: Json)
    requires !v.Undefined?
    ensures Storable(Written(v))
    decreases v
  {
    match v
    case Obj(fields) =>
      forall k | k in Written(v).fields ensures Storable(Written(v).fields[k]) { WrittenStorable(fields[k]); }
    case Arr(items) =>
      forall i | 0 <= i < |items| ensures Storable(Written(v).items[i]) {
        if !items[i].Undefined? { WrittenStorable(items[i]); }
      }
    case _ =>
  }

  lemma WrittenField(v: Json, key: string)
    requires v.Obj?
    ensures Field(Written(v), key) == Written(Field(v, key))
    ensures key in Written(v).fields <==> !Field(v, key).Undefined?
  {
  }

  lemma WrittenSet(fields: map<string, Json>, key: string, x: Json)
    requires !x.Undefined?
    ensures Written(Obj(fields[key := x])) == Obj(Written(Obj(fields)).fields[key := Written(x)])
  {
    var ours, theirs := Written(Obj(fields[key := x])).fields, Written(Obj(fields)).fields[key := Written(x)];
    forall k | k in ours ensures ours[k] == theirs[k] { if k != key { assert ours[k] == Written(fields[k]); } }
    SameFields(ours, theirs);
  }

  lemma EffectiveWritten(n: Json, env: Installation)
    requires n.Obj? && Field(n, "google").Obj?
    ensures Written(n).Obj? && Field(Written(n), "google").Obj?
    ensures Written(Effective(n, env)) == Effective(Written(n), env)
  {
    WrittenField(n, "google");
    WrittenField(n, "provider");
    assert ProviderOf(Written(n)) == ProviderOf(n);
    var google, id, secret := Field(n, "google").fields, Str(env.clientId), Str(env.clientSecret);
    var apiKey := Str(env.providerKey(ProviderOf(n)));
    WrittenSet(google, "clientId", id);
    WrittenSet(google["clientId" := id], "clientSecret", secret);
    WrittenSet(n.fields, "apiKey", apiKey);
    WrittenSet(n.fields["apiKey" := apiKey], "google", Obj(google["clientId" := id]["clientSecret" := secret]));
  }

  /** The file does not tell an unset field from one that is not there. */
  lemma PersistedWritten(s: Setup, n: Json, env: Installation)
    requires n.Obj? && Field(n, "google").Obj?
    ensures Persisted(s, Effective(Written(n), env), env) == Persisted(s, Effective(n, env), env)
  {
    EffectiveTwice(n, env);
    EffectiveTwice(Written(n), env);
    EffectiveWritten(n, env);
    WrittenStorable(Effective(n, env));
    StorableWritten(Written(Effective(n, env)));
  }

  lemma SeededWritten(purposes: Json, purpose: string)
    requires SeedOne(purposes, purpose) == purposes
    ensures SeedOne(Written(purposes), purpose) == Written(purposes)
  {
    if purposes.Obj? {
      WrittenField(purposes, "personResearch");
      WrittenField(purposes, purpose);
      TruthyWritten(Field(purposes, "personResearch"));
      assert !Field(SeedOne(purposes, purpose), purpose).Undefined? || !Truthy(Field(purposes, "personResearch"));
    }
  }

  lemma TruthyWritten(v: Json)
    ensures Truthy(Written(v)) == Truthy(v) && (Written(v).Undefined? <==> v.Undefined?)
  {
  }

  lemma SeedWritten(models: Json, purpose: string)
    requires Seed(models, purpose) == models
    ensures Seed(Written(models), purpose) == Written(models)
  {
    if models.Obj? {
      forall p | p in Written(models).fields ensures SeedOne(Written(models).fields[p], purpose) == Written(models).fields[p] {
        assert Seed(models, purpose).fields[p] == SeedOne(models.fields[p], purpose);
        SeededWritten(models.fields[p], purpose);
      }
      SameFields(Seed(Written(models), purpose).fields, Written(models).fields);
    }
  }

  /** Seeding what is seeded already changes nothing, one purpose at a time. */
  lemma SeedsApart(models: Json)
    requires SeedBoth(models) == models
    ensures SeedClaimsPurpose(models) == models && SeedDossierExtractionPurpose(models) == models
  {
    var p, q := "personProfileClaims", "personDossierExtraction";
    assert p != q by { assert |p| != |q|; }
    assert p != "personResearch" by { assert |p| != |"personResearch"|; }
    assert q != "personResearch" by { assert |q| != |"personResearch"|; }
    SeedTwice(models, p);
    SeedsCommute(models, p, q);
    SeedTwice(Seed(models, q), p);
  }

  lemma ModelsSeeded(n: Json, defaultModel: string -> string)
    requires n.Obj? && Normalize(n, defaultModel) == n && Truthy(Field(n, "models"))
    ensures SeedBoth(Written(Field(n, "models"))) == Written(Field(n, "models"))
  {
    var models := Field(n, "models");
    assert Field(Normalize(n, defaultModel), "models") == SeedBoth(models);
    SeedsApart(models);
    SeedWritten(models, "personProfileClaims");
    SeedWritten(models, "personDossierExtraction");
  }

  /** What makes an object its own normal form. */
  lemma NormalExactly(v: Json, defaultModel: string -> string)
    requires v.Obj? && Field(v, "model").Str?
    requires Field(v, "model") == Str("") ==> defaultModel(ProviderOf(v)) == ""
    requires Truthy(Field(v, "models")) ==> SeedBoth(Field(v, "models")) == Field(v, "models")
    ensures Normalize(v, defaultModel) == v
  {
    SameFields(Normalize(v, defaultModel).fields, v.fields);
  }

  /** A normal form stays one when its unset fields are gone. */
  lemma NormalWritten(n: Json, defaultModel: string -> string)
    requires n.Obj? && Field(n, "model").Str? && Normalize(n, defaultModel) == n
    ensures Normalize(Written(n), defaultModel) == Written(n)
  {
    WrittenField(n, "model");
    WrittenField(n, "models");
    WrittenField(n, "provider");
    TruthyWritten(Field(n, "models"));
    assert Field(Normalize(n, defaultModel), "model") == Field(n, "model");
    if Truthy(Field(n, "models")) { ModelsSeeded(n, defaultModel); }
    NormalExactly(Written(n), defaultModel);
  }

  // ---- Load, persist, load -----------------------------------------------------------------------------------

  /** A normal configuration that is settled once its unset fields are gone. */
  ghost predicate Rests(s: Setup, n: Json) {
    && n.Obj? && Field(n, "model").Str? && Field(n, "google").Obj?
    && Settled(s, Written(n)) && RoundTrips(s.codec, Stripped(Written(n)))
  }

  /** What is stored of it loads as it was, without its unset fields. */
  lemma RestingLoadsBack(s: Setup, n: Json, env: Installation)
    requires Rests(s, n) && Normalize(n, s.defaultModel) == n
    ensures var c := Effective(n, env);
      && Loaded(s, Some(Persisted(s, c, env)), env) == Success(Written(c))
      && Persisted(s, Written(c), env) == Persisted(s, c, env)
  {
    NormalWritten(n, s.defaultModel);
    StoredLoadsBack(s, Written(n), env);
    PersistedWritten(s, n, env);
    EffectiveWritten(n, env);
  }

  /** What a document loads as, from what it parses to. */
  lemma LoadedIs(s: Setup, document: Option<string>, stored: Json, env: Installation)
    requires (document == None && stored == Obj(map[])) || (document.Some? && s.codec.parse(document.value) == Some(stored))
    requires Loaded(s, document, env).Success?
    ensures Loaded(s, document, env).value == Effective(AdmittedForm(s, DropRetired(Merge(s.defaults, Source(stored)))), env)
    ensures s.schema(DropRetired(Merge(s.defaults, Source(stored)))).Some?
  {
  }

  /**
    Load, persist, load: the second load gives the first one's result, without the unset fields
    that a null under a key without a default leaves, and would write the same file again.
   */
  lemma LoadFixpoint(s: Setup, document: Option<string>, stored: Json, env: Installation)
    requires (document == None && stored == Obj(map[])) || (document.Some? && s.codec.parse(document.value) == Some(stored))
    requires Loaded(s, document, env).Success?
    requires Rests(s, AdmittedForm(s, DropRetired(Merge(s.defaults, Source(stored)))))
    ensures var c := Loaded(s, document, env).value;
      && Loaded(s, Some(Persisted(s, c, env)), env) == Success(Written(c))
      && Persisted(s, Written(c), env) == Persisted(s, c, env)
      && (Storable(c) ==> Written(c) == c)
  {
    LoadedIs(s, document, stored, env);
    AdmittedNormal(s, DropRetired(Merge(s.defaults, Source(stored))));
    RestingLoadsBack(s, AdmittedForm(s, DropRetired(Merge(s.defaults, Source(stored)))), env);
    WrittenIsWhole(Effective(AdmittedForm(s, DropRetired(Merge(s.defaults, Source(stored)))), env));
  }

  /** What an update leaves in the file loads as what the update answered, without its unset fields. */
  lemma UpdateLoadsBack(s: Setup, current: Json, patch: Json, env: Installation)
    requires Admitted(s, Merge(Effective(current, env), patch), env).Success?
    requires Rests(s, AdmittedForm(s, Merge(Effective(current, env), patch)))
    ensures var c := Admitted(s, Merge(Effective(current, env), patch), env).value;
      && Loaded(s, Some(Persisted(s, c, env)), env) == Success(Written(c))
      && Persisted(s, Written(c), env) == Persisted(s, c, env)
      && (Storable(c) ==> Written(c) == c)
  {
    AdmittedNormal(s, Merge(Effective(current, env), patch));
    RestingLoadsBack(s, AdmittedForm(s, Merge(Effective(current, env), patch)), env);
    WrittenIsWhole(Admitted(s, Merge(Effective(current, env), patch), env).value);
  }

  // ---- What the defaults and a completing schema already give ---------------------------------------------------

  /** The default document holds nothing retired, no choice of models and nothing unset. */
  predicate DefaultsCurrent(d: Json) { NothingRetired(d) && "models" !in FieldsOf(d) && Storable(d) }

  /** `w` has all that `v` has, field by field, and what it adds is neither unset nor null. */
  predicate Extends(v: Json, w: Json)
    decreases v
  {
    match v
    case Obj(fields) =>
      && w.Obj? && fields.Keys <= w.fields.Keys
      && (forall k :: k in fields ==> Extends(fields[k], w.fields[k]))
      && (forall k :: k in w.fields && k !in fields ==> !Absent(w.fields[k]))
    case Arr(_) => w.Arr?
    case Undefined => w != Null
    case _ => w == v
  }

  /**
    A schema that fills in what is missing: of a document with every default's key it accepts, it
    returns an extension that holds nothing retired and has a `model` text and a `google` object.
   */
  ghost predicate Completes(s: Setup) {
    forall v :: Covers(s.defaults, v) && s.schema(v).Some? ==>
      var w := s.schema(v).value;
      Extends(v, w) && w.Obj? && NothingRetired(w) && Field(w, "model").Str? && Field(w, "google").Obj?
  }

  lemma {:induction false} ExtendsCovers(d: Json, v: Json, w: Json)
    requires Covers(d, v) && Extends(v, w)
    ensures Covers(d, w)
    decreases v
  {
    if v.Obj? && d.Obj? {
      forall k | k in w.fields ensures Covers(Get(d.fields, k), w.fields[k]) {
        if k in v.fields { ExtendsCovers(Get(d.fields, k), v.fields[k], w.fields[k]); }
      }
    }
  }

  /** The defaults need no field that is unset. */
  lemma {:induction false} CoversWritten(d: Json, v: Json)
    requires Covers(d, v) && Storable(d)
    ensures Covers(d, Written(v))
    decreases v
  {
    if v.Obj? && d.Obj? {
      var w := Written(v);
      forall k | k in d.fields ensures k in w.fields {
        assert Covers(Get(d.fields, k), v.fields[k]);
      }
      forall k | k in w.fields ensures Covers(Get(d.fields, k), w.fields[k]) {
        assert Covers(Get(d.fields, k), v.fields[k]);
        if k in d.fields { CoversWritten(d.fields[k], v.fields[k]); } else { CoversNothing(v.fields[k]); }
      }
    }
  }

  lemma CoversNothing(v: Json)
    requires !v.Undefined? && Covers(Undefined, v)
    ensures Covers(Undefined, Written(v))
  {
  }

  lemma RetiredWritten(n: Json)
    requires n.Obj? && NothingRetired(n)
    ensures NothingRetired(Written(n))
  {
    var modules := Field(n, "modules");
    if modules.Obj? {
      assert Field(Written(n), "modules") == Written(modules);
    }
  }

  lemma CoversWithout(d: Json, v: Json, key: string)
    requires Covers(d, v)
    ensures Covers(DropKey(d, key), DropKey(v, key))
  {
    if d.Obj? && v.Obj? {
      forall k | k in v.fields - {key} ensures Covers(Get(d.fields - {key}, k), (v.fields - {key})[k]) {
        assert Covers(Get(d.fields, k), v.fields[k]);
      }
    }
  }

  lemma CoversReplaced(d: Json, v: Json, key: string, x: Json)
    requires Covers(d, v) && v.Obj? && key in v.fields && (d.Obj? ==> Covers(Get(d.fields, key), x))
    ensures Covers(d, Adjusted(v, key, x))
  {
  }

  lemma ModuleCovered(d: Json, modules: Json, name: string, key: string)
    requires Covers(d, modules) && modules.Obj? && key !in FieldsOf(Field(d, name))
    ensures Covers(d, DropFromModule(modules, name, key))
  {
    if Field(modules, name).Obj? {
      if d.Obj? {
        var entry := Get(d.fields, name);
        assert Covers(entry, modules.fields[name]);
        assert entry.Obj? ==> entry.fields - {key} == entry.fields;
        CoversWithout(entry, modules.fields[name], key);
      }
      CoversReplaced(d, modules, name, DropKey(Field(modules, name), key));
    }
  }

  /** Dropping what is retired drops nothing the defaults hold. */
  lemma RetiredCovered(d: Json, v: Json)
    requires d.Obj? && v.Obj? && Covers(d, v) && NothingRetired(d)
    ensures Covers(d, DropRetired(v))
  {
    var current := DropKey(DropKey(v, "fireflies"), "watch");
    CoversWithout(d, v, "fireflies");
    assert d.fields - {"fireflies"} == d.fields && d.fields - {"watch"} == d.fields;
    CoversWithout(d, DropKey(v, "fireflies"), "watch");
    var modules := Field(current, "modules");
    if modules.Obj? {
      var ours := Get(d.fields, "modules");
      assert Covers(ours, current.fields["modules"]);
      ModuleCovered(ours, modules, BRIEFS, "guestProfile");
      ModuleCovered(ours, DropFromModule(modules, BRIEFS, "guestProfile"), SCOUT, "notion");
      CoversReplaced(d, current, "modules", DropFromModule(DropFromModule(modules, BRIEFS, "guestProfile"), SCOUT, "notion"));
    }
  }

  /** Nor does the normal form. */
  lemma NormalCovered(d: Json, v: Json, defaultModel: string -> string)
    requires d.Obj? && v.Obj? && Covers(d, v) && "models" !in d.fields && NothingRetired(v)
    ensures Covers(d, Normalize(v, defaultModel)) && NothingRetired(Normalize(v, defaultModel))
  {
    var n := Normalize(v, defaultModel);
    forall k | k in n.fields ensures Covers(Get(d.fields, k), n.fields[k]) {
      if k in v.fields { assert Covers(Get(d.fields, k), v.fields[k]); }
    }
  }

  lemma StrippedCovered(d: Json, n: Json)
    requires DefaultsShaped(d) && n.Obj? && Field(n, "google").Obj? && Covers(d, n)
    ensures Covers(Stripped(d), Stripped(n))
  {
    var ours, theirs := DropKey(d, "apiKey"), DropKey(n, "apiKey");
    CoversWithout(d, n, "apiKey");
    var sd, sn := Stripped(d), Stripped(n);
    assert Covers(ours.fields["google"], theirs.fields["google"]);
    CoversWithout(ours.fields["google"], theirs.fields["google"], "clientId");
    CoversWithout(DropKey(ours.fields["google"], "clientId"), DropKey(theirs.fields["google"], "clientId"), "clientSecret");
    forall k | k in sn.fields ensures Covers(Get(sd.fields, k), sn.fields[k]) {
      assert Covers(Get(ours.fields, k), theirs.fields[k]);
    }
  }

  lemma EffectiveCovered(d: Json, n: Json, env: Installation)
    requires DefaultsShaped(d) && n.Obj? && Field(n, "google").Obj? && Covers(d, n)
    ensures Covers(d, Effective(n, env))
  {
    var google := Field(d, "google");
    assert Covers(google, n.fields["google"]);
    var theirs := Field(Effective(n, env), "google");
    forall k | k in theirs.fields ensures Covers(Get(google.fields, k), theirs.fields[k]) {
      if k in Field(n, "google").fields { assert Covers(Get(google.fields, k), Field(n, "google").fields[k]); }
    }
    CoversReplaced(d, n, "google", theirs);
  }

  /** What a completing schema makes of a document with every default's key, in normal form, has them all. */
  lemma CompletedCovers(s: Setup, v: Json)
    requires s.defaults.Obj? && DefaultsCurrent(s.defaults) && Completes(s) && Covers(s.defaults, v) && s.schema(v).Some?
    ensures var n := AdmittedForm(s, v);
      && n.Obj? && Field(n, "google").Obj? && Field(n, "model").Str?
      && Covers(s.defaults, n) && NothingRetired(n)
  {
    var w := s.schema(v).value;
    ExtendsCovers(s.defaults, v, w);
    NormalCovered(s.defaults, w, s.defaultModel);
  }

  /** Such a form rests exactly if the text of it round-trips and the schema returns it unchanged with blank credentials. */
  lemma CompletedRests(s: Setup, n: Json)
    requires DefaultsShaped(s.defaults) && DefaultsCurrent(s.defaults)
    requires n.Obj? && Field(n, "google").Obj? && Field(n, "model").Str? && Covers(s.defaults, n) && NothingRetired(n)
    ensures Field(Written(n), "google").Obj?
    ensures Rests(s, n) <==>
            RoundTrips(s.codec, Stripped(Written(n)))
            && s.schema(Blanked(s.defaults, Written(n))) == Some(Blanked(s.defaults, Written(n)))
  {
    assert Field(Written(n), "google") == Written(Field(n, "google"));
    WrittenStorable(n);
    CoversWritten(s.defaults, n);
    RetiredWritten(n);
    StrippedCovered(s.defaults, Written(n));
  }

  lemma MergedCovers(s: Setup, stored: Json)
    requires s.defaults.Obj? && DefaultsCurrent(s.defaults)
    ensures Covers(s.defaults, DropRetired(Merge(s.defaults, Source(stored))))
  {
    var merged := Merge(s.defaults, Source(stored));
    DefaultsProject(s.defaults, Source(stored));
    CoversExactly(s.defaults, merged);
    RetiredCovered(s.defaults, merged);
  }

  /**
    What loads under a completing schema has every default's key, and rests exactly if its text
    round-trips and the schema returns it unchanged with blank credentials.
   */
  lemma LoadedSettles(s: Setup, stored: Json)
    requires DefaultsShaped(s.defaults) && DefaultsCurrent(s.defaults) && Completes(s)
    requires s.schema(DropRetired(Merge(s.defaults, Source(stored)))).Some?
    ensures var n := AdmittedForm(s, DropRetired(Merge(s.defaults, Source(stored))));
      && n.Obj? && Covers(s.defaults, n) && Field(n, "google").Obj? && Field(Written(n), "google").Obj?
      && (Rests(s, n) <==>
          RoundTrips(s.codec, Stripped(Written(n)))
          && s.schema(Blanked(s.defaults, Written(n))) == Some(Blanked(s.defaults, Written(n))))
  {
    MergedCovers(s, stored);
    CompletedCovers(s, DropRetired(Merge(s.defaults, Source(stored))));
    CompletedRests(s, AdmittedForm(s, DropRetired(Merge(s.defaults, Source(stored)))));
  }

  /** The text of the form without its unset fields round-trips, and the schema returns it unchanged with blank credentials. */
  ghost predicate Returns(s: Setup, n: Json) {
    && DefaultsShaped(s.defaults) && n.Obj? && Field(Written(n), "google").Obj?
    && RoundTrips(s.codec, Stripped(Written(n)))
    && s.schema(Blanked(s.defaults, Written(n))) == Some(Blanked(s.defaults, Written(n)))
  }

  /** So loading, storing and loading again is loading once, for every document such a schema accepts. */
  lemma LoadRepeats(s: Setup, document: Option<string>, stored: Json, env: Installation)
    requires DefaultsShaped(s.defaults) && DefaultsCurrent(s.defaults) && Completes(s)
    requires (document == None && stored == Obj(map[])) || (document.Some? && s.codec.parse(document.value) == Some(stored))
    requires Loaded(s, document, env).Success?
    requires Returns(s, AdmittedForm(s, DropRetired(Merge(s.defaults, Source(stored)))))
    ensures var c := Loaded(s, document, env).value;
      && Loaded(s, Some(Persisted(s, c, env)), env) == Success(Written(c))
      && Persisted(s, Written(c), env) == Persisted(s, c, env)
      && Covers(s.defaults, c)
  {
    LoadedSettles(s, stored);
    LoadFixpoint(s, document, stored, env);
    EffectiveCovered(s.defaults, AdmittedForm(s, DropRetired(Merge(s.defaults, Source(stored)))), env);
  }

  lemma PatchCovers(d: Json, held: Json, patch: Json)
    requires Covers(d, held) && !Clashes(d, held, patch)
    ensures Covers(d, Merge(held, patch))
  {
    CoversExactly(d, held);
    AssociativeExactly(d, held, patch);
    CoversExactly(d, Merge(held, patch));
  }

  /** An update of a configuration that has every default's key keeps them all, unless the three documents clash. */
  lemma UpdateSettles(s: Setup, current: Json, patch: Json, env: Installation)
    requires DefaultsShaped(s.defaults) && DefaultsCurrent(s.defaults) && Completes(s)
    requires Covers(s.defaults, Effective(current, env)) && !Clashes(s.defaults, Effective(current, env), patch)
    requires s.schema(Merge(Effective(current, env), patch)).Some?
    ensures var n := AdmittedForm(s, Merge(Effective(current, env), patch));
      && n.Obj? && Covers(s.defaults, n) && Field(n, "google").Obj? && Field(Written(n), "google").Obj?
      && (Rests(s, n) <==>
          RoundTrips(s.codec, Stripped(Written(n)))
          && s.schema(Blanked(s.defaults, Written(n))) == Some(Blanked(s.defaults, Written(n))))
  {
    PatchCovers(s.defaults, Effective(current, env), patch);
    CompletedCovers(s, Merge(Effective(current, env), patch));
    CompletedRests(s, AdmittedForm(s, Merge(Effective(current, env), patch)));
  }

  /** So what such an update leaves in the file loads as what it answered, and the next update starts from the same. */
  lemma UpdateRepeats(s: Setup, current: Json, patch: Json, env: Installation)
    requires DefaultsShaped(s.defaults) && DefaultsCurrent(s.defaults) && Completes(s)
    requires Covers(s.defaults, Effective(current, env)) && !Clashes(s.defaults, Effective(current, env), patch)
    requires s.schema(Merge(Effective(current, env), patch)).Some?
    requires Returns(s, AdmittedForm(s, Merge(Effective(current, env), patch)))
    ensures var c := Admitted(s, Merge(Effective(current, env), patch), env).value;
      && Loaded(s, Some(Persisted(s, c, env)), env) == Success(Written(c))
      && Persisted(s, Written(c), env) == Persisted(s, c, env)
      && Covers(s.defaults, Effective(c, env))
  {
    UpdateSettles(s, current, patch, env);
    UpdateLoadsBack(s, current, patch, env);
    var n := AdmittedForm(s, Merge(Effective(current, env), patch));
    EffectiveCovered(s.defaults, n, env);
    EffectiveTwice(n, env);
  }

  /** No credential of the installation is ever in the file, whatever the configuration holds. */
  lemma CredentialsStayOut(config: Json, env: Installation)
    ensures Clean(WithoutInstallationFields(Effective(config, env)))
  {
    var e := Effective(config, env);
    var w := Written(e);
    assert e.fields["google"].Obj?;
    assert w.fields["google"] == Written(e.fields["google"]);
    StrippedClean(w);
  }
}
