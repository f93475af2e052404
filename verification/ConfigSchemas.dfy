/** Schemas of the kind the configuration has: strict objects whose fields may be optional or defaulted. */
module ConfigSchemas {
  import opened Prelude
  import opened Json
  import opened DeepMerge
  import opened Config
  import opened ConfigLaws

  /** What becomes of a field that is not there. */
  datatype Missing = Required | Optional | Default(value: Json)

  datatype Slot = Slot(shape: Shape, missing: Missing)

  /** `Tagged`: a union of objects told apart by the text of one field. `List` reads, and may rewrite, whole arrays; `Every` is an object of any keys of a kind. */
  datatype Shape =
    | Leaf(ok: Json -> bool)
    | List(read: seq<Json> -> Option<seq<Json>>)
    | Strict(slots: map<string, Slot>)
    | Every(known: string -> bool, of: Shape)
    | Tagged(key: string, cases: map<string, Shape>)

  predicate Plain(v: Json) { !v.Undefined? && !v.Obj? && !v.Arr? }

  /** The document as the schema accepts it, or None where it refuses. */
  function Parse(shape: Shape, v: Json): Option<Json>
    decreases shape, 0
  {
    match shape
    case Leaf(ok) => if Plain(v) && ok(v) then Some(v) else None
    case List(read) =>
      if !v.Arr? then None
      else (match read(v.items) case None => None case Some(items) => Some(Arr(items)))
    case Strict(slots) =>
      if v.Obj? && v.fields.Keys <= slots.Keys
         && forall k :: k in slots ==> ParseSlot(slots[k].shape, slots[k].missing, Get(v.fields, k)).Some?
      then Some(Obj(map k | k in slots && (k in v.fields || slots[k].missing.Default?) ::
                      ParseSlot(slots[k].shape, slots[k].missing, Get(v.fields, k)).value))
      else None
    case Every(known, of) =>
      if v.Obj? && forall k :: k in v.fields ==> known(k) && Parse(of, v.fields[k]).Some?
      then Some(Obj(map k | k in v.fields :: Parse(of, v.fields[k]).value))
      else None
    case Tagged(key, cases) =>
      if v.Obj? && Field(v, key).Str? && Field(v, key).text in cases then Parse(cases[Field(v, key).text], v) else None
  }

  function ParseSlot(shape: Shape, missing: Missing, x: Json): Option<Json>
    decreases shape, 1
  {
    if !x.Undefined? then Parse(shape, x)
    else match missing
      case Required => None
      case Optional => Some(Undefined)
      case Default(value) => Parse(shape, value)
  }

  predicate Fixes(shape: Shape, v: Json) { Parse(shape, v) == Some(v) }

  // ---- What any schema keeps ---------------------------------------------------------------------------------

  lemma {:induction false} KeepsKind(shape: Shape, v: Json)
    requires Parse(shape, v).Some?
    ensures var w := Parse(shape, v).value;
      !v.Undefined? && !w.Undefined? && (w.Obj? <==> v.Obj?) && (w.Arr? <==> v.Arr?) && (Plain(v) ==> w == v)
    decreases shape
  {
    if shape.Tagged? { KeepsKind(shape.cases[Field(v, shape.key).text], v); }
  }

  /**
    A well-made schema: an array is rewritten to one that is left alone and holds nothing unset,
    and a union's field is a plain one of each of its objects.
   */
  ghost predicate Sound(shape: Shape)
    decreases shape
  {
    match shape
    case Leaf(_) => true
    case List(read) => forall items :: read(items).Some? ==> read(read(items).value) == read(items) && Storable(Arr(read(items).value))
    case Strict(slots) => forall k :: k in slots ==> Sound(slots[k].shape)
    case Every(_, of) => Sound(of)
    case Tagged(key, cases) =>
      forall t :: t in cases ==>
        Sound(cases[t]) && cases[t].Strict? && key in cases[t].slots && cases[t].slots[key].shape.Leaf?
  }

  // ---- It extends what it is given -----------------------------------------------------------------------------

  /** Where a missing field becomes null, the defaults have that field. */
  ghost predicate NullsHeld(shape: Shape, d: Json)
    decreases shape
  {
    match shape
    case Leaf(_) => true
    case List(_) => true
    case Strict(slots) =>
      forall k :: k in slots ==>
        && (slots[k].missing == Default(Null) ==> k in FieldsOf(d))
        && NullsHeld(slots[k].shape, Field(d, k))
    case Every(_, of) =>
      NullsHeld(of, Undefined) && forall k :: k in FieldsOf(d) ==> NullsHeld(of, Field(d, k))
    case Tagged(_, cases) => forall t :: t in cases ==> NullsHeld(cases[t], d)
  }

  lemma ExtendsPlain(v: Json, w: Json)
    requires !v.Obj? && !v.Undefined? && (v.Arr? ==> w.Arr?) && (Plain(v) ==> w == v)
    ensures Extends(v, w)
  {
  }

  /** Every key of the defaults is there, if both are objects; the defaults hold nothing unset. */
  predicate Under(d: Json, v: Json) {
    (d.Obj? && v.Obj? ==> Covers(d, v)) && (d.Undefined? || Storable(d))
  }

  lemma UnderField(d: Json, v: Json, k: string)
    requires v.Obj? && Under(d, v)
    ensures Under(Field(d, k), Get(v.fields, k))
    ensures k in FieldsOf(d) ==> k in v.fields && !v.fields[k].Undefined?
  {
    if k in FieldsOf(d) { assert Storable(d.fields[k]); }
    if d.Obj? && k in v.fields { assert Covers(Get(d.fields, k), v.fields[k]); }
  }

  lemma {:induction false} ParseExtends(shape: Shape, d: Json, v: Json)
    requires Parse(shape, v).Some? && NullsHeld(shape, d) && Under(d, v)
    ensures Extends(v, Parse(shape, v).value)
    decreases shape, 0
  {
    var w := Parse(shape, v).value;
    KeepsKind(shape, v);
    match shape
    case Strict(slots) =>
      forall k | k in w.fields ensures if k in v.fields then Extends(v.fields[k], w.fields[k]) else !Absent(w.fields[k]) {
        UnderField(d, v, k);
        SlotExtends(slots[k].shape, slots[k].missing, Field(d, k), Get(v.fields, k), k in FieldsOf(d), k in v.fields);
      }
    case Every(_, of) =>
      forall k | k in v.fields ensures Extends(v.fields[k], w.fields[k]) {
        UnderField(d, v, k);
        ParseExtends(of, Field(d, k), v.fields[k]);
      }
    case Tagged(key, cases) => ParseExtends(cases[Field(v, key).text], d, v);
    case Leaf(_) => ExtendsPlain(v, w);
    case List(_) => ExtendsPlain(v, w);
  }

  /** One field: `x` is what the document has of it, `held` whether the defaults have it, `there` whether the document does. */
  lemma {:induction false} SlotExtends(shape: Shape, missing: Missing, d: Json, x: Json, held: bool, there: bool)
    requires NullsHeld(shape, d) && Under(d, x) && ParseSlot(shape, missing, x).Some?
    requires (missing == Default(Null) ==> held) && (held ==> there && !x.Undefined?)
    requires (!there ==> x.Undefined?) && (there || missing.Default?)
    ensures var w := ParseSlot(shape, missing, x).value;
      if there then Extends(x, w) else !Absent(w)
    decreases shape, 1
  {
    if !x.Undefined? {
      ParseExtends(shape, d, x);
    } else if missing.Default? {
      KeepsKind(shape, missing.value);
    }
  }

  // ---- What it returned once it returns again ----------------------------------------------------------------

  /** A field as the schema returns it, or missing where it may be. */
  predicate FixesSlot(slots: map<string, Slot>, fields: map<string, Json>, k: string)
    requires k in slots
  {
    if Get(fields, k).Undefined? then slots[k].missing.Optional? else Fixes(slots[k].shape, Get(fields, k))
  }

  /** A strict object is returned unchanged exactly if each of its fields is. */
  lemma FixesStrictly(slots: map<string, Slot>, v: Json)
    ensures Fixes(Strict(slots), v) <==>
            v.Obj? && v.fields.Keys <= slots.Keys && forall k :: k in slots ==> FixesSlot(slots, v.fields, k)
  {
    if v.Obj? && v.fields.Keys <= slots.Keys && forall k :: k in slots ==> FixesSlot(slots, v.fields, k) {
      FixesWhole(slots, v);
    }
    if Fixes(Strict(slots), v) {
      forall k | k in slots ensures FixesSlot(slots, v.fields, k) { FixesPart(slots, v, k); }
    }
  }

  lemma FixesWhole(slots: map<string, Slot>, v: Json)
    requires v.Obj? && v.fields.Keys <= slots.Keys && forall k :: k in slots ==> FixesSlot(slots, v.fields, k)
    ensures Fixes(Strict(slots), v)
  {
    forall k | k in slots ensures ParseSlot(slots[k].shape, slots[k].missing, Get(v.fields, k)) == Some(Get(v.fields, k)) {
      assert FixesSlot(slots, v.fields, k);
    }
    forall k | k in slots && slots[k].missing.Default? ensures k in v.fields { assert FixesSlot(slots, v.fields, k); }
    SameFields(Parse(Strict(slots), v).value.fields, v.fields);
  }

  lemma FixesPart(slots: map<string, Slot>, v: Json, k: string)
    requires Fixes(Strict(slots), v) && k in slots
    ensures FixesSlot(slots, v.fields, k)
  {
    var w := Parse(Strict(slots), v).value;
    assert w.fields.Keys == v.fields.Keys;
    assert ParseSlot(slots[k].shape, slots[k].missing, Get(v.fields, k)).Some?;
    assert slots[k].missing.Default? ==> k in w.fields;
    if k in v.fields {
      assert w.fields[k] == ParseSlot(slots[k].shape, slots[k].missing, v.fields[k]).value;
      if v.fields[k].Undefined? && slots[k].missing.Default? { KeepsKind(slots[k].shape, slots[k].missing.value); }
    }
  }

  lemma FixesEvery(key: string -> bool, of: Shape, v: Json)
    requires v.Obj?
    ensures Fixes(Every(key, of), v) <==> forall k :: k in v.fields ==> key(k) && Fixes(of, v.fields[k])
  {
    if forall k :: k in v.fields ==> key(k) && Fixes(of, v.fields[k]) {
      SameFields(Parse(Every(key, of), v).value.fields, v.fields);
    }
    if Fixes(Every(key, of), v) {
      forall k | k in v.fields ensures key(k) && Fixes(of, v.fields[k]) {
        assert Parse(Every(key, of), v).value.fields[k] == v.fields[k];
      }
    }
  }

  /** What a sound schema returns, it returns unchanged. */
  lemma {:induction false} ParseTwice(shape: Shape, v: Json)
    requires Sound(shape) && Parse(shape, v).Some?
    ensures Fixes(shape, Parse(shape, v).value)
    decreases shape, 0
  {
    var w := Parse(shape, v).value;
    match shape
    case Strict(slots) =>
      forall k | k in slots ensures FixesSlot(slots, w.fields, k) {
        SlotTwice(slots[k].shape, slots[k].missing, Get(v.fields, k));
      }
      FixesStrictly(slots, w);
    case Every(key, of) =>
      forall k | k in w.fields ensures key(k) && Fixes(of, w.fields[k]) { ParseTwice(of, v.fields[k]); }
      FixesEvery(key, of, w);
    case Tagged(key, cases) =>
      var t := Field(v, key).text;
      ParseTwice(cases[t], v);
      TagStays(cases[t].slots, v, key);
    case Leaf(_) =>
    case List(_) =>
  }

  lemma {:induction false} SlotTwice(shape: Shape, missing: Missing, x: Json)
    requires Sound(shape) && ParseSlot(shape, missing, x).Some?
    ensures var y := ParseSlot(shape, missing, x).value;
      if y.Undefined? then missing.Optional? else Fixes(shape, y)
    decreases shape, 1
  {
    if !x.Undefined? {
      KeepsKind(shape, x);
      ParseTwice(shape, x);
    } else if missing.Default? {
      KeepsKind(shape, missing.value);
      ParseTwice(shape, missing.value);
    }
  }

  lemma TagStays(slots: map<string, Slot>, v: Json, key: string)
    requires Parse(Strict(slots), v).Some? && v.Obj? && Field(v, key).Str?
    requires key in slots && slots[key].shape.Leaf?
    ensures Field(Parse(Strict(slots), v).value, key) == Field(v, key)
  {
    var w := Parse(Strict(slots), v).value;
    assert w.fields[key] == ParseSlot(slots[key].shape, slots[key].missing, v.fields[key]).value;
  }

  /** It returns that without the unset fields, too. */
  lemma {:induction false} FixesWritten(shape: Shape, v: Json)
    requires Sound(shape) && Fixes(shape, v)
    ensures Fixes(shape, Written(v))
    decreases shape
  {
    match shape
    case Strict(slots) =>
      var w := Written(v);
      FixesStrictly(slots, v);
      forall k | k in slots ensures FixesSlot(slots, w.fields, k) {
        assert FixesSlot(slots, v.fields, k);
        WrittenField(v, k);
        if !Get(v.fields, k).Undefined? { FixesWritten(slots[k].shape, v.fields[k]); }
      }
      FixesStrictly(slots, w);
    case Every(key, of) =>
      FixesEvery(key, of, v);
      forall k | k in Written(v).fields ensures key(k) && Fixes(of, Written(v).fields[k]) { FixesWritten(of, v.fields[k]); }
      FixesEvery(key, of, Written(v));
    case Tagged(key, cases) =>
      WrittenField(v, key);
      FixesWritten(cases[Field(v, key).text], v);
    case List(_) => StorableWritten(v);
    case Leaf(_) =>
  }

  /** One field set to a value its shape returns unchanged. */
  lemma FixesSet(slots: map<string, Slot>, v: Json, k: string, x: Json)
    requires Fixes(Strict(slots), v) && k in slots && !x.Undefined? && Fixes(slots[k].shape, x)
    ensures Fixes(Strict(slots), Obj(v.fields[k := x]))
  {
    FixesStrictly(slots, v);
    forall j | j in slots ensures FixesSlot(slots, v.fields[k := x], j) { assert FixesSlot(slots, v.fields, j); }
    FixesStrictly(slots, Obj(v.fields[k := x]));
  }

  // ---- The configuration's schema --------------------------------------------------------------------------------

  /** Any text, and nothing else. */
  ghost predicate AnyText(shape: Shape) { shape.Leaf? && forall v :: Plain(v) ==> (shape.ok(v) <==> v.Str?) }

  ghost predicate Takes(slots: map<string, Slot>, key: string, value: Json) {
    key in slots && !value.Undefined? && Fixes(slots[key].shape, value)
  }

  /** Models by provider and purpose: a purpose split off takes whatever the research purpose takes. */
  ghost predicate ModelsShaped(shape: Shape) {
    && shape.Every? && shape.of.Strict?
    && var purposes := shape.of.slots;
       && "personResearch" in purposes
       && (forall x :: Fixes(purposes["personResearch"].shape, x) ==>
             Takes(purposes, "personProfileClaims", x) && Takes(purposes, "personDossierExtraction", x))
  }

  predicate Lacks(slots: map<string, Slot>, name: string, key: string) {
    name in slots ==> slots[name].shape.Strict? && key !in slots[name].shape.slots
  }

  /**
    A strict object that demands a `model` text and a `google` object, takes the defaults'
    credentials, and knows no field that old versions stored.
   */
  ghost predicate ConfigShaped(shape: Shape, d: Json) {
    && DefaultsShaped(d) && shape.Strict? && Sound(shape) && NullsHeld(shape, d)
    && var slots := shape.slots;
       && "model" in slots && slots["model"].missing.Required? && AnyText(slots["model"].shape)
       && Takes(slots, "apiKey", d.fields["apiKey"])
       && "google" in slots && slots["google"].missing.Required? && slots["google"].shape.Strict?
       && Takes(slots["google"].shape.slots, "clientId", Field(d, "google").fields["clientId"])
       && Takes(slots["google"].shape.slots, "clientSecret", Field(d, "google").fields["clientSecret"])
       && ("models" in slots ==> ModelsShaped(slots["models"].shape))
       && "fireflies" !in slots && "watch" !in slots
       && ("modules" in slots ==>
             slots["modules"].shape.Strict?
             && Lacks(slots["modules"].shape.slots, BRIEFS, "guestProfile") && Lacks(slots["modules"].shape.slots, SCOUT, "notion"))
  }

  ghost predicate Reads(s: Setup, shape: Shape) { forall v :: s.schema(v) == Parse(shape, v) }

  lemma FixedField(slots: map<string, Slot>, v: Json, k: string)
    requires Fixes(Strict(slots), v)
    ensures v.Obj? && (k in v.fields ==> k in slots)
    ensures !Field(v, k).Undefined? ==> k in slots && Fixes(slots[k].shape, Field(v, k))
    ensures k in slots && slots[k].missing.Required? ==> !Field(v, k).Undefined?
  {
    FixesStrictly(slots, v);
    if k in slots { assert FixesSlot(slots, v.fields, k); }
  }

  lemma LacksRetired(slots: map<string, Slot>, modules: Json, name: string, key: string)
    requires Fixes(Strict(slots), modules) && Lacks(slots, name, key)
    ensures key !in FieldsOf(Field(modules, name))
  {
    FixedField(slots, modules, name);
    if !Field(modules, name).Undefined? { FixedField(slots[name].shape.slots, Field(modules, name), key); }
  }

  /** What it returns has the form the store relies on. */
  lemma FixedForm(shape: Shape, d: Json, w: Json)
    requires ConfigShaped(shape, d) && Fixes(shape, w)
    ensures w.Obj? && Field(w, "model").Str? && Field(w, "google").Obj? && NothingRetired(w)
  {
    var slots := shape.slots;
    FixedField(slots, w, "model");
    FixedField(slots, w, "google");
    FixedField(slots, w, "fireflies");
    FixedField(slots, w, "watch");
    FixedField(slots, w, "modules");
    KeepsKind(slots["google"].shape, Field(w, "google"));
    if !Field(w, "modules").Undefined? {
      LacksRetired(slots["modules"].shape.slots, Field(w, "modules"), BRIEFS, "guestProfile");
      LacksRetired(slots["modules"].shape.slots, Field(w, "modules"), SCOUT, "notion");
    }
  }

  /** Such a schema completes what it accepts. */
  lemma ShapeCompletes(s: Setup, shape: Shape)
    requires Reads(s, shape) && ConfigShaped(shape, s.defaults) && Storable(s.defaults)
    ensures Completes(s)
  {
    forall v | Covers(s.defaults, v) && s.schema(v).Some?
      ensures var w := s.schema(v).value;
        Extends(v, w) && w.Obj? && NothingRetired(w) && Field(w, "model").Str? && Field(w, "google").Obj?
    {
      ParseExtends(shape, s.defaults, v);
      ParseTwice(shape, v);
      FixedForm(shape, s.defaults, Parse(shape, v).value);
    }
  }

  // ---- What the store makes of it, it returns unchanged -------------------------------------------------------

  lemma SeedFixed(purposes: map<string, Slot>, v: Json, purpose: string)
    requires Fixes(Strict(purposes), v) && "personResearch" in purposes
    requires forall x :: Fixes(purposes["personResearch"].shape, x) ==> Takes(purposes, purpose, x)
    ensures Fixes(Strict(purposes), SeedOne(v, purpose))
  {
    FixedField(purposes, v, "personResearch");
    if Truthy(Field(v, "personResearch")) && Field(v, purpose).Undefined? {
      FixesSet(purposes, v, purpose, Field(v, "personResearch"));
    }
  }

  lemma SeedsFixed(key: string -> bool, of: Shape, models: Json, purpose: string)
    requires of.Strict? && Fixes(Every(key, of), models) && "personResearch" in of.slots
    requires forall x :: Fixes(of.slots["personResearch"].shape, x) ==> Takes(of.slots, purpose, x)
    ensures Fixes(Every(key, of), Seed(models, purpose))
  {
    FixesEvery(key, of, models);
    forall p | p in models.fields ensures key(p) && Fixes(of, Seed(models, purpose).fields[p]) {
      SeedFixed(of.slots, models.fields[p], purpose);
    }
    FixesEvery(key, of, Seed(models, purpose));
  }

  lemma ModelsFixed(shape: Shape, models: Json)
    requires ModelsShaped(shape) && Fixes(shape, models)
    ensures Fixes(shape, SeedBoth(models))
  {
    SeedsFixed(shape.known, shape.of, models, "personProfileClaims");
    SeedsFixed(shape.known, shape.of, SeedClaimsPurpose(models), "personDossierExtraction");
  }

  lemma NormalFixed(shape: Shape, d: Json, w: Json, defaultModel: string -> string)
    requires ConfigShaped(shape, d) && Fixes(shape, w)
    ensures Fixes(shape, Normalize(w, defaultModel))
  {
    var slots := shape.slots;
    FixedForm(shape, d, w);
    var model := if Field(w, "model") == Str("") then Str(defaultModel(ProviderOf(w))) else Field(w, "model");
    FixesSet(slots, w, "model", model);
    if Truthy(Field(w, "models")) {
      FixedField(slots, w, "models");
      ModelsFixed(slots["models"].shape, Field(w, "models"));
      FixesSet(slots, Obj(w.fields["model" := model]), "models", SeedBoth(Field(w, "models")));
    }
  }

  lemma BlankedFixed(shape: Shape, d: Json, n: Json)
    requires ConfigShaped(shape, d) && Fixes(shape, n)
    ensures n.Obj? && Field(n, "google").Obj? && Fixes(shape, Blanked(d, n))
  {
    var slots := shape.slots;
    FixedForm(shape, d, n);
    FixedField(slots, n, "google");
    var inner := slots["google"].shape.slots;
    var id, secret := Field(d, "google").fields["clientId"], Field(d, "google").fields["clientSecret"];
    FixesSet(inner, Field(n, "google"), "clientId", id);
    FixesSet(inner, Obj(Field(n, "google").fields["clientId" := id]), "clientSecret", secret);
    FixesSet(slots, n, "apiKey", d.fields["apiKey"]);
    FixesSet(slots, Obj(n.fields["apiKey" := d.fields["apiKey"]]), "google",
             Obj(Field(n, "google").fields["clientId" := id]["clientSecret" := secret]));
  }

  /** The form a document is admitted as, without its unset fields and with blank credentials, is returned unchanged. */
  lemma AdmittedReturns(s: Setup, shape: Shape, merged: Json)
    requires Reads(s, shape) && ConfigShaped(shape, s.defaults) && s.schema(merged).Some?
    requires RoundTrips(s.codec, Stripped(Written(AdmittedForm(s, merged))))
    ensures Returns(s, AdmittedForm(s, merged))
  {
    var n := AdmittedForm(s, merged);
    ParseTwice(shape, merged);
    NormalFixed(shape, s.defaults, Parse(shape, merged).value, s.defaultModel);
    FixedForm(shape, s.defaults, n);
    FixesWritten(shape, n);
    BlankedFixed(shape, s.defaults, Written(n));
  }

  /** A store whose schema is of this kind, with such defaults. */
  ghost predicate Shaped(s: Setup, shape: Shape) {
    Reads(s, shape) && ConfigShaped(shape, s.defaults) && DefaultsCurrent(s.defaults)
  }

  /** What the configuration, stored, loads as: itself but for unset fields; and that would be stored as the same text. */
  ghost predicate Stays(s: Setup, c: Json, env: Installation) {
    && Loaded(s, Some(Persisted(s, c, env)), env) == Success(Written(c))
    && Persisted(s, Written(c), env) == Persisted(s, c, env)
  }

  ghost predicate Admits(s: Setup, merged: Json) {
    s.schema(merged).Some? && RoundTrips(s.codec, Stripped(Written(AdmittedForm(s, merged))))
  }

  /** A document that loads, to a text that reads back, stays, with every default's key. */
  ghost predicate LoadStays(s: Setup, document: Option<string>, stored: Json, env: Installation) {
    ((document == None && stored == Obj(map[])) || (document.Some? && s.codec.parse(document.value) == Some(stored)))
    && Loaded(s, document, env).Success? && Admits(s, DropRetired(Merge(s.defaults, Source(stored)))) ==>
      Stays(s, Loaded(s, document, env).value, env) && Covers(s.defaults, Loaded(s, document, env).value)
  }

  /** So does an update that is admitted, of a configuration with every default's key, unless it clashes with the defaults. */
  ghost predicate UpdateStays(s: Setup, current: Json, patch: Json, env: Installation) {
    Covers(s.defaults, Effective(current, env)) && !Clashes(s.defaults, Effective(current, env), patch)
    && Admits(s, Merge(Effective(current, env), patch)) ==>
      var c := Admitted(s, Merge(Effective(current, env), patch), env).value;
      Stays(s, c, env) && Covers(s.defaults, Effective(c, env))
  }

  lemma LoadedStays(s: Setup, shape: Shape, document: Option<string>, stored: Json, env: Installation)
    requires Shaped(s, shape)
    ensures LoadStays(s, document, stored, env)
  {
    if ((document == None && stored == Obj(map[])) || (document.Some? && s.codec.parse(document.value) == Some(stored)))
       && Loaded(s, document, env).Success? && Admits(s, DropRetired(Merge(s.defaults, Source(stored)))) {
      ShapeCompletes(s, shape);
      AdmittedReturns(s, shape, DropRetired(Merge(s.defaults, Source(stored))));
      LoadRepeats(s, document, stored, env);
    }
  }

  lemma UpdatedStays(s: Setup, shape: Shape, current: Json, patch: Json, env: Installation)
    requires Shaped(s, shape)
    ensures UpdateStays(s, current, patch, env)
  {
    if Covers(s.defaults, Effective(current, env)) && !Clashes(s.defaults, Effective(current, env), patch)
       && Admits(s, Merge(Effective(current, env), patch)) {
      ShapeCompletes(s, shape);
      AdmittedReturns(s, shape, Merge(Effective(current, env), patch));
      UpdateRepeats(s, current, patch, env);
    }
  }
}
