/** The configuration's own schema and default document. */
module AppConfig {
  import opened Prelude
  import opened Json
  import opened Config
  import opened ConfigLaws
  import opened ConfigSchemas

  // ---- Objects, field by field --------------------------------------------------------------------

  type Parts = seq<(string, Slot)>
  type Values = seq<(string, Json)>

  function Build<T>(parts: seq<(string, T)>): map<string, T> {
    if parts == [] then map[]
    else Build(parts[..|parts| - 1])[parts[|parts| - 1].0 := parts[|parts| - 1].1]
  }

  function Fields(parts: Parts): Shape { Strict(Build(parts)) }

  function Doc(values: Values): Json { Obj(Build(values)) }

  lemma {:induction false} BuildKeys<T>(parts: seq<(string, T)>, key: string)
    ensures key in Build(parts) <==> exists i :: 0 <= i < |parts| && parts[i].0 == key
    ensures key in Build(parts) ==> exists i :: 0 <= i < |parts| && parts[i].0 == key && Build(parts)[key] == parts[i].1
  {
    if parts != [] {
      var n := |parts| - 1;
      BuildKeys(parts[..n], key);
      assert parts == parts[..n] + [parts[n]];
      if key != parts[n].0 && key in Build(parts) {
        var i :| 0 <= i < n && parts[..n][i].0 == key && Build(parts[..n])[key] == parts[..n][i].1;
        assert parts[i].0 == key && Build(parts)[key] == parts[i].1;
      } else if key == parts[n].0 {
        assert parts[n].0 == key && Build(parts)[key] == parts[n].1;
      }
      if i :| 0 <= i < |parts| && parts[i].0 == key && i < n { assert parts[..n][i].0 == key; }
    }
  }

  /** A field that no later part sets again. */
  lemma {:induction false} BuildAt<T>(parts: seq<(string, T)>, i: nat)
    requires i < |parts| && forall j :: i < j < |parts| ==> parts[j].0 != parts[i].0
    ensures parts[i].0 in Build(parts) && Build(parts)[parts[i].0] == parts[i].1
  {
    var n := |parts| - 1;
    if i < n {
      assert parts[n].0 != parts[i].0;
      BuildAt(parts[..n], i);
    }
  }

  lemma DocField(values: Values, i: nat)
    requires i < |values| && forall j :: i < j < |values| ==> values[j].0 != values[i].0
    ensures values[i].0 in Doc(values).fields && Field(Doc(values), values[i].0) == values[i].1
  {
    BuildAt(values, i);
  }

  lemma Lacking<T>(parts: seq<(string, T)>, key: string)
    requires forall i :: 0 <= i < |parts| ==> parts[i].0 != key
    ensures key !in Build(parts)
  {
    BuildKeys(parts, key);
  }

  lemma DocStorable(values: Values)
    requires forall i :: 0 <= i < |values| ==> Storable(values[i].1)
    ensures Storable(Doc(values))
  {
    forall k | k in Build(values) ensures Storable(Build(values)[k]) { BuildKeys(values, k); }
  }

  ghost predicate Fits(shape: Shape, d: Json) { Sound(shape) && NullsHeld(shape, d) }

  ghost predicate SlotFits(slot: Slot, d: Json, key: string) {
    (slot.missing == Default(Null) ==> key in FieldsOf(d)) && Fits(slot.shape, Field(d, key))
  }

  lemma FieldsFit(parts: Parts, d: Json)
    requires forall i :: 0 <= i < |parts| ==> SlotFits(parts[i].1, d, parts[i].0)
    ensures Fits(Fields(parts), d)
  {
    forall k | k in Build(parts) ensures SlotFits(Build(parts)[k], d, k) { BuildKeys(parts, k); }
  }

  // ---- Plain values --------------------------------------------------------------------------------

  function Texts(values: set<string>): Shape { Leaf((v: Json) => v.Str? && v.text in values) }

  function Whole(low: real, high: real): Shape {
    Leaf((v: Json) => v.Num? && v.number == v.number.Floor as real && low <= v.number <= high)
  }

  const TEXT: Shape := Leaf((v: Json) => v.Str?)
  const SOME_TEXT: Shape := Leaf((v: Json) => v.Str? && v.text != "")
  const SHORT_TEXT: Shape := Leaf((v: Json) => v.Str? && |v.text| <= 200)
  const TEXT_OR_NULL: Shape := Leaf((v: Json) => v.Str? || v.Null?)
  const FLAG: Shape := Leaf((v: Json) => v.Bool?)
  const POSITIVE: Shape := Leaf((v: Json) => v.Num? && v.number == v.number.Floor as real && v.number > 0.0)
  const ONE: Shape := Leaf((v: Json) => v == Num(1.0))

  function Needed(shape: Shape): Slot { Slot(shape, Required) }

  function Maybe(shape: Shape): Slot { Slot(shape, Optional) }

  function Else(shape: Shape, value: Json): Slot { Slot(shape, Default(value)) }

  /** A text that is empty unless given, and a stamp that is null until there is one. */
  const EMPTY_TEXT: Slot := Else(TEXT, Str(""))
  const NO_STAMP: Slot := Else(TEXT_OR_NULL, Null)

  // ---- Arrays ------------------------------------------------------------------------------------------

  const CHANNEL: Parts := [("id", Needed(TEXT)), ("handle", Needed(TEXT)), ("title", Needed(TEXT)),
                           ("uploadsPlaylistId", Needed(TEXT)), ("addedAt", Needed(TEXT))]
  const DECISION: Parts := [("id", Needed(SOME_TEXT)), ("kind", Needed(Texts({"enable", "disable"}))),
                            ("at", Needed(SOME_TEXT))]

  /** An array of such items, none of which the shape rewrites. */
  function ListOf(item: Shape): Shape {
    List((items: seq<Json>) => if forall i :: 0 <= i < |items| ==> Fixes(item, items[i]) then Some(items) else None)
  }

  // ---- The schema ------------------------------------------------------------------------------------------

  const PURPOSES: Parts :=
    [("personResearch", Maybe(SHORT_TEXT)), ("personProfileClaims", Maybe(SHORT_TEXT)),
     ("personDossierExtraction", Maybe(SHORT_TEXT)), ("researchPlanning", Maybe(SHORT_TEXT)),
     ("evaluationJudge", Maybe(SHORT_TEXT)), ("contentGeneration", Maybe(SHORT_TEXT)),
     ("contentDiscovery", Maybe(SHORT_TEXT)), ("contentResearch", Maybe(SHORT_TEXT)),
     ("meetingBrief", Maybe(SHORT_TEXT)), ("meetingDebrief", Maybe(SHORT_TEXT))]

  const PROVIDERS := {"openai", "anthropic", "openrouter", "gemini", "ollama", "mock"}

  const MODELS: Shape := Every((p: string) => p in PROVIDERS, Fields(PURPOSES))

  const GOOGLE: Parts :=
    [("clientId", Needed(TEXT)), ("clientSecret", Needed(TEXT)), ("refreshToken", Needed(TEXT_OR_NULL)),
     ("lastConnectedAt", NO_STAMP), ("hasExpiredBefore", Else(FLAG, Bool(false)))]

  const STAMPED_TOKEN: Values := [("token", Str("")), ("lastVerifiedAt", Null)]

  const NOTION: Parts := [("token", Needed(TEXT)), ("lastVerifiedAt", NO_STAMP)]

  const DRIVE: Parts :=
    [("enabled", Else(FLAG, Bool(false))), ("folderId", EMPTY_TEXT), ("folderName", EMPTY_TEXT),
     ("pollIntervalMinutes", Else(POSITIVE, Num(2.0)))]

  const EVIDENCE: Parts := [("reference", Needed(SOME_TEXT)), ("checksum", Needed(SOME_TEXT))]

  const RESTRICTED: Parts :=
    [("state", Needed(Texts({"restricted"}))), ("basis", Needed(SOME_TEXT)), ("since", Needed(TEXT_OR_NULL))]

  const RELEASED: Parts :=
    [("state", Needed(Texts({"released"}))), ("basis", Needed(SOME_TEXT)), ("since", NO_STAMP),
     ("releasedAt", Needed(SOME_TEXT)), ("evidence", Needed(Fields(EVIDENCE)))]

  const RELEASE: Shape := Tagged("state", map["restricted" := Fields(RESTRICTED), "released" := Fields(RELEASED)])

  const PROMOTION: Parts :=
    [("version", Needed(ONE)), ("release", Needed(RELEASE)), ("decisions", Needed(ListOf(Fields(DECISION))))]

  const RESTRICTED_YET: Values :=
    [("state", Str("restricted")), ("basis", Str("release-evidence-not-recorded")), ("since", Null)]

  const UNPROMOTED: Values := [("version", Num(1.0)), ("release", Doc(RESTRICTED_YET)), ("decisions", Arr([]))]

  const GOOGLE_TASKS: Parts :=
    [("enabled", Else(FLAG, Bool(false))), ("taskListId", EMPTY_TEXT), ("taskListTitle", EMPTY_TEXT)]

  const NO_GOOGLE_TASKS: Values := [("enabled", Bool(false)), ("taskListId", Str("")), ("taskListTitle", Str(""))]

  const ASANA: Parts :=
    [("token", EMPTY_TEXT), ("lastVerifiedAt", NO_STAMP), ("enabled", Else(FLAG, Bool(false))),
     ("workspaceGid", EMPTY_TEXT), ("workspaceName", EMPTY_TEXT), ("projectGid", EMPTY_TEXT),
     ("projectName", EMPTY_TEXT), ("sectionGid", NO_STAMP), ("sectionName", NO_STAMP)]

  const NO_ASANA: Values :=
    [("token", Str("")), ("lastVerifiedAt", Null), ("enabled", Bool(false)), ("workspaceGid", Str("")),
     ("workspaceName", Str("")), ("projectGid", Str("")), ("projectName", Str("")), ("sectionGid", Null),
     ("sectionName", Null)]

  const NO_TASKS: Values :=
    [("actionItemPolicy", Str("stage-all")), ("promotion", Doc(UNPROMOTED)), ("googleTasks", Doc(NO_GOOGLE_TASKS)),
     ("asana", Doc(NO_ASANA))]

  const TASKS: Parts :=
    [("actionItemPolicy", Else(Texts({"stage-all", "auto-create-mine"}), Str("stage-all"))),
     ("promotion", Else(Fields(PROMOTION), Doc(UNPROMOTED))), ("googleTasks", Else(Fields(GOOGLE_TASKS), Doc(NO_GOOGLE_TASKS))),
     ("asana", Else(Fields(ASANA), Doc(NO_ASANA)))]

  const OLLAMA_URL := "http://127.0.0.1:11434"

  const OLLAMA_HERE: Values := [("baseUrl", Str(OLLAMA_URL))]

  const OLLAMA: Parts := [("baseUrl", Else(TEXT, Str(OLLAMA_URL)))]

  const SEARCH: Parts := [("searxngUrl", Maybe(TEXT))]

  const POLICY: Parts :=
    [("version", Needed(ONE)), ("outputTokenCeiling", Needed(POSITIVE)), ("requestedEffort", Needed(SHORT_TEXT)),
     ("shapeStrategy", Needed(Texts({"full"})))]

  const FULL_POLICY: Values :=
    [("version", Num(1.0)), ("outputTokenCeiling", Num(65536.0)), ("requestedEffort", Str("low")),
     ("shapeStrategy", Str("full"))]

  const TRENDS: Parts :=
    [("channels", Else(ListOf(Fields(CHANNEL)), Arr([]))), ("spreadsheetId", EMPTY_TEXT), ("spreadsheetUrl", EMPTY_TEXT)]

  const NO_TRENDS: Values := [("channels", Arr([])), ("spreadsheetId", Str("")), ("spreadsheetUrl", Str(""))]

  const IDEAS: Parts :=
    [("spreadsheetId", EMPTY_TEXT), ("spreadsheetUrl", EMPTY_TEXT),
     ("prompts", Else(Every((k: string) => true, TEXT), Doc([])))]

  const NO_IDEAS: Values := [("spreadsheetId", Str("")), ("spreadsheetUrl", Str("")), ("prompts", Doc([]))]

  const SCOUTING: Parts :=
    [("timeZone", Else(TEXT, Str("UTC"))), ("dailyTime", Else(TEXT, Str("08:00"))),
     ("weeklyDiscoveryDay", Else(Whole(1.0, 7.0), Num(1.0))), ("weeklyDiscoveryTime", Else(TEXT, Str("09:00"))),
     ("shortlistSize", Else(Whole(3.0, 10.0), Num(5.0))), ("canaryIntervalHours", Else(Whole(1.0, 168.0), Num(12.0))),
     ("canaryDisabledAdapters", Else(ListOf(TEXT), Arr([])))]

  function Scouting(timeZone: string): Values {
    [("timeZone", Str(timeZone)), ("dailyTime", Str("08:00")), ("weeklyDiscoveryDay", Num(1.0)),
     ("weeklyDiscoveryTime", Str("09:00")), ("shortlistSize", Num(5.0)), ("canaryIntervalHours", Num(12.0)),
     ("canaryDisabledAdapters", Arr([]))]
  }

  const RESEARCHING: Parts :=
    [("timeZone", Else(TEXT, Str("UTC"))), ("dailyTime", Else(TEXT, Str("08:00"))),
     ("weeklyDiscoveryDay", Else(Whole(1.0, 7.0), Num(1.0))), ("weeklyDiscoveryTime", Else(TEXT, Str("09:00")))]

  function Researching(timeZone: string): Values {
    [("timeZone", Str(timeZone)), ("dailyTime", Str("08:00")), ("weeklyDiscoveryDay", Num(1.0)),
     ("weeklyDiscoveryTime", Str("09:00"))]
  }

  const PROVIDER_ACTION: Parts :=
    [("disabled", Needed(FLAG)), ("changedAt", Needed(TEXT)), ("reason", Needed(TEXT))]

  const NOTION_DEFAULTED: Parts := [("token", EMPTY_TEXT), ("lastVerifiedAt", NO_STAMP)]

  /** `domains` trims, lowers and deduplicates the internal domains. */
  function Briefing(domains: seq<Json> -> Option<seq<Json>>): Parts {
    [("internalDomains", Else(List(domains), Arr([]))), ("hubspot", Else(Fields(NOTION_DEFAULTED), Doc(STAMPED_TOKEN))),
     ("providerPolicy", Else(Every((k: string) => true, Fields(PROVIDER_ACTION)), Doc([])))]
  }

  const NO_BRIEFING: Values :=
    [("internalDomains", Arr([])), ("hubspot", Doc(STAMPED_TOKEN)), ("providerPolicy", Doc([]))]

  /** What the schema itself puts for missing Modules; their own defaults fill in the rest. */
  const NO_MODULES: Values :=
    [("youtube-trends", Doc(NO_TRENDS)), ("idea-engine", Doc(NO_IDEAS)), (SCOUT, Doc(Scouting("UTC"))),
     ("content-research", Doc(Researching("UTC"))),
     (BRIEFS, Doc([("internalDomains", Arr([])), ("hubspot", Doc(STAMPED_TOKEN))]))]

  function Modules(domains: seq<Json> -> Option<seq<Json>>): Parts {
    [("youtube-trends", Else(Fields(TRENDS), Doc(NO_TRENDS))), ("idea-engine", Else(Fields(IDEAS), Doc(NO_IDEAS))),
     (SCOUT, Else(Fields(SCOUTING), Doc(Scouting("UTC")))),
     ("content-research", Else(Fields(RESEARCHING), Doc(Researching("UTC")))),
     (BRIEFS, Else(Fields(Briefing(domains)), Doc(NO_BRIEFING)))]
  }

  /** The top of the schema, around its larger parts. */
  function Upper(models: Slot, google: Slot, notion: Slot): Parts {
    [("provider", Needed(Texts(PROVIDERS))), ("model", Needed(TEXT)), ("models", models), ("apiKey", Needed(TEXT)),
     ("tasklistName", Else(TEXT, Str("Meeting Followups"))), ("google", google), ("notion", notion)]
  }

  function Lower(drive: Slot, tasks: Slot, ollama: Slot, search: Slot, policy: Slot, modules: Slot): Parts {
    [("drive", drive), ("tasks", tasks), ("ollama", ollama), ("search", search), ("dossierExtractionPolicy", policy),
     ("modules", modules)]
  }

  function Slots(
    models: Slot, google: Slot, notion: Slot, drive: Slot, tasks: Slot, ollama: Slot, search: Slot, policy: Slot,
    modules: Slot): Parts
  {
    Upper(models, google, notion) + Lower(drive, tasks, ollama, search, policy, modules)
  }

  const NOTION_SLOT: Slot := Else(Fields(NOTION), Doc(STAMPED_TOKEN))
  const TASKS_SLOT: Slot := Else(Fields(TASKS), Doc(NO_TASKS))
  const SEARCH_SLOT: Slot := Else(Fields(SEARCH), Doc([]))
  const POLICY_SLOT: Slot := Else(Fields(POLICY), Doc(FULL_POLICY))

  function ModulesSlot(domains: seq<Json> -> Option<seq<Json>>): Slot { Else(Fields(Modules(domains)), Doc(NO_MODULES)) }

  function Schema(domains: seq<Json> -> Option<seq<Json>>): Shape {
    Fields(Slots(Maybe(MODELS), Needed(Fields(GOOGLE)), NOTION_SLOT, Needed(Fields(DRIVE)), TASKS_SLOT,
                 Needed(Fields(OLLAMA)), SEARCH_SLOT, POLICY_SLOT, ModulesSlot(domains)))
  }

  // ---- The defaults ----------------------------------------------------------------------------------------------

  const NO_GOOGLE: Values :=
    [("clientId", Str("")), ("clientSecret", Str("")), ("refreshToken", Null), ("lastConnectedAt", Null),
     ("hasExpiredBefore", Bool(false))]

  const NO_DRIVE: Values :=
    [("enabled", Bool(false)), ("folderId", Str("")), ("folderName", Str("")), ("pollIntervalMinutes", Num(2.0))]

  function ModuleDefaults(timeZone: string): Values {
    [("youtube-trends", Doc(NO_TRENDS)), ("idea-engine", Doc(NO_IDEAS)), (SCOUT, Doc(Scouting(timeZone))),
     ("content-research", Doc(Researching(timeZone))), (BRIEFS, Doc(NO_BRIEFING))]
  }

  /** The top of the default document, around its larger parts. */
  function Top(
    google: Json, notion: Json, drive: Json, tasks: Json, ollama: Json, search: Json, policy: Json, modules: Json): Values
  {
    [("provider", Str("openrouter")), ("model", Str("")), ("apiKey", Str("")),
     ("tasklistName", Str("Meeting Followups")), ("google", google), ("notion", notion), ("drive", drive),
     ("tasks", tasks), ("ollama", ollama), ("search", search), ("dossierExtractionPolicy", policy), ("modules", modules)]
  }

  function Defaults(timeZone: string): Json {
    Doc(Top(Doc(NO_GOOGLE), Doc(STAMPED_TOKEN), Doc(NO_DRIVE), Doc(NO_TASKS), Doc(OLLAMA_HERE), Doc([]), Doc(FULL_POLICY),
            Doc(ModuleDefaults(timeZone))))
  }

  // ---- The defaults are of the form the store relies on ---------------------------------------------------------

  lemma FlatStorable(values: Values)
    requires forall i :: 0 <= i < |values| ==> Plain(values[i].1) || values[i].1 == Arr([])
    ensures Storable(Doc(values))
  {
    DocStorable(values);
  }

  lemma NothingStorable() ensures Storable(Doc([])) { DocStorable([]); }

  lemma TokenStorable() ensures Storable(Doc(STAMPED_TOKEN)) { FlatStorable(STAMPED_TOKEN); }

  lemma TasksStorable()
    ensures Storable(Doc(NO_TASKS))
  {
    FlatStorable(RESTRICTED_YET);
    DocStorable(UNPROMOTED);
    FlatStorable(NO_GOOGLE_TASKS);
    FlatStorable(NO_ASANA);
    DocStorable(NO_TASKS);
  }

  lemma IdeasStorable()
    ensures Storable(Doc(NO_IDEAS))
  {
    NothingStorable();
    DocStorable(NO_IDEAS);
  }

  lemma BriefingStorable()
    ensures Storable(Doc(NO_BRIEFING))
  {
    TokenStorable();
    NothingStorable();
    DocStorable(NO_BRIEFING);
  }

  lemma ModulesStorable(timeZone: string)
    ensures Storable(Doc(ModuleDefaults(timeZone)))
  {
    FlatStorable(NO_TRENDS);
    IdeasStorable();
    FlatStorable(Scouting(timeZone));
    FlatStorable(Researching(timeZone));
    BriefingStorable();
    DocStorable(ModuleDefaults(timeZone));
  }

  lemma TopStorable(
    google: Json, notion: Json, drive: Json, tasks: Json, ollama: Json, search: Json, policy: Json, modules: Json)
    requires Storable(google) && Storable(notion) && Storable(drive) && Storable(tasks) && Storable(ollama)
    requires Storable(search) && Storable(policy) && Storable(modules)
    ensures Storable(Doc(Top(google, notion, drive, tasks, ollama, search, policy, modules)))
  {
    DocStorable(Top(google, notion, drive, tasks, ollama, search, policy, modules));
  }

  lemma DefaultsStorable(timeZone: string)
    ensures Storable(Defaults(timeZone))
  {
    FlatStorable(NO_GOOGLE);
    TokenStorable();
    FlatStorable(NO_DRIVE);
    TasksStorable();
    FlatStorable(OLLAMA_HERE);
    NothingStorable();
    FlatStorable(FULL_POLICY);
    ModulesStorable(timeZone);
    TopStorable(Doc(NO_GOOGLE), Doc(STAMPED_TOKEN), Doc(NO_DRIVE), Doc(NO_TASKS), Doc(OLLAMA_HERE), Doc([]), Doc(FULL_POLICY),
                Doc(ModuleDefaults(timeZone)));
  }

  lemma TopFields(
    google: Json, notion: Json, drive: Json, tasks: Json, ollama: Json, search: Json, policy: Json, modules: Json)
    ensures var d := Doc(Top(google, notion, drive, tasks, ollama, search, policy, modules));
      && "apiKey" in d.fields && d.fields["apiKey"] == Str("") && Field(d, "google") == google
      && Field(d, "notion") == notion && Field(d, "tasks") == tasks && Field(d, "modules") == modules
  {
    var top := Top(google, notion, drive, tasks, ollama, search, policy, modules);
    DocField(top, 2);
    DocField(top, 4);
    DocField(top, 5);
    DocField(top, 7);
    DocField(top, 11);
  }

  lemma TopLacks(
    google: Json, notion: Json, drive: Json, tasks: Json, ollama: Json, search: Json, policy: Json, modules: Json)
    ensures var fields := Doc(Top(google, notion, drive, tasks, ollama, search, policy, modules)).fields;
      "models" !in fields && "fireflies" !in fields && "watch" !in fields
  {
    var top := Top(google, notion, drive, tasks, ollama, search, policy, modules);
    assert forall i :: 0 <= i < |top| ==> top[i].0 != "models" by { assert "models"[4] == 'l' && "modules"[4] == 'l'; }
    assert forall i :: 0 <= i < |top| ==> top[i].0 != "watch" by {
      assert "watch"[0] == 'w' && "model"[0] == 'm' && "drive"[0] == 'd' && "tasks"[0] == 't';
    }
    Lacking(top, "models");
    Lacking(top, "fireflies");
    Lacking(top, "watch");
  }

  lemma DefaultFields(timeZone: string)
    ensures var d := Defaults(timeZone);
      && "apiKey" in d.fields && d.fields["apiKey"] == Str("") && Field(d, "google") == Doc(NO_GOOGLE)
      && Field(d, "notion") == Doc(STAMPED_TOKEN) && Field(d, "tasks") == Doc(NO_TASKS)
      && Field(d, "modules") == Doc(ModuleDefaults(timeZone))
  {
    TopFields(Doc(NO_GOOGLE), Doc(STAMPED_TOKEN), Doc(NO_DRIVE), Doc(NO_TASKS), Doc(OLLAMA_HERE), Doc([]), Doc(FULL_POLICY),
              Doc(ModuleDefaults(timeZone)));
  }

  lemma DefaultsLack(timeZone: string)
    ensures var fields := Defaults(timeZone).fields; "models" !in fields && "fireflies" !in fields && "watch" !in fields
  {
    TopLacks(Doc(NO_GOOGLE), Doc(STAMPED_TOKEN), Doc(NO_DRIVE), Doc(NO_TASKS), Doc(OLLAMA_HERE), Doc([]), Doc(FULL_POLICY),
             Doc(ModuleDefaults(timeZone)));
  }

  lemma ModuleFields(trends: Json, ideas: Json, scouting: Json, researching: Json, briefing: Json)
    ensures var d := Doc([("youtube-trends", trends), ("idea-engine", ideas), (SCOUT, scouting),
                          ("content-research", researching), (BRIEFS, briefing)]);
      Field(d, SCOUT) == scouting && Field(d, BRIEFS) == briefing
  {
    var values := [("youtube-trends", trends), ("idea-engine", ideas), (SCOUT, scouting),
                   ("content-research", researching), (BRIEFS, briefing)];
    assert |BRIEFS| != |SCOUT| && |"content-research"| != |SCOUT|;
    DocField(values, 2);
    DocField(values, 4);
  }

  lemma ModulesCurrent(timeZone: string)
    ensures "guestProfile" !in FieldsOf(Field(Doc(ModuleDefaults(timeZone)), BRIEFS))
    ensures "notion" !in FieldsOf(Field(Doc(ModuleDefaults(timeZone)), SCOUT))
  {
    ModuleFields(Doc(NO_TRENDS), Doc(NO_IDEAS), Doc(Scouting(timeZone)), Doc(Researching(timeZone)), Doc(NO_BRIEFING));
    Lacking(NO_BRIEFING, "guestProfile");
    Lacking(Scouting(timeZone), "notion");
  }

  lemma GoogleFields()
    ensures "clientId" in Doc(NO_GOOGLE).fields && Field(Doc(NO_GOOGLE), "clientId") == Str("")
    ensures "clientSecret" in Doc(NO_GOOGLE).fields && Field(Doc(NO_GOOGLE), "clientSecret") == Str("")
    ensures "lastConnectedAt" in Doc(NO_GOOGLE).fields
  {
    DocField(NO_GOOGLE, 0);
    DocField(NO_GOOGLE, 1);
    DocField(NO_GOOGLE, 3);
  }

  lemma DefaultsFit(timeZone: string)
    ensures DefaultsShaped(Defaults(timeZone)) && DefaultsCurrent(Defaults(timeZone))
  {
    DefaultsStorable(timeZone);
    DefaultFields(timeZone);
    DefaultsLack(timeZone);
    ModulesCurrent(timeZone);
    GoogleFields();
  }

  // ---- The schema is of the kind the store relies on --------------------------------------------------------------

  /** A plain value, or an object of plain values that are all demanded. */
  predicate Flat(shape: Shape) {
    shape.Leaf?
    || (shape.Strict? && forall k :: k in shape.slots ==> shape.slots[k].missing.Required? && shape.slots[k].shape.Leaf?)
  }

  lemma FlatParts(parts: Parts)
    requires forall i :: 0 <= i < |parts| ==> parts[i].1.missing.Required? && parts[i].1.shape.Leaf?
    ensures Flat(Fields(parts))
  {
    forall k | k in Build(parts) ensures Build(parts)[k].missing.Required? && Build(parts)[k].shape.Leaf? { BuildKeys(parts, k); }
  }

  lemma FixedStorable(shape: Shape, v: Json)
    requires Flat(shape) && Fixes(shape, v)
    ensures Storable(v)
  {
    if shape.Strict? {
      FixesStrictly(shape.slots, v);
      forall k | k in v.fields ensures Storable(v.fields[k]) { assert FixesSlot(shape.slots, v.fields, k); }
    }
  }

  lemma ListFits(item: Shape, d: Json)
    requires Flat(item)
    ensures Fits(ListOf(item), d)
  {
    forall items | ListOf(item).read(items).Some? ensures Storable(Arr(items)) {
      forall i | 0 <= i < |items| ensures Storable(items[i]) { FixedStorable(item, items[i]); }
    }
  }

  /** Plain values, none of which is null where the defaults hold nothing. */
  lemma LeavesFit(parts: Parts, d: Json)
    requires forall i :: 0 <= i < |parts| ==>
      parts[i].1.shape.Leaf? && (parts[i].1.missing == Default(Null) ==> parts[i].0 in FieldsOf(d))
    ensures Fits(Fields(parts), d)
  {
    FieldsFit(parts, d);
  }

  lemma EveryFits(known: string -> bool, parts: Parts, d: Json)
    requires forall i :: 0 <= i < |parts| ==> parts[i].1.shape.Leaf? && parts[i].1.missing != Default(Null)
    ensures Fits(Every(known, Fields(parts)), d)
  {
    LeavesFit(parts, Undefined);
    forall k | k in FieldsOf(d) ensures NullsHeld(Fields(parts), Field(d, k)) { LeavesFit(parts, Field(d, k)); }
  }

  lemma GoogleFits()
    ensures Fits(Fields(GOOGLE), Doc(NO_GOOGLE))
  {
    GoogleFields();
    LeavesFit(GOOGLE, Doc(NO_GOOGLE));
  }

  lemma TokenFits()
    ensures Fits(Fields(NOTION), Doc(STAMPED_TOKEN)) && Fits(Fields(NOTION_DEFAULTED), Doc(STAMPED_TOKEN))
  {
    DocField(STAMPED_TOKEN, 1);
    LeavesFit(NOTION, Doc(STAMPED_TOKEN));
    LeavesFit(NOTION_DEFAULTED, Doc(STAMPED_TOKEN));
  }

  lemma AsanaFits()
    ensures Fits(Fields(ASANA), Doc(NO_ASANA))
  {
    DocField(NO_ASANA, 1);
    DocField(NO_ASANA, 7);
    DocField(NO_ASANA, 8);
    LeavesFit(ASANA, Doc(NO_ASANA));
  }

  lemma ReleasedFits(d: Json)
    requires "since" in FieldsOf(d)
    ensures Fits(Fields(RELEASED), d) && "state" in Build(RELEASED) && Build(RELEASED)["state"].shape.Leaf?
  {
    LeavesFit(EVIDENCE, Field(d, "evidence"));
    FieldsFit(RELEASED, d);
    BuildAt(RELEASED, 0);
  }

  lemma RestrictedFits(d: Json)
    ensures Fits(Fields(RESTRICTED), d) && "state" in Build(RESTRICTED) && Build(RESTRICTED)["state"].shape.Leaf?
  {
    LeavesFit(RESTRICTED, d);
    BuildAt(RESTRICTED, 0);
  }

  lemma ReleaseFits(d: Json)
    requires "since" in FieldsOf(d)
    ensures Fits(RELEASE, d)
  {
    ReleasedFits(d);
    RestrictedFits(d);
  }

  lemma PromotionSlots(release: Shape, decisions: Shape, d: Json)
    requires Fits(release, Field(d, "release")) && Fits(decisions, Field(d, "decisions"))
    ensures Fits(Fields([("version", Needed(ONE)), ("release", Needed(release)), ("decisions", Needed(decisions))]), d)
  {
    FieldsFit([("version", Needed(ONE)), ("release", Needed(release)), ("decisions", Needed(decisions))], d);
  }

  lemma UnpromotedSince()
    ensures "since" in FieldsOf(Field(Doc(UNPROMOTED), "release"))
  {
    DocField(UNPROMOTED, 1);
    DocField(RESTRICTED_YET, 2);
  }

  lemma PromotionFits()
    ensures Fits(Fields(PROMOTION), Doc(UNPROMOTED))
  {
    UnpromotedSince();
    ReleaseFits(Field(Doc(UNPROMOTED), "release"));
    FlatParts(DECISION);
    ListFits(Fields(DECISION), Field(Doc(UNPROMOTED), "decisions"));
    PromotionSlots(RELEASE, ListOf(Fields(DECISION)), Doc(UNPROMOTED));
  }

  lemma TasksSlots(promotion: Slot, googleTasks: Slot, asana: Slot, d: Json)
    requires SlotFits(promotion, d, "promotion") && SlotFits(googleTasks, d, "googleTasks") && SlotFits(asana, d, "asana")
    ensures Fits(Fields([("actionItemPolicy", Else(Texts({"stage-all", "auto-create-mine"}), Str("stage-all"))),
                         ("promotion", promotion), ("googleTasks", googleTasks), ("asana", asana)]), d)
  {
    FieldsFit([("actionItemPolicy", Else(Texts({"stage-all", "auto-create-mine"}), Str("stage-all"))),
               ("promotion", promotion), ("googleTasks", googleTasks), ("asana", asana)], d);
  }

  lemma NoTasksFields()
    ensures Field(Doc(NO_TASKS), "promotion") == Doc(UNPROMOTED)
    ensures Field(Doc(NO_TASKS), "googleTasks") == Doc(NO_GOOGLE_TASKS) && Field(Doc(NO_TASKS), "asana") == Doc(NO_ASANA)
  {
    DocField(NO_TASKS, 1);
    DocField(NO_TASKS, 2);
    DocField(NO_TASKS, 3);
  }

  lemma GoogleTasksFit()
    ensures Fits(Fields(GOOGLE_TASKS), Doc(NO_GOOGLE_TASKS))
  {
    LeavesFit(GOOGLE_TASKS, Doc(NO_GOOGLE_TASKS));
  }

  lemma TasksSlotsFit()
    ensures SlotFits(Else(Fields(PROMOTION), Doc(UNPROMOTED)), Doc(NO_TASKS), "promotion")
    ensures SlotFits(Else(Fields(GOOGLE_TASKS), Doc(NO_GOOGLE_TASKS)), Doc(NO_TASKS), "googleTasks")
    ensures SlotFits(Else(Fields(ASANA), Doc(NO_ASANA)), Doc(NO_TASKS), "asana")
  {
    NoTasksFields();
    PromotionFits();
    GoogleTasksFit();
    AsanaFits();
  }

  lemma TasksFit()
    ensures Fits(Fields(TASKS), Doc(NO_TASKS))
  {
    TasksSlotsFit();
    TasksSlots(Else(Fields(PROMOTION), Doc(UNPROMOTED)), Else(Fields(GOOGLE_TASKS), Doc(NO_GOOGLE_TASKS)),
               Else(Fields(ASANA), Doc(NO_ASANA)), Doc(NO_TASKS));
  }

  lemma TrendsFit(d: Json)
    ensures Fits(Fields(TRENDS), d)
  {
    FlatParts(CHANNEL);
    ListFits(Fields(CHANNEL), Field(d, "channels"));
    FieldsFit(TRENDS, d);
  }

  lemma IdeasFit(d: Json)
    ensures Fits(Fields(IDEAS), d)
  {
    FieldsFit(IDEAS, d);
  }


  lemma ScoutingSlots(zone: Slot, time: Slot, day: Slot, weekly: Slot, size: Slot, interval: Slot, adapters: Slot, d: Json)
    requires SlotFits(zone, d, "timeZone") && SlotFits(time, d, "dailyTime") && SlotFits(day, d, "weeklyDiscoveryDay")
    requires SlotFits(weekly, d, "weeklyDiscoveryTime") && SlotFits(size, d, "shortlistSize")
    requires SlotFits(interval, d, "canaryIntervalHours") && SlotFits(adapters, d, "canaryDisabledAdapters")
    ensures Fits(Fields([("timeZone", zone), ("dailyTime", time), ("weeklyDiscoveryDay", day), ("weeklyDiscoveryTime", weekly),
                         ("shortlistSize", size), ("canaryIntervalHours", interval), ("canaryDisabledAdapters", adapters)]), d)
  {
    FieldsFit([("timeZone", zone), ("dailyTime", time), ("weeklyDiscoveryDay", day), ("weeklyDiscoveryTime", weekly),
               ("shortlistSize", size), ("canaryIntervalHours", interval), ("canaryDisabledAdapters", adapters)], d);
  }

  lemma ScoutingFits(d: Json)
    ensures Fits(Fields(SCOUTING), d)
  {
    ListFits(TEXT, Field(d, "canaryDisabledAdapters"));
    ScoutingSlots(Else(TEXT, Str("UTC")), Else(TEXT, Str("08:00")), Else(Whole(1.0, 7.0), Num(1.0)), Else(TEXT, Str("09:00")),
                  Else(Whole(3.0, 10.0), Num(5.0)), Else(Whole(1.0, 168.0), Num(12.0)), Else(ListOf(TEXT), Arr([])), d);
  }

  lemma ScoutingLacks()
    ensures "notion" !in Build(SCOUTING)
  {
    Lacking(SCOUTING, "notion");
  }

  lemma BriefingSlots(internalDomains: Slot, hubspot: Slot, policy: Slot, d: Json)
    requires SlotFits(internalDomains, d, "internalDomains") && SlotFits(hubspot, d, "hubspot")
    requires SlotFits(policy, d, "providerPolicy")
    ensures Fits(Fields([("internalDomains", internalDomains), ("hubspot", hubspot), ("providerPolicy", policy)]), d)
  {
    FieldsFit([("internalDomains", internalDomains), ("hubspot", hubspot), ("providerPolicy", policy)], d);
  }

  lemma ActionsFit(d: Json)
    ensures Fits(Every((k: string) => true, Fields(PROVIDER_ACTION)), d)
  {
    EveryFits((k: string) => true, PROVIDER_ACTION, d);
  }

  lemma HubspotFits()
    ensures SlotFits(Else(Fields(NOTION_DEFAULTED), Doc(STAMPED_TOKEN)), Doc(NO_BRIEFING), "hubspot")
  {
    DocField(NO_BRIEFING, 1);
    TokenFits();
  }

  lemma BriefingFits(domains: seq<Json> -> Option<seq<Json>>)
    requires Sound(List(domains))
    ensures Fits(Fields(Briefing(domains)), Doc(NO_BRIEFING))
  {
    var d := Doc(NO_BRIEFING);
    ActionsFit(Field(d, "providerPolicy"));
    HubspotFits();
    BriefingSlots(Else(List(domains), Arr([])), Else(Fields(NOTION_DEFAULTED), Doc(STAMPED_TOKEN)),
                  Else(Every((k: string) => true, Fields(PROVIDER_ACTION)), Doc([])), d);
  }

  lemma BriefingLacks(domains: seq<Json> -> Option<seq<Json>>)
    ensures "guestProfile" !in Build(Briefing(domains))
  {
    Lacking(Briefing(domains), "guestProfile");
  }

  lemma ModuleSlots(trends: Slot, ideas: Slot, scouting: Slot, researching: Slot, briefing: Slot, d: Json)
    requires SlotFits(trends, d, "youtube-trends") && SlotFits(ideas, d, "idea-engine") && SlotFits(scouting, d, SCOUT)
    requires SlotFits(researching, d, "content-research") && SlotFits(briefing, d, BRIEFS)
    ensures Fits(Fields([("youtube-trends", trends), ("idea-engine", ideas), (SCOUT, scouting),
                         ("content-research", researching), (BRIEFS, briefing)]), d)
  {
    FieldsFit([("youtube-trends", trends), ("idea-engine", ideas), (SCOUT, scouting),
               ("content-research", researching), (BRIEFS, briefing)], d);
  }

  lemma ResearchingFits(d: Json) ensures Fits(Fields(RESEARCHING), d) { LeavesFit(RESEARCHING, d); }

  lemma BriefingHeld(domains: seq<Json> -> Option<seq<Json>>, timeZone: string)
    requires Sound(List(domains))
    ensures SlotFits(Else(Fields(Briefing(domains)), Doc(NO_BRIEFING)), Doc(ModuleDefaults(timeZone)), BRIEFS)
  {
    DocField(ModuleDefaults(timeZone), 4);
    BriefingFits(domains);
  }

  lemma ModulesFit(domains: seq<Json> -> Option<seq<Json>>, timeZone: string)
    requires Sound(List(domains))
    ensures Fits(Fields(Modules(domains)), Doc(ModuleDefaults(timeZone)))
  {
    var d := Doc(ModuleDefaults(timeZone));
    TrendsFit(Field(d, "youtube-trends"));
    IdeasFit(Field(d, "idea-engine"));
    ScoutingFits(Field(d, SCOUT));
    ResearchingFits(Field(d, "content-research"));
    BriefingHeld(domains, timeZone);
    ModuleSlots(Else(Fields(TRENDS), Doc(NO_TRENDS)), Else(Fields(IDEAS), Doc(NO_IDEAS)),
                Else(Fields(SCOUTING), Doc(Scouting("UTC"))), Else(Fields(RESEARCHING), Doc(Researching("UTC"))),
                Else(Fields(Briefing(domains)), Doc(NO_BRIEFING)), d);
  }

  lemma ModuleLacks(trends: Slot, ideas: Slot, scouting: Slot, researching: Slot, briefing: Slot)
    requires scouting.shape.Strict? && "notion" !in scouting.shape.slots
    requires briefing.shape.Strict? && "guestProfile" !in briefing.shape.slots
    ensures var slots := Build([("youtube-trends", trends), ("idea-engine", ideas), (SCOUT, scouting),
                                ("content-research", researching), (BRIEFS, briefing)]);
      Lacks(slots, BRIEFS, "guestProfile") && Lacks(slots, SCOUT, "notion")
  {
    var parts := [("youtube-trends", trends), ("idea-engine", ideas), (SCOUT, scouting),
                  ("content-research", researching), (BRIEFS, briefing)];
    assert |BRIEFS| != |SCOUT| && |"content-research"| != |SCOUT|;
    BuildAt(parts, 4);
    BuildAt(parts, 2);
  }

  lemma ModulesLack(domains: seq<Json> -> Option<seq<Json>>)
    ensures Lacks(Build(Modules(domains)), BRIEFS, "guestProfile") && Lacks(Build(Modules(domains)), SCOUT, "notion")
  {
    ScoutingLacks();
    BriefingLacks(domains);
    ModuleLacks(Else(Fields(TRENDS), Doc(NO_TRENDS)), Else(Fields(IDEAS), Doc(NO_IDEAS)),
                Else(Fields(SCOUTING), Doc(Scouting("UTC"))), Else(Fields(RESEARCHING), Doc(Researching("UTC"))),
                Else(Fields(Briefing(domains)), Doc(NO_BRIEFING)));
  }

  // ---- The whole ----------------------------------------------------------------------------------------------------

  lemma BothFit(upper: Parts, lower: Parts, d: Json)
    requires forall i :: 0 <= i < |upper| ==> SlotFits(upper[i].1, d, upper[i].0)
    requires forall i :: 0 <= i < |lower| ==> SlotFits(lower[i].1, d, lower[i].0)
    ensures Fits(Fields(upper + lower), d)
  {
    FieldsFit(upper + lower, d);
  }

  lemma UpperFits(models: Slot, google: Slot, notion: Slot, d: Json, i: nat)
    requires SlotFits(models, d, "models") && SlotFits(google, d, "google") && SlotFits(notion, d, "notion")
    requires i < |Upper(models, google, notion)|
    ensures SlotFits(Upper(models, google, notion)[i].1, d, Upper(models, google, notion)[i].0)
  {
  }

  lemma LowerFits(drive: Slot, tasks: Slot, ollama: Slot, search: Slot, policy: Slot, modules: Slot, d: Json, i: nat)
    requires SlotFits(drive, d, "drive") && SlotFits(tasks, d, "tasks") && SlotFits(ollama, d, "ollama")
    requires SlotFits(search, d, "search") && SlotFits(policy, d, "dossierExtractionPolicy") && SlotFits(modules, d, "modules")
    requires i < |Lower(drive, tasks, ollama, search, policy, modules)|
    ensures var lower := Lower(drive, tasks, ollama, search, policy, modules); SlotFits(lower[i].1, d, lower[i].0)
  {
  }

  lemma SlotsFit(
    models: Slot, google: Slot, notion: Slot, drive: Slot, tasks: Slot, ollama: Slot, search: Slot, policy: Slot,
    modules: Slot, d: Json)
    requires SlotFits(models, d, "models") && SlotFits(google, d, "google") && SlotFits(notion, d, "notion")
    requires SlotFits(drive, d, "drive") && SlotFits(tasks, d, "tasks") && SlotFits(ollama, d, "ollama")
    requires SlotFits(search, d, "search") && SlotFits(policy, d, "dossierExtractionPolicy") && SlotFits(modules, d, "modules")
    ensures Fits(Fields(Slots(models, google, notion, drive, tasks, ollama, search, policy, modules)), d)
  {
    var upper, lower := Upper(models, google, notion), Lower(drive, tasks, ollama, search, policy, modules);
    forall i | 0 <= i < |upper| ensures SlotFits(upper[i].1, d, upper[i].0) { UpperFits(models, google, notion, d, i); }
    forall i | 0 <= i < |lower| ensures SlotFits(lower[i].1, d, lower[i].0) {
      LowerFits(drive, tasks, ollama, search, policy, modules, d, i);
    }
    BothFit(upper, lower, d);
  }

  lemma SlotFields(
    models: Slot, google: Slot, notion: Slot, drive: Slot, tasks: Slot, ollama: Slot, search: Slot, policy: Slot,
    modules: Slot)
    ensures var slots := Build(Slots(models, google, notion, drive, tasks, ollama, search, policy, modules));
      && "model" in slots && slots["model"] == Needed(TEXT) && "apiKey" in slots && slots["apiKey"] == Needed(TEXT)
      && "models" in slots && slots["models"] == models && "google" in slots && slots["google"] == google
      && "modules" in slots && slots["modules"] == modules
  {
    var slots := Slots(models, google, notion, drive, tasks, ollama, search, policy, modules);
    assert "models"[4] == 'l' && "modules"[4] == 'l';
    BuildAt(slots, 1);
    BuildAt(slots, 2);
    BuildAt(slots, 3);
    BuildAt(slots, 5);
    BuildAt(slots, 12);
  }

  lemma SlotsLack(
    models: Slot, google: Slot, notion: Slot, drive: Slot, tasks: Slot, ollama: Slot, search: Slot, policy: Slot,
    modules: Slot)
    ensures var slots := Build(Slots(models, google, notion, drive, tasks, ollama, search, policy, modules));
      "fireflies" !in slots && "watch" !in slots
  {
    var slots := Slots(models, google, notion, drive, tasks, ollama, search, policy, modules);
    Lacking(slots, "fireflies");
    Lacking(slots, "watch");
  }

  lemma ModelsFit(d: Json) ensures Fits(MODELS, d) { EveryFits((p: string) => p in PROVIDERS, PURPOSES, d); }

  lemma DriveFits(d: Json) ensures Fits(Fields(DRIVE), d) { LeavesFit(DRIVE, d); }

  lemma OllamaFits(d: Json) ensures Fits(Fields(OLLAMA), d) { LeavesFit(OLLAMA, d); }

  lemma SearchFits(d: Json) ensures Fits(Fields(SEARCH), d) { LeavesFit(SEARCH, d); }

  lemma PolicyFits(d: Json) ensures Fits(Fields(POLICY), d) { LeavesFit(POLICY, d); }

  lemma SchemaFits(domains: seq<Json> -> Option<seq<Json>>, timeZone: string)
    requires Sound(List(domains))
    ensures Fits(Schema(domains), Defaults(timeZone))
  {
    var d := Defaults(timeZone);
    DefaultFields(timeZone);
    ModelsFit(Field(d, "models"));
    GoogleFits();
    TokenFits();
    DriveFits(Field(d, "drive"));
    TasksFit();
    OllamaFits(Field(d, "ollama"));
    SearchFits(Field(d, "search"));
    PolicyFits(Field(d, "dossierExtractionPolicy"));
    ModulesFit(domains, timeZone);
    SlotsFit(Maybe(MODELS), Needed(Fields(GOOGLE)), NOTION_SLOT, Needed(Fields(DRIVE)), TASKS_SLOT,
             Needed(Fields(OLLAMA)), SEARCH_SLOT, POLICY_SLOT, ModulesSlot(domains), d);
  }

  lemma SchemaFields(domains: seq<Json> -> Option<seq<Json>>)
    ensures var slots := Schema(domains).slots;
      && "model" in slots && slots["model"] == Needed(TEXT) && "apiKey" in slots && slots["apiKey"] == Needed(TEXT)
      && "models" in slots && slots["models"] == Maybe(MODELS) && "google" in slots && slots["google"] == Needed(Fields(GOOGLE))
      && "modules" in slots && slots["modules"] == ModulesSlot(domains)
  {
    SlotFields(Maybe(MODELS), Needed(Fields(GOOGLE)), NOTION_SLOT, Needed(Fields(DRIVE)), TASKS_SLOT,
               Needed(Fields(OLLAMA)), SEARCH_SLOT, POLICY_SLOT, ModulesSlot(domains));
  }

  lemma SchemaLacks(domains: seq<Json> -> Option<seq<Json>>)
    ensures "fireflies" !in Schema(domains).slots && "watch" !in Schema(domains).slots
  {
    SlotsLack(Maybe(MODELS), Needed(Fields(GOOGLE)), NOTION_SLOT, Needed(Fields(DRIVE)), TASKS_SLOT,
              Needed(Fields(OLLAMA)), SEARCH_SLOT, POLICY_SLOT, ModulesSlot(domains));
  }

  lemma PurposesTake()
    ensures ModelsShaped(MODELS)
  {
    BuildAt(PURPOSES, 0);
    BuildAt(PURPOSES, 1);
    BuildAt(PURPOSES, 2);
    forall x | Fixes(SHORT_TEXT, x) ensures !x.Undefined? {}
  }

  lemma GoogleTakes()
    ensures Takes(Build(GOOGLE), "clientId", Str("")) && Takes(Build(GOOGLE), "clientSecret", Str(""))
  {
    BuildAt(GOOGLE, 0);
    BuildAt(GOOGLE, 1);
  }

  lemma ShapedOf(shape: Shape, d: Json, google: map<string, Slot>, modules: Slot)
    requires DefaultsShaped(d) && shape.Strict? && Fits(shape, d)
    requires var slots := shape.slots;
      && "model" in slots && slots["model"] == Needed(TEXT) && "apiKey" in slots && slots["apiKey"] == Needed(TEXT)
      && "models" in slots && slots["models"] == Maybe(MODELS) && "google" in slots && slots["google"] == Needed(Strict(google))
      && "modules" in slots && slots["modules"] == modules && "fireflies" !in slots && "watch" !in slots
    requires ModelsShaped(MODELS) && d.fields["apiKey"] == Str("")
    requires Takes(google, "clientId", Field(Field(d, "google"), "clientId"))
    requires Takes(google, "clientSecret", Field(Field(d, "google"), "clientSecret"))
    requires modules.shape.Strict?
    requires Lacks(modules.shape.slots, BRIEFS, "guestProfile") && Lacks(modules.shape.slots, SCOUT, "notion")
    ensures ConfigShaped(shape, d)
  {
  }

  /** The repository's schema is of the kind the store relies on, and so are its defaults. */
  lemma SchemaShaped(domains: seq<Json> -> Option<seq<Json>>, timeZone: string)
    requires Sound(List(domains))
    ensures ConfigShaped(Schema(domains), Defaults(timeZone)) && DefaultsCurrent(Defaults(timeZone))
  {
    DefaultsFit(timeZone);
    DefaultFields(timeZone);
    GoogleFields();
    SchemaFits(domains, timeZone);
    SchemaFields(domains);
    SchemaLacks(domains);
    PurposesTake();
    GoogleTakes();
    ModulesLack(domains);
    ShapedOf(Schema(domains), Defaults(timeZone), Build(GOOGLE), ModulesSlot(domains));
  }

  // ---- Internal domains ---------------------------------------------------------------------------------------------

  /** Each domain tidied, the empty ones dropped, and the first of each kept. `tidy` trims and lowers. */
  function Normalized(tidy: string -> string, items: seq<Json>): seq<Json> {
    if items == [] then []
    else
      var rest, last := Normalized(tidy, items[..|items| - 1]), items[|items| - 1];
      if !last.Str? || tidy(last.text) == "" || Str(tidy(last.text)) in rest then rest else rest + [Str(tidy(last.text))]
  }

  function Domains(tidy: string -> string): seq<Json> -> Option<seq<Json>> {
    (items: seq<Json>) => if forall i :: 0 <= i < |items| ==> items[i].Str? then Some(Normalized(tidy, items)) else None
  }

  predicate Tidy(tidy: string -> string, items: seq<Json>) {
    && (forall i :: 0 <= i < |items| ==> items[i].Str? && items[i].text != "" && tidy(items[i].text) == items[i].text)
    && (forall i, j :: 0 <= i < j < |items| ==> items[i] != items[j])
  }

  ghost predicate Settles(tidy: string -> string) { forall t :: tidy(tidy(t)) == tidy(t) }

  lemma {:induction false} NormalizedTidy(tidy: string -> string, items: seq<Json>)
    requires Settles(tidy)
    ensures Tidy(tidy, Normalized(tidy, items))
  {
    if items != [] { NormalizedTidy(tidy, items[..|items| - 1]); }
  }

  lemma {:induction false} TidyStays(tidy: string -> string, items: seq<Json>)
    requires Tidy(tidy, items)
    ensures Normalized(tidy, items) == items
  {
    if items != [] {
      TidyStays(tidy, items[..|items| - 1]);
      assert items == items[..|items| - 1] + [items[|items| - 1]];
    }
  }

  lemma DomainsSound(tidy: string -> string)
    requires Settles(tidy)
    ensures Sound(List(Domains(tidy)))
  {
    forall items | Domains(tidy)(items).Some?
      ensures Domains(tidy)(Domains(tidy)(items).value) == Domains(tidy)(items) && Storable(Arr(Domains(tidy)(items).value))
    {
      NormalizedTidy(tidy, items);
      TidyStays(tidy, Normalized(tidy, items));
    }
  }

  // ---- The store ------------------------------------------------------------------------------------------------------

  /** The configuration store's own setup: how text is stored, where it runs, and each provider's default model. */
  function AppSetup(codec: Codec, timeZone: string, tidy: string -> string, defaultModel: string -> string): Setup {
    Setup(codec, Defaults(timeZone), (v: Json) => Parse(Schema(Domains(tidy)), v), defaultModel)
  }

  lemma AppReads(codec: Codec, timeZone: string, tidy: string -> string, defaultModel: string -> string)
    ensures Reads(AppSetup(codec, timeZone, tidy, defaultModel), Schema(Domains(tidy)))
  {
  }

  lemma AppShaped(codec: Codec, timeZone: string, tidy: string -> string, defaultModel: string -> string)
    requires Settles(tidy)
    ensures Shaped(AppSetup(codec, timeZone, tidy, defaultModel), Schema(Domains(tidy)))
  {
    DomainsSound(tidy);
    AppReads(codec, timeZone, tidy, defaultModel);
    SchemaShaped(Domains(tidy), timeZone);
    assert AppSetup(codec, timeZone, tidy, defaultModel).defaults == Defaults(timeZone);
  }

  /** Every configuration file that loads stays, and has every default's key. */
  lemma AppLoadStays(
    codec: Codec, timeZone: string, tidy: string -> string, defaultModel: string -> string,
    document: Option<string>, stored: Json, env: Installation)
    requires Settles(tidy)
    ensures LoadStays(AppSetup(codec, timeZone, tidy, defaultModel), document, stored, env)
  {
    AppShaped(codec, timeZone, tidy, defaultModel);
    LoadedStays(AppSetup(codec, timeZone, tidy, defaultModel), Schema(Domains(tidy)), document, stored, env);
  }

  /** So does every update that is admitted and does not clash with the defaults. */
  lemma AppUpdateStays(
    codec: Codec, timeZone: string, tidy: string -> string, defaultModel: string -> string,
    current: Json, patch: Json, env: Installation)
    requires Settles(tidy)
    ensures UpdateStays(AppSetup(codec, timeZone, tidy, defaultModel), current, patch, env)
  {
    AppShaped(codec, timeZone, tidy, defaultModel);
    UpdatedStays(AppSetup(codec, timeZone, tidy, defaultModel), Schema(Domains(tidy)), current, patch, env);
  }
}
