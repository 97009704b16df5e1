/** The tools the MCP server offers, with the schemas of their arguments. */
module McpTools {
  import opened Outcomes
  import opened JsonValues
  import opened ToolSchemas

  const ANY_TEXT := ANYTHING.(types := Some(["string"]))
  const TEXT_OR_NULL := ANYTHING.(types := Some(["string", "null"]))
  const MEMBERS := ANYTHING.(types := Some(["array"]), items := Some(ANY_TEXT), minItems := Some(1), uniqueItems := true)
  const TARGET_TYPES := ANYTHING.(types := Some(["string"]), choices := Some([Str("bot"), Str("channel")]))
  const EFFORTS := ANYTHING.(
    types := Some(["string"]),
    choices := Some([Str("none"), Str("low"), Str("medium"), Str("high"), Str("xhigh"), Str("max")]))

  function UpTo(most: real): Schema {
    ANYTHING.(types := Some(["integer"]), minimum := Some(1.0), maximum := Some(most))
  }

  function Closed(properties: seq<Property>, required: seq<PropertyName>): Schema {
    ANYTHING.(types := Some(["object"]), properties := properties, required := required, closed := true)
  }

  function Exactly(text: string): Schema {
    ANYTHING.(constant := Some(Str(text)))
  }

  const BOT_ID: PropertyName := "bot_id"
  const BULLETIN: PropertyName := "bulletin"
  const CHANNEL_ID: PropertyName := "channel_id"
  const DEFAULT_RESPONDER: PropertyName := "default_responder"
  const DESCRIPTION: PropertyName := "description"
  const EFFORT: PropertyName := "effort"
  const INSTANCE_ID: PropertyName := "instance_id"
  const KIND: PropertyName := "kind"
  const LIMIT: PropertyName := "limit"
  const MEMBER_IDS: PropertyName := "member_ids"
  const MODEL: PropertyName := "model"
  const NAME: PropertyName := "name"
  const QUERY: PropertyName := "query"
  const SECTION: PropertyName := "section"
  const TARGET_ID: PropertyName := "target_id"
  const TARGET_TYPE: PropertyName := "target_type"
  const TASK_ID: PropertyName := "task_id"
  const TEXT: PropertyName := "text"
  const TIMEOUT_SECONDS: PropertyName := "timeout_seconds"
  const TITLE: PropertyName := "title"

  const EVERYONE := Closed([Property(KIND, Exactly("everyone"))], [KIND])
  const MENTIONS := Closed([Property(KIND, Exactly("mentions"))], [KIND])
  const MEMBER := Closed([Property(KIND, Exactly("member")), Property(BOT_ID, ANY_TEXT)], [KIND, BOT_ID])
  const RESPONDER := ANYTHING.(oneOf := Listed([EVERYONE, MENTIONS, MEMBER]))

  const TOOLS: seq<Tool> := [
    Tool("get_system_health", Closed([], [])),
    Tool("list_bots", Closed([], [])),
    Tool("get_bot_messages", Closed([Property(BOT_ID, ANY_TEXT), Property(TASK_ID, ANY_TEXT), Property(LIMIT, UpTo(200.0))], [BOT_ID])),
    Tool("send_bot_message", Closed([Property(BOT_ID, ANY_TEXT), Property(TASK_ID, ANY_TEXT), Property(TEXT, ANY_TEXT)], [BOT_ID, TEXT])),
    Tool("create_bot", Closed(
      [Property(NAME, ANY_TEXT), Property(TITLE, ANY_TEXT), Property(DESCRIPTION, ANY_TEXT), Property(SECTION, ANY_TEXT),
       Property(INSTANCE_ID, ANY_TEXT), Property(MODEL, ANY_TEXT), Property(EFFORT, EFFORTS)],
      [NAME])),
    Tool("update_bot_profile", Closed(
      [Property(BOT_ID, ANY_TEXT), Property(NAME, ANY_TEXT), Property(TITLE, ANY_TEXT), Property(DESCRIPTION, ANY_TEXT), Property(SECTION, TEXT_OR_NULL)],
      [BOT_ID])),
    Tool("list_channels", Closed([], [])),
    Tool("get_channel_messages", Closed([Property(CHANNEL_ID, ANY_TEXT), Property(TASK_ID, ANY_TEXT), Property(LIMIT, UpTo(200.0))], [CHANNEL_ID])),
    Tool("send_channel_message", Closed([Property(CHANNEL_ID, ANY_TEXT), Property(TASK_ID, ANY_TEXT), Property(TEXT, ANY_TEXT)], [CHANNEL_ID, TEXT])),
    Tool("create_channel", Closed(
      [Property(NAME, ANY_TEXT), Property(MEMBER_IDS, MEMBERS), Property(SECTION, ANY_TEXT), Property(BULLETIN, ANY_TEXT),
       Property(DEFAULT_RESPONDER, RESPONDER)],
      [NAME, MEMBER_IDS])),
    Tool("update_channel", Closed(
      [Property(CHANNEL_ID, ANY_TEXT), Property(NAME, ANY_TEXT), Property(MEMBER_IDS, MEMBERS), Property(SECTION, TEXT_OR_NULL),
       Property(BULLETIN, ANY_TEXT), Property(DEFAULT_RESPONDER, RESPONDER)],
      [CHANNEL_ID])),
    Tool("create_task", Closed([Property(TARGET_TYPE, TARGET_TYPES), Property(TARGET_ID, ANY_TEXT), Property(TITLE, ANY_TEXT)], [TARGET_TYPE, TARGET_ID])),
    Tool("switch_task", Closed(
      [Property(TARGET_TYPE, TARGET_TYPES), Property(TARGET_ID, ANY_TEXT), Property(TASK_ID, ANY_TEXT)],
      [TARGET_TYPE, TARGET_ID, TASK_ID])),
    Tool("rename_task", Closed(
      [Property(TARGET_TYPE, TARGET_TYPES), Property(TARGET_ID, ANY_TEXT), Property(TASK_ID, ANY_TEXT), Property(TITLE, ANY_TEXT)],
      [TARGET_TYPE, TARGET_ID, TASK_ID, TITLE])),
    Tool("search_messages", Closed([Property(QUERY, ANY_TEXT), Property(TASK_ID, ANY_TEXT), Property(LIMIT, UpTo(100.0))], [QUERY])),
    Tool("wait_for_conversation", Closed(
      [Property(TARGET_TYPE, TARGET_TYPES), Property(TARGET_ID, ANY_TEXT), Property(TASK_ID, ANY_TEXT), Property(TIMEOUT_SECONDS, UpTo(120.0))],
      [TARGET_TYPE, TARGET_ID])),
    Tool("set_bot_model", Closed(
      [Property(BOT_ID, ANY_TEXT), Property(INSTANCE_ID, ANY_TEXT), Property(MODEL, ANY_TEXT), Property(EFFORT, EFFORTS)],
      [BOT_ID, INSTANCE_ID, MODEL])),
    Tool("list_available_models", Closed([], [])),
    Tool("interrupt_conversation", Closed([Property(TARGET_TYPE, TARGET_TYPES), Property(TARGET_ID, ANY_TEXT)], [TARGET_TYPE, TARGET_ID]))]

  /** A schema of scalars without parts of its own. */
  predicate Flat(s: Schema) {
    && s.oneOf.Unlisted? && s.items.None? && s.properties == [] && !s.uniqueItems
    && (s.constant.Some? ==> IsScalar(s.constant.value))
    && (s.choices.Some? ==> forall c :: c in s.choices.value ==> IsScalar(c))
  }

  ghost predicate Exact(s: Schema) {
    Supported(s) && Exclusive(s)
  }

  lemma FlatIsExact(s: Schema)
    requires Flat(s)
    ensures Exact(s)
  {
  }

  lemma ClosedIsExact(properties: seq<Property>, required: seq<PropertyName>)
    requires forall i :: 0 <= i < |properties| ==> Exact(properties[i].schema)
    ensures Exact(Closed(properties, required))
  {
  }

  lemma MembersAreExact()
    ensures Exact(MEMBERS)
  {
    FlatIsExact(ANY_TEXT);
    assert ScalarOnly(ANY_TEXT);
  }

  lemma KindDecides(s: Schema, text: string, v: Json)
    requires s.oneOf.Unlisted? && s.types == Some(["object"]) && KIND in s.required
    requires s.properties != [] && s.properties[0] == Property(KIND, Exactly(text)) && Valid(AsCoded, s, v)
    ensures v.Obj? && IndexOf(v.fields, KIND) < |v.fields| && v.fields[IndexOf(v.fields, KIND)].1 == Str(text)
  {
    hide KIND, KeysAllowed;
    assert Assertions(AsCoded, s, v);
    assert ObjectAllowed(AsCoded, s, v.fields);
    assert HasKey(v.fields, KIND);
    var at := IndexOf(v.fields, s.properties[0].name);
    assert Valid(AsCoded, s.properties[0].schema, v.fields[at].1);
  }

  const KINDS := ["everyone", "mentions", "member"]

  lemma CandidateKind(i: nat, v: Json)
    requires i < |RESPONDER.oneOf.schemas| && Valid(AsCoded, RESPONDER.oneOf.schemas[i], v)
    ensures i < 3 && v.Obj? && IndexOf(v.fields, KIND) < |v.fields| && v.fields[IndexOf(v.fields, KIND)].1 == Str(KINDS[i])
  {
    hide Valid;
    KindDecides(RESPONDER.oneOf.schemas[i], KINDS[i], v);
  }

  lemma CandidatesAreExact(i: nat)
    requires i < |RESPONDER.oneOf.schemas|
    ensures Exact(RESPONDER.oneOf.schemas[i])
  {
    FlatIsExact(ANY_TEXT);
    FlatIsExact(Exactly(KINDS[i]));
    hide Exact;
    if i == 0 { ClosedIsExact(EVERYONE.properties, [KIND]); }
    if i == 1 { ClosedIsExact(MENTIONS.properties, [KIND]); }
    if i == 2 { ClosedIsExact(MEMBER.properties, [KIND, BOT_ID]); }
  }

  /** The candidates for the default responder name different kinds, so no value satisfies two of them. */
  lemma ResponderIsExact()
    ensures Exact(RESPONDER)
  {
    var c := RESPONDER.oneOf.schemas;
    forall i | 0 <= i < |c| ensures Exact(c[i]) { CandidatesAreExact(i); }
    hide Valid;
    forall v: Json, i, j | 0 <= i < j < |c| ensures !(Valid(AsCoded, c[i], v) && Valid(AsCoded, c[j], v)) {
      if Valid(AsCoded, c[i], v) && Valid(AsCoded, c[j], v) { CandidateKind(i, v); CandidateKind(j, v); }
    }
  }

  /** What the tools' properties are made of. */
  predicate Part(s: Schema) {
    s == MEMBERS || s == RESPONDER || Flat(s)
  }

  lemma PartIsExact(s: Schema)
    requires Part(s)
    ensures Exact(s)
  {
    hide Exact;
    if s == MEMBERS { MembersAreExact(); } else if s == RESPONDER { ResponderIsExact(); } else { FlatIsExact(s); }
  }

  lemma FlatSchemas(most: real)
    ensures Flat(ANY_TEXT) && Flat(TEXT_OR_NULL) && Flat(TARGET_TYPES) && Flat(EFFORTS) && Flat(UpTo(most))
  {
  }

  lemma ToolParts(i: nat, k: nat)
    requires i < |TOOLS| && k < |TOOLS[i].inputSchema.properties|
    ensures Part(TOOLS[i].inputSchema.properties[k].schema)
  {
    FlatSchemas(100.0);
    FlatSchemas(120.0);
    FlatSchemas(200.0);
    hide Flat;
  }

  lemma EveryToolIsExact(i: nat)
    requires i < |TOOLS|
    ensures Exact(TOOLS[i].inputSchema)
  {
    var s := TOOLS[i].inputSchema;
    assert s == Closed(s.properties, s.required);
    forall k | 0 <= k < |s.properties| ensures Exact(s.properties[k].schema) {
      ToolParts(i, k);
      PartIsExact(s.properties[k].schema);
    }
    hide TOOLS, Exact;
    ClosedIsExact(s.properties, s.required);
  }

  /** For every name and every argument: the arguments satisfy a tool's schema as JSON Schema draft 2020-12 reads it
      exactly when the server accepts them and no closed object in them has an undeclared key. */
  lemma ServerArgumentsExact(name: Option<string>, args: Json)
    ensures (exists i :: Names(TOOLS, i, name) && args.Obj? && Valid(ByValue, TOOLS[i].inputSchema, args)) <==>
            var r := ValidateToolArguments(TOOLS, name, args); r.Ok? && OnlyDeclared(r.value.inputSchema, args)
  {
    forall i | 0 <= i < |TOOLS| ensures Exact(TOOLS[i].inputSchema) { EveryToolIsExact(i); }
    hide TOOLS, Valid, ValidateToolArguments, OnlyDeclared;
    DraftArgumentsExact(TOOLS, name, args);
  }

  /** Two calls the server takes although the draft refuses their arguments: an inherited key, and an extra key behind an
      empty one, where the tool declares no key at all. */
  lemma CallsThatSlipThrough()
    ensures ValidateToolArguments(TOOLS, Some("list_bots"), Obj([("toString", Null)])) == Ok(TOOLS[1])
    ensures ValidateToolArguments(TOOLS, Some("list_bots"), Obj([("", Null), ("extra", Null)])) == Ok(TOOLS[1])
    ensures !Valid(ByValue, TOOLS[1].inputSchema, Obj([("toString", Null)]))
    ensures !Valid(ByValue, TOOLS[1].inputSchema, Obj([("", Null), ("extra", Null)]))
  {
    ListBotsIsSecond();
    hide TOOLS;
    NoKeyIsDeclared([("toString", Null)]);
    NoKeyIsDeclared([("", Null), ("extra", Null)]);
    assert FirstExtra([], [("toString", Null)][1..]) == None;
    assert "toString" in INHERITED && "" !in INHERITED;
    assert FirstExtra([], [("toString", Null)]) == None;
    assert FirstExtra([], [("", Null), ("extra", Null)]) == Some("");
    hide Valid;
    EmptyClosedAccepts([("toString", Null)]);
    EmptyClosedAccepts([("", Null), ("extra", Null)]);
  }

  lemma ListBotsIsSecond()
    ensures TOOLS[1] == Tool("list_bots", Closed([], [])) && FindTool(TOOLS, "list_bots") == Some(TOOLS[1])
  {
    assert TOOLS[0].name != "list_bots" by { assert |TOOLS[0].name| == 17; }
    assert TOOLS[1..][0] == TOOLS[1];
  }

  lemma NoKeyIsDeclared(fields: seq<(string, Json)>)
    requires fields != []
    ensures !Valid(ByValue, Closed([], []), Obj(fields))
  {
    assert !IsProperty([], fields[0].0);
    assert !KeysAllowed(ByValue, Closed([], []), fields);
  }

  /** The empty schema's only check is the one on extra keys. */
  lemma EmptyClosedAccepts(fields: seq<(string, Json)>)
    requires FirstExtra([], fields) == None || FirstExtra([], fields) == Some("")
    ensures SchemaError(Closed([], []), Obj(fields)) == None
  {
    var s := Closed([], []);
    assert ValueHasType(Obj(fields), s.types.value[0]);
    assert ObjectError(s, fields) == None;
  }
}
