/** Server-sent event frames: their payloads as JSON values and the chunk writer that builds the
    text of a completion chunk directly. */
module SseFrames {
  import opened Wrappers
  import opened JsonText
  import opened Json
  import Decimal

  /** What set_metadata stores and every completion chunk repeats. */
  datatype Metadata = Metadata(id: string, created: int, model: string)

  datatype Frame =
    | Chunk(meta: Metadata, content: Option<string>, role: bool, finish: Option<string>)
    | Delta(token: string)
    | ResultData(body: Value)
    | ErrorData(body: Value)
    | Done

  // ---------- payloads ----------

  const ROLE := "role"
  const ASSISTANT := "assistant"
  const OBJECT := "object"
  const CHUNK_KIND := "chat.completion.chunk"
  const CONTENT := "content"
  const INDEX := "index"
  const DELTA := "delta"
  const FINISH := "finish_reason"

  function OptionalString(s: Option<string>): Value {
    match s
    case None => Null
    case Some(text) => Str(text)
  }

  function RoleFields(role: bool): seq<Field> {
    if role then [Field(ROLE, Str(ASSISTANT))] else []
  }

  function ContentFields(content: Option<string>): seq<Field> {
    match content
    case None => []
    case Some(text) => [Field(CONTENT, Str(text))]
  }

  function ChoiceValue(content: Option<string>, role: bool, finish: Option<string>): Value {
    Obj([Field(INDEX, Num(0)),
         Field(DELTA, Obj(RoleFields(role) + ContentFields(content))),
         Field(FINISH, OptionalString(finish))])
  }

  function ChunkFields(meta: Metadata, choices: Value): seq<Field> {
    [Field("id", Str(meta.id)),
     Field(OBJECT, Str(CHUNK_KIND)),
     Field("created", Num(meta.created)),
     Field("model", Str(meta.model)),
     Field("choices", choices)]
  }

  function ChunkValue(meta: Metadata, content: Option<string>, role: bool, finish: Option<string>): Value {
    Obj(ChunkFields(meta, Arr([ChoiceValue(content, role, finish)])))
  }

  function DeltaValue(token: string): Value {
    Obj([Field("delta", Str(token))])
  }

  function FrameValue(f: Frame): Value
    requires !f.Done?
  {
    match f
    case Chunk(meta, content, role, finish) => ChunkValue(meta, content, role, finish)
    case Delta(token) => DeltaValue(token)
    case ResultData(body) => body
    case ErrorData(body) => body
  }

  function Payload(f: Frame): string {
    if f.Done? then "[DONE]" else Print(FrameValue(f))
  }

  function FrameText(f: Frame): string {
    "data: " + Payload(f) + "\n\n"
  }

  /** What a list of frames puts on the wire. */
  function Wire(frames: seq<Frame>): string {
    if frames == [] then "" else FrameText(frames[0]) + Wire(frames[1..])
  }

  // ---------- the chunk writer ----------

  // The longer of the literals that the writer appends, in pieces.
  const OBJECT_FIELD := "\"object\":\"chat.completion.chunk\""
  const CREATED_LEAD := "\"" + "," + OBJECT_FIELD + "," + "\"created\":"
  const CHOICES_LEAD := "\"" + "," + "\"choices\":" + "[" + "{\"index\":0,\"delta\":{"

  /** make_chunk_impl: the text is assembled piece by piece; it is the compact JSON of the chunk. */
  method MakeChunk(meta: Metadata, content: Option<string>, includeRole: bool, finish: Option<string>)
    returns (result: string)
    ensures result == FrameText(Chunk(meta, content, includeRole, finish))
  {
    result := "data: {\"id\":\"";
    result := AppendJsonEscaped(result, meta.id);
    result := result + CREATED_LEAD;
    result := result + Decimal.ToString(meta.created);
    result := result + ",\"model\":\"";
    result := AppendJsonEscaped(result, meta.model);
    result := result + CHOICES_LEAD;
    result := AppendDelta(result, content, includeRole);
    result := result + "},\"finish_reason\":";
    result := AppendFinish(result, finish);
    result := result + "}]}";
    result := result + "\n\n";
    WriterText(meta, content, includeRole, finish);
  }

  /** The delta fields of the writer. */
  method AppendDelta(out: string, content: Option<string>, includeRole: bool) returns (result: string)
    ensures result == out + PrintFields(RoleFields(includeRole) + ContentFields(content))
  {
    result := out;
    var hasDeltaField := false;
    if includeRole {
      result := result + "\"role\":\"assistant\"";
      hasDeltaField := true;
    }
    if content.Some? {
      if hasDeltaField {
        result := result + ",";
      }
      result := result + "\"content\":\"";
      result := AppendJsonEscaped(result, content.value);
      result := result + "\"";
    }
    DeltaText(out, content, includeRole);
  }

  /** The finish reason of the writer. */
  method AppendFinish(out: string, finish: Option<string>) returns (result: string)
    ensures result == out + Print(OptionalString(finish))
  {
    result := out;
    if finish.Some? {
      result := result + "\"";
      result := AppendJsonEscaped(result, finish.value);
      result := result + "\"";
      Append3(out, "\"", Escaped(finish.value), "\"");
    } else {
      result := result + "null";
    }
  }

  // Concatenation, read from the left.

  lemma Append2(x: string, a: string, b: string)
    ensures x + (a + b) == x + a + b
  {
  }

  lemma Append3(x: string, a: string, b: string, c: string)
    ensures x + (a + b + c) == x + a + b + c
  {
    Append2(x, a + b, c);
    Append2(x, a, b);
  }

  lemma Append5(x: string, a: string, b: string, c: string, d: string, e: string)
    ensures x + (a + b + c + d + e) == x + a + b + c + d + e
  {
    Append3(x, a + b + c, d, e);
    Append3(x, a, b, c);
  }

  predicate Plain(s: string) {
    forall i | 0 <= i < |s| :: s[i] as int >= 0x20 && s[i] != '"' && s[i] != '\\'
  }

  /** Text without quotes, backslashes and control characters is not changed by escaping. */
  lemma {:induction false} PlainIsUnescaped(s: string)
    requires Plain(s)
    ensures Escaped(s) == s
  {
    if s != [] {
      PlainIsUnescaped(s[1..]);
      assert EscapeChar(s[0]) == [s[0]];
    }
  }

  /** How the writer starts a field with this key, and a string field with this key. */
  predicate IsLead(key: string, lead: string) {
    Plain(key) && lead == "\"" + key + "\":"
  }

  predicate IsStringLead(key: string, lead: string) {
    Plain(key) && lead == "\"" + key + "\":\""
  }

  lemma DeltaLeads()
    ensures IsLead(DELTA, "\"delta\":") && IsStringLead(CONTENT, "\"content\":\"")
  {
  }

  lemma FinishLead()
    ensures IsLead(FINISH, "\"finish_reason\":")
  {
  }

  /** A field behind `x`, with its key written as `lead`. */
  lemma AppendField(x: string, lead: string, f: Field)
    requires IsLead(f.key, lead)
    ensures x + PrintField(f) == x + lead + Print(f.value)
  {
    PlainIsUnescaped(f.key);
    var value := Print(f.value);
    assert PrintField(f) == ("\"" + f.key + "\"") + ":" + value;
    hide Print, PrintField, Escaped, Plain;
    assert ("\"" + f.key + "\"") + ":" == lead;
    Append2(x, lead, value);
  }

  /** A string field behind `x`, with everything before its contents written as `lead`. */
  lemma AppendStringField(x: string, lead: string, key: string, s: string)
    requires IsStringLead(key, lead)
    ensures x + PrintField(Field(key, Str(s))) == x + lead + Escaped(s) + "\""
  {
    var short := "\"" + key + "\":";
    AppendField(x, short, Field(key, Str(s)));
    Append3(x + short, "\"", Escaped(s), "\"");
    assert lead == short + "\"";
    Append2(x, short, "\"");
  }

  /** Fields behind `x`: the first, a comma, and the others behind that. */
  lemma AppendFields(x: string, f: Field, rest: seq<Field>)
    requires rest != []
    ensures x + PrintFields([f] + rest) == x + PrintField(f) + "," + PrintFields(rest)
  {
    assert ([f] + rest)[1..] == rest;
    Append3(x, PrintField(f), ",", PrintFields(rest));
  }

  lemma DeltaText(x: string, content: Option<string>, role: bool)
    ensures x + PrintFields(RoleFields(role) + ContentFields(content)) ==
      var y := if role then x + "\"role\":\"assistant\"" else x;
      if content.None? then y
      else (if role then y + "," else y) + "\"content\":\"" + Escaped(content.value) + "\""
  {
    match content
    case None =>
      assert RoleFields(role) + ContentFields(content) == RoleFields(role);
      RoleText();
    case Some(text) =>
      if role {
        RoleAndContentText(x, Field(ROLE, Str(ASSISTANT)), text);
        RoleText();
      } else {
        assert RoleFields(role) + ContentFields(content) == [Field(CONTENT, Str(text))];
        DeltaLeads();
        AppendStringField(x, "\"content\":\"", CONTENT, text);
      }
  }

  lemma RoleAndContentText(x: string, roleField: Field, text: string)
    ensures x + PrintFields([roleField] + [Field(CONTENT, Str(text))]) ==
            x + PrintField(roleField) + "," + "\"content\":\"" + Escaped(text) + "\""
  {
    AppendFields(x, roleField, [Field(CONTENT, Str(text))]);
    DeltaLeads();
    AppendStringField(x + PrintField(roleField) + ",", "\"content\":\"", CONTENT, text);
  }

  lemma PlainStringField(key: string, s: string, text: string)
    requires Plain(key) && Plain(s)
    requires text == ("\"" + key + "\"") + ":" + ("\"" + s + "\"")
    ensures PrintField(Field(key, Str(s))) == text
  {
    PlainIsUnescaped(key);
    PlainIsUnescaped(s);
  }

  lemma RoleText()
    ensures PrintField(Field(ROLE, Str(ASSISTANT))) == "\"role\":\"assistant\""
  {
    PlainStringField(ROLE, ASSISTANT, "\"role\":\"assistant\"");
  }

  lemma ObjectText()
    ensures PrintField(Field(OBJECT, Str(CHUNK_KIND))) == OBJECT_FIELD
  {
    hide PrintField;
    ObjectKeyText();
    ObjectValueText();
    var key, value := "\"" + OBJECT + "\"", "\"" + CHUNK_KIND + "\"";
    PlainStringField(OBJECT, CHUNK_KIND, key + ":" + value);
  }

  lemma ObjectKeyText()
    ensures Plain(OBJECT) && ("\"" + OBJECT + "\"") + ":" == "\"object\":"
  {
  }

  lemma ObjectKindIsPlain()
    ensures Plain(CHUNK_KIND)
  {
  }

  lemma ObjectValueText()
    ensures Plain(CHUNK_KIND) && "\"object\":" + ("\"" + CHUNK_KIND + "\"") == "\"object\":\"chat.completion.chunk\""
  {
    hide Plain;
    ObjectKindIsPlain();
  }

  /** The text of a chunk up to its model, as the writer lays it out. */
  function HeadText(meta: Metadata): string {
    "data: {\"id\":\"" + Escaped(meta.id)
    + CREATED_LEAD + Decimal.ToString(meta.created)
    + ",\"model\":\"" + Escaped(meta.model)
  }

  lemma HeadFields(x: string, meta: Metadata, choices: Value)
    requires x == "data: {"
    ensures x + PrintFields(ChunkFields(meta, choices)) ==
            HeadText(meta) + "\"" + "," + PrintField(Field("choices", choices))
  {
    var f1, f2 := Field("id", Str(meta.id)), Field(OBJECT, Str(CHUNK_KIND));
    var f3, f4 := Field("created", Num(meta.created)), Field("model", Str(meta.model));
    var f5 := Field("choices", choices);
    FieldsFromLeft(x, f1, f2, f3, f4, f5);
    var y := HeadUpToCreated(x, meta);
    HeadUpToModel(y, meta);
  }

  lemma FieldsFromLeft(x: string, f1: Field, f2: Field, f3: Field, f4: Field, f5: Field)
    ensures x + PrintFields([f1, f2, f3, f4, f5]) ==
            x + PrintField(f1) + "," + PrintField(f2) + "," + PrintField(f3) + "," + PrintField(f4) + ","
            + PrintField(f5)
  {
    assert [f1, f2, f3, f4, f5] == [f1] + [f2, f3, f4, f5] && [f2, f3, f4, f5] == [f2] + [f3, f4, f5];
    assert [f3, f4, f5] == [f3] + [f4, f5] && [f4, f5] == [f4] + [f5];
    AppendFields(x, f1, [f2, f3, f4, f5]);
    var x1 := x + PrintField(f1) + ",";
    AppendFields(x1, f2, [f3, f4, f5]);
    var x2 := x1 + PrintField(f2) + ",";
    AppendFields(x2, f3, [f4, f5]);
    AppendFields(x2 + PrintField(f3) + ",", f4, [f5]);
  }

  lemma HeadUpToCreated(x: string, meta: Metadata) returns (y: string)
    requires x == "data: {"
    ensures y == x + PrintField(Field("id", Str(meta.id))) + ","
                 + PrintField(Field(OBJECT, Str(CHUNK_KIND))) + ","
                 + PrintField(Field("created", Num(meta.created)))
    ensures y == "data: {\"id\":\"" + Escaped(meta.id)
                 + CREATED_LEAD + Decimal.ToString(meta.created)
  {
    var idText := "data: {\"id\":\"" + Escaped(meta.id);
    HeadUpToId(x, meta.id);
    ObjectText();
    hide Escaped, PrintField, OBJECT_FIELD;
    y := HeadCreated(idText, OBJECT_FIELD, meta.created);
  }

  lemma HeadUpToId(x: string, id: string)
    requires x == "data: {"
    ensures x + PrintField(Field("id", Str(id))) == "data: {\"id\":\"" + Escaped(id) + "\""
  {
    AppendStringField(x, "\"id\":\"", "id", id);
    assert x + "\"id\":\"" == "data: {\"id\":\"";
  }

  lemma HeadCreated(x: string, kind: string, created: int) returns (y: string)
    ensures y == x + "\"" + "," + kind + "," + PrintField(Field("created", Num(created)))
    ensures y == x + ("\"" + "," + kind + "," + "\"created\":") + Decimal.ToString(created)
  {
    y := x + "\"" + "," + kind + "," + PrintField(Field("created", Num(created)));
    AppendField(x + "\"" + "," + kind + ",", "\"created\":", Field("created", Num(created)));
    Append5(x, "\"", ",", kind, ",", "\"created\":");
  }

  lemma HeadUpToModel(y: string, meta: Metadata)
    ensures y + "," + PrintField(Field("model", Str(meta.model))) ==
            y + ",\"model\":\"" + Escaped(meta.model) + "\""
  {
    assert IsStringLead("model", "\"model\":\"");
    assert "," + "\"model\":\"" == ",\"model\":\"";
    hide PrintField, Escaped, IsStringLead, Plain;
    AppendStringField(y + ",", "\"model\":\"", "model", meta.model);
    Append2(y, ",", "\"model\":\"");
  }

  lemma ChoiceFromLeft(x: string, content: Option<string>, role: bool, finish: Option<string>)
    ensures x + Print(ChoiceValue(content, role, finish)) ==
            x + "{\"index\":0,\"delta\":{" + PrintFields(RoleFields(role) + ContentFields(content))
            + "},\"finish_reason\":" + Print(OptionalString(finish)) + "}"
  {
    var delta := RoleFields(role) + ContentFields(content);
    ChoiceFields(x, delta, OptionalString(finish));
    DeltaLabel(x);
    FinishLabel(x + "{\"index\":0,\"delta\":{" + PrintFields(delta));
  }

  lemma ChoiceFields(x: string, delta: seq<Field>, finish: Value)
    ensures x + Print(Obj([Field(INDEX, Num(0)), Field(DELTA, Obj(delta)), Field(FINISH, finish)])) ==
            x + "{" + "\"index\":0" + "," + "\"delta\":" + "{" + PrintFields(delta) + "}" + ","
            + "\"finish_reason\":" + Print(finish) + "}"
  {
    var x1 := x + "{" + "\"index\":0" + ",";
    ThreeFields(x, Field(INDEX, Num(0)), Field(DELTA, Obj(delta)), Field(FINISH, finish));
    IndexText();
    DeltaLeads();
    FinishLead();
    AppendObjectField(x1, "\"delta\":", DELTA, delta);
    AppendField(x1 + "\"delta\":" + "{" + PrintFields(delta) + "}" + ",", "\"finish_reason\":",
                Field(FINISH, finish));
  }

  lemma AppendObjectField(x: string, lead: string, key: string, fields: seq<Field>)
    requires IsLead(key, lead)
    ensures x + PrintField(Field(key, Obj(fields))) == x + lead + "{" + PrintFields(fields) + "}"
  {
    AppendField(x, lead, Field(key, Obj(fields)));
    Append3(x + lead, "{", PrintFields(fields), "}");
  }

  lemma ThreeFields(x: string, f1: Field, f2: Field, f3: Field)
    ensures x + Print(Obj([f1, f2, f3])) ==
            x + "{" + PrintField(f1) + "," + PrintField(f2) + "," + PrintField(f3) + "}"
  {
    assert [f1, f2, f3] == [f1] + [f2, f3] && [f2, f3] == [f2] + [f3];
    Append3(x, "{", PrintFields([f1, f2, f3]), "}");
    AppendFields(x + "{", f1, [f2, f3]);
    AppendFields(x + "{" + PrintField(f1) + ",", f2, [f3]);
  }

  lemma IndexText()
    ensures PrintField(Field(INDEX, Num(0))) == "\"index\":0"
  {
    assert Plain(INDEX);
    PlainIsUnescaped(INDEX);
    assert Print(Num(0)) == "0" by { assert Decimal.Digits(0) == "0"; }
    hide Print, Escaped, Plain;
    assert ("\"" + INDEX + "\"") + ":" + "0" == "\"index\":0";
  }

  lemma DeltaLabel(x: string)
    ensures x + "{" + "\"index\":0" + "," + "\"delta\":" + "{" == x + "{\"index\":0,\"delta\":{"
  {
    Append5(x, "{", "\"index\":0", ",", "\"delta\":", "{");
    assert "{" + "\"index\":0" + "," + "\"delta\":" + "{" == "{\"index\":0,\"delta\":{";
  }

  lemma FinishLabel(x: string)
    ensures x + "}" + "," + "\"finish_reason\":" == x + "},\"finish_reason\":"
  {
    Append3(x, "}", ",", "\"finish_reason\":");
    assert "}" + "," + "\"finish_reason\":" == "},\"finish_reason\":";
  }

  /** The chunk text as the writer lays it out. */
  lemma WriterText(meta: Metadata, content: Option<string>, role: bool, finish: Option<string>)
    ensures FrameText(Chunk(meta, content, role, finish)) ==
            HeadText(meta) + CHOICES_LEAD
            + PrintFields(RoleFields(role) + ContentFields(content)) + "},\"finish_reason\":"
            + Print(OptionalString(finish)) + "}]}" + "\n\n"
  {
    var choice := ChoiceValue(content, role, finish);
    var choices := Arr([choice]);
    var d := PrintFields(RoleFields(role) + ContentFields(content));
    OpenText(meta, choices);
    HeadFields("data: {", meta, choices);
    ChoicesText(HeadText(meta), choice, content, role, finish);
    CloseText(HeadText(meta) + CHOICES_LEAD + d + "},\"finish_reason\":"
              + Print(OptionalString(finish)));
  }

  lemma OpenText(meta: Metadata, choices: Value)
    ensures "data: " + Print(Obj(ChunkFields(meta, choices))) ==
            "data: {" + PrintFields(ChunkFields(meta, choices)) + "}"
  {
    Append3("data: ", "{", PrintFields(ChunkFields(meta, choices)), "}");
    assert "data: " + "{" == "data: {";
  }

  lemma ChoicesText(x: string, choice: Value, content: Option<string>, role: bool, finish: Option<string>)
    requires choice == ChoiceValue(content, role, finish)
    ensures x + "\"" + "," + PrintField(Field("choices", Arr([choice]))) ==
            x + CHOICES_LEAD
            + PrintFields(RoleFields(role) + ContentFields(content)) + "},\"finish_reason\":"
            + Print(OptionalString(finish)) + "}" + "]"
  {
    var y := x + "\"" + "," + "\"choices\":";
    assert PrintItems([choice]) == Print(choice);
    assert IsLead("choices", "\"choices\":");
    var text := Print(choice);
    assert Print(Arr([choice])) == "[" + text + "]";
    ChoiceFromLeft(y + "[", content, role, finish);
    ChoicesLabel(x);
    hide *;
    AppendField(x + "\"" + ",", "\"choices\":", Field("choices", Arr([choice])));
    Append3(y, "[", text, "]");
  }

  lemma ChoicesLabel(x: string)
    ensures x + "\"" + "," + "\"choices\":" + "[" + "{\"index\":0,\"delta\":{" == x + CHOICES_LEAD
  {
    Append5(x, "\"", ",", "\"choices\":", "[", "{\"index\":0,\"delta\":{");
  }

  lemma CloseText(x: string)
    ensures x + "}" + "]" + "}" + "\n\n" == x + "}]}" + "\n\n"
  {
    Append3(x, "}", "]", "}");
    assert "}" + "]" + "}" == "}]}";
  }

  // ---------- reading a chunk back ----------

  /** Reads a chunk by the names of its fields, wherever they stand; anything else is no chunk. */
  function ReadChunk(v: Value): Option<Frame> {
    match (StringAt(v, "id"), Lookup(v, "created"), StringAt(v, "model"), Lookup(v, "choices"))
    case (Some(id), Some(Num(created)), Some(model), Some(Arr(choices))) =>
      if StringAt(v, "object") != Some("chat.completion.chunk") || |choices| != 1 then None
      else ReadChoice(Metadata(id, created, model), choices[0])
    case _ => None
  }

  function ReadChoice(meta: Metadata, choice: Value): Option<Frame> {
    match (Lookup(choice, "index"), Lookup(choice, "delta"), Lookup(choice, "finish_reason"))
    case (Some(Num(0)), Some(delta), Some(Null)) => Some(ReadDelta(meta, delta, None))
    case (Some(Num(0)), Some(delta), Some(Str(finish))) => Some(ReadDelta(meta, delta, Some(finish)))
    case _ => None
  }

  function ReadDelta(meta: Metadata, delta: Value, finish: Option<string>): Frame {
    Chunk(meta, StringAt(delta, "content"), StringAt(delta, "role") == Some("assistant"), finish)
  }

  lemma ChoiceLookups(content: Option<string>, role: bool, finish: Option<string>)
    ensures var choice := ChoiceValue(content, role, finish);
      && Lookup(choice, "index") == Some(Num(0))
      && Lookup(choice, "delta") == Some(Obj(RoleFields(role) + ContentFields(content)))
      && Lookup(choice, "finish_reason") == Some(if finish.Some? then Str(finish.value) else Null)
  {
    var f1, f2 := Field(INDEX, Num(0)), Field(DELTA, Obj(RoleFields(role) + ContentFields(content)));
    var f3 := Field(FINISH, OptionalString(finish));
    assert [f1, f2, f3] == [f1, f2] + [f3] && [f1, f2] == [f1] + [f2] && [] + [f1] == [f1];
    forall key | key in {"index", "delta", "finish_reason"}
      ensures Get([f1, f2, f3], key) ==
        if key == "finish_reason" then Some(f3.value) else if key == "delta" then Some(f2.value) else Some(f1.value)
    {
      GetSnoc([f1, f2], f3, key);
      GetSnoc([f1], f2, key);
      GetSnoc([], f1, key);
    }
  }

  lemma DeltaLookups(content: Option<string>, role: bool)
    ensures var delta := Obj(RoleFields(role) + ContentFields(content));
      StringAt(delta, "content") == content && (StringAt(delta, "role") == Some("assistant") <==> role)
  {
    var fields := RoleFields(role) + ContentFields(content);
    match content
    case Some(text) =>
      GetSnoc(RoleFields(role), Field(CONTENT, Str(text)), "content");
      GetSnoc(RoleFields(role), Field(CONTENT, Str(text)), "role");
    case None =>
      assert fields == RoleFields(role);
      if role {
        GetSnoc([], Field(ROLE, Str(ASSISTANT)), "content");
        GetSnoc([], Field(ROLE, Str(ASSISTANT)), "role");
        assert [] + RoleFields(role) == RoleFields(role);
      }
  }

  lemma ReadTopLevel(meta: Metadata, choices: Value)
    ensures var v := Obj(ChunkFields(meta, choices));
      && StringAt(v, "id") == Some(meta.id) && Lookup(v, "created") == Some(Num(meta.created))
      && StringAt(v, "model") == Some(meta.model) && Lookup(v, "choices") == Some(choices)
      && StringAt(v, "object") == Some("chat.completion.chunk")
  {
    var f1, f2 := Field("id", Str(meta.id)), Field(OBJECT, Str(CHUNK_KIND));
    var f3, f4 := Field("created", Num(meta.created)), Field("model", Str(meta.model));
    var f5 := Field("choices", choices);
    assert [f1, f2, f3, f4, f5] == [f1, f2, f3, f4] + [f5] && [f1, f2, f3, f4] == [f1, f2, f3] + [f4];
    assert [f1, f2, f3] == [f1, f2] + [f3] && [f1, f2] == [f1] + [f2];
    forall key | key in {"id", "object", "created", "model", "choices"}
      ensures Get([f1, f2, f3, f4, f5], key) ==
        if key == "choices" then Some(choices) else if key == "model" then Some(f4.value)
        else if key == "created" then Some(f3.value) else if key == "object" then Some(f2.value) else Some(f1.value)
    {
      GetSnoc([f1, f2, f3, f4], f5, key);
      GetSnoc([f1, f2, f3], f4, key);
      GetSnoc([f1, f2], f3, key);
      GetSnoc([f1], f2, key);
      GetSnoc([], f1, key);
      assert [] + [f1] == [f1];
    }
  }

  /** The text of every chunk parses, and its fields are the ones it was made from. */
  lemma ChunkReadsBack(meta: Metadata, content: Option<string>, role: bool, finish: Option<string>)
    ensures var f := Chunk(meta, content, role, finish);
      Parse(Payload(f)).Some? && ReadChunk(Parse(Payload(f)).value) == Some(f)
  {
    ParseOfPrint(ChunkValue(meta, content, role, finish));
    ReadTopLevel(meta, Arr([ChoiceValue(content, role, finish)]));
    ChoiceLookups(content, role, finish);
    DeltaLookups(content, role);
    hide ChunkFields, ChoiceValue, RoleFields, ContentFields, Lookup, StringAt;
  }

  /** An extraction's delta is an object with the token under its one key, and the bodies of a result and of an
      error come back as they are. */
  lemma BodyReadsBack(f: Frame)
    requires f.Delta? || f.ResultData? || f.ErrorData?
    ensures Parse(Payload(f)) == Some(if f.Delta? then Obj([Field("delta", Str(f.token))]) else f.body)
  {
    ParseOfPrint(FrameValue(f));
  }

  /** A frame has no line break except the blank line that ends it. */
  lemma PayloadIsOneLine(f: Frame)
    ensures NoLineBreak(Payload(f))
  {
    if !f.Done? { PrintHasNoLineBreak(FrameValue(f)); }
  }
}
