/**
 * Chat messages and the `messageSchema` check of src/cli.ts: a message is an
 * object whose `role` is one of three literals and whose `content` is a string.
 * JSON values are modelled as a datatype; parsing bytes into JSON is not.
 */
module Messages {
  import opened Wrappers

  datatype Role = User | Assistant | System

  datatype Message = Message(role: Role, content: string)

  /** A parsed JSON value, as `JSON.parse` returns it. */
  datatype Json =
    | JNull
    | JBool(b: bool)
    | JNumber(n: real)
    | JString(s: string)
    | JArray(items: seq<Json>)
    | JObject(fields: map<string, Json>)

  /** The literal a role is written as. */
  function RoleName(r: Role): string {
    match r
    case User => "user"
    case Assistant => "assistant"
    case System => "system"
  }

  /** `z.union([z.literal('user'), z.literal('assistant'), z.literal('system')])`. */
  function ParseRole(j: Json): (r: Option<Role>)
    ensures r.Some? <==> j.JString? && j.s in {"user", "assistant", "system"}
    ensures r.Some? ==> j == JString(RoleName(r.value))
  {
    match j
    case JString(s) =>
      if s == "user" then Some(User)
      else if s == "assistant" then Some(Assistant)
      else if s == "system" then Some(System)
      else None
    case _ => None
  }

  /** The JSON object `JSON.stringify` writes for a message. */
  function ToJson(m: Message): Json {
    JObject(map["role" := JString(RoleName(m.role)), "content" := JString(m.content)])
  }

  /**
   * `messageSchema.safeParse`: an object with a valid `role` and a string
   * `content`; any other keys are ignored (zod strips unknown keys).
   */
  function ValidateMessage(j: Json): (r: Option<Message>)
    ensures r.Some? <==>
      j.JObject? && "role" in j.fields && "content" in j.fields
      && ParseRole(j.fields["role"]).Some? && j.fields["content"].JString?
    ensures r.Some? ==>
      j.fields["role"] == JString(RoleName(r.value.role)) && j.fields["content"] == JString(r.value.content)
  {
    match j
    case JObject(fields) =>
      if "role" in fields && "content" in fields && fields["content"].JString? then
        match ParseRole(fields["role"])
        case Some(role) => Some(Message(role, fields["content"].s))
        case None => None
      else None
    case _ => None
  }

  /** Validates every element of an array, failing as a whole if one fails. */
  function ValidateAll(items: seq<Json>): Option<seq<Message>> {
    if items == [] then Some([])
    else
      match ValidateMessage(items[0])
      case None => None
      case Some(m) =>
        match ValidateAll(items[1..])
        case None => None
        case Some(ms) => Some([m] + ms)
  }

  /** `messageSchema.array().safeParse`. */
  function ValidateArray(j: Json): Option<seq<Message>> {
    if j.JArray? then ValidateAll(j.items) else None
  }

  function ToJsonAll(ms: seq<Message>): (r: seq<Json>)
    ensures |r| == |ms|
  {
    if ms == [] then [] else [ToJson(ms[0])] + ToJsonAll(ms[1..])
  }

  /** A message written as JSON passes the schema and reads back unchanged. */
  lemma MessageRoundTrip(m: Message)
    ensures ValidateMessage(ToJson(m)) == Some(m)
  {
    var f := ToJson(m).fields;
    assert "role" in f && "content" in f;
    assert f["role"] == JString(RoleName(m.role));
  }

  /** The array schema accepts exactly the arrays whose every element passes, keeping them in order. */
  lemma {:induction false} ValidateAllExactly(items: seq<Json>)
    ensures ValidateAll(items).Some? <==> forall i :: 0 <= i < |items| ==> ValidateMessage(items[i]).Some?
    ensures ValidateAll(items).Some? ==>
      |ValidateAll(items).value| == |items|
      && forall i :: 0 <= i < |items| ==> ValidateAll(items).value[i] == ValidateMessage(items[i]).value
  {
    if items != [] {
      ValidateAllExactly(items[1..]);
      assert forall i :: 1 <= i < |items| ==> items[i] == items[1..][i - 1];
    }
  }

  /** A transcript file written with `JSON.stringify` validates back to the same messages. */
  lemma {:induction false} TranscriptRoundTrip(ms: seq<Message>)
    ensures ValidateArray(JArray(ToJsonAll(ms))) == Some(ms)
  {
    if ms != [] {
      MessageRoundTrip(ms[0]);
      TranscriptRoundTrip(ms[1..]);
      assert ToJsonAll(ms)[1..] == ToJsonAll(ms[1..]);
      assert [ms[0]] + ms[1..] == ms;
    }
  }
}
