/** The chat reply service: it answers a message with the remote model's
    text when a usable API key is configured and the remote call returns a
    well-formed answer, and with the rule-based fallback reply otherwise.
    The sender of the reply is the room's own name, or a name drawn from
    CHAT_ROOM_NAMES. The remote call is a parameter: a total function from
    the request sent to the outcome observed. */
module AiService {
  import opened Text
  import opened FallbackResponder

  /** The names a reply is sent under when the room has no name. */
  const CHAT_ROOM_NAMES: seq<string> := ["Kyle", "Jane", "Sam", "David"]

  /** The placeholder key shipped in example configurations. */
  const PLACEHOLDER_KEY: string := "your-gemini-api-key-here"

  const GEMINI_API_URL: string :=
    "https://generativelanguage.googleapis.com/v1beta/models/gemini-1.5-flash:generateContent"

  /** The fixed prompt of the connection test. */
  const TEST_PROMPT: string := "Hello, this is a test message. Please respond with just 'Hello!'"

  /** Seconds a reply request and a connection test may take. */
  const REPLY_TIMEOUT: nat := 10
  const TEST_TIMEOUT: nat := 5

  /** A decoded JSON document. Numbers are kept as integers. */
  datatype Json =
    | JNull
    | JBool(b: bool)
    | JNum(n: int)
    | JStr(s: string)
    | JArr(items: seq<Json>)
    | JObj(fields: map<string, Json>)

  /** What one POST to the remote model can end in. */
  datatype Outcome =
    | Timeout                                    // requests' Timeout
    | RequestError                               // any other RequestException
    | OtherError                                 // any other exception
    | Response(status: int, body: Option<Json>)  // body None: not JSON

  /** One POST to the remote model: the URL with the key, the prompt, and the
      timeout in seconds. */
  datatype Request = Request(url: string, prompt: string, timeout: nat)

  /** Where the shape check of a response ended: it passed and found the
      `parts` value, it came out false, or evaluating it raised. */
  datatype Check = Passed(parts: Json) | Failed | Raised

  /** Python's truth value of a decoded JSON value. */
  predicate Truthy(j: Json) {
    match j
    case JNull => false
    case JBool(b) => b
    case JNum(n) => n != 0
    case JStr(s) => s != ""
    case JArr(items) => |items| > 0
    case JObj(fields) => |fields| > 0
  }

  /** `len()` is defined on the value. */
  predicate HasLen(j: Json) {
    j.JStr? || j.JArr? || j.JObj?
  }

  /** The key is neither missing, empty, the placeholder, nor all
      whitespace: it is usable exactly when it is present, is not the
      placeholder, and has a character that is not whitespace. */
  predicate KeyUsable(key: Option<string>)
    ensures KeyUsable(key) <==>
              && key.Some?
              && key.value != PLACEHOLDER_KEY
              && exists i :: 0 <= i < |key.value| && !IsSpace(key.value[i])
  {
    && key.Some?
    && key.value != ""
    && key.value != PLACEHOLDER_KEY
    && Strip(key.value) != ""
  }

  /** The room name when it is present and non-empty, else a drawn name. */
  function ResolveSender(roomName: Option<string>, pick: nat): (name: string)
    ensures roomName.Some? && roomName.value != "" ==> name == roomName.value
    ensures !(roomName.Some? && roomName.value != "") ==> name in CHAT_ROOM_NAMES
  {
    if roomName.Some? && roomName.value != "" then roomName.value
    else CHAT_ROOM_NAMES[pick % |CHAT_ROOM_NAMES|]
  }

  /** The instruction sent to the remote model: the sender's name is put
      after `PROMPT_HEAD` and the message, quoted, after `PROMPT_MIDDLE`. */
  const PROMPT_HEAD: string := "You are "
  const PROMPT_MIDDLE: string :=
    ", a helpful and friendly person in a chat app. Respond naturally and conversationally to this message: \""

  function Prompt(sender: string, msg: string): (p: string)
    ensures |p| == |PROMPT_HEAD| + |sender| + |PROMPT_MIDDLE| + |msg| + 1
    ensures p[..|PROMPT_HEAD|] == PROMPT_HEAD
    ensures p[|PROMPT_HEAD|..|PROMPT_HEAD| + |sender|] == sender
    ensures p[|p| - |msg| - 2] == '"' && p[|p| - |msg| - 1..|p| - 1] == msg && p[|p| - 1] == '"'
  {
    PROMPT_HEAD + sender + PROMPT_MIDDLE + msg + "\""
  }

  function Endpoint(key: string): string {
    GEMINI_API_URL + "?key=" + key
  }

  /** A body the shape check accepts, described declaratively: an object
      whose `candidates` is a non-empty list whose first element is an
      object whose `content` is an object holding a non-empty string, list
      or object under `parts`. */
  predicate WellShaped(data: Json) {
    && data.JObj?
    && "candidates" in data.fields
    && data.fields["candidates"].JArr?
    && |data.fields["candidates"].items| > 0
    && data.fields["candidates"].items[0].JObj?
    && "content" in data.fields["candidates"].items[0].fields
    && data.fields["candidates"].items[0].fields["content"].JObj?
    && "parts" in data.fields["candidates"].items[0].fields["content"].fields
    && NonEmptyContainer(data.fields["candidates"].items[0].fields["content"].fields["parts"])
  }

  predicate NonEmptyContainer(j: Json) {
    || (j.JStr? && j.s != "")
    || (j.JArr? && |j.items| > 0)
    || (j.JObj? && |j.fields| > 0)
  }

  /** `data['candidates'][0]['content']['parts']` of a well-shaped body. */
  function PartsOf(data: Json): Json
    requires WellShaped(data)
  {
    data.fields["candidates"].items[0].fields["content"].fields["parts"]
  }

  /** The shape check on a decoded body, evaluated left to right as Python
      does: `data.get` and `.get` raise on a non-object, `len` raises on a
      number or boolean, and indexing a string or an object with 0 raises
      before `.get` is reached. */
  function CheckShape(data: Json): (c: Check)
    ensures c.Passed? <==> WellShaped(data)
    ensures c.Passed? ==> c.parts == PartsOf(data)
  {
    if !data.JObj? then Raised
    else if "candidates" !in data.fields || !Truthy(data.fields["candidates"]) then Failed
    else
      var candidates := data.fields["candidates"];
      if !HasLen(candidates) || !candidates.JArr? then Raised
      else
        var first := candidates.items[0];
        if !first.JObj? then Raised
        else if "content" !in first.fields || !Truthy(first.fields["content"]) then Failed
        else
          var content := first.fields["content"];
          if !content.JObj? then Raised
          else if "parts" !in content.fields || !Truthy(content.fields["parts"]) then Failed
          else if !HasLen(content.fields["parts"]) then Raised
          else Passed(content.fields["parts"])
  }

  /** `parts[0]['text'].strip()`, or None where that expression raises:
      `parts` must be a list whose first element is an object with a string
      under `text`. */
  function ReplyText(parts: Json): (r: Option<string>)
    ensures r.Some? ==> r.value != [] ==> !IsSpace(r.value[0]) && !IsSpace(r.value[|r.value| - 1])
  {
    if parts.JArr? && |parts.items| > 0 && parts.items[0].JObj?
       && "text" in parts.items[0].fields && parts.items[0].fields["text"].JStr?
    then Some(Strip(parts.items[0].fields["text"].s))
    else None
  }

  /** The remote model's reply in an outcome, when the reply is used: the
      status is 200, the body is JSON, the shape check passes and
      `parts[0]['text']` is a string; None on every other outcome. */
  function RemoteReply(o: Outcome): (r: Option<string>)
    ensures r.Some? <==> o.Response? && o.status == 200 && o.body.Some? && WellShaped(o.body.value)
                         && ReplyText(PartsOf(o.body.value)).Some?
    ensures r.Some? ==> r == ReplyText(PartsOf(o.body.value))
  {
    match o
    case Response(200, Some(data)) =>
      (match CheckShape(data)
       case Passed(parts) => ReplyText(parts)
       case _ => None)
    case _ => None
  }

  /** The POST that asks the remote model to answer `msg` as `sender`. */
  function ReplyRequest(key: string, sender: string, msg: string): Request {
    Request(Endpoint(key), Prompt(sender, msg), REPLY_TIMEOUT)
  }

  /** The reply and its sender for `msg` posted in a room. `key` is the
      configured API key, `remote` answers the POST, `roomPick` and
      `jokePick` stand for the two random draws. */
  function GenerateAiResponse(msg: string, roomName: Option<string>, key: Option<string>,
                              remote: Request -> Outcome, roomPick: nat, jokePick: nat): (r: (string, string))
    ensures r.1 == ResolveSender(roomName, roomPick)
  {
    var sender := ResolveSender(roomName, roomPick);
    if !KeyUsable(key) then (GetFallbackResponse(msg, jokePick), sender)
    else
      match RemoteReply(remote(ReplyRequest(key.value, sender, msg)))
      case Some(text) => (text, sender)
      case None => (GetFallbackResponse(msg, jokePick), sender)
  }

  /** Whether the remote model answers the fixed test prompt in the expected
      shape: the test succeeds exactly when the key is usable and the test
      request gets a status-200 JSON answer that passes the shape check. */
  function TestGeminiConnection(key: Option<string>, remote: Request -> Outcome): (ok: bool)
    ensures ok <==>
              && KeyUsable(key)
              && var o := remote(Request(Endpoint(key.value), TEST_PROMPT, TEST_TIMEOUT));
                 o.Response? && o.status == 200 && o.body.Some? && WellShaped(o.body.value)
  {
    if !KeyUsable(key) then false
    else
      match remote(Request(Endpoint(key.value), TEST_PROMPT, TEST_TIMEOUT))
      case Response(200, Some(data)) => CheckShape(data).Passed?
      case _ => false
  }
}
