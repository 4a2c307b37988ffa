/** Properties of the chat reply service: who a reply is sent as, when the
    remote model's text is used and when the fallback reply is, and what
    the connection test reports. */
module AiServiceFacts {
  import opened Text
  import opened FallbackResponder
  import opened AiService

  /** The sender is the room name when the room has one, and a name from
      CHAT_ROOM_NAMES otherwise. */
  lemma SenderIsRoomOrChatName(msg: string, roomName: Option<string>, key: Option<string>,
                               remote: Request -> Outcome, roomPick: nat, jokePick: nat)
    ensures var sender := GenerateAiResponse(msg, roomName, key, remote, roomPick, jokePick).1;
            && (roomName.Some? && roomName.value != "" ==> sender == roomName.value)
            && (!(roomName.Some? && roomName.value != "") ==> sender in CHAT_ROOM_NAMES)
  {
  }

  /** The sender depends on the room and the draw only: the message, the
      key, the remote outcome and the joke draw do not change it. */
  lemma SenderOnEveryPath(roomName: Option<string>, roomPick: nat,
                          m1: string, k1: Option<string>, r1: Request -> Outcome, j1: nat,
                          m2: string, k2: Option<string>, r2: Request -> Outcome, j2: nat)
    ensures GenerateAiResponse(m1, roomName, k1, r1, roomPick, j1).1
         == GenerateAiResponse(m2, roomName, k2, r2, roomPick, j2).1
  {
  }

  /** Without a usable key the remote model is never asked: the reply is the
      fallback reply, whatever the remote would have answered. */
  lemma UnusableKeyFallsBack(msg: string, roomName: Option<string>, key: Option<string>,
                             remote: Request -> Outcome, roomPick: nat, jokePick: nat)
    requires !KeyUsable(key)
    ensures GenerateAiResponse(msg, roomName, key, remote, roomPick, jokePick).0
         == GetFallbackResponse(msg, jokePick)
  {
  }

  /** Without a usable key every message gets a non-empty reply. */
  lemma UnusableKeyReplyNonEmpty(msg: string, roomName: Option<string>, key: Option<string>,
                                 remote: Request -> Outcome, roomPick: nat, jokePick: nat)
    requires !KeyUsable(key)
    ensures GenerateAiResponse(msg, roomName, key, remote, roomPick, jokePick).0 != ""
  {
    UnusableKeyFallsBack(msg, roomName, key, remote, roomPick, jokePick);
  }

  /** A well-shaped body passes each test of the source's condition in
      turn: `candidates` is truthy and has a first element, that element's
      `content` is truthy, and `parts` is truthy and has a length. */
  lemma WellShapedPassesTests(data: Json)
    requires WellShaped(data)
    ensures var candidates := data.fields["candidates"];
            var content := candidates.items[0].fields["content"];
            && Truthy(candidates) && HasLen(candidates) && |candidates.items| > 0
            && Truthy(content) && Truthy(PartsOf(data)) && HasLen(PartsOf(data))
  {
  }

  /** Every failed call falls back: a timeout, a request error, any other
      error, a status other than 200, a body that is not JSON, or a body that
      fails the shape check. */
  lemma FailureFallsBack(o: Outcome)
    requires || o.Timeout? || o.RequestError? || o.OtherError?
             || (o.Response? && (o.status != 200 || o.body.None? || !WellShaped(o.body.value)))
    ensures RemoteReply(o) == None
  {
  }

  /** With a usable key, the reply is the remote model's text when the call
      produced one, and the fallback reply otherwise. */
  lemma UsableKeyReply(msg: string, roomName: Option<string>, key: Option<string>,
                       remote: Request -> Outcome, roomPick: nat, jokePick: nat)
    requires KeyUsable(key)
    ensures var o := remote(ReplyRequest(key.value, ResolveSender(roomName, roomPick), msg));
            var reply := GenerateAiResponse(msg, roomName, key, remote, roomPick, jokePick).0;
            && (RemoteReply(o).Some? ==> reply == RemoteReply(o).value)
            && (RemoteReply(o).None? ==> reply == GetFallbackResponse(msg, jokePick))
  {
  }

  /** A status-200 answer whose first part holds a string under `text` is
      answered with that string, stripped of surrounding whitespace. */
  lemma RemoteTextUsed(msg: string, roomName: Option<string>, key: Option<string>,
                       remote: Request -> Outcome, roomPick: nat, jokePick: nat,
                       data: Json, text: string)
    requires KeyUsable(key)
    requires remote(ReplyRequest(key.value, ResolveSender(roomName, roomPick), msg)) == Response(200, Some(data))
    requires WellShaped(data) && PartsOf(data).JArr? && |PartsOf(data).items| > 0
    requires PartsOf(data).items[0].JObj? && "text" in PartsOf(data).items[0].fields
    requires PartsOf(data).items[0].fields["text"] == JStr(text)
    ensures GenerateAiResponse(msg, roomName, key, remote, roomPick, jokePick).0 == Strip(text)
  {
    TextOfAnswer(data, text);
    UsableKeyReply(msg, roomName, key, remote, roomPick, jokePick);
  }

  /** The text a status-200 answer carries in its first part. */
  lemma TextOfAnswer(data: Json, text: string)
    requires WellShaped(data) && PartsOf(data).JArr? && |PartsOf(data).items| > 0
    requires PartsOf(data).items[0].JObj? && "text" in PartsOf(data).items[0].fields
    requires PartsOf(data).items[0].fields["text"] == JStr(text)
    ensures RemoteReply(Response(200, Some(data))) == Some(Strip(text))
  {
  }

  /** A text the remote model's reply is taken from is used stripped of
      surrounding whitespace: stripping it again changes nothing. */
  lemma RemoteReplyTrimmed(o: Outcome)
    ensures RemoteReply(o).Some? ==> Strip(RemoteReply(o).value) == RemoteReply(o).value
  {
    if RemoteReply(o).Some? {
      StripOfTrimmed(RemoteReply(o).value);
    }
  }

  /** The reply is either the fallback reply or the remote model's text; in
      the second case the text has no surrounding whitespace left to strip. */
  lemma ReplyCases(msg: string, roomName: Option<string>, key: Option<string>,
                   remote: Request -> Outcome, roomPick: nat, jokePick: nat)
    ensures var reply := GenerateAiResponse(msg, roomName, key, remote, roomPick, jokePick).0;
            || reply == GetFallbackResponse(msg, jokePick)
            || Strip(reply) == reply
  {
    if KeyUsable(key) {
      var o := remote(ReplyRequest(key.value, ResolveSender(roomName, roomPick), msg));
      UsableKeyReply(msg, roomName, key, remote, roomPick, jokePick);
      RemoteReplyTrimmed(o);
    }
  }

  /** The request names the sender and quotes the message. */
  lemma PromptNamesSender(sender: string, msg: string)
    ensures Contains(Prompt(sender, msg), sender)
    ensures Contains(Prompt(sender, msg), msg)
  {
    var p := Prompt(sender, msg);
    assert OccursAt(p, sender, |PROMPT_HEAD|);
    assert OccursAt(p, msg, |p| - |msg| - 1);
    ContainsIff(p, sender);
    ContainsIff(p, msg);
  }

  /** A body whose first part holds only whitespace under `text`. */
  const BLANK_TEXT: Json :=
    JObj(map["candidates" := JArr([JObj(map["content" := JObj(map["parts" := JArr([JObj(map["text" := JStr(" ")])])])])])])

  /** With a usable key the reply can be empty: a remote text of only
      whitespace is used, stripped to "", instead of the fallback reply. */
  lemma BlankRemoteTextGivesEmptyReply(msg: string, roomName: Option<string>, roomPick: nat, jokePick: nat)
    ensures var remote := (r: Request) => Response(200, Some(BLANK_TEXT));
            GenerateAiResponse(msg, roomName, Some("k"), remote, roomPick, jokePick).0 == ""
  {
    var remote := (r: Request) => Response(200, Some(BLANK_TEXT));
    BlankAnswer();
    UsableKeyReply(msg, roomName, Some("k"), remote, roomPick, jokePick);
  }

  /** "k" is a usable key, and BLANK_TEXT carries the remote text "". */
  lemma BlankAnswer()
    ensures KeyUsable(Some("k"))
    ensures RemoteReply(Response(200, Some(BLANK_TEXT))) == Some("")
  {
    StripOfTrimmed("k");
    TextOfAnswer(BLANK_TEXT, " ");
    assert Strip(" ") == "";
  }

  /** A body whose `parts` is a non-empty string rather than a list. */
  const STRING_PARTS: Json :=
    JObj(map["candidates" := JArr([JObj(map["content" := JObj(map["parts" := JStr("Hello!")])])])])

  /** "k" is a usable key, and STRING_PARTS passes the shape check but has
      no text to reply with. */
  lemma StringPartsShape()
    ensures KeyUsable(Some("k"))
    ensures WellShaped(STRING_PARTS) && ReplyText(PartsOf(STRING_PARTS)) == None
  {
    StripOfTrimmed("k");
  }

  /** The connection test and the reply use the same shape check but not
      the same extraction: for a body whose `parts` is a string, the test
      succeeds while every reply falls back, because `parts[0]['text']`
      raises on a string. */
  lemma TestPassesWhileReplyFallsBack(msg: string, roomName: Option<string>, roomPick: nat, jokePick: nat)
    ensures var remote := (r: Request) => Response(200, Some(STRING_PARTS));
            && TestGeminiConnection(Some("k"), remote)
            && GenerateAiResponse(msg, roomName, Some("k"), remote, roomPick, jokePick).0
               == GetFallbackResponse(msg, jokePick)
  {
    StringPartsShape();
  }
}
