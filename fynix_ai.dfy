/** The assistant chat (src/pages/FynixAI.jsx): reading a reply out of
    whatever the server sends, grouping the raw history into sessions,
    rebuilding a stored conversation, and the send and clear actions.
    JSON parsing and printing, and printing a number, are parameters. */
module FynixAI {
  import opened JsValue
  import opened JsText

  /** `JSON.parse` (None where it throws), `JSON.stringify` and `String(n)`. */
  datatype Json = Json(parse: string -> Option<JsVal>, stringify: JsVal -> string, numberText: Num -> string)

  /** A JSON text that denotes a string is longer than that string (it
      carries its quotes), which is what ends the re-parsing. */
  ghost predicate ParseShrinksText(json: Json)
  {
    forall s :: json.parse(s).Some? && json.parse(s).value.Str? ==> |json.parse(s).value.s| < |s|
  }

  const ReplyKeys := ["answer", "query", "message", "text"]

  /** `extractMessage(data)`: "" for a falsy value; a text is parsed as
      JSON and read again, or shown as it is when it does not parse; an
      object shows its first truthy reply field, else itself as JSON; any
      other value is printed. */
  function ExtractMessage(json: Json, data: JsVal): (r: JsVal)
    requires ParseShrinksText(json)
    decreases if data.Str? then |data.s| + 1 else 0
    ensures !Truthy(data) ==> r == Str("")
    ensures data.Str? && json.parse(data.s).None? ==> r == data
    ensures data.Number? && Truthy(data) ==> r == Str(json.numberText(data.n))
  {
    if !Truthy(data) then Str("")
    else
      match data
      case Str(s) =>
        (match json.parse(s)
         case None => data
         case Some(parsed) => ExtractMessage(json, parsed))
      case Obj(_) => Or(Pick(data, ReplyKeys), Str(json.stringify(data)))
      case Arr(_) => Or(Pick(data, ReplyKeys), Str(json.stringify(data)))
      case Number(n) => Str(json.numberText(n))
      case Bool(_) => Str("true")
      case Undefined => Str("")
      case Null => Str("")
  }

  /** An object shows the first of `answer`, `query`, `message`, `text`
      that is truthy, and itself as JSON when none is. */
  lemma ExtractFromObject(json: Json, data: JsVal)
    requires ParseShrinksText(json) && data.Obj?
    ensures forall i ::
      (0 <= i < |ReplyKeys| && Truthy(Get(data, ReplyKeys[i])) &&
       forall j :: 0 <= j < i ==> !Truthy(Get(data, ReplyKeys[j]))) ==>
      ExtractMessage(json, data) == Get(data, ReplyKeys[i])
    ensures (forall i :: 0 <= i < |ReplyKeys| ==> !Truthy(Get(data, ReplyKeys[i]))) ==>
      ExtractMessage(json, data) == Str(json.stringify(data))
  {
    forall i | 0 <= i < |ReplyKeys| && Truthy(Get(data, ReplyKeys[i])) &&
      (forall j :: 0 <= j < i ==> !Truthy(Get(data, ReplyKeys[j])))
      ensures ExtractMessage(json, data) == Get(data, ReplyKeys[i])
    {
      PickAt(data, ReplyKeys, i);
    }
  }

  /** A reply object sent as JSON text reads the same as the object. */
  lemma ExtractFromJsonText(json: Json, data: JsVal)
    requires ParseShrinksText(json) && data.Obj?
    requires json.stringify(data) != "" && json.parse(json.stringify(data)) == Some(data)
    ensures ExtractMessage(json, Str(json.stringify(data))) == ExtractMessage(json, data)
  {
  }

  /** One entry of the history list. */
  datatype Session = Session(conversationId: JsVal, title: JsVal)

  const ChatSessionTitle := "Chat Session"

  /** The session an item opens: its id, titled by its query. */
  function SessionOf(item: JsVal): Session
  {
    Session(Get(item, "conversationId"), Or(Get(item, "query"), Str(ChatSessionTitle)))
  }

  /** `[...items].reverse()`. */
  function Reversed(items: seq<JsVal>): (r: seq<JsVal>)
    ensures |r| == |items|
    ensures forall i :: 0 <= i < |items| ==> r[i] == items[|items| - 1 - i]
  {
    if items == [] then [] else [items[|items| - 1]] + Reversed(items[..|items| - 1])
  }

  /** The grouping loop from some item on, with the ids `seen` so far: an
      item with a truthy id not seen yet opens a session, any other item is
      skipped. None where an item is null (reading its id throws). Ids are
      compared as values, as a `Set` of strings compares them. */
  function GroupedFrom(items: seq<JsVal>, seen: set<JsVal>): (r: Option<seq<Session>>)
    ensures r.None? <==> exists i :: 0 <= i < |items| && Nullish(items[i])
  {
    if items == [] then Some([])
    else
      assert forall i :: 1 <= i < |items| ==> items[i] == items[1..][i - 1];
      if Nullish(items[0]) then None
      else
        var id := Get(items[0], "conversationId");
        if Truthy(id) && id !in seen then
          match GroupedFrom(items[1..], seen + {id})
          case None => None
          case Some(rest) => Some([SessionOf(items[0])] + rest)
        else GroupedFrom(items[1..], seen)
  }

  /** The sessions `loadApiHistory` builds from the raw history. */
  function Sessions(history: seq<JsVal>): Option<seq<Session>>
  {
    GroupedFrom(Reversed(history), {})
  }

  /** Where the id `id` first occurs among the items, or `|items|`. */
  function FirstIndex(items: seq<JsVal>, id: JsVal): (r: nat)
    ensures r <= |items|
    ensures r < |items| ==> Get(items[r], "conversationId") == id
    ensures forall j :: 0 <= j < r ==> Get(items[j], "conversationId") != id
  {
    if items == [] then 0
    else if Get(items[0], "conversationId") == id then 0
    else
      var k := FirstIndex(items[1..], id);
      assert forall j :: 1 <= j < k + 1 ==> items[j] == items[1..][j - 1];
      1 + k
  }

  /** The ids of the sessions are truthy, new and pairwise distinct. */
  lemma {:induction false} GroupedIdsDistinct(items: seq<JsVal>, seen: set<JsVal>)
    requires GroupedFrom(items, seen).Some?
    ensures var ss := GroupedFrom(items, seen).value;
      (forall k :: 0 <= k < |ss| ==> Truthy(ss[k].conversationId) && ss[k].conversationId !in seen) &&
      forall k, l :: 0 <= k < l < |ss| ==> ss[k].conversationId != ss[l].conversationId
  {
    if items != [] {
      var id := Get(items[0], "conversationId");
      if Truthy(id) && id !in seen {
        GroupedIdsDistinct(items[1..], seen + {id});
      } else {
        GroupedIdsDistinct(items[1..], seen);
      }
    }
  }

  /** Every truthy id not seen before has a session. */
  lemma {:induction false} GroupedCovers(items: seq<JsVal>, seen: set<JsVal>, i: int)
    requires GroupedFrom(items, seen).Some?
    requires 0 <= i < |items| && Truthy(Get(items[i], "conversationId")) && Get(items[i], "conversationId") !in seen
    ensures exists k ::
      (0 <= k < |GroupedFrom(items, seen).value| &&
       GroupedFrom(items, seen).value[k].conversationId == Get(items[i], "conversationId"))
  {
    var id := Get(items[0], "conversationId");
    var ss := GroupedFrom(items, seen).value;
    if Truthy(id) && id !in seen {
      if i > 0 && Get(items[i], "conversationId") != id {
        assert items[1..][i - 1] == items[i];
        GroupedCovers(items[1..], seen + {id}, i - 1);
        var k :| 0 <= k < |GroupedFrom(items[1..], seen + {id}).value| &&
          GroupedFrom(items[1..], seen + {id}).value[k].conversationId == Get(items[i], "conversationId");
        assert ss[k + 1].conversationId == Get(items[i], "conversationId");
      } else {
        assert ss[0].conversationId == Get(items[i], "conversationId");
      }
    } else {
      assert i > 0 && items[1..][i - 1] == items[i];
      GroupedCovers(items[1..], seen, i - 1);
    }
  }

  /** Whether the first item opens a session. */
  predicate OpensSession(items: seq<JsVal>, seen: set<JsVal>)
    requires items != []
  {
    Truthy(Get(items[0], "conversationId")) && Get(items[0], "conversationId") !in seen
  }

  function SeenAfterFirst(items: seq<JsVal>, seen: set<JsVal>): set<JsVal>
    requires items != []
  {
    if OpensSession(items, seen) then seen + {Get(items[0], "conversationId")} else seen
  }

  /** One step of the grouping: the sessions of the rest follow the first
      item's own, and their ids first occur after the first item. */
  lemma GroupedStep(items: seq<JsVal>, seen: set<JsVal>)
    requires items != [] && GroupedFrom(items, seen).Some?
    ensures GroupedFrom(items[1..], SeenAfterFirst(items, seen)).Some?
    ensures var rest := GroupedFrom(items[1..], SeenAfterFirst(items, seen)).value;
      GroupedFrom(items, seen).value == (if OpensSession(items, seen) then [SessionOf(items[0])] + rest else rest) &&
      forall k :: 0 <= k < |rest| ==>
        FirstIndex(items, rest[k].conversationId) == 1 + FirstIndex(items[1..], rest[k].conversationId)
  {
    var rest := GroupedFrom(items[1..], SeenAfterFirst(items, seen)).value;
    GroupedIdsDistinct(items[1..], SeenAfterFirst(items, seen));
    forall k | 0 <= k < |rest|
      ensures FirstIndex(items, rest[k].conversationId) == 1 + FirstIndex(items[1..], rest[k].conversationId)
    {
      assert rest[k].conversationId != Get(items[0], "conversationId");
    }
  }

  /** Each session is the one the first item with its id opens. */
  predicate OpenedByFirst(items: seq<JsVal>, ss: seq<Session>)
  {
    forall k :: 0 <= k < |ss| ==>
      FirstIndex(items, ss[k].conversationId) < |items| &&
      ss[k] == SessionOf(items[FirstIndex(items, ss[k].conversationId)])
  }

  /** Sessions opened by the first items behind the first item are still
      opened by those items. */
  lemma OpenedByFirstTail(items: seq<JsVal>, rest: seq<Session>)
    requires items != [] && OpenedByFirst(items[1..], rest)
    requires forall k :: 0 <= k < |rest| ==>
      FirstIndex(items, rest[k].conversationId) == 1 + FirstIndex(items[1..], rest[k].conversationId)
    ensures OpenedByFirst(items, rest)
  {
    forall k | 0 <= k < |rest|
      ensures FirstIndex(items, rest[k].conversationId) < |items|
      ensures rest[k] == SessionOf(items[FirstIndex(items, rest[k].conversationId)])
    {
      var f := FirstIndex(items[1..], rest[k].conversationId);
      assert f < |items[1..]| && rest[k] == SessionOf(items[1..][f]);
      assert items[1..][f] == items[1 + f];
    }
  }

  /** The first item's own session, put in front, is opened by it. */
  lemma OpenedByFirstCons(items: seq<JsVal>, rest: seq<Session>)
    requires items != [] && OpenedByFirst(items, rest)
    ensures OpenedByFirst(items, [SessionOf(items[0])] + rest)
  {
    var ss := [SessionOf(items[0])] + rest;
    assert FirstIndex(items, ss[0].conversationId) == 0;
    forall k | 0 < k < |ss|
      ensures FirstIndex(items, ss[k].conversationId) < |items|
      ensures ss[k] == SessionOf(items[FirstIndex(items, ss[k].conversationId)])
    {
      assert ss[k] == rest[k - 1];
    }
  }

  lemma {:induction false} GroupedByFirstItem(items: seq<JsVal>, seen: set<JsVal>)
    requires GroupedFrom(items, seen).Some?
    ensures OpenedByFirst(items, GroupedFrom(items, seen).value)
  {
    if items != [] {
      var rest := GroupedFrom(items[1..], SeenAfterFirst(items, seen)).value;
      GroupedStep(items, seen);
      GroupedByFirstItem(items[1..], SeenAfterFirst(items, seen));
      OpenedByFirstTail(items, rest);
      if OpensSession(items, seen) {
        OpenedByFirstCons(items, rest);
      }
    }
  }

  /** The sessions' ids first occur among the items in session order. */
  predicate FirstsIncrease(items: seq<JsVal>, ss: seq<Session>)
  {
    forall k, l :: 0 <= k < l < |ss| ==>
      FirstIndex(items, ss[k].conversationId) < FirstIndex(items, ss[l].conversationId)
  }

  /** Sessions in order behind the first item stay in order, with or
      without the first item's own session in front. */
  lemma FirstsShift(items: seq<JsVal>, rest: seq<Session>)
    requires items != [] && FirstsIncrease(items[1..], rest)
    requires forall k :: 0 <= k < |rest| ==>
      FirstIndex(items, rest[k].conversationId) == 1 + FirstIndex(items[1..], rest[k].conversationId)
    ensures FirstsIncrease(items, rest)
    ensures FirstsIncrease(items, [SessionOf(items[0])] + rest)
  {
    forall k, l | 0 <= k < l < |rest|
      ensures FirstIndex(items, rest[k].conversationId) < FirstIndex(items, rest[l].conversationId)
    {
      assert FirstIndex(items[1..], rest[k].conversationId) < FirstIndex(items[1..], rest[l].conversationId);
    }
    var ss := [SessionOf(items[0])] + rest;
    assert FirstIndex(items, ss[0].conversationId) == 0;
    forall k, l | 0 <= k < l < |ss|
      ensures FirstIndex(items, ss[k].conversationId) < FirstIndex(items, ss[l].conversationId)
    {
      assert ss[l] == rest[l - 1];
      if k > 0 {
        assert ss[k] == rest[k - 1];
      }
    }
  }

  /** The sessions come in the order their first items come in. */
  lemma {:induction false} GroupedInOrder(items: seq<JsVal>, seen: set<JsVal>)
    requires GroupedFrom(items, seen).Some?
    ensures FirstsIncrease(items, GroupedFrom(items, seen).value)
  {
    if items != [] {
      var rest := GroupedFrom(items[1..], SeenAfterFirst(items, seen)).value;
      GroupedStep(items, seen);
      GroupedInOrder(items[1..], SeenAfterFirst(items, seen));
      FirstsShift(items, rest);
    }
  }

  /** The history shows one session per conversation: each truthy id of
      the raw history has exactly one session, titled by the latest item
      with that id, and the latest conversations come first. */
  lemma SessionsSpec(history: seq<JsVal>)
    requires Sessions(history).Some?
    ensures var ss := Sessions(history).value;
      var rev := Reversed(history);
      (forall k, l :: 0 <= k < l < |ss| ==> ss[k].conversationId != ss[l].conversationId) &&
      (forall i :: 0 <= i < |history| && Truthy(Get(history[i], "conversationId")) ==>
        exists k :: 0 <= k < |ss| && ss[k].conversationId == Get(history[i], "conversationId")) &&
      (forall k :: 0 <= k < |ss| ==>
        Truthy(ss[k].conversationId) && FirstIndex(rev, ss[k].conversationId) < |rev| &&
        ss[k] == SessionOf(rev[FirstIndex(rev, ss[k].conversationId)])) &&
      (forall k, l :: 0 <= k < l < |ss| ==>
        FirstIndex(rev, ss[k].conversationId) < FirstIndex(rev, ss[l].conversationId))
  {
    var rev := Reversed(history);
    GroupedIdsDistinct(rev, {});
    GroupedByFirstItem(rev, {});
    GroupedInOrder(rev, {});
    forall i | 0 <= i < |history| && Truthy(Get(history[i], "conversationId"))
      ensures exists k ::
        (0 <= k < |Sessions(history).value| &&
         Sessions(history).value[k].conversationId == Get(history[i], "conversationId"))
    {
      assert rev[|history| - 1 - i] == history[i];
      GroupedCovers(rev, {}, |history| - 1 - i);
    }
  }

  /** The grouping loop of `loadApiHistory`, over the raw history. */
  method GroupSessions(history: seq<JsVal>) returns (r: Option<seq<Session>>)
    ensures r == Sessions(history)
  {
    var rev := Reversed(history);
    var sessions: seq<Session> := [];
    var seen: set<JsVal> := {};
    var i := 0;
    assert rev[0..] == rev;
    assert GroupedFrom(rev, {}).Some? ==> [] + GroupedFrom(rev, {}).value == GroupedFrom(rev, {}).value;
    while i < |rev|
      invariant 0 <= i <= |rev|
      invariant GroupedFrom(rev[i..], seen).Some? ==>
        Sessions(history) == Some(sessions + GroupedFrom(rev[i..], seen).value)
      invariant GroupedFrom(rev[i..], seen).None? ==> Sessions(history).None?
    {
      assert rev[i..][1..] == rev[i + 1..] && rev[i..][0] == rev[i];
      var item := rev[i];
      if Nullish(item) {
        return None;
      }
      var id := Get(item, "conversationId");
      if Truthy(id) && id !in seen {
        seen := seen + {id};
        assert GroupedFrom(rev[i + 1..], seen).Some? ==>
          sessions + [SessionOf(item)] + GroupedFrom(rev[i + 1..], seen).value ==
          sessions + ([SessionOf(item)] + GroupedFrom(rev[i + 1..], seen).value);
        sessions := sessions + [SessionOf(item)];
      }
      i := i + 1;
    }
    assert rev[i..] == [];
    assert sessions + [] == sessions;
    return Some(sessions);
  }

  datatype Role = User | Assistant
  datatype ChatMessage = ChatMessage(role: Role, content: JsVal)

  const UserKeys := ["query", "message", "prompt"]
  const AnswerKeys := ["aiAnswer", "aIAnswer", "ai_answer", "answer", "response", "botResponse", "content"]

  /** What one stored record contributes: its question, if any, then its
      answer, if any. */
  function RecordMessages(item: JsVal): (r: seq<ChatMessage>)
    ensures |r| <= 2
    ensures r == [] <==> !Truthy(Pick(item, UserKeys)) && !Truthy(Pick(item, AnswerKeys))
    ensures |r| == 2 ==> r[0].role == User && r[1].role == Assistant
    ensures forall m :: m in r ==> Truthy(m.content)
    ensures forall m :: m in r && m.role == User ==> exists i :: 0 <= i < |UserKeys| && m.content == Get(item, UserKeys[i])
    ensures Truthy(Pick(item, UserKeys)) ==> r[0] == ChatMessage(User, Pick(item, UserKeys))
    ensures Truthy(Pick(item, AnswerKeys)) ==> r[|r| - 1] == ChatMessage(Assistant, Pick(item, AnswerKeys))
  {
    PickIsFirstTruthy(item, UserKeys);
    (if Truthy(Pick(item, UserKeys)) then [ChatMessage(User, Pick(item, UserKeys))] else []) +
    (if Truthy(Pick(item, AnswerKeys)) then [ChatMessage(Assistant, Pick(item, AnswerKeys))] else [])
  }

  /** Records read one by one with `read`, their messages in record order;
      None where a record is null. */
  function Gather(records: seq<JsVal>, read: JsVal -> seq<ChatMessage>): (r: Option<seq<ChatMessage>>)
    ensures r.None? <==> exists i :: 0 <= i < |records| && Nullish(records[i])
    ensures r.Some? && (forall x :: |read(x)| <= 2) ==> |r.value| <= 2 * |records|
  {
    if records == [] then Some([])
    else
      assert forall i :: 1 <= i < |records| ==> records[i] == records[1..][i - 1];
      var rest := Gather(records[1..], read);
      if Nullish(records[0]) || rest.None? then None
      else Some(read(records[0]) + rest.value)
  }

  /** Gathering two runs of records gives the messages of the first run
      followed by those of the second. */
  lemma {:induction false} GatherAppend(a: seq<JsVal>, b: seq<JsVal>, read: JsVal -> seq<ChatMessage>)
    requires Gather(a, read).Some? && Gather(b, read).Some?
    ensures Gather(a + b, read) == Some(Gather(a, read).value + Gather(b, read).value)
  {
    if a == [] {
      assert a + b == b;
      assert [] + Gather(b, read).value == Gather(b, read).value;
    } else {
      var head, tail := read(a[0]), Gather(a[1..], read).value;
      assert (a + b)[0] == a[0] && (a + b)[1..] == a[1..] + b;
      GatherAppend(a[1..], b, read);
      assert head + (tail + Gather(b, read).value) == head + tail + Gather(b, read).value;
    }
  }

  /** The conversation rebuilt from its records, in record order; None
      where a record is null. */
  function Transcript(records: seq<JsVal>): (r: Option<seq<ChatMessage>>)
    ensures r.None? <==> exists i :: 0 <= i < |records| && Nullish(records[i])
    ensures r.Some? ==> |r.value| <= 2 * |records|
  {
    Gather(records, RecordMessages)
  }

  /** Record by record: the messages of two runs of records are those of
      the first run followed by those of the second. */
  lemma TranscriptAppend(a: seq<JsVal>, b: seq<JsVal>)
    requires Transcript(a).Some? && Transcript(b).Some?
    ensures Transcript(a + b) == Some(Transcript(a).value + Transcript(b).value)
  {
    GatherAppend(a, b, RecordMessages);
  }

  /** A single record gives its own messages. */
  lemma TranscriptSingle(item: JsVal)
    requires !Nullish(item)
    ensures Transcript([item]) == Some(RecordMessages(item))
  {
    assert [item][1..] == [];
    assert RecordMessages(item) + [] == RecordMessages(item);
  }

  /** The `forEach` of `selectHistorySession`. */
  method BuildTranscript(records: seq<JsVal>) returns (r: Option<seq<ChatMessage>>)
    ensures r == Transcript(records)
  {
    var formatted: seq<ChatMessage> := [];
    var i := 0;
    while i < |records|
      invariant 0 <= i <= |records|
      invariant Transcript(records[..i]) == Some(formatted)
    {
      ghost var before := formatted;
      if Nullish(records[i]) {
        assert Transcript(records).None?;
        return None;
      }
      var userText := Pick(records[i], UserKeys);
      if Truthy(userText) {
        formatted := formatted + [ChatMessage(User, userText)];
      }
      var botText := Pick(records[i], AnswerKeys);
      if Truthy(botText) {
        formatted := formatted + [ChatMessage(Assistant, botText)];
      }
      assert formatted == before + RecordMessages(records[i]);
      assert records[..i + 1] == records[..i] + [records[i]];
      TranscriptSingle(records[i]);
      TranscriptAppend(records[..i], [records[i]]);
      i := i + 1;
    }
    assert records[..i] == records;
    return Some(formatted);
  }

  const SystemErrorText := "\U{26A0}\U{FE0F} System Error: Unable to fetch financial data."

  /** The answer `sendMessage` appends for the call's outcome: the reply
      read out of the body, or the fixed error text when the call fails or
      its body is null. */
  function Reply(json: Json, response: Outcome<JsVal>): (m: ChatMessage)
    requires ParseShrinksText(json)
    ensures m.role == Assistant
    ensures response.Rejected? ==> m.content == Str(SystemErrorText)
    ensures response.Fulfilled? && (Nullish(response.value) || Nullish(Get(response.value, "data"))) ==>
      m.content == Str(SystemErrorText)
    ensures response.Fulfilled? && !Nullish(response.value) && !Nullish(Get(response.value, "data")) ==>
      m.content == ExtractMessage(json, Or(Get(Get(response.value, "data"), "answer"), Get(response.value, "data")))
  {
    match response
    case Rejected(_) => ChatMessage(Assistant, Str(SystemErrorText))
    case Fulfilled(res) =>
      if Nullish(res) || Nullish(Get(res, "data")) then ChatMessage(Assistant, Str(SystemErrorText))
      else
        var data := Get(res, "data");
        ChatMessage(Assistant, ExtractMessage(json, Or(Get(data, "answer"), data)))
  }

  /** The conversation id after a send: a returned id is adopted only when
      no conversation is active. */
  function AdoptedId(current: JsVal, response: Outcome<JsVal>): (r: JsVal)
    ensures Truthy(current) ==> r == current
    ensures r != current ==>
      response.Fulfilled? && !Nullish(response.value) && !Nullish(Get(response.value, "data")) &&
      r == Get(Get(response.value, "data"), "conversationId") && Truthy(r)
    ensures response.Fulfilled? && !Nullish(response.value) && !Nullish(Get(response.value, "data")) &&
            !Truthy(current) && Truthy(Get(Get(response.value, "data"), "conversationId")) ==>
              r == Get(Get(response.value, "data"), "conversationId")
  {
    match response
    case Rejected(_) => current
    case Fulfilled(res) =>
      if Nullish(res) || Nullish(Get(res, "data")) then current
      else
        var returned := Get(Get(res, "data"), "conversationId");
        if !Truthy(current) && Truthy(returned) then returned else current
  }

  /** One exchange: the question, then the reply to it. */
  function Turn(json: Json, text: string, response: Outcome<JsVal>): (t: seq<ChatMessage>)
    requires ParseShrinksText(json)
    ensures |t| == 2 && t[0] == ChatMessage(User, Str(text)) && t[1].role == Assistant
  {
    [ChatMessage(User, Str(text)), Reply(json, response)]
  }

  /** The text a send would post: the suggestion clicked, or else the
      input box, trimmed. */
  function TextToSend(overrideText: JsVal, input: string): string
  {
    Trim(if overrideText.Str? then overrideText.s else input)
  }

  class ChatSession {
    var messages: seq<ChatMessage>
    var input: string
    var loading: bool
    var conversationId: JsVal
    var historySessions: seq<Session>

    constructor()
      ensures messages == [] && input == "" && !loading && conversationId == Null && historySessions == []
    {
      messages := [];
      input := "";
      loading := false;
      conversationId := Null;
      historySessions := [];
    }

    /** `sendMessage(overrideText)` with the call's outcome. Blank text or
        a send already in flight changes nothing. Otherwise the question
        and then exactly one answer are appended, the box is emptied, and
        a new conversation adopts the returned id and asks for the history
        to be reloaded. */
    method SendMessage(json: Json, overrideText: JsVal, response: Outcome<JsVal>) returns (reloadHistory: bool)
      requires ParseShrinksText(json)
      modifies this
      ensures var text := TextToSend(overrideText, old(input));
        (text == "" || old(loading)) ==>
          messages == old(messages) && input == old(input) && loading == old(loading) &&
          conversationId == old(conversationId) && !reloadHistory
      ensures var text := TextToSend(overrideText, old(input));
        (text != "" && !old(loading)) ==>
          messages == old(messages) + Turn(json, text, response) &&
          input == "" && !loading &&
          conversationId == AdoptedId(old(conversationId), response) &&
          reloadHistory == (conversationId != old(conversationId))
      ensures historySessions == old(historySessions)
    {
      var text := TextToSend(overrideText, input);
      if text == "" || loading {
        return false;
      }
      var turn := Turn(json, text, response);
      input := "";
      var adopted := AdoptedId(conversationId, response);
      reloadHistory := adopted != conversationId;
      conversationId := adopted;
      messages := messages + turn;
      loading := false;
    }

    /** `clearChat`: a fresh, empty conversation. */
    method ClearChat()
      modifies this
      ensures messages == [] && conversationId == Null
      ensures input == old(input) && loading == old(loading) && historySessions == old(historySessions)
    {
      messages := [];
      conversationId := Null;
    }

    /** `loadApiHistory` with the call's outcome: the grouped sessions, or
        the old list when the call fails or the history cannot be read (a
        toast reports it; the result is false). A text body spreads into
        characters, none of which has an id. */
    method LoadApiHistory(response: Outcome<JsVal>) returns (ok: bool)
      modifies this
      ensures ok ==> response.Fulfilled? && !Nullish(response.value)
      ensures var all := if response.Fulfilled? && !Nullish(response.value) then Or(Get(response.value, "data"), Arr([])) else Null;
        (ok && all.Arr? ==> Sessions(all.items).Some? && historySessions == Sessions(all.items).value) &&
        (ok && !all.Arr? ==> all.Str? && historySessions == []) &&
        (!ok ==> historySessions == old(historySessions))
      ensures messages == old(messages) && input == old(input) && loading == old(loading) &&
        conversationId == old(conversationId)
    {
      if response.Rejected? || Nullish(response.value) {
        return false;
      }
      var all := Or(Get(response.value, "data"), Arr([]));
      if all.Str? {
        historySessions := [];
        return true;
      }
      if !all.Arr? {
        return false;
      }
      var grouped := GroupSessions(all.items);
      if grouped.None? {
        return false;
      }
      historySessions := grouped.value;
      return true;
    }

    /** `selectHistorySession(session)` with the call's outcome: the
        rebuilt conversation becomes the chat and its id the active one;
        a failed call or unreadable records leave both as they were. */
    method SelectHistorySession(session: Session, response: Outcome<JsVal>) returns (ok: bool)
      modifies this
      ensures var data := if response.Fulfilled? && !Nullish(response.value) then Or(Get(response.value, "data"), Arr([])) else Null;
        (ok <==> data.Arr? && Transcript(data.items).Some?) &&
        (ok ==> messages == Transcript(data.items).value && conversationId == session.conversationId) &&
        (!ok ==> messages == old(messages) && conversationId == old(conversationId))
      ensures input == old(input) && loading == old(loading) && historySessions == old(historySessions)
    {
      if response.Rejected? || Nullish(response.value) {
        return false;
      }
      var data := Or(Get(response.value, "data"), Arr([]));
      if !data.Arr? {
        return false;
      }
      var formatted := BuildTranscript(data.items);
      if formatted.None? {
        return false;
      }
      messages := formatted.value;
      conversationId := session.conversationId;
      return true;
    }
  }
}
