/**
 * The WhatsApp Cloud API webhook (app.py).
 *
 * A GET is Meta's verification handshake: the challenge is echoed when the
 * verify token matches the configured one. A POST carries an event payload
 * `{"entry": [{"changes": [{"value": {"messages": [...]}}]}]}`; for every
 * change that has messages, the first message is answered with an echo of
 * its text, and the view returns `("EVENT_RECEIVED", 200)`.
 *
 * Sending is modelled as the sequence of outbound requests the handler
 * intends, in order. An exception raised while walking a malformed payload
 * escapes the view, after the replies for everything before it were sent.
 */
module Webhook {
  import opened Wrappers
  import opened Python
  import opened Http

  /** `VERIFY_TOKEN`, `ACCESS_TOKEN`, `PHONE_NUMBER_ID`; `os.getenv` gives
      None for an unset variable. */
  datatype Config = Config(
    verifyToken: Option<string>,
    accessToken: Option<string>,
    phoneNumberId: Option<string>)

  const GraphApiBase := "https://graph.facebook.com/v18.0/"
  const InvalidTokenMessage := "Token inválido"
  const EventReceived := "EVENT_RECEIVED"
  /** Flask's endpoint name for the view, the function's name */
  const Endpoint := "webhook"

  datatype Request =
    /** GET with its query arguments */
    | Verify(args: map<string, string>)
    /** POST with its decoded JSON body */
    | Event(body: Json)

  /** An intended `requests.post(url, json=payload, headers=headers)`. */
  datatype Outbound = Outbound(url: string, headers: seq<(string, string)>, payload: Json)

  /** What the view did: the replies it sent, in order, and its response. */
  datatype Outcome = Outcome(sends: seq<Outbound>, response: Response)

  /** An f-string field holding a str or None. */
  function Format(o: Option<string>): string {
    match o
    case Some(s) => s
    case None => "None"
  }

  /** `request.args.get(name)` */
  function Arg(args: map<string, string>, name: string): Option<string> {
    if name in args then Some(args[name]) else None
  }

  // ------------------------------------------------------------ GET

  /** The verification handshake. Python compares `str | None` values, so an
      unset `VERIFY_TOKEN` matches a request without `hub.verify_token`;
      echoing an absent challenge returns None, which Flask rejects. */
  function VerifyHandshake(cfg: Config, args: map<string, string>): (r: Response)
    ensures Arg(args, "hub.verify_token") != cfg.verifyToken ==>
              r == TextResponse(InvalidTokenMessage, 403)
    ensures Arg(args, "hub.verify_token") == cfg.verifyToken && "hub.challenge" in args ==>
              r == TextResponse(args["hub.challenge"], 200)
    ensures Arg(args, "hub.verify_token") == cfg.verifyToken && "hub.challenge" !in args ==>
              r == Unhandled(ViewReturnedNone(Endpoint))
  {
    var token := Arg(args, "hub.verify_token");
    var challenge := Arg(args, "hub.challenge");
    if token == cfg.verifyToken then
      (match challenge
       case Some(text) => TextResponse(text, 200)
       case None => Unhandled(ViewReturnedNone(Endpoint)))
    else TextResponse(InvalidTokenMessage, 403)
  }

  /** The challenge comes back with 200 exactly when the configured token was
      presented (and a challenge was sent); a wrong token is always 403. */
  lemma ChallengeEchoedIff(cfg: Config, args: map<string, string>)
    requires cfg.verifyToken.Some?
    ensures StatusOf(VerifyHandshake(cfg, args)) == 200 <==>
              "hub.verify_token" in args && args["hub.verify_token"] == cfg.verifyToken.value
              && "hub.challenge" in args
    ensures StatusOf(VerifyHandshake(cfg, args)) == 200 ==>
              VerifyHandshake(cfg, args).text == args["hub.challenge"]
    ensures StatusOf(VerifyHandshake(cfg, args)) != 200 ==>
              VerifyHandshake(cfg, args) == TextResponse(InvalidTokenMessage, 403)
              || VerifyHandshake(cfg, args) == Unhandled(ViewReturnedNone(Endpoint))
  {
  }

  // ------------------------------------------------------------ sending

  /** The JSON body `send_message` posts. */
  function Payload(to: Json, message: string): seq<(string, Json)> {
    [("messaging_product", JStr("whatsapp")),
     ("to", to),
     ("type", JStr("text")),
     ("text", JObject([("body", JStr(message))]))]
  }

  /** `send_message(to, message)`: the request it posts. */
  function SendMessage(cfg: Config, to: Json, message: string): (o: Outbound)
    ensures o.payload == JObject(Payload(to, message))
    ensures o.url == GraphApiBase + Format(cfg.phoneNumberId) + "/messages"
    ensures ("Authorization", "Bearer " + Format(cfg.accessToken)) in o.headers
    ensures ("Content-Type", "application/json") in o.headers
  {
    Outbound(
      GraphApiBase + Format(cfg.phoneNumberId) + "/messages",
      [("Authorization", "Bearer " + Format(cfg.accessToken)),
       ("Content-Type", "application/json")],
      JObject(Payload(to, message)))
  }

  /** Reading the posted payload back as a dict gives the WhatsApp message
      fields: product, recipient, type, and the text body. */
  lemma PayloadReadsBack(cfg: Config, to: Json, message: string)
    ensures var fields := SendMessage(cfg, to, message).payload.fields;
            && |fields| == 4
            && Lookup(fields, "messaging_product") == Some(JStr("whatsapp"))
            && Lookup(fields, "to") == Some(to)
            && Lookup(fields, "type") == Some(JStr("text"))
            && Lookup(fields, "text") == Some(JObject([("body", JStr(message))]))
            && Lookup(Lookup(fields, "text").value.fields, "body") == Some(JStr(message))
  {
    var f := Payload(to, message);
    assert "type"[1] != "text"[1];
    assert f[1..][1..] == f[2..];
    assert f[2..][1..] == f[3..];
    assert f[2..] == [("type", JStr("text")), ("text", JObject([("body", JStr(message))]))];
    assert f[3..] == [("text", JObject([("body", JStr(message))]))];
    assert Lookup(f[3..], "text") == Some(JObject([("body", JStr(message))]));
    assert Lookup(f[2..], "type") == Some(JStr("text"));
    assert Lookup(f[2..], "text") == Lookup(f[3..], "text");
    assert Lookup(f[1..], "type") == Lookup(f[2..], "type");
    assert Lookup(f[1..], "text") == Lookup(f[2..], "text");
  }

  /** The echo text of a reply. */
  function ReplyText(text: string): string {
    "Recibí tu mensaje: '" + text + "' ✅"
  }

  // ------------------------------------------------------------ POST

  /** One change: answer `messages[0]` when `messages` is truthy. */
  function ChangeReply(cfg: Config, change: Json): Result<Option<Outbound>, Exc> {
    var value :- Get(change, "value", JObject([]));
    var messages :- Get(value, "messages", JArray([]));
    if !Truthy(messages) then Success(None)
    else
      var reply :- MessageReply(cfg, messages);
      Success(Some(reply))
  }

  /** The reply to `messages[0]`. */
  function MessageReply(cfg: Config, messages: Json): Result<Outbound, Exc> {
    var msg :- Subscript(messages, IntKey(0));
    var sender :- Get(msg, "from", JNull);
    // `msg` is a dict from here on, so its second `get` cannot raise
    var textField := FieldOr(msg, "text", JObject([]));
    var body :- Get(textField, "body", JStr(""));
    Success(SendMessage(cfg, sender, ReplyText(Str(body))))
  }

  /** Replies sent so far, and the exception that stopped the walk, if any. */
  datatype Run = Run(sends: seq<Outbound>, fault: Option<Exc>)

  /** `a` followed by `b`, unless `a` already raised. */
  function Then(a: Run, b: Run): Run {
    if a.fault.Some? then a else Run(a.sends + b.sends, b.fault)
  }

  function ChangesRun(cfg: Config, changes: seq<Json>): Run
    decreases |changes|
  {
    if |changes| == 0 then Run([], None)
    else
      match ChangeReply(cfg, changes[0])
      case Failure(e) => Run([], Some(e))
      case Success(reply) =>
        var head := if reply.Some? then [reply.value] else [];
        Then(Run(head, None), ChangesRun(cfg, changes[1..]))
  }

  /** `for change in entry.get("changes", [])` */
  function EntryRun(cfg: Config, entry: Json): Run {
    match Get(entry, "changes", JArray([]))
    case Failure(e) => Run([], Some(e))
    case Success(changes) =>
      match Iterate(changes)
      case Failure(e) => Run([], Some(e))
      case Success(items) => ChangesRun(cfg, items)
  }

  /** `for entry in data["entry"]` */
  function EntriesRun(cfg: Config, entries: seq<Json>): Run
    decreases |entries|
  {
    if |entries| == 0 then Run([], None)
    else Then(EntryRun(cfg, entries[0]), EntriesRun(cfg, entries[1..]))
  }

  /** The POST branch of `webhook`. */
  function HandleEvent(cfg: Config, data: Json): (out: Outcome)
    ensures !data.JObject? ==> out == Outcome([], Unhandled(NoAttribute(TypeOf(data), "get")))
    ensures data.JObject? && !Truthy(Get(data, "entry", JNull).value) ==>
              out == Outcome([], TextResponse(EventReceived, 200))
    ensures out.response == TextResponse(EventReceived, 200) || out.response.Unhandled?
  {
    match Get(data, "entry", JNull)
    case Failure(e) => Outcome([], Unhandled(e))
    case Success(entry) =>
      if !Truthy(entry) then Outcome([], TextResponse(EventReceived, 200))
      else
        match Iterate(entry)  // `data["entry"]` is the value just read
        case Failure(e) => Outcome([], Unhandled(e))
        case Success(entries) =>
          var run := EntriesRun(cfg, entries);
          Outcome(run.sends,
                  if run.fault.None? then TextResponse(EventReceived, 200)
                  else Unhandled(run.fault.value))
  }

  /** `webhook`: GET or POST on `/webhook`. */
  function Webhook(cfg: Config, request: Request): (out: Outcome)
    ensures request.Verify? ==> out == Outcome([], VerifyHandshake(cfg, request.args))
    ensures request.Event? ==> out == HandleEvent(cfg, request.body)
  {
    match request
    case Verify(args) => Outcome([], VerifyHandshake(cfg, args))
    case Event(body) => HandleEvent(cfg, body)
  }

  // ------------------------------------------------------------ shapes

  /** `v.get(k, default)` on a value known to be a dict, or the default. */
  function FieldOr(v: Json, k: string, default: Json): Json {
    if HasKey(v, k) then Lookup(v.fields, k).value else default
  }

  function MessagesOf(change: Json): Json {
    FieldOr(FieldOr(change, "value", JObject([])), "messages", JArray([]))
  }

  predicate WellFormedMessage(msg: Json) {
    msg.JObject? && FieldOr(msg, "text", JObject([])).JObject?
  }

  predicate WellFormedChange(change: Json) {
    && change.JObject?
    && FieldOr(change, "value", JObject([])).JObject?
    && var messages := MessagesOf(change);
       !Truthy(messages) || (messages.JArray? && WellFormedMessage(messages.items[0]))
  }

  /** A `changes` value a loop walks without raising. */
  predicate WellFormedChanges(changes: Json) {
    || (changes.JArray? && forall i :: 0 <= i < |changes.items| ==> WellFormedChange(changes.items[i]))
    || changes == JStr("")
    || changes == JObject([])
  }

  predicate WellFormedEntry(entry: Json) {
    entry.JObject? && WellFormedChanges(FieldOr(entry, "changes", JArray([])))
  }

  /** A payload the POST branch walks without raising. */
  predicate WellShaped(data: Json) {
    && data.JObject?
    && var entry := FieldOr(data, "entry", JNull);
       !Truthy(entry) || (entry.JArray? && forall i :: 0 <= i < |entry.items| ==> WellFormedEntry(entry.items[i]))
  }

  /** The changes an entry lists. */
  function ChangesOf(entry: Json): seq<Json> {
    var changes := FieldOr(entry, "changes", JArray([]));
    if changes.JArray? then changes.items else []
  }

  /** The changes of all entries, entry by entry, each in its own order. */
  function AllChanges(entries: seq<Json>): seq<Json>
    decreases |entries|
  {
    if |entries| == 0 then [] else ChangesOf(entries[0]) + AllChanges(entries[1..])
  }

  /** The reply a change with messages calls for: to the first message's
      `from`, echoing its `text.body` (or "" when absent). */
  function ReplyFor(cfg: Config, change: Json): Outbound {
    var messages := MessagesOf(change);
    var msg := if messages.JArray? && |messages.items| > 0 then messages.items[0] else JNull;
    var body := FieldOr(FieldOr(msg, "text", JObject([])), "body", JStr(""));
    SendMessage(cfg, FieldOr(msg, "from", JNull), ReplyText(Str(body)))
  }

  /** One reply per change whose `messages` is non-empty, in order. */
  function Replies(cfg: Config, changes: seq<Json>): seq<Outbound>
    decreases |changes|
  {
    if |changes| == 0 then []
    else
      (if Truthy(MessagesOf(changes[0])) then [ReplyFor(cfg, changes[0])] else [])
      + Replies(cfg, changes[1..])
  }

  // ------------------------------------------------------------ properties

  /** A change raises nothing exactly when it is well formed; it then yields one
      reply if its messages are non-empty and none otherwise. */
  lemma ChangeReplyIff(cfg: Config, change: Json)
    ensures ChangeReply(cfg, change).Success? <==> WellFormedChange(change)
    ensures WellFormedChange(change) && Truthy(MessagesOf(change)) ==>
              ChangeReply(cfg, change) == Success(Some(ReplyFor(cfg, change)))
    ensures WellFormedChange(change) && !Truthy(MessagesOf(change)) ==>
              ChangeReply(cfg, change) == Success(None)
  {
    if change.JObject? {
      var value := FieldOr(change, "value", JObject([]));
      assert Get(change, "value", JObject([])) == Success(value);
      if value.JObject? {
        var messages := MessagesOf(change);
        assert Get(value, "messages", JArray([])) == Success(messages);
        if Truthy(messages) {
          MessageReplyIff(cfg, messages);
        }
      }
    }
  }

  /** The reply to a truthy `messages` value, which only a list with a
      well-formed first message yields without raising. */
  lemma MessageReplyIff(cfg: Config, messages: Json)
    requires Truthy(messages)
    ensures var r := MessageReply(cfg, messages);
            && (r.Success? <==> messages.JArray? && WellFormedMessage(messages.items[0]))
            && (r.Success? ==> r.value == ReplyFor(cfg, MessagesChange([messages.items[0]])))
  {
    if messages.JArray? {
      var msg := messages.items[0];
      assert Subscript(messages, IntKey(0)) == Success(msg);
    } else if messages.JStr? {
      assert Subscript(messages, IntKey(0)).value.JStr?;
    }
  }

  /** A change with a single `messages` list: only its first element matters. */
  function MessagesChange(messages: seq<Json>): Json {
    JObject([("value", JObject([("messages", JArray(messages))]))])
  }

  /** Messages after the first one in a change are never answered. */
  lemma LaterMessagesIgnored(cfg: Config, first: Json, later1: seq<Json>, later2: seq<Json>)
    ensures ChangeReply(cfg, MessagesChange([first] + later1)) ==
            ChangeReply(cfg, MessagesChange([first] + later2))
  {
  }

  lemma {:induction false} ChangesRunIff(cfg: Config, changes: seq<Json>)
    ensures ChangesRun(cfg, changes).fault.None? <==>
              forall i :: 0 <= i < |changes| ==> WellFormedChange(changes[i])
    ensures ChangesRun(cfg, changes).fault.None? ==>
              ChangesRun(cfg, changes).sends == Replies(cfg, changes)
    decreases |changes|
  {
    if |changes| > 0 {
      ChangeReplyIff(cfg, changes[0]);
      ChangesRunIff(cfg, changes[1..]);
      assert forall i :: 1 <= i < |changes| ==> changes[1..][i - 1] == changes[i];
    }
  }

  lemma EntryRunIff(cfg: Config, entry: Json)
    ensures EntryRun(cfg, entry).fault.None? <==> WellFormedEntry(entry)
    ensures EntryRun(cfg, entry).fault.None? ==>
              EntryRun(cfg, entry).sends == Replies(cfg, ChangesOf(entry))
  {
    var changes := FieldOr(entry, "changes", JArray([]));
    if entry.JObject? {
      assert Get(entry, "changes", JArray([])) == Success(changes);
      var it := Iterate(changes);
      if it.Success? {
        ChangesRunIff(cfg, it.value);
        if !changes.JArray? && |it.value| > 0 {
          assert it.value[0].JStr?;
          assert !WellFormedChange(it.value[0]);
        }
      }
    }
  }

  lemma RepliesAppend(cfg: Config, a: seq<Json>, b: seq<Json>)
    ensures Replies(cfg, a + b) == Replies(cfg, a) + Replies(cfg, b)
    decreases |a|
  {
    if |a| > 0 {
      var head := if Truthy(MessagesOf(a[0])) then [ReplyFor(cfg, a[0])] else [];
      assert (a + b)[0] == a[0];
      assert (a + b)[1..] == a[1..] + b;
      RepliesAppend(cfg, a[1..], b);
      assert Replies(cfg, a + b) == head + Replies(cfg, a[1..] + b);
      assert Replies(cfg, a) == head + Replies(cfg, a[1..]);
    } else {
      assert a + b == b;
    }
  }

  lemma {:induction false} EntriesRunIff(cfg: Config, entries: seq<Json>)
    ensures EntriesRun(cfg, entries).fault.None? <==>
              forall i :: 0 <= i < |entries| ==> WellFormedEntry(entries[i])
    ensures EntriesRun(cfg, entries).fault.None? ==>
              EntriesRun(cfg, entries).sends == Replies(cfg, AllChanges(entries))
    decreases |entries|
  {
    if |entries| > 0 {
      EntryRunIff(cfg, entries[0]);
      EntriesRunIff(cfg, entries[1..]);
      assert forall i :: 1 <= i < |entries| ==> entries[1..][i - 1] == entries[i];
      RepliesAppend(cfg, ChangesOf(entries[0]), AllChanges(entries[1..]));
    }
  }

  /** A POST ends with ("EVENT_RECEIVED", 200) exactly when its payload is well
      shaped; it then sends one reply per change with messages, entries in
      order and changes in order within each entry. */
  lemma EventReceivedIff(cfg: Config, data: Json)
    ensures HandleEvent(cfg, data).response == TextResponse(EventReceived, 200) <==> WellShaped(data)
    ensures WellShaped(data) ==>
              HandleEvent(cfg, data).sends ==
                (var entry := FieldOr(data, "entry", JNull);
                 if Truthy(entry) then Replies(cfg, AllChanges(entry.items)) else [])
  {
    if data.JObject? {
      var entry := FieldOr(data, "entry", JNull);
      assert Get(data, "entry", JNull) == Success(entry);
      if Truthy(entry) {
        var it := Iterate(entry);
        if it.Success? {
          EntriesRunIff(cfg, it.value);
          if !entry.JArray? {
            assert it.value[0].JStr?;
            assert !WellFormedEntry(it.value[0]);
          }
        }
      }
    }
  }

  lemma ThenAssoc(a: Run, b: Run, c: Run)
    ensures Then(Then(a, b), c) == Then(a, Then(b, c))
  {
    if a.fault.None? && b.fault.None? {
      assert (a.sends + b.sends) + c.sends == a.sends + (b.sends + c.sends);
    }
  }

  /** Walking two runs of entries is walking the first, then (if it raised
      nothing) the second: replies keep entry order. */
  lemma {:induction false} EntriesRunAppend(cfg: Config, a: seq<Json>, b: seq<Json>)
    ensures EntriesRun(cfg, a + b) == Then(EntriesRun(cfg, a), EntriesRun(cfg, b))
    decreases |a|
  {
    if |a| == 0 {
      assert a + b == b;
      assert [] + EntriesRun(cfg, b).sends == EntriesRun(cfg, b).sends;
    } else {
      assert (a + b)[0] == a[0];
      assert (a + b)[1..] == a[1..] + b;
      EntriesRunAppend(cfg, a[1..], b);
      ThenAssoc(EntryRun(cfg, a[0]), EntriesRun(cfg, a[1..]), EntriesRun(cfg, b));
    }
  }

  /** An exception in a later entry does not take back replies already sent for
      well-formed earlier entries. */
  lemma EarlierRepliesKept(cfg: Config, entries: seq<Json>, k: nat)
    requires k <= |entries|
    requires forall i :: 0 <= i < k ==> WellFormedEntry(entries[i])
    ensures Replies(cfg, AllChanges(entries[..k])) <= EntriesRun(cfg, entries).sends
  {
    assert entries == entries[..k] + entries[k..];
    EntriesRunAppend(cfg, entries[..k], entries[k..]);
    EntriesRunIff(cfg, entries[..k]);
  }
}
