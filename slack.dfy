/** The Slack events endpoint: the request-signature check of Slack's
    signing secret scheme (a `v0=` prefix and the hex HMAC-SHA256 of
    `v0:{timestamp}:{body}`, within five minutes of the request) and the
    branches that decide which events reach the router. The HMAC itself is
    a parameter. */
module Slack {
  import opened Wrappers
  import Py
  import PyStr
  import Router

  /** Hex digest of HMAC-SHA256 under a key. */
  type Mac = (string, string) -> string

  /** The largest accepted distance, in seconds, between the request
      timestamp and the clock. */
  const MaxSkew: real := 300.0

  predicate IsDigit(c: char) {
    '0' <= c <= '9'
  }

  /** The digit run of `int(s)`: ASCII digits, with single underscores
      allowed between two digits. */
  predicate DigitRun(d: string) {
    && |d| > 0 && IsDigit(d[0]) && IsDigit(d[|d| - 1])
    && (forall i :: 0 <= i < |d| ==> IsDigit(d[i]) || d[i] == '_')
    && (forall i :: 0 <= i < |d| - 1 ==> d[i] == '_' ==> d[i + 1] != '_')
  }

  /** The value of a digit run, underscores skipped. */
  function RunValue(d: string): nat
    decreases |d|
  {
    if |d| == 0 then 0
    else
      var c := d[|d| - 1];
      if IsDigit(c) then RunValue(d[..|d| - 1]) * 10 + (c as int - '0' as int)
      else RunValue(d[..|d| - 1])
  }

  /** `int(s)` on a string: surrounding whitespace, an optional sign and a
      digit run; `None` where Python raises `ValueError`. */
  function ParseInt(s: string): (r: Option<int>)
    ensures r.Some? ==> |PyStr.Strip(s)| > 0
    ensures r.Some? && PyStr.Strip(s)[0] == '-' ==> r.value <= 0
    ensures r.Some? && PyStr.Strip(s)[0] != '-' ==> r.value >= 0
  {
    var t := PyStr.Strip(s);
    if |t| > 0 && (t[0] == '-' || t[0] == '+') then
      if DigitRun(t[1..]) then Some(if t[0] == '-' then -(RunValue(t[1..]) as int) else RunValue(t[1..])) else None
    else if DigitRun(t) then Some(RunValue(t))
    else None
  }

  /** `abs(x)`. */
  function Abs(x: real): real {
    if x < 0.0 then -x else x
  }

  /** The signature Slack sends for a request. */
  function Expected(secret: string, timestamp: string, body: string, mac: Mac): string {
    "v0=" + mac(secret, "v0:" + timestamp + ":" + body)
  }

  /** `verify_slack_signature`. `secret` is the configured signing secret,
      `body` the UTF-8 decoding of the raw body (`None` when it does not
      decode) and `now` the clock in seconds. Every exception in the check
      makes it reject. */
  function VerifySignature(secret: Option<string>, signature: string, timestamp: string, body: Option<string>,
                           now: real, mac: Mac): (ok: bool)
    ensures secret.None? || secret == Some("") ==> ok
    ensures secret.Some? && secret != Some("") ==>
      (ok <==> && ParseInt(timestamp).Some?
               && Abs(now - ParseInt(timestamp).value as real) <= MaxSkew
               && body.Some?
               && signature == Expected(secret.value, timestamp, body.value, mac))
  {
    match secret
    case None => true
    case Some(key) =>
      if key == "" then true
      else
        match ParseInt(timestamp)
        case None => false
        case Some(ts) =>
          if Abs(now - ts as real) > MaxSkew then false
          else
            match body
            case None => false
            case Some(text) => Expected(key, timestamp, text, mac) == signature
  }

  /** `str(n)` round-trips through `int`: the digits of a natural number
      form a digit run whose value is the number. */
  lemma {:induction false} RunOfNatToString(n: nat)
    ensures DigitRun(PyStr.NatToString(n)) && RunValue(PyStr.NatToString(n)) == n
    decreases n
  {
    var s := PyStr.NatToString(n);
    if n < 10 {
      assert s == [PyStr.DigitChar(n)];
      assert s[..|s| - 1] == [];
    } else {
      var prefix := PyStr.NatToString(n / 10);
      RunOfNatToString(n / 10);
      assert s == prefix + [PyStr.DigitChar(n % 10)];
      assert s[..|s| - 1] == prefix;
      forall i | 0 <= i < |s| ensures IsDigit(s[i]) || s[i] == '_' {
        if i < |prefix| {
          assert s[i] == prefix[i];
        }
      }
      forall i | 0 <= i < |s| - 1 ensures s[i] == '_' ==> s[i + 1] != '_' {
        assert s[i] == prefix[i];
      }
      assert s[0] == prefix[0];
    }
  }

  /** A string without whitespace at either end is its own `strip()`. */
  lemma {:induction false} StripOfTrimmed(s: string)
    requires |s| > 0 && !PyStr.IsSpace(s[0]) && !PyStr.IsSpace(s[|s| - 1])
    ensures PyStr.Strip(s) == s
  {
    assert PyStr.LStrip(s) == s;
  }

  /** A timestamp written as Slack writes it, in decimal seconds, parses
      back to its value. */
  lemma {:induction false} ParseIntOfNatToString(n: nat)
    ensures ParseInt(PyStr.NatToString(n)) == Some(n)
  {
    var s := PyStr.NatToString(n);
    RunOfNatToString(n);
    assert IsDigit(s[0]) && IsDigit(s[|s| - 1]);
    StripOfTrimmed(s);
  }

  /** A request signed with the configured secret over its own timestamp
      and body, and sent within five minutes, is accepted. */
  lemma {:induction false} SignedFreshRequestAccepted(secret: string, t: nat, body: string, now: real, mac: Mac)
    requires secret != "" && Abs(now - t as real) <= MaxSkew
    ensures var ts := PyStr.NatToString(t);
      VerifySignature(Some(secret), Expected(secret, ts, body, mac), ts, Some(body), now, mac)
  {
    ParseIntOfNatToString(t);
  }

  /** A replayed request, older than five minutes, is rejected whatever its
      signature. */
  lemma {:induction false} StaleRequestRejected(secret: string, signature: string, t: nat, body: Option<string>,
                                                now: real, mac: Mac)
    requires secret != "" && Abs(now - t as real) > MaxSkew
    ensures !VerifySignature(Some(secret), signature, PyStr.NatToString(t), body, now, mac)
  {
    ParseIntOfNatToString(t);
  }

  /** With a secret configured, a signature without the `v0=` version
      prefix is never accepted. */
  lemma {:induction false} UnversionedSignatureRejected(secret: string, signature: string, timestamp: string,
                                                        body: Option<string>, now: real, mac: Mac)
    requires secret != "" && !PyStr.StartsWith(signature, "v0=")
    ensures !VerifySignature(Some(secret), signature, timestamp, body, now, mac)
  {
    if body.Some? {
      ExpectedIsVersioned(secret, timestamp, body.value, mac);
    }
  }

  /** Every expected signature carries the `v0=` version prefix. */
  lemma {:induction false} ExpectedIsVersioned(secret: string, timestamp: string, body: string, mac: Mac)
    ensures PyStr.StartsWith(Expected(secret, timestamp, body, mac), "v0=")
  {
    var e := Expected(secret, timestamp, body, mac);
    assert e[..3] == "v0=";
  }

  /** What the endpoint answers: the challenge of a URL verification, an
      acknowledgement, an acknowledgement with the router's reply, or an
      HTTP error. */
  datatype Reply =
    | Challenge(challenge: Py.Json)
    | Ack
    | Answered(response: string)
    | HttpError(status: int, detail: string)

  const InvalidSignature: string := "Invalid Slack signature"

  /** The message `route_prompt` raises when it is passed `sender_phone`. */
  const SenderPhoneError: string := "LLMRouter.route_prompt() got an unexpected keyword argument 'sender_phone'"

  /** A URL verification request: a dict whose "type" is "url_verification". */
  predicate IsUrlVerification(payload: Option<Py.Json>) {
    payload.Some? && payload.value.JDict? && Py.Get(payload.value.fields, "type", Py.JNull) == Py.JStr("url_verification")
  }

  /** The stage of `slack_events` before the router: the challenge, the
      signature, the filter on the event. `payload` is the JSON body
      (`None` when it does not parse, with `jsonError` the decoder's
      message) and `valid` the result of the signature check. A message
      event to route is returned as its stripped text. */
  function Screen(payload: Option<Py.Json>, jsonError: string, valid: bool): (r: Result<string, Reply>)
    ensures IsUrlVerification(payload) ==>
      r == Failure(Challenge(Py.Get(payload.value.fields, "challenge", Py.JNull)))
    ensures !IsUrlVerification(payload) && !valid ==> r == Failure(HttpError(401, InvalidSignature))
    ensures r.Success? ==> valid && payload.Some? && payload.value.JDict?
    ensures r.Failure? && r.error.Ack? ==> valid
    ensures valid && !IsUrlVerification(payload) && payload.Some? && payload.value.JDict? ==>
      var event := Py.Get(payload.value.fields, "event", Py.JDict([]));
      (event.JDict? && (Py.Get(event.fields, "type", Py.JNull) != Py.JStr("message")
                        || Py.Truthy(Py.Get(event.fields, "bot_id", Py.JNull))))
      ==> r == Failure(Ack)
    ensures r.Success? ==>
      var event := Py.Get(payload.value.fields, "event", Py.JDict([]));
      && event.JDict? && Py.Get(event.fields, "type", Py.JNull) == Py.JStr("message")
      && !Py.Truthy(Py.Get(event.fields, "bot_id", Py.JNull))
      && Py.Get(event.fields, "text", Py.JStr("")).JStr?
      && r.value == PyStr.Strip(Py.Get(event.fields, "text", Py.JStr("")).s)
    ensures valid && !IsUrlVerification(payload) && payload.Some? && payload.value.JDict? ==>
      var event := Py.Get(payload.value.fields, "event", Py.JDict([]));
      (&& event.JDict? && Py.Get(event.fields, "type", Py.JNull) == Py.JStr("message")
       && !Py.Truthy(Py.Get(event.fields, "bot_id", Py.JNull))
       && Py.Get(event.fields, "text", Py.JStr("")).JStr?)
      ==> r == Success(PyStr.Strip(Py.Get(event.fields, "text", Py.JStr("")).s))
  {
    if IsUrlVerification(payload) then Failure(Challenge(Py.Get(payload.value.fields, "challenge", Py.JNull)))
    else if !valid then Failure(HttpError(401, InvalidSignature))
    else
      match payload
      case None => Failure(HttpError(500, jsonError))
      case Some(body) =>
        match Py.DictGet(body, "event", Py.JDict([]))
        case Failure(e) => Failure(HttpError(500, e.Str()))
        case Success(event) =>
          if !event.JDict? then
            Failure(HttpError(500, Py.AttributeMessage(Py.TypeName(event), "get")))
          else if Py.Get(event.fields, "type", Py.JNull) != Py.JStr("message")
                  || Py.Truthy(Py.Get(event.fields, "bot_id", Py.JNull)) then Failure(Ack)
          else
            match Py.Get(event.fields, "text", Py.JStr(""))
            case JStr(text) => Success(PyStr.Strip(text))
            case other => Failure(HttpError(500, Py.AttributeMessage(Py.TypeName(other), "strip")))
  }

  /** `slack_events` as written: the router is called with `sender_phone`,
      which `route_prompt` does not accept, so the `TypeError` becomes an
      HTTP 500. */
  function SlackEvents(payload: Option<Py.Json>, jsonError: string, valid: bool): (r: Reply)
    ensures Screen(payload, jsonError, valid).Failure? ==> r == Screen(payload, jsonError, valid).error
    ensures Screen(payload, jsonError, valid).Success? ==> r == HttpError(500, SenderPhoneError)
  {
    match Screen(payload, jsonError, valid)
    case Failure(reply) => reply
    case Success(_) => HttpError(500, SenderPhoneError)
  }

  /** `slack_events` with the router called on the prompt alone: a message
      event is answered with the router's reply. */
  function SlackEventsRouted(payload: Option<Py.Json>, jsonError: string, valid: bool,
                             classify: Router.Classify, call: Router.Call): (r: Reply)
    ensures Screen(payload, jsonError, valid).Failure? ==> r == Screen(payload, jsonError, valid).error
    ensures Screen(payload, jsonError, valid).Success? ==>
      r == Answered(Router.RoutePromptByModel(Screen(payload, jsonError, valid).value, None, classify, call).text)
  {
    match Screen(payload, jsonError, valid)
    case Failure(reply) => reply
    case Success(text) => Answered(Router.RoutePromptByModel(text, None, classify, call).text)
  }

  /** A user's message event, as Slack posts it. */
  function MessageEvent(text: string, user: string): Py.Json {
    Py.JDict([("type", Py.JStr("event_callback")),
              ("event", Py.JDict([("type", Py.JStr("message")), ("text", Py.JStr(text)), ("user", Py.JStr(user))]))])
  }

  /** As written, a correctly signed message from a user never gets a
      reply: it ends in an HTTP 500. */
  lemma MessageEventAlwaysFails(text: string, user: string, jsonError: string)
    ensures SlackEvents(Some(MessageEvent(text, user)), jsonError, true) == HttpError(500, SenderPhoneError)
  {
    MessageEventScreened(text, user, jsonError);
  }

  /** Routed on the prompt alone, the same message is answered with the
      reply the router gives for its stripped text. */
  lemma MessageEventAnswered(text: string, user: string, jsonError: string,
                             classify: Router.Classify, call: Router.Call)
    ensures SlackEventsRouted(Some(MessageEvent(text, user)), jsonError, true, classify, call)
            == Answered(Router.RoutePromptByModel(PyStr.Strip(text), None, classify, call).text)
  {
    MessageEventScreened(text, user, jsonError);
  }

  /** A correctly signed message from a user passes the screen with its
      stripped text. */
  lemma MessageEventScreened(text: string, user: string, jsonError: string)
    ensures Screen(Some(MessageEvent(text, user)), jsonError, true) == Success(PyStr.Strip(text))
  {
    var payload := MessageEvent(text, user);
    var event := Py.JDict([("type", Py.JStr("message")), ("text", Py.JStr(text)), ("user", Py.JStr(user))]);
    assert Py.Get(payload.fields, "type", Py.JNull) == Py.JStr("event_callback");
    Py.LookupFirst(payload.fields, "event", 1);
    assert Py.DictGet(payload, "event", Py.JDict([])) == Success(event);
    assert Py.Get(event.fields, "type", Py.JNull) == Py.JStr("message");
    assert Py.Get(event.fields, "bot_id", Py.JNull) == Py.JNull;
    Py.LookupFirst(event.fields, "text", 1);
  }

  /** Messages posted by bots, the router's own replies among them, are
      acknowledged and never routed. */
  lemma {:induction false} BotMessageIgnored(payload: Py.Json, jsonError: string, valid: bool,
                                             classify: Router.Classify, call: Router.Call)
    requires payload.JDict? && !IsUrlVerification(Some(payload)) && valid
    requires var event := Py.Get(payload.fields, "event", Py.JDict([]));
      event.JDict? && Py.Truthy(Py.Get(event.fields, "bot_id", Py.JNull))
    ensures SlackEventsRouted(Some(payload), jsonError, valid, classify, call) == Ack
  {
  }
}
