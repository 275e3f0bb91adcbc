/** The WhatsApp webhook of the router: how an inbound payload becomes a
    message text and a sender phone, and how the reply's recipient is
    built. Numbers travel without the Brazilian country code "55" inside
    the service and get it back on the way out. */
module Whatsapp {
  import opened Wrappers
  import Py
  import PyStr

  /** The parse of a webhook payload: a response that ends the request,
      or the message to process. */
  datatype Inbound =
    | Stop(status: string, reason: string)
    | Message(text: Py.Json, phone: string, messageId: Py.Json)

  const CountryCode: string := "55"
  const JidSuffix: string := "@s.whatsapp.net"

  /** `s.split("@")[0]` on a value that must be a string. */
  function BeforeAt(v: Py.Json): (r: Result<string, Py.PyError>)
    ensures r.Success? <==> v.JStr?
    ensures r.Success? ==> '@' !in r.value && PyStr.StartsWith(v.s, r.value)
    ensures r.Success? && '@' !in v.s ==> r.value == v.s
    ensures r.Success? && '@' in v.s ==> |r.value| < |v.s| && v.s[|r.value|] == '@'
  {
    if v.JStr? then
      PyStr.SplitOnHead(v.s, '@');
      var head := PyStr.SplitOn(v.s, '@')[0];
      HeadBeforeAt(v.s);
      Success(head)
    else Failure(Py.AttributeError(Py.AttributeMessage(Py.TypeName(v), "split")))
  }

  /** The first piece of a split at '@' is a prefix free of '@'. */
  lemma {:induction false} HeadBeforeAt(s: string)
    ensures var head := PyStr.SplitOn(s, '@')[0];
      && '@' !in head && PyStr.StartsWith(s, head) && ('@' !in s ==> head == s)
      && ('@' in s ==> |head| < |s| && s[|head|] == '@')
    decreases |s|
  {
    PyStr.SplitOnHead(s, '@');
    if '@' in s {
      var i :| 0 <= i < |s| && s[i] == '@';
      FirstAt(s, i);
      var j :| 0 <= j < |s| && s[j] == '@' && '@' !in s[..j];
      assert PyStr.SplitOn(s, '@')[0] == s[..j];
      assert |s[..j]| == j;
    }
  }

  /** Some position holds the first '@'. */
  lemma {:induction false} FirstAt(s: string, i: nat)
    requires i < |s| && s[i] == '@'
    ensures exists j :: 0 <= j < |s| && s[j] == '@' && '@' !in s[..j]
    decreases i
  {
    if '@' in s[..i] {
      var k :| 0 <= k < i && s[..i][k] == '@';
      FirstAt(s, k);
    } else {
      assert s[i] == '@' && '@' !in s[..i];
    }
  }

  /** The text of a `message` object: `extendedTextMessage.text`, else
      `conversation`, else `text.message`. */
  function ExtractText(message: seq<(string, Py.Json)>): (r: Result<Py.Json, Py.PyError>)
    ensures Py.HasKey(message, "extendedTextMessage") ==>
      r == Py.DictGet(Py.Get(message, "extendedTextMessage", Py.JNull), "text", Py.JStr(""))
    ensures !Py.HasKey(message, "extendedTextMessage") && Py.HasKey(message, "conversation") ==>
      r == Success(Py.Get(message, "conversation", Py.JNull))
    ensures !Py.HasKey(message, "extendedTextMessage") && !Py.HasKey(message, "conversation") && Py.HasKey(message, "text") ==>
      r == Py.DictGet(Py.Get(message, "text", Py.JNull), "message", Py.JStr(""))
    ensures !Py.HasKey(message, "extendedTextMessage") && !Py.HasKey(message, "conversation") && !Py.HasKey(message, "text") ==>
      r == Success(Py.JNull)
  {
    if Py.HasKey(message, "extendedTextMessage") then
      Py.DictGet(Py.Get(message, "extendedTextMessage", Py.JNull), "text", Py.JStr(""))
    else if Py.HasKey(message, "conversation") then Success(Py.Get(message, "conversation", Py.JNull))
    else if Py.HasKey(message, "text") then Py.DictGet(Py.Get(message, "text", Py.JNull), "message", Py.JStr(""))
    else Success(Py.JNull)
  }

  /** One leading "55" removed, whatever the length of the number. */
  function StripCountry(phone: string): (r: string)
    ensures PyStr.StartsWith(phone, CountryCode) ==> CountryCode + r == phone
    ensures !PyStr.StartsWith(phone, CountryCode) ==> r == phone
  {
    if PyStr.StartsWith(phone, CountryCode) then phone[2..] else phone
  }

  /** The sender phone and message id of a payload: the `remoteJid` of its
      `key` before the '@', without the country code. */
  function InboundPhone(payload: seq<(string, Py.Json)>): (r: Result<(string, Py.Json), Py.PyError>)
    ensures var key := Py.Get(payload, "key", Py.JDict([]));
      r.Success? <==> key.JDict? && Py.Get(key.fields, "remoteJid", Py.JStr("")).JStr?
    ensures r.Success? ==> var key := Py.Get(payload, "key", Py.JDict([]));
      var jid := Py.Get(key.fields, "remoteJid", Py.JStr(""));
      && r.value.0 == StripCountry(BeforeAt(jid).value)
      && r.value.1 == Py.Get(key.fields, "id", Py.JStr(""))
  {
    var key := Py.Get(payload, "key", Py.JDict([]));
    match Py.DictGet(key, "remoteJid", Py.JStr(""))
    case Failure(e) => Failure(e)
    case Success(jid) =>
      match BeforeAt(jid)
      case Failure(e) => Failure(e)
      case Success(head) => Success((StripCountry(head), Py.Get(key.fields, "id", Py.JStr(""))))
  }

  /** `int` as the message model validates it: a whole number, a boolean,
      or a string holding an optionally signed run of decimal digits. */
  predicate IntLike(v: Py.Json) {
    match v
    case JBool(_) => true
    case JNum(n) => n == n.Floor as real
    case JStr(s) => IntLiteral(PyStr.Strip(s))
    case _ => false
  }

  predicate IsDigit(c: char) {
    '0' <= c <= '9'
  }

  /** At least one character, all of them decimal digits. */
  predicate Digits(s: string) {
    |s| > 0 && forall i :: 0 <= i < |s| ==> IsDigit(s[i])
  }

  /** An optional sign followed by at least one decimal digit. */
  predicate IntLiteral(s: string) {
    if |s| > 0 && (s[0] == '+' || s[0] == '-') then Digits(s[1..]) else Digits(s)
  }

  /** Whether `WhatsAppMessage(...)` accepts the fields the webhook passes
      it: `messageType` (default "text"), `instanceId` (from "instance_key",
      default "") and `messageId` must be strings, `text` a string or None,
      and `timestamp` (from "messageTimestamp", default 0) an integer. The
      phone is always a string by then. */
  predicate ValidMessage(payload: seq<(string, Py.Json)>, text: Py.Json, messageId: Py.Json) {
    && Py.Get(payload, "messageType", Py.JStr("text")).JStr?
    && (text.JNull? || text.JStr?)
    && Py.Get(payload, "instance_key", Py.JStr("")).JStr?
    && messageId.JStr?
    && IntLike(Py.Get(payload, "messageTimestamp", Py.JNum(0.0)))
  }

  /** The text the webhook reads from the "message" field: that of a
      `message` object, and nothing from any other value. */
  function MessageText(message: Py.Json): (r: Result<Py.Json, Py.PyError>)
    ensures message.JDict? ==> r == ExtractText(message.fields)
    ensures !message.JDict? ==> r == Success(Py.JNull)
  {
    if message.JDict? then ExtractText(message.fields) else Success(Py.JNull)
  }

  /** The checks and extraction of `whatsapp_webhook`, up to the message it
      hands to the router. An exception while reading the text ends in the
      outer handler with its message as the reason; one while reading the
      phone or building the message model answers "invalid_message_format". */
  function Parse(payload: Py.Json): (r: Inbound)
    ensures !payload.JDict? ==> r == Stop("error", "invalid_payload")
    ensures payload.JDict? && !Py.Truthy(Py.Get(payload.fields, "message", Py.JNull)) ==>
      r == Stop("ignored", "not_text_message")
    ensures payload.JDict? && Py.Truthy(Py.Get(payload.fields, "message", Py.JNull)) ==>
      var text := MessageText(Py.Get(payload.fields, "message", Py.JNull));
      && (text.Failure? ==> r == Stop("error", text.error.Str()))
      && (text.Success? && !Py.Truthy(text.value) ==> r == Stop("ignored", "no_text_content"))
      && (text.Success? && Py.Truthy(text.value) ==>
            var found := InboundPhone(payload.fields);
            if found.Success? && ValidMessage(payload.fields, text.value, found.value.1)
            then r == Message(text.value, found.value.0, found.value.1)
            else r == Stop("error", "invalid_message_format"))
    ensures r.Message? ==> && payload.JDict? && Py.Truthy(r.text)
                           && MessageText(Py.Get(payload.fields, "message", Py.JNull)) == Success(r.text)
                           && InboundPhone(payload.fields) == Success((r.phone, r.messageId))
                           && ValidMessage(payload.fields, r.text, r.messageId)
  {
    if !payload.JDict? then Stop("error", "invalid_payload")
    else
      var message := Py.Get(payload.fields, "message", Py.JNull);
      if !Py.Truthy(message) then Stop("ignored", "not_text_message")
      else
        match MessageText(message)
        case Failure(e) => Stop("error", e.Str())
        case Success(t) =>
          if !Py.Truthy(t) then Stop("ignored", "no_text_content")
          else
            match InboundPhone(payload.fields)
            case Failure(_) => Stop("error", "invalid_message_format")
            case Success(found) =>
              if ValidMessage(payload.fields, t, found.1) then Message(t, found.0, found.1)
              else Stop("error", "invalid_message_format")
  }

  /** A timestamp that is not a number is refused by the message model, so
      an otherwise well-formed text message is answered with
      "invalid_message_format". */
  lemma {:induction false} NonNumericTimestampRefused(payload: seq<(string, Py.Json)>, text: string, jid: string)
    requires payload == [("message", Py.JDict([("conversation", Py.JStr(text))])),
                         ("key", Py.JDict([("remoteJid", Py.JStr(jid))])),
                         ("messageTimestamp", Py.JStr("abc"))]
    requires |text| > 0
    ensures Parse(Py.JDict(payload)) == Stop("error", "invalid_message_format")
  {
    assert Py.Get(payload, "messageTimestamp", Py.JNum(0.0)) == Py.JStr("abc") by {
      Py.LookupFirst(payload, "messageTimestamp", 2);
    }
    assert PyStr.Strip("abc") == "abc";
    assert !IntLiteral("abc") by {
      var abc := "abc";
      assert abc[0] == 'a' && !IsDigit(abc[0]);
    }
  }

  /** An exception while reading the text ends the request with its
      message as the reason. */
  lemma {:induction false} TextErrorStops(payload: seq<(string, Py.Json)>, message: seq<(string, Py.Json)>, e: Py.PyError)
    requires Py.Get(payload, "message", Py.JNull) == Py.JDict(message) && |message| > 0
    requires ExtractText(message) == Failure(e)
    ensures Parse(Py.JDict(payload)) == Stop("error", e.Str())
  {
    assert Py.Truthy(Py.JDict(message));
  }

  /** A `text` field holding a plain string is read with `.get`, which a
      string does not have: the request ends with the attribute error. */
  lemma {:induction false} StringTextFieldFails(payload: seq<(string, Py.Json)>, message: seq<(string, Py.Json)>, s: string)
    requires Py.Get(payload, "message", Py.JNull) == Py.JDict(message) && |message| > 0
    requires !Py.HasKey(message, "extendedTextMessage") && !Py.HasKey(message, "conversation")
    requires Py.Get(message, "text", Py.JNull) == Py.JStr(s) && Py.HasKey(message, "text")
    ensures Parse(Py.JDict(payload)) == Stop("error", Py.AttributeMessage("str", "get"))
  {
    var e := Py.AttributeError(Py.AttributeMessage("str", "get"));
    assert Py.TypeName(Py.JStr(s)) == "str";
    assert Py.DictGet(Py.JStr(s), "message", Py.JStr("")) == Failure(e);
    TextErrorStops(payload, message, e);
  }

  /** The number `send_whatsapp_message` dials: "55" prefixed unless the
      number already starts with it. */
  function SendPhone(phone: string): (r: string)
    ensures PyStr.StartsWith(r, CountryCode)
    ensures PyStr.StartsWith(phone, CountryCode) ==> r == phone
    ensures !PyStr.StartsWith(phone, CountryCode) ==> r == CountryCode + phone
  {
    if PyStr.StartsWith(phone, CountryCode) then phone
    else
      var r := CountryCode + phone;
      assert r[..2] == CountryCode;
      r
  }

  /** The `to` field of the outgoing message. */
  function Recipient(phone: string): (r: string)
    ensures r == SendPhone(phone) + JidSuffix
  {
    SendPhone(phone) + JidSuffix
  }

  /** The number read from a JID "55X@…". */
  lemma {:induction false} InboundOfJid(x: string, host: string)
    requires '@' !in x
    ensures BeforeAt(Py.JStr(CountryCode + x + "@" + host)) == Success(CountryCode + x)
    ensures StripCountry(CountryCode + x) == x
  {
    var jid := CountryCode + x + "@" + host;
    var i := |CountryCode + x|;
    PyStr.SplitOnHead(jid, '@');
    assert jid[..i] == CountryCode + x;
    assert jid[i] == '@';
    assert '@' !in CountryCode;
    assert '@' !in jid[..i];
    assert (CountryCode + x)[..2] == CountryCode;
  }

  /** Round trip: a sender "55X@…" whose X does not itself start with "55"
      is answered at "55X". */
  lemma {:induction false} ReplyReachesSender(x: string, host: string)
    requires '@' !in x && !PyStr.StartsWith(x, CountryCode)
    ensures BeforeAt(Py.JStr(CountryCode + x + "@" + host)).Success?
    ensures SendPhone(StripCountry(BeforeAt(Py.JStr(CountryCode + x + "@" + host)).value)) == CountryCode + x
  {
    InboundOfJid(x, host);
  }

  /** As written, a number whose area code is 55 loses its country code:
      "5555X" comes in as "55X" and goes out as "55X". */
  lemma {:induction false} AreaCode55LosesCountryCode(x: string, host: string)
    requires '@' !in x
    ensures var inbound := StripCountry(BeforeAt(Py.JStr(CountryCode + CountryCode + x + "@" + host)).value);
      inbound == CountryCode + x && SendPhone(inbound) == CountryCode + x
  {
    InboundOfJid(CountryCode + x, host);
    assert CountryCode + CountryCode + x == CountryCode + (CountryCode + x);
    assert (CountryCode + x)[..2] == CountryCode;
  }

  /** The recipient of a reply to an inbound number: the country code the
      webhook removed is always put back. */
  function ReplyPhone(inbound: string): (r: string)
    ensures PyStr.StartsWith(r, CountryCode) && r[2..] == inbound
  {
    var r := CountryCode + inbound;
    assert r[..2] == CountryCode;
    r
  }

  /** With the country code always restored, every sender "55X@…" is
      answered at "55X". */
  lemma {:induction false} ReplyPhoneRoundTrip(x: string, host: string)
    requires '@' !in x
    ensures ReplyPhone(StripCountry(BeforeAt(Py.JStr(CountryCode + x + "@" + host)).value)) == CountryCode + x
  {
    InboundOfJid(x, host);
  }
}
