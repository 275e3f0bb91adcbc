/** The agent webhook for WhatsApp: the checks that end a request early,
    the extraction of the message text and of the sender phone from the
    several payload shapes the providers send, and the sequence that stores
    the user message, runs the agent and stores its reply. The outgoing
    messages, cost analysis and analytics write are left out. */
module AgentWhatsapp {
  import opened Wrappers
  import Py
  import PyStr
  import Whatsapp
  import ConversationMemory
  import AgentService
  import Router

  /** `str(v)` for a value that is not a string. */
  type Show = Py.Json -> string

  /** `str(v)`: a string is itself. */
  function StrOf(v: Py.Json, show: Show): (s: string)
    ensures v.JStr? ==> s == v.s
  {
    if v.JStr? then v.s else show(v)
  }

  /** The text the known payload shapes carry, in priority order. */
  function PrimaryText(payload: seq<(string, Py.Json)>, message: Py.Json): (r: Result<Py.Json, Py.PyError>)
    ensures message.JDict? && Py.HasKey(message.fields, "extendedTextMessage") ==>
      r == Py.DictGet(Py.Get(message.fields, "extendedTextMessage", Py.JNull), "text", Py.JStr(""))
    ensures message.JDict? && !Py.HasKey(message.fields, "extendedTextMessage") && Py.HasKey(message.fields, "conversation") ==>
      r == Success(Py.Get(message.fields, "conversation", Py.JNull))
    ensures message.JDict? && !Py.HasKey(message.fields, "extendedTextMessage") && !Py.HasKey(message.fields, "conversation")
            && Py.HasKey(message.fields, "text") ==>
      var t := Py.Get(message.fields, "text", Py.JNull);
      r == Success(if t.JDict? then Py.Get(t.fields, "message", Py.JStr("")) else t)
    ensures message.JDict? && !Py.HasKey(message.fields, "extendedTextMessage") && !Py.HasKey(message.fields, "conversation")
            && !Py.HasKey(message.fields, "text") ==>
      r == Success(Py.Get(message.fields, "body", Py.JNull))
    ensures !message.JDict? ==>
      r == Success(if Py.HasKey(payload, "text") then Py.Get(payload, "text", Py.JNull)
                   else Py.Get(payload, "body", Py.JNull))
    ensures r.Failure? ==> r.error.AttributeError?
  {
    if message.JDict? then
      var m := message.fields;
      if Py.HasKey(m, "extendedTextMessage") then
        Py.DictGet(Py.Get(m, "extendedTextMessage", Py.JNull), "text", Py.JStr(""))
      else if Py.HasKey(m, "conversation") then Success(Py.Get(m, "conversation", Py.JNull))
      else if Py.HasKey(m, "text") then
        var t := Py.Get(m, "text", Py.JNull);
        Success(if t.JDict? then Py.Get(t.fields, "message", Py.JStr("")) else t)
      else if Py.HasKey(m, "body") then Success(Py.Get(m, "body", Py.JNull))
      else Success(Py.JNull)
    else if Py.HasKey(payload, "text") then Success(Py.Get(payload, "text", Py.JNull))
    else if Py.HasKey(payload, "body") then Success(Py.Get(payload, "body", Py.JNull))
    else Success(Py.JNull)
  }

  /** A top-level value the fallback accepts as text: a string of 1 to 499
      characters. */
  predicate ShortString(v: Py.Json) {
    v.JStr? && 0 < |v.s| < 500
  }

  /** The position of the first top-level value that is a short string. */
  function FirstShort(payload: seq<(string, Py.Json)>, from: nat): (r: Option<nat>)
    requires from <= |payload|
    ensures r.Some? ==> from <= r.value < |payload| && ShortString(payload[r.value].1)
                        && forall j :: from <= j < r.value ==> !ShortString(payload[j].1)
    ensures r.None? ==> forall j :: from <= j < |payload| ==> !ShortString(payload[j].1)
    decreases |payload| - from
  {
    if from == |payload| then None
    else if ShortString(payload[from].1) then Some(from)
    else FirstShort(payload, from + 1)
  }

  /** The message text: the primary text when truthy, else the first short
      top-level string, else the falsy primary value. */
  function MessageText(payload: seq<(string, Py.Json)>): (r: Result<Py.Json, Py.PyError>)
    ensures var primary := PrimaryText(payload, Py.Get(payload, "message", Py.JDict([])));
      && (primary.Failure? ==> r == primary)
      && (primary.Success? && Py.Truthy(primary.value) ==> r == primary)
      && (primary.Success? && !Py.Truthy(primary.value) ==>
            r == Success(match FirstShort(payload, 0)
                         case Some(i) => payload[i].1
                         case None => primary.value))
    ensures r.Success? ==> Py.Truthy(r.value) || !Py.Truthy(PrimaryText(payload, Py.Get(payload, "message", Py.JDict([]))).value)
  {
    var message := Py.Get(payload, "message", Py.JDict([]));
    match PrimaryText(payload, message)
    case Failure(e) => Failure(e)
    case Success(t) =>
      if Py.Truthy(t) then Success(t)
      else match FirstShort(payload, 0)
        case Some(i) => Success(payload[i].1)
        case None => Success(t)
  }

  /** The scan for a fallback text: the first short string wins. */
  method FindFallbackText(payload: seq<(string, Py.Json)>, primary: Py.Json) returns (text: Py.Json)
    ensures FirstShort(payload, 0).Some? ==> text == payload[FirstShort(payload, 0).value].1
    ensures FirstShort(payload, 0).None? ==> text == primary
  {
    text := primary;
    var found := false;
    var i := 0;
    while i < |payload|
      invariant 0 <= i <= |payload|
      invariant !found ==> text == primary && forall j :: 0 <= j < i ==> !ShortString(payload[j].1)
      invariant found ==> FirstShort(payload, 0).Some? && FirstShort(payload, 0).value < i
                          && text == payload[FirstShort(payload, 0).value].1
    {
      var value := payload[i].1;
      if value.JStr? && 0 < |value.s| < 500 {
        if !found {
          text := value;
          found := true;
          FirstShortIsFirst(payload, i);
        }
      }
      i := i + 1;
    }
  }

  lemma {:induction false} FirstShortIsFirst(payload: seq<(string, Py.Json)>, i: nat)
    requires i < |payload| && ShortString(payload[i].1)
    requires forall j :: 0 <= j < i ==> !ShortString(payload[j].1)
    ensures FirstShort(payload, 0) == Some(i)
  {
  }

  /** The phone read from `key.remoteJid`, before the '@'; `None` when the
      payload has no such field or it has no '@'. */
  function JidPhone(payload: seq<(string, Py.Json)>): (r: Result<Py.Json, Py.PyError>)
    ensures r.Success? && r.value != Py.JNull ==> r.value.JStr? && '@' !in r.value.s
    ensures !Py.HasKey(payload, "key") ==> r == Success(Py.JNull)
    ensures var key := Py.Get(payload, "key", Py.JNull);
      key.JDict? && Py.HasKey(payload, "key") ==>
        && (!Py.HasKey(key.fields, "remoteJid") ==> r == Success(Py.JNull))
        && (Py.HasKey(key.fields, "remoteJid") && Py.Get(key.fields, "remoteJid", Py.JNull).JStr? ==>
              var jid := Py.Get(key.fields, "remoteJid", Py.JNull);
              r == Success(if '@' in jid.s then Py.JStr(Whatsapp.BeforeAt(jid).value) else Py.JNull))
  {
    if !Py.HasKey(payload, "key") then Success(Py.JNull)
    else
      var key := Py.Get(payload, "key", Py.JNull);
      match Py.In("remoteJid", key)
      case Failure(e) => Failure(e)
      case Success(has) =>
        if !has then Success(Py.JNull)
        else
          match Py.Index(key, "remoteJid")
          case Failure(e) => Failure(e)
          case Success(jid) =>
            AtIn(jid);
            match Py.In("@", jid)
            case Failure(e) => Failure(e)
            case Success(at) =>
              if !at then Success(Py.JNull)
              else
                match Whatsapp.BeforeAt(jid)
                case Failure(e) => Failure(e)
                case Success(head) => Success(Py.JStr(head))
  }

  /** `"@" in v` on a string is membership of the character. */
  lemma AtIn(v: Py.Json)
    ensures v.JStr? ==> Py.In("@", v) == Success('@' in v.s)
  {
    if v.JStr? {
      PyStr.ContainsChar(v.s, '@');
    }
  }

  /** The `from` field, cut at '@' when it holds one, if no phone was found yet. */
  function FromPhone(payload: seq<(string, Py.Json)>, phone: Py.Json): (r: Result<Py.Json, Py.PyError>)
    ensures Py.Truthy(phone) || !Py.HasKey(payload, "from") ==> r == Success(phone)
    ensures !Py.Truthy(phone) && Py.HasKey(payload, "from") ==>
      var from := Py.Get(payload, "from", Py.JNull);
      && (!Py.Truthy(from) ==> r == Success(from))
      && (from.JStr? ==> r == Success(if '@' in from.s then Py.JStr(Whatsapp.BeforeAt(from).value) else from))
  {
    if Py.Truthy(phone) || !Py.HasKey(payload, "from") then Success(phone)
    else
      var from := Py.Get(payload, "from", Py.JNull);
      if !Py.Truthy(from) then Success(from)
      else
        AtIn(from);
        match Py.In("@", from)
        case Failure(e) => Failure(e)
        case Success(at) =>
          if !at then Success(from)
          else
            match Whatsapp.BeforeAt(from)
            case Failure(e) => Failure(e)
            case Success(head) => Success(Py.JStr(head))
  }

  const PhoneKeys: seq<string> := ["phone", "sender_id", "customer", "number"]

  /** A key the payload holds with a string value. */
  predicate StringField(payload: seq<(string, Py.Json)>, k: string) {
    Py.HasKey(payload, k) && Py.Get(payload, k, Py.JNull).JStr?
  }

  /** The value of the first of `keys`, in order, the payload holds as a string. */
  function FirstStringField(payload: seq<(string, Py.Json)>, keys: seq<string>): (r: Option<Py.Json>)
    ensures r.Some? <==> exists i :: 0 <= i < |keys| && StringField(payload, keys[i])
    ensures r.Some? ==> exists i :: && 0 <= i < |keys| && StringField(payload, keys[i])
                                    && r.value == Py.Get(payload, keys[i], Py.JNull)
                                    && forall j :: 0 <= j < i ==> !StringField(payload, keys[j])
    decreases |keys|
  {
    if |keys| == 0 then None
    else if StringField(payload, keys[0]) then Some(Py.Get(payload, keys[0], Py.JNull))
    else
      var r := FirstStringField(payload, keys[1..]);
      assert forall i :: 0 < i < |keys| ==> keys[i] == keys[1..][i - 1];
      if r.Some? then
        var i :| && 0 <= i < |keys[1..]| && StringField(payload, keys[1..][i])
                 && r.value == Py.Get(payload, keys[1..][i], Py.JNull)
                 && forall j :: 0 <= j < i ==> !StringField(payload, keys[1..][j]);
        assert forall j :: 0 <= j < i + 1 ==> !StringField(payload, keys[j]) by {
          forall j | 0 <= j < i + 1 ensures !StringField(payload, keys[j]) {
            if j > 0 { assert keys[j] == keys[1..][j - 1]; }
          }
        }
        assert StringField(payload, keys[i + 1]);
        r
      else
        assert forall i :: 0 <= i < |keys| ==> !StringField(payload, keys[i]) by {
          forall i | 0 <= i < |keys| ensures !StringField(payload, keys[i]) {
            if i > 0 { assert keys[i] == keys[1..][i - 1]; }
          }
        }
        r
  }

  /** The phone once `from` has been consulted: the JID's, else `from`'s. */
  function JidOrFrom(payload: seq<(string, Py.Json)>): (r: Result<Py.Json, Py.PyError>)
    ensures JidPhone(payload).Failure? ==> r == JidPhone(payload)
    ensures JidPhone(payload).Success? ==> r == FromPhone(payload, JidPhone(payload).value)
  {
    match JidPhone(payload)
    case Failure(e) => Failure(e)
    case Success(jid) => FromPhone(payload, jid)
  }

  /** The sender phone, before normalisation: the first truthy one of the
      JID, `from`, `sender` and the first string among the other fields. */
  function ExtractPhone(payload: seq<(string, Py.Json)>): (r: Result<Py.Json, Py.PyError>)
    ensures JidOrFrom(payload).Failure? ==> r == JidOrFrom(payload)
    ensures JidOrFrom(payload).Success? && Py.Truthy(JidOrFrom(payload).value) ==> r == JidOrFrom(payload)
    ensures JidOrFrom(payload).Success? && !Py.Truthy(JidOrFrom(payload).value) ==>
      var sender := if Py.HasKey(payload, "sender") then Py.Get(payload, "sender", Py.JNull)
                    else JidOrFrom(payload).value;
      && (Py.Truthy(sender) ==> r == Success(sender))
      && (!Py.Truthy(sender) ==> r == Success(FirstStringField(payload, PhoneKeys).GetOr(sender)))
  {
    match JidOrFrom(payload)
    case Failure(e) => Failure(e)
    case Success(phone) =>
      var phone := if !Py.Truthy(phone) && Py.HasKey(payload, "sender") then Py.Get(payload, "sender", Py.JNull) else phone;
      if Py.Truthy(phone) then Success(phone)
      else Success(FirstStringField(payload, PhoneKeys).GetOr(phone))
  }

  /** A JID with an '@' decides the phone, whatever `from` and `sender` say. */
  lemma JidWins(payload: seq<(string, Py.Json)>, key: seq<(string, Py.Json)>, jid: string)
    requires Py.Lookup(payload, "key") == Some(Py.JDict(key))
    requires Py.Lookup(key, "remoteJid") == Some(Py.JStr(jid))
    requires '@' in jid && jid[0] != '@'
    ensures ExtractPhone(payload) == Success(Py.JStr(Whatsapp.BeforeAt(Py.JStr(jid)).value))
  {
    AtIn(Py.JStr(jid));
    var head := Whatsapp.BeforeAt(Py.JStr(jid)).value;
    assert |head| > 0 by {
      assert jid[|head|] == '@';
    }
  }

  /** Every '+' removed, then a leading "55" dropped from a number longer
      than ten digits. */
  function Normalize(phone: string): (r: string)
    ensures '+' !in r
    ensures var bare := PyStr.RemoveAll(phone, '+');
      && (PyStr.StartsWith(bare, Whatsapp.CountryCode) && |bare| > 10 ==> Whatsapp.CountryCode + r == bare)
      && (!PyStr.StartsWith(bare, Whatsapp.CountryCode) || |bare| <= 10 ==> r == bare)
  {
    var bare := PyStr.RemoveAll(phone, '+');
    if PyStr.StartsWith(bare, Whatsapp.CountryCode) && |bare| > 10 then
      assert bare == bare[..2] + bare[2..];
      assert forall i :: 0 <= i < |bare[2..]| ==> bare[2..][i] == bare[i + 2];
      bare[2..]
    else bare
  }

  /** The checks and extraction of `agent_whatsapp_webhook`: a response
      that ends the request, or the text, phone and message id. */
  function Parse(payload: Py.Json, show: Show): (r: Whatsapp.Inbound)
    ensures !payload.JDict? ==> r == Whatsapp.Stop("error", "invalid_payload")
    ensures payload.JDict? && Py.Get(payload.fields, "messageType", Py.JNull) == Py.JStr("message.ack") ==>
      r == Whatsapp.Stop("ignored", "ack_message")
    ensures payload.JDict? && Py.Get(payload.fields, "messageType", Py.JNull) != Py.JStr("message.ack")
            && !Py.Truthy(Py.Get(payload.fields, "message", Py.JNull)) ==>
      r == Whatsapp.Stop("ignored", "not_text_message")
    ensures payload.JDict? && Py.Get(payload.fields, "messageType", Py.JNull) != Py.JStr("message.ack")
            && Py.Truthy(Py.Get(payload.fields, "message", Py.JNull)) ==>
      var p := payload.fields;
      var text := MessageText(p);
      && (text.Failure? ==> r == Whatsapp.Stop("error", text.error.Str()))
      && (text.Success? && !Py.Truthy(text.value) ==> r == Whatsapp.Stop("ignored", "no_text_content"))
      && (text.Success? && Py.Truthy(text.value) ==>
            var phone := ExtractPhone(p);
            && (phone.Failure? ==> r == Whatsapp.Stop("error", "invalid_message_format"))
            && (phone.Success? && !Py.Truthy(phone.value) ==> r == Whatsapp.Stop("error", "no_phone_number"))
            && (phone.Success? && Py.Truthy(phone.value) ==>
                  var id := Py.DictGet(Py.Get(p, "key", Py.JDict([])), "id", Py.JStr(""));
                  if id.Success? && Whatsapp.ValidMessage(p, text.value, id.value)
                  then r == Whatsapp.Message(text.value, Normalize(StrOf(phone.value, show)), id.value)
                  else r == Whatsapp.Stop("error", "invalid_message_format")))
    ensures r.Message? ==> && payload.JDict? && MessageText(payload.fields) == Success(r.text) && Py.Truthy(r.text)
                           && r.text.JStr? && r.messageId.JStr? && '+' !in r.phone
                           && Whatsapp.ValidMessage(payload.fields, r.text, r.messageId)
  {
    if !payload.JDict? then Whatsapp.Stop("error", "invalid_payload")
    else
      var p := payload.fields;
      if Py.Get(p, "messageType", Py.JNull) == Py.JStr("message.ack") then Whatsapp.Stop("ignored", "ack_message")
      else if !Py.Truthy(Py.Get(p, "message", Py.JNull)) then Whatsapp.Stop("ignored", "not_text_message")
      else
        match MessageText(p)
        case Failure(e) => Whatsapp.Stop("error", e.Str())
        case Success(text) =>
          if !Py.Truthy(text) then Whatsapp.Stop("ignored", "no_text_content")
          else
            match ExtractPhone(p)
            case Failure(_) => Whatsapp.Stop("error", "invalid_message_format")
            case Success(phone) =>
              if !Py.Truthy(phone) then Whatsapp.Stop("error", "no_phone_number")
              else
                match Py.DictGet(Py.Get(p, "key", Py.JDict([])), "id", Py.JStr(""))
                case Failure(_) => Whatsapp.Stop("error", "invalid_message_format")
                case Success(id) =>
                  if Whatsapp.ValidMessage(p, text, id) then Whatsapp.Message(text, Normalize(StrOf(phone, show)), id)
                  else Whatsapp.Stop("error", "invalid_message_format")
  }

  /** A payload in the shape some gateways send, the message under
      "conversation" and the sender only under "from": the phone is the
      part before the '@' with the country code dropped. */
  lemma FromOnlyPayload(show: Show)
    ensures var payload := Py.JDict([("message", Py.JDict([("conversation", Py.JStr("oi"))])),
                                     ("from", Py.JStr("5511987654321@c.us"))]);
      Parse(payload, show) == Whatsapp.Message(Py.JStr("oi"), "11987654321", Py.JStr(""))
  {
    var p := [("message", Py.JDict([("conversation", Py.JStr("oi"))])), ("from", Py.JStr("5511987654321@c.us"))];
    FromOnlyText(p);
    FromOnlyPhone(p);
    FromOnlyValid(p);
    NormalizeBrazilian();
    ParsedFromParts(Py.JDict(p), show, Py.JStr("oi"), Py.JStr("5511987654321"), Py.JStr(""));
  }

  /** The parse of a payload whose text, phone and id are known and valid. */
  lemma ParsedFromParts(payload: Py.Json, show: Show, text: Py.Json, phone: Py.Json, id: Py.Json)
    requires payload.JDict? && Py.Get(payload.fields, "messageType", Py.JNull) != Py.JStr("message.ack")
    requires Py.Truthy(Py.Get(payload.fields, "message", Py.JNull))
    requires MessageText(payload.fields) == Success(text) && Py.Truthy(text)
    requires ExtractPhone(payload.fields) == Success(phone) && Py.Truthy(phone)
    requires Py.DictGet(Py.Get(payload.fields, "key", Py.JDict([])), "id", Py.JStr("")) == Success(id)
    requires Whatsapp.ValidMessage(payload.fields, text, id)
    ensures Parse(payload, show) == Whatsapp.Message(text, Normalize(StrOf(phone, show)), id)
  {
  }

  lemma FromOnlyText(p: seq<(string, Py.Json)>)
    requires p == [("message", Py.JDict([("conversation", Py.JStr("oi"))])), ("from", Py.JStr("5511987654321@c.us"))]
    ensures Py.Get(p, "messageType", Py.JNull) == Py.JNull
    ensures Py.Truthy(Py.Get(p, "message", Py.JNull))
    ensures MessageText(p) == Success(Py.JStr("oi"))
  {
    var m := [("conversation", Py.JStr("oi"))];
    assert Py.Get(p, "message", Py.JDict([])) == Py.JDict(m);
    assert !Py.HasKey(m, "extendedTextMessage");
    assert Py.Get(m, "conversation", Py.JNull) == Py.JStr("oi");
  }

  lemma FromOnlyPhone(p: seq<(string, Py.Json)>)
    requires p == [("message", Py.JDict([("conversation", Py.JStr("oi"))])), ("from", Py.JStr("5511987654321@c.us"))]
    ensures ExtractPhone(p) == Success(Py.JStr("5511987654321"))
  {
    var f := p[1].1.s;
    FirstAtOfJid(f);
    assert !Py.HasKey(p, "key");
    assert p[0].0 != "from";
    assert Py.Lookup(p[1..], "from") == Some(Py.JStr(f));
    FromWhenNoKey(p, f);
    BeforeFirstAt(f, 13);
  }

  /** Without a `key`, a `from` holding an '@' after a non-empty head
      gives the phone. */
  lemma FromWhenNoKey(p: seq<(string, Py.Json)>, f: string)
    requires !Py.HasKey(p, "key") && Py.Lookup(p, "from") == Some(Py.JStr(f))
    requires '@' in f && f[0] != '@'
    ensures ExtractPhone(p) == Success(Py.JStr(Whatsapp.BeforeAt(Py.JStr(f)).value))
  {
    AtIn(Py.JStr(f));
    var head := Whatsapp.BeforeAt(Py.JStr(f)).value;
    assert |head| > 0 by {
      assert f[|head|] == '@';
    }
  }

  lemma FirstAtOfJid(jid: string)
    requires jid == "5511987654321@c.us"
    ensures |jid| > 13 && jid[13] == '@' && jid[0] != '@' && forall i :: 0 <= i < 13 ==> jid[i] != '@'
    ensures jid[..13] == "5511987654321"
  {
  }

  /** The head before '@' ends at the first '@'. */
  lemma BeforeFirstAt(s: string, k: nat)
    requires k < |s| && s[k] == '@' && forall i :: 0 <= i < k ==> s[i] != '@'
    ensures Whatsapp.BeforeAt(Py.JStr(s)).value == s[..k]
  {
    var head := Whatsapp.BeforeAt(Py.JStr(s)).value;
    assert '@' in s;
  }

  lemma FromOnlyValid(p: seq<(string, Py.Json)>)
    requires p == [("message", Py.JDict([("conversation", Py.JStr("oi"))])), ("from", Py.JStr("5511987654321@c.us"))]
    ensures Py.DictGet(Py.Get(p, "key", Py.JDict([])), "id", Py.JStr("")) == Success(Py.JStr(""))
    ensures Whatsapp.ValidMessage(p, Py.JStr("oi"), Py.JStr(""))
  {
    assert !Py.HasKey(p, "key");
    assert !Py.HasKey(p, "messageType");
    assert !Py.HasKey(p, "instance_key");
    assert !Py.HasKey(p, "messageTimestamp");
    assert Py.JNum(0.0).n == (0.0).Floor as real;
  }

  /** A Brazilian number in full loses its country code. */
  lemma NormalizeBrazilian()
    ensures Normalize("5511987654321") == "11987654321"
  {
    var s := "5511987654321";
    assert forall i :: 0 <= i < |s| ==> s[i] != '+';
    PyStr.RemoveAbsent(s, '+');
    assert PyStr.StartsWith(s, Whatsapp.CountryCode);
    assert s[2..] == "11987654321";
  }

  /** The parse as the handler runs it, with the fallback scan as a loop. */
  method ParsePayload(payload: Py.Json, show: Show) returns (r: Whatsapp.Inbound)
    ensures r == Parse(payload, show)
  {
    if !payload.JDict? {
      return Whatsapp.Stop("error", "invalid_payload");
    }
    var p := payload.fields;
    if Py.Get(p, "messageType", Py.JNull) == Py.JStr("message.ack") {
      return Whatsapp.Stop("ignored", "ack_message");
    }
    if !Py.Truthy(Py.Get(p, "message", Py.JNull)) {
      return Whatsapp.Stop("ignored", "not_text_message");
    }
    var primary := PrimaryText(p, Py.Get(p, "message", Py.JDict([])));
    if primary.Failure? {
      return Whatsapp.Stop("error", primary.error.Str());
    }
    var text := primary.value;
    if !Py.Truthy(text) {
      text := FindFallbackText(p, text);
    }
    if !Py.Truthy(text) {
      return Whatsapp.Stop("ignored", "no_text_content");
    }
    var phone := ExtractPhone(p);
    if phone.Failure? {
      return Whatsapp.Stop("error", "invalid_message_format");
    }
    if !Py.Truthy(phone.value) {
      return Whatsapp.Stop("error", "no_phone_number");
    }
    var id := Py.DictGet(Py.Get(p, "key", Py.JDict([])), "id", Py.JStr(""));
    if id.Failure? || !Whatsapp.ValidMessage(p, text, id.value) {
      return Whatsapp.Stop("error", "invalid_message_format");
    }
    r := Whatsapp.Message(text, Normalize(StrOf(phone.value, show)), id.value);
  }

  /** The `model_used` stored with the reply. */
  function ModelUsed(model: Py.Json): (r: Option<string>)
    ensures model.JStr? <==> r.Some?
  {
    if model.JStr? then Some(model.s) else None
  }

  /** What the webhook answers. */
  datatype Response =
    | Stopped(status: string, reason: string)
    | Delivered(messageId: Py.Json, agentId: string, agentName: Py.Json, model: Py.Json, handoff: string)

  /** The handoff status of a reply. */
  function HandoffStatus(needHuman: bool): string {
    if needHuman then "required" else "not_required"
  }

  /** The memory after the user message is saved. */
  function WithUserMessage(store: ConversationMemory.Store, phone: string, text: string, now: int, reachable: bool)
    : (s: ConversationMemory.Store)
    ensures phone in s || !reachable
  {
    if reachable then ConversationMemory.WithMessage(store, phone, ConversationMemory.Message("user", text, now, None))
    else store
  }

  /** The memory after the user message and then the assistant's reply,
      tagged with the model, are saved. */
  function WithExchange(store: ConversationMemory.Store, phone: string, text: string, reply: string,
                        modelUsed: Option<string>, now: int, reachable: bool): (s: ConversationMemory.Store)
    ensures reachable ==> ReplyFollowsMessage(s, phone, text, reply, modelUsed, now)
    ensures !reachable ==> s == store
  {
    if reachable then
      ExchangeStored(store, phone, text, reply, modelUsed, now);
      ConversationMemory.WithMessage(WithUserMessage(store, phone, text, now, reachable), phone,
                                     ConversationMemory.Message("assistant", reply, now, modelUsed))
    else store
  }

  /** The agent's reply to a message, over the memory once the message is
      saved. */
  function AnswerAfterSave(agents: map<string, AgentService.Agent>, agentId: string, text: string, phone: string,
                           store: ConversationMemory.Store, now: int, reachable: bool,
                           format: AgentService.PromptFormatter, classify: Router.Classify, call: Router.Call)
    : AgentService.AgentReply
  {
    AgentService.Answer(agents, agentId, text, phone, WithUserMessage(store, phone, text, now, reachable), reachable,
                        format, classify, call)
  }

  /** `agent_whatsapp_webhook` as written, over `process_message` returning
      the router's record. The reply is stored with `result["model"]`,
      which replies that did not reach the router lack: those end in a
      `KeyError` and the error response. */
  method AgentWebhook(agentId: string, payload: Py.Json, show: Show, service: AgentService.Service,
                      memory: ConversationMemory.ConversationManager, reachable: bool,
                      format: AgentService.PromptFormatter, classify: Router.Classify, call: Router.Call, now: int)
    returns (response: Response)
    modifies memory
    ensures Parse(payload, show).Stop? ==>
      response == Stopped(Parse(payload, show).status, Parse(payload, show).reason) && memory.store == old(memory.store)
    ensures Parse(payload, show).Message? ==>
      var m := Parse(payload, show);
      Refused(service.agents, agentId, StrOf(m.text, show)) ==>
        response == Stopped("error", Py.KeyError("model").Str())
        && memory.store == WithUserMessage(old(memory.store), m.phone, StrOf(m.text, show), now, reachable)
    ensures Parse(payload, show).Message? ==>
      var m := Parse(payload, show);
      !Refused(service.agents, agentId, StrOf(m.text, show)) ==>
        var answer := AnswerAfterSave(service.agents, agentId, StrOf(m.text, show), m.phone, old(memory.store), now,
                                      reachable, format, classify, call);
        && response == Delivered(m.messageId, agentId, Py.JStr(service.agents[agentId].name),
                                 answer.routed.value.result.model, "not_required")
        && memory.store == WithExchange(old(memory.store), m.phone, StrOf(m.text, show), answer.text,
                                        ModelUsed(response.model), now, reachable)
        && (reachable ==> ReplyFollowsMessage(memory.store, m.phone, StrOf(m.text, show), answer.text,
                                              ModelUsed(response.model), now))
  {
    var parsed := ParsePayload(payload, show);
    if parsed.Stop? {
      return Stopped(parsed.status, parsed.reason);
    }
    response := HandleMessage(agentId, StrOf(parsed.text, show), parsed.phone, parsed.messageId, service, memory,
                              reachable, format, classify, call, now);
  }

  /** The agent is unknown or the message asks for a human: the agent
      service answers without the router. */
  predicate Refused(agents: map<string, AgentService.Agent>, agentId: string, text: string) {
    agentId !in agents || AgentService.Triggered(agents[agentId], text)
  }

  /** The user message and then the reply saved: the reply follows the
      message at the end of the sender's log. */
  lemma ExchangeStored(store: ConversationMemory.Store, phone: string, text: string, reply: string,
                       modelUsed: Option<string>, now: int)
    ensures ReplyFollowsMessage(
      ConversationMemory.WithMessage(
        ConversationMemory.WithMessage(store, phone, ConversationMemory.Message("user", text, now, None)),
        phone, ConversationMemory.Message("assistant", reply, now, modelUsed)),
      phone, text, reply, modelUsed, now)
  {
    ConversationMemory.SavedTwice(store, phone, ConversationMemory.Message("user", text, now, None),
                                  ConversationMemory.Message("assistant", reply, now, modelUsed));
  }

  /** The part of the webhook after the parse: store the user message, run
      the agent, store its reply. */
  method HandleMessage(agentId: string, text: string, phone: string, messageId: Py.Json,
                       service: AgentService.Service, memory: ConversationMemory.ConversationManager,
                       reachable: bool, format: AgentService.PromptFormatter, classify: Router.Classify,
                       call: Router.Call, now: int)
    returns (response: Response)
    modifies memory
    ensures Refused(service.agents, agentId, text) ==>
      response == Stopped("error", Py.KeyError("model").Str())
      && memory.store == WithUserMessage(old(memory.store), phone, text, now, reachable)
    ensures !Refused(service.agents, agentId, text) ==>
      var answer := AnswerAfterSave(service.agents, agentId, text, phone, old(memory.store), now, reachable,
                                    format, classify, call);
      && response == Delivered(messageId, agentId, Py.JStr(service.agents[agentId].name),
                               answer.routed.value.result.model, "not_required")
      && memory.store == WithExchange(old(memory.store), phone, text, answer.text, ModelUsed(response.model), now, reachable)
      && (reachable ==> ReplyFollowsMessage(memory.store, phone, text, answer.text, ModelUsed(response.model), now))
  {
    memory.AddMessage(phone, "user", text, None, true, now, reachable);
    ghost var saved := memory.store;
    assert reachable ==> phone in saved;
    var reply := RunAgent(agentId, text, phone, service, memory, reachable, format, classify, call);
    assert memory.store == saved;
    response := Respond(reply, messageId, agentId, phone, memory, reachable, now);
  }

  /** `process_message` as the webhook sees it: a refused message gets a
      reply asking for a human and no router record, any other message the
      agent's routed reply; the memory only gains the sender's record. */
  method RunAgent(agentId: string, text: string, phone: string, service: AgentService.Service,
                  memory: ConversationMemory.ConversationManager, reachable: bool,
                  format: AgentService.PromptFormatter, classify: Router.Classify, call: Router.Call)
    returns (reply: AgentService.AgentReply)
    modifies memory
    ensures reply == AgentService.Answer(service.agents, agentId, text, phone, old(memory.store), reachable,
                                         format, classify, call)
    ensures reply.routed.None? <==> Refused(service.agents, agentId, text)
    ensures reply.needHuman <==> Refused(service.agents, agentId, text)
    ensures reply.routed.Some? ==> agentId in service.agents && reply.routed.value.agentName == service.agents[agentId].name
    ensures !reachable ==> memory.store == old(memory.store)
    ensures phone in old(memory.store) ==> memory.store == old(memory.store)
    ensures Refused(service.agents, agentId, text) ==> memory.store == old(memory.store)
  {
    reply := service.ProcessMessageRouted(agentId, text, phone, memory, reachable, format, classify, call);
  }

  /** The answer to the agent's reply: the `KeyError` of a reply without
      "model", or the delivery of a routed reply, stored first. */
  method Respond(reply: AgentService.AgentReply, messageId: Py.Json, agentId: string, phone: string,
                 memory: ConversationMemory.ConversationManager, reachable: bool, now: int)
    returns (response: Response)
    modifies memory
    ensures reply.routed.None? ==> response == Stopped("error", Py.KeyError("model").Str()) && memory.store == old(memory.store)
    ensures reply.routed.Some? ==>
      var model := reply.routed.value.result.model;
      && response == Delivered(messageId, agentId, Py.JStr(reply.routed.value.agentName), model,
                               HandoffStatus(reply.needHuman))
      && memory.store == if reachable then ConversationMemory.WithMessage(old(memory.store), phone,
                                             ConversationMemory.Message("assistant", reply.text, now, ModelUsed(model)))
                         else old(memory.store)
  {
    if reply.routed.None? {
      return Stopped("error", Py.KeyError("model").Str());
    }
    var model := reply.routed.value.result.model;
    memory.AddMessage(phone, "assistant", reply.text, ModelUsed(model), true, now, reachable);
    response := Delivered(messageId, agentId, Py.JStr(reply.routed.value.agentName), model,
                          HandoffStatus(reply.needHuman));
  }

  /** A reply's "model" entry read with `.get`: `None` for a reply that
      did not reach the router. */
  function ReplyModel(reply: AgentService.AgentReply): (model: Py.Json)
    ensures reply.routed.None? ==> model == Py.JNull
  {
    match reply.routed
    case None => Py.JNull
    case Some(routed) => routed.result.model
  }

  /** A reply's "agent_name" entry read with `.get`. */
  function ReplyAgentName(reply: AgentService.AgentReply): (name: Py.Json)
    ensures reply.routed.None? ==> name == Py.JNull
  {
    match reply.routed
    case None => Py.JNull
    case Some(routed) => Py.JStr(routed.agentName)
  }

  /** `agent_whatsapp_webhook` with the model read by `result.get("model")`:
      every parsed message is answered, and a reply that hands the
      conversation to a human reports the handoff as required. */
  method AgentWebhookByGet(agentId: string, payload: Py.Json, show: Show, service: AgentService.Service,
                           memory: ConversationMemory.ConversationManager, reachable: bool,
                           format: AgentService.PromptFormatter, classify: Router.Classify, call: Router.Call,
                           now: int)
    returns (response: Response)
    modifies memory
    ensures Parse(payload, show).Stop? ==>
      response == Stopped(Parse(payload, show).status, Parse(payload, show).reason) && memory.store == old(memory.store)
    ensures Parse(payload, show).Message? ==>
      var m := Parse(payload, show);
      var text := StrOf(m.text, show);
      && response.Delivered? && response.messageId == m.messageId && response.agentId == agentId
      && (response.handoff == "required" <==> Refused(service.agents, agentId, text))
      && (Refused(service.agents, agentId, text) ==> response.model == Py.JNull && response.agentName == Py.JNull)
      && (!Refused(service.agents, agentId, text) ==> response.agentName == Py.JStr(service.agents[agentId].name))
      && var answer := AnswerAfterSave(service.agents, agentId, text, m.phone, old(memory.store), now, reachable,
                                       format, classify, call);
         && response.model == ReplyModel(answer)
         && memory.store == WithExchange(old(memory.store), m.phone, text, answer.text, ModelUsed(response.model), now,
                                         reachable)
         && (reachable ==> ReplyFollowsMessage(memory.store, m.phone, text, answer.text, ModelUsed(response.model), now))
  {
    var parsed := ParsePayload(payload, show);
    if parsed.Stop? {
      return Stopped(parsed.status, parsed.reason);
    }
    response := HandleMessageByGet(agentId, StrOf(parsed.text, show), parsed.phone, parsed.messageId, service,
                                   memory, reachable, format, classify, call, now);
  }

  /** The part of the corrected webhook after the parse. */
  method HandleMessageByGet(agentId: string, text: string, phone: string, messageId: Py.Json,
                            service: AgentService.Service, memory: ConversationMemory.ConversationManager,
                            reachable: bool, format: AgentService.PromptFormatter, classify: Router.Classify,
                            call: Router.Call, now: int)
    returns (response: Response)
    modifies memory
    ensures && response.Delivered? && response.messageId == messageId && response.agentId == agentId
            && (response.handoff == "required" <==> Refused(service.agents, agentId, text))
    ensures Refused(service.agents, agentId, text) ==> response.model == Py.JNull && response.agentName == Py.JNull
    ensures !Refused(service.agents, agentId, text) ==> response.agentName == Py.JStr(service.agents[agentId].name)
    ensures var answer := AnswerAfterSave(service.agents, agentId, text, phone, old(memory.store), now, reachable,
                                          format, classify, call);
      && response == Delivered(messageId, agentId, ReplyAgentName(answer), ReplyModel(answer),
                               HandoffStatus(answer.needHuman))
      && memory.store == WithExchange(old(memory.store), phone, text, answer.text, ModelUsed(response.model), now,
                                      reachable)
      && (reachable ==> ReplyFollowsMessage(memory.store, phone, text, answer.text, ModelUsed(response.model), now))
  {
    memory.AddMessage(phone, "user", text, None, true, now, reachable);
    ghost var saved := memory.store;
    assert reachable ==> phone in saved;
    var reply := RunAgent(agentId, text, phone, service, memory, reachable, format, classify, call);
    assert memory.store == saved;
    var model := ReplyModel(reply);
    memory.AddMessage(phone, "assistant", reply.text, ModelUsed(model), true, now, reachable);
    response := Delivered(messageId, agentId, ReplyAgentName(reply), model, HandoffStatus(reply.needHuman));
  }

  /** The user's message and, right after it, the assistant's reply tagged
      with the model are the last two entries of the sender's log. */
  ghost predicate ReplyFollowsMessage(store: ConversationMemory.Store, phone: string, text: string, reply: string,
                                      modelUsed: Option<string>, now: int) {
    phone in store && |store[phone].messages| >= 2
    && var log := store[phone].messages;
       && log[|log| - 2] == ConversationMemory.Message("user", text, now, None)
       && log[|log| - 1] == ConversationMemory.Message("assistant", reply, now, modelUsed)
  }
}
