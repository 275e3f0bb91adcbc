/** `SupabaseManager`: three tables kept in the database, modelled as the
    fields of one object. `response_cache` is keyed by prompt,
    `message_queue` is a list of rows whose id is their position, and
    `conversation_context` is keyed by sender. Times are integer seconds;
    `reachable` stands for the database answering a request. */
module Database {
  import opened Wrappers
  import Py
  import PyStr

  const Day: int := 24 * 3600
  const MaxContextMessages: nat := 50

  /** The error a failed database call raises. */
  function Unreachable(): Py.PyError { Py.ValueError("database unreachable") }

  /** The error of `.copy()` on a log that came back as a JSON string. */
  function NoCopy(): Py.PyError { Py.AttributeError(Py.AttributeMessage("str", "copy")) }
  const MaxConversationMessages: nat := 10

  /** A `response_cache` row. */
  datatype CacheRow = CacheRow(response: Py.Json, model: string, expiresAt: int, usageCount: int)

  /** A `message_queue` row. */
  datatype QueueRow = QueueRow(
    id: nat,
    sender: string,
    status: string,
    createdAt: int,
    processedAt: Option<int>,
    messageQueue: Py.Json)

  /** The `messages` column: a JSON array, or a JSON string holding the
      text `json.dumps` made of an array. */
  datatype Log = Listed(items: seq<Py.Json>) | Encoded(items: seq<Py.Json>)

  /** A `conversation_context` row. `messageCount` and `metadata` are the
      column defaults (`None`) until `save_context` writes them. */
  datatype ContextRow = ContextRow(
    messages: Log,
    messageCount: Option<int>,
    lastInteraction: int,
    expiresAt: int,
    metadata: Option<Py.Json>)

  /** The metadata column after `save_context`'s upsert, which writes the
      column only for truthy metadata and otherwise leaves the row's own
      value, the default for a new row. */
  function MetadataAfter(rows: map<string, ContextRow>, sender: string, metadata: Py.Json): (m: Option<Py.Json>)
    ensures Py.Truthy(metadata) ==> m == Some(metadata)
    ensures !Py.Truthy(metadata) && sender in rows ==> m == rows[sender].metadata
    ensures !Py.Truthy(metadata) && sender !in rows ==> m.None?
  {
    if Py.Truthy(metadata) then Some(metadata)
    else if sender in rows then rows[sender].metadata
    else None
  }

  /** The context table after `save_context` upserts the sender's row: the
      last fifty of the given messages, their count, a day-long expiry and
      the metadata as the upsert leaves it; every other row is kept. */
  function ContextSaved(rows: map<string, ContextRow>, sender: string, messages: seq<Py.Json>, metadata: Py.Json,
                        now: int): (s: map<string, ContextRow>)
    ensures s.Keys == rows.Keys + {sender}
    ensures forall k :: k in rows && k != sender ==> s[k] == rows[k]
    ensures s[sender].messages == Listed(PyStr.Last(messages, MaxContextMessages))
    ensures |messages| <= MaxContextMessages ==> s[sender].messages == Listed(messages)
    ensures s[sender].messageCount == Some(|PyStr.Last(messages, MaxContextMessages)|)
    ensures s[sender].lastInteraction == now && s[sender].expiresAt == now + Day
    ensures s[sender].metadata == MetadataAfter(rows, sender, metadata)
  {
    var kept := PyStr.Last(messages, MaxContextMessages);
    rows[sender := ContextRow(Listed(kept), Some(|kept|), now, now + Day, MetadataAfter(rows, sender, metadata))]
  }

  /** The context table after `save_context`: it fails when the database
      is unreachable, when the stored log is a JSON string (which has no
      `copy`) or when a new message is not a dictionary; otherwise the
      unexpired log and the stamped new messages are saved. */
  function ContextUpsert(rows: map<string, ContextRow>, sender: string, newMessages: seq<Py.Json>, metadata: Py.Json,
                         now: int, reachable: bool): (r: Result<map<string, ContextRow>, Py.PyError>)
    ensures r.Success? <==> reachable && ContextOf(rows, sender, now).Listed? &&
                            forall i :: 0 <= i < |newMessages| ==> newMessages[i].JDict?
    ensures r.Success? ==>
      r.value == ContextSaved(rows, sender, ContextOf(rows, sender, now).items + StampedAll(newMessages, now).value,
                              metadata, now)
  {
    if !reachable then Failure(Unreachable())
    else if ContextOf(rows, sender, now).Encoded? then Failure(NoCopy())
    else
      match StampedAll(newMessages, now)
      case Failure(e) => Failure(e)
      case Success(stamped) => Success(ContextSaved(rows, sender, ContextOf(rows, sender, now).items + stamped, metadata, now))
  }

  /** The response `save_to_cache` stores: seven fields read with defaults. */
  function FormattedResponse(fields: seq<(string, Py.Json)>): Py.Json {
    Py.JDict([
      ("text", Py.Get(fields, "text", Py.JStr(""))),
      ("success", Py.Get(fields, "success", Py.JBool(true))),
      ("cost_analysis", Py.Get(fields, "cost_analysis", Py.JDict([]))),
      ("model", Py.Get(fields, "model", Py.JStr(""))),
      ("confidence", Py.Get(fields, "confidence", Py.JNum(0.0))),
      ("model_scores", Py.Get(fields, "model_scores", Py.JDict([]))),
      ("indicators", Py.Get(fields, "indicators", Py.JDict([])))])
  }

  /** The cache after `save_to_cache`. */
  function CacheSaved(cache: map<string, CacheRow>, prompt: string, response: Py.Json, model: string,
                      now: int): (c: map<string, CacheRow>)
    ensures prompt == "" || !Py.Truthy(response) || model == "" || !response.JDict? ==> c == cache
    ensures prompt != "" && Py.Truthy(response) && model != "" && response.JDict? ==>
      && c.Keys == cache.Keys + {prompt}
      && c[prompt] == CacheRow(FormattedResponse(response.fields), model, now + Day, 1)
      && forall k :: k in cache && k != prompt ==> c[k] == cache[k]
  {
    if prompt == "" || !Py.Truthy(response) || model == "" then cache
    else if !response.JDict? then cache
    else cache[prompt := CacheRow(FormattedResponse(response.fields), model, now + Day, 1)]
  }

  /** What `get_from_cache` returns. */
  function CacheHit(cache: map<string, CacheRow>, prompt: string, now: int): (r: Option<Py.Json>)
    ensures r.Some? <==> prompt in cache && cache[prompt].expiresAt > now
  {
    if prompt in cache && cache[prompt].expiresAt > now then Some(cache[prompt].response) else None
  }

  /** The `message_queue` dictionary: the prompt and the response, each only when truthy. */
  function QueuePayload(prompt: Option<string>, response: Py.Json): (p: Py.Json)
    ensures p.JDict?
    ensures Py.HasKey(p.fields, "prompt") <==> prompt.Some? && prompt.value != ""
    ensures Py.HasKey(p.fields, "response") <==> Py.Truthy(response)
  {
    var withPrompt := if prompt.Some? && prompt.value != "" then [("prompt", Py.JStr(prompt.value))] else [];
    var withResponse := if Py.Truthy(response) then [("response", response)] else [];
    var fs := withPrompt + withResponse;
    assert prompt.Some? && prompt.value != "" ==> fs[0].0 == "prompt";
    assert Py.HasKey(fs, "prompt") ==> prompt.Some? && prompt.value != "";
    assert Py.Truthy(response) ==> fs[|fs| - 1].0 == "response";
    Py.JDict(fs)
  }

  /** The row `add_to_queue` inserts. */
  function NewQueueRow(id: nat, sender: string, prompt: Option<string>, response: Py.Json, now: int): (row: QueueRow)
    ensures row.status == (if Py.Truthy(response) then "completed" else "pending")
    ensures row.processedAt.Some? <==> Py.Truthy(response)
  {
    QueueRow(id, sender, if Py.Truthy(response) then "completed" else "pending", now,
             if Py.Truthy(response) then Some(now) else None, QueuePayload(prompt, response))
  }

  /** The pending rows, in queue order. */
  function Pending(queue: seq<QueueRow>): (p: seq<QueueRow>)
    ensures forall r :: r in p <==> r in queue && r.status == "pending"
    ensures |p| <= |queue|
  {
    if |queue| == 0 then []
    else (if queue[0].status == "pending" then [queue[0]] else []) + Pending(queue[1..])
  }

  /** Rows in ascending `created_at` order. */
  ghost predicate ByCreation(rows: seq<QueueRow>) {
    forall i, j :: 0 <= i < j < |rows| ==> rows[i].createdAt <= rows[j].createdAt
  }

  /** `row` placed before the first row of `sorted` created no earlier. */
  function InsertByCreation(row: QueueRow, sorted: seq<QueueRow>): (r: seq<QueueRow>)
    requires ByCreation(sorted)
    ensures ByCreation(r)
    ensures forall x :: x in r <==> x == row || x in sorted
    ensures multiset(r) == multiset(sorted) + multiset{row}
  {
    if |sorted| == 0 || row.createdAt <= sorted[0].createdAt then
      ConsByCreation(row, sorted);
      [row] + sorted
    else
      assert sorted == [sorted[0]] + sorted[1..];
      OrderedHeadFirst(sorted);
      var rest := InsertByCreation(row, sorted[1..]);
      ConsByCreation(sorted[0], rest);
      [sorted[0]] + rest
  }

  /** The first of ordered rows was created no later than the others. */
  lemma OrderedHeadFirst(rows: seq<QueueRow>)
    requires |rows| > 0 && ByCreation(rows)
    ensures forall x :: x in rows[1..] ==> rows[0].createdAt <= x.createdAt
  {
    forall x | x in rows[1..] ensures rows[0].createdAt <= x.createdAt {
      var i :| 0 <= i < |rows[1..]| && rows[1..][i] == x;
      assert rows[i + 1] == x;
    }
  }

  /** A row created no later than every row of an ordered sequence can go
      in front of it. */
  lemma ConsByCreation(first: QueueRow, rows: seq<QueueRow>)
    requires ByCreation(rows)
    requires forall x :: x in rows ==> first.createdAt <= x.createdAt
    ensures ByCreation([first] + rows)
  {
    forall i, j | 0 <= i < j < |[first] + rows|
      ensures ([first] + rows)[i].createdAt <= ([first] + rows)[j].createdAt
    {
      assert ([first] + rows)[j] == rows[j - 1];
      if i > 0 {
        assert ([first] + rows)[i] == rows[i - 1];
      }
    }
  }

  /** The rows sorted by `created_at`; rows created at the same time keep
      their queue order. */
  function SortByCreation(rows: seq<QueueRow>): (r: seq<QueueRow>)
    ensures ByCreation(r)
    ensures multiset(r) == multiset(rows)
  {
    if |rows| == 0 then []
    else
      assert rows == [rows[0]] + rows[1..];
      InsertByCreation(rows[0], SortByCreation(rows[1..]))
  }

  /** Rows already in creation order come back as they are. */
  lemma {:induction false} SortKeepsOrdered(rows: seq<QueueRow>)
    requires ByCreation(rows)
    ensures SortByCreation(rows) == rows
  {
    if |rows| > 0 {
      SortKeepsOrdered(rows[1..]);
    }
  }

  /** The pending rows as `get_pending_messages` asks for them: oldest
      first. */
  function PendingOldestFirst(queue: seq<QueueRow>): (p: seq<QueueRow>)
    ensures ByCreation(p)
    ensures multiset(p) == multiset(Pending(queue))
    ensures |p| == |Pending(queue)|
    ensures forall r :: r in p <==> r in queue && r.status == "pending"
  {
    var p := SortByCreation(Pending(queue));
    assert forall r :: r in p <==> r in multiset(Pending(queue));
    assert |multiset(p)| == |multiset(Pending(queue))|;
    p
  }

  /** A queue row after `update_queue_status`. */
  function StatusUpdated(row: QueueRow, status: string, metadata: Py.Json, now: int): (r: QueueRow)
    ensures r.id == row.id && r.sender == row.sender && r.createdAt == row.createdAt
    ensures r.status == status
    ensures r.processedAt == (if status == "completed" then Some(now) else None)
    ensures r.messageQueue == (if Py.Truthy(metadata) then metadata else row.messageQueue)
  {
    row.(status := status,
         processedAt := if status == "completed" then Some(now) else None,
         messageQueue := if Py.Truthy(metadata) then metadata else row.messageQueue)
  }

  /** What `get_context` returns: the stored log of a sender whose row has
      not expired, and an empty list otherwise. */
  function ContextOf(contexts: map<string, ContextRow>, sender: string, now: int): (log: Log)
    ensures sender !in contexts || contexts[sender].expiresAt <= now ==> log == Listed([])
  {
    if sender in contexts && contexts[sender].expiresAt > now then contexts[sender].messages else Listed([])
  }

  /** A message with a timestamp filled in when it has none (or a falsy one);
      a message that is not a dictionary makes `.get` raise. */
  function Stamped(msg: Py.Json, now: int): (r: Result<Py.Json, Py.PyError>)
    ensures r.Success? <==> msg.JDict?
    ensures r.Success? ==> r.value.JDict? && Py.Truthy(Py.Get(r.value.fields, "timestamp", Py.JNull))
  {
    if !msg.JDict? then Failure(Py.AttributeError(Py.AttributeMessage(Py.TypeName(msg), "get")))
    else if Py.Truthy(Py.Get(msg.fields, "timestamp", Py.JNull)) then Success(msg)
    else Success(Py.JDict(Py.SetKey(msg.fields, "timestamp", Py.JStr(TimeText(now)))))
  }

  /** The text a time is stored as: its count of seconds in decimal. */
  function TimeText(now: int): (s: string)
    ensures |s| > 0
  {
    if now >= 0 then PyStr.NatToString(now) else "-" + PyStr.NatToString(-now)
  }

  /** All the messages stamped, or the first failure. */
  function StampedAll(msgs: seq<Py.Json>, now: int): (r: Result<seq<Py.Json>, Py.PyError>)
    ensures r.Success? ==> |r.value| == |msgs|
    ensures r.Success? <==> forall i :: 0 <= i < |msgs| ==> msgs[i].JDict?
    decreases |msgs|
  {
    if |msgs| == 0 then Success([])
    else match Stamped(msgs[0], now)
      case Failure(e) => Failure(e)
      case Success(m) =>
        match StampedAll(msgs[1..], now)
        case Failure(e) => Failure(e)
        case Success(ms) =>
          assert forall i :: 1 <= i < |msgs| ==> msgs[i] == msgs[1..][i - 1];
          Success([m] + ms)
  }

  /** Whether message `i` is a user message with the prompt as its content,
      compared lower-cased; indexing a non-dictionary raises. */
  function AskedAt(messages: seq<Py.Json>, prompt: string, i: nat): Result<bool, Py.PyError>
    requires i < |messages|
  {
    match Py.Index(messages[i], "role")
    case Failure(e) => Failure(e)
    case Success(role) =>
      if role != Py.JStr("user") then Success(false)
      else match Py.Index(messages[i], "content")
        case Failure(e) => Failure(e)
        case Success(content) =>
          if !content.JStr? then Failure(Py.AttributeError(Py.AttributeMessage(Py.TypeName(content), "lower")))
          else Success(PyStr.Lower(content.s) == PyStr.Lower(prompt))
  }

  /** Whether message `i` has the assistant role. */
  function AnsweredAt(messages: seq<Py.Json>, i: nat): Result<bool, Py.PyError>
    requires i < |messages|
  {
    match Py.Index(messages[i], "role")
    case Failure(e) => Failure(e)
    case Success(role) => Success(role == Py.JStr("assistant"))
  }

  /** The search of `find_similar_response` from position `i` on: the
      answer after the first matching question, `None` when there is none,
      and `None` as well when a message on the way cannot be read. */
  function SimilarFrom(messages: seq<Py.Json>, prompt: string, i: nat): (r: Option<Py.Json>)
    ensures i + 1 >= |messages| ==> r.None?
    decreases |messages| - i
  {
    if i >= |messages| then None
    else match AskedAt(messages, prompt, i)
      case Failure(_) => None
      case Success(asked) =>
        if !asked then SimilarFrom(messages, prompt, i + 1)
        else if i + 1 >= |messages| then None
        else match AnsweredAt(messages, i + 1)
          case Failure(_) => None
          case Success(answered) =>
            if answered then Some(messages[i + 1]) else SimilarFrom(messages, prompt, i + 1)
  }

  /** Messages `k` and `k + 1` are a user message equal to the prompt up to
      case and an assistant message. */
  predicate PairAt(messages: seq<Py.Json>, prompt: string, k: nat) {
    && k + 1 < |messages|
    && AskedAt(messages, prompt, k) == Success(true)
    && AnsweredAt(messages, k + 1) == Success(true)
  }

  /** A found answer directly follows a user message equal to the prompt up
      to case, and it is the first such pair. */
  lemma {:induction false} SimilarIsFirstPair(messages: seq<Py.Json>, prompt: string, i: nat)
    requires SimilarFrom(messages, prompt, i).Some?
    ensures exists k :: (i <= k && PairAt(messages, prompt, k) && SimilarFrom(messages, prompt, i).value == messages[k + 1]
                         && forall j :: i <= j < k ==> !PairAt(messages, prompt, j))
    decreases |messages| - i
  {
    if PairAt(messages, prompt, i) {
      assert SimilarFrom(messages, prompt, i).value == messages[i + 1];
    } else {
      SimilarIsFirstPair(messages, prompt, i + 1);
      var k :| i + 1 <= k && PairAt(messages, prompt, k) && SimilarFrom(messages, prompt, i + 1).value == messages[k + 1]
        && forall j :: i + 1 <= j < k ==> !PairAt(messages, prompt, j);
      assert SimilarFrom(messages, prompt, i) == SimilarFrom(messages, prompt, i + 1);
    }
  }

  /** Every message the scan reads before position `k`, from `i` on, can be
      read: its role and content, and the role of the reply after a
      matching question. */
  predicate ReadableBefore(messages: seq<Py.Json>, prompt: string, i: nat, k: nat)
    requires k <= |messages|
  {
    forall j :: i <= j < k ==>
      && AskedAt(messages, prompt, j).Success?
      && (AskedAt(messages, prompt, j) == Success(true) && j + 1 < |messages| ==> AnsweredAt(messages, j + 1).Success?)
  }

  /** The converse: the first pair from `i` on, reached without an
      unreadable message, is the answer found. */
  lemma {:induction false} FirstPairIsSimilar(messages: seq<Py.Json>, prompt: string, i: nat, k: nat)
    requires i <= k && PairAt(messages, prompt, k)
    requires forall j :: i <= j < k ==> !PairAt(messages, prompt, j)
    requires ReadableBefore(messages, prompt, i, k)
    ensures SimilarFrom(messages, prompt, i) == Some(messages[k + 1])
    decreases k - i
  {
    if i < k {
      assert !PairAt(messages, prompt, i);
      assert AskedAt(messages, prompt, i).Success?;
      FirstPairIsSimilar(messages, prompt, i + 1, k);
      assert SimilarFrom(messages, prompt, i) == SimilarFrom(messages, prompt, i + 1);
    }
  }

  /** `find_similar_response` on the log `get_context` gives. Iterating a
      JSON string yields its characters, and indexing the first one raises. */
  function Similar(log: Log, prompt: string): (r: Option<Py.Json>)
    ensures log.Encoded? ==> r.None?
    ensures log.Listed? && |log.items| < 2 ==> r.None?
  {
    match log
    case Listed(items) => SimilarFrom(items, prompt, 0)
    case Encoded(_) => None
  }

  /** The two messages `update_conversation_context` appends. */
  function Exchange(userMessage: string, botResponse: string): seq<Py.Json> {
    [Py.JDict([("role", Py.JStr("user")), ("content", Py.JStr(userMessage))]),
     Py.JDict([("role", Py.JStr("assistant")), ("content", Py.JStr(botResponse))])]
  }

  /** The conversation row after `update_conversation_context`: the stored
      messages, read whatever their expiry, with the exchange appended, the
      last ten kept, written back as a JSON string. */
  function ConversationUpdated(contexts: map<string, ContextRow>, sender: string, userMessage: string,
                               botResponse: string, ttlHours: int, now: int): (c: map<string, ContextRow>)
    ensures sender == "" || userMessage == "" || botResponse == "" ==> c == contexts
    ensures sender != "" && userMessage != "" && botResponse != "" ==>
      && c.Keys == contexts.Keys + {sender}
      && (forall k :: k in contexts && k != sender ==> c[k] == contexts[k])
      && c[sender].messages.Encoded?
      && (var before := if sender in contexts then contexts[sender].messages.items else [];
          c[sender].messages.items == PyStr.Last(before + Exchange(userMessage, botResponse), MaxConversationMessages))
      && c[sender].expiresAt == now + ttlHours * 3600 && c[sender].lastInteraction == now
  {
    if sender == "" || userMessage == "" || botResponse == "" then contexts
    else
      var before := if sender in contexts then contexts[sender].messages.items else [];
      var messages := PyStr.Last(before + Exchange(userMessage, botResponse), MaxConversationMessages);
      var row := if sender in contexts
        then contexts[sender].(messages := Encoded(messages), lastInteraction := now, expiresAt := now + ttlHours * 3600)
        else ContextRow(Encoded(messages), None, now, now + ttlHours * 3600, None);
      contexts[sender := row]
  }

  /** After an update the log ends with the exchange, user first, and holds at most ten messages. */
  lemma {:induction false} ExchangeIsLast(before: seq<Py.Json>, userMessage: string, botResponse: string)
    ensures var after := PyStr.Last(before + Exchange(userMessage, botResponse), MaxConversationMessages);
      && 2 <= |after| <= 10
      && after[|after| - 2..] == Exchange(userMessage, botResponse)
      && after[..|after| - 2] == PyStr.Last(before, |after| - 2)
  {
    var all := before + Exchange(userMessage, botResponse);
    var after := PyStr.Last(all, MaxConversationMessages);
    assert after == all[|all| - |after|..];
    assert after[|after| - 2..] == all[|all| - 2..];
    assert all[|all| - 2..] == Exchange(userMessage, botResponse);
    assert after[..|after| - 2] == before[|before| - (|after| - 2)..];
  }

  /** The stamping loop of `save_context`: each new message stamped in
      turn, the first one that is not a dictionary raising. */
  method StampMessages(newMessages: seq<Py.Json>, now: int) returns (r: Result<seq<Py.Json>, Py.PyError>)
    ensures r.Success? <==> forall i :: 0 <= i < |newMessages| ==> newMessages[i].JDict?
    ensures r.Success? ==> r == StampedAll(newMessages, now)
  {
    var messages := [];
    var i := 0;
    while i < |newMessages|
      invariant 0 <= i <= |newMessages|
      invariant StampedAll(newMessages[..i], now) == Success(messages)
    {
      var stamped := Stamped(newMessages[i], now);
      if stamped.Failure? {
        return Failure(stamped.error);
      }
      StampedStep(newMessages, i, now, messages);
      messages := messages + [stamped.value];
      i := i + 1;
    }
    assert newMessages[..i] == newMessages;
    r := Success(messages);
  }

  class SupabaseManager {
    var cache: map<string, CacheRow>
    var queue: seq<QueueRow>
    var contexts: map<string, ContextRow>

    /** Queue ids are the positions of the rows. */
    predicate Valid()
      reads this
    {
      forall i :: 0 <= i < |queue| ==> queue[i].id == i
    }

    constructor ()
      ensures Valid() && cache == map[] && queue == [] && contexts == map[]
    {
      cache := map[];
      queue := [];
      contexts := map[];
    }

    /** `get_from_cache`. */
    method GetFromCache(prompt: string, now: int, reachable: bool) returns (r: Option<Py.Json>)
      ensures r == if reachable then CacheHit(cache, prompt, now) else None
    {
      if reachable && prompt in cache && cache[prompt].expiresAt > now {
        r := Some(cache[prompt].response);
      } else {
        r := None;
      }
    }

    /** `save_to_cache`: nothing is raised; a failure leaves the table as it was. */
    method SaveToCache(prompt: string, response: Py.Json, model: string, now: int, reachable: bool)
      modifies this
      ensures cache == if reachable then CacheSaved(old(cache), prompt, response, model, now) else old(cache)
      ensures queue == old(queue) && contexts == old(contexts)
    {
      if prompt == "" || !Py.Truthy(response) || model == "" {
        return;
      }
      if !response.JDict? || !reachable {
        return;
      }
      cache := cache[prompt := CacheRow(FormattedResponse(response.fields), model, now + Day, 1)];
    }

    /** `add_to_queue`: the id of the new row, or the exception it re-raises. */
    method AddToQueue(sender: string, prompt: Option<string>, response: Py.Json, now: int, reachable: bool)
      returns (r: Result<nat, Py.PyError>)
      requires Valid()
      modifies this
      ensures Valid()
      ensures r.Success? <==> reachable
      ensures r.Success? ==> r.value == old(|queue|) && queue == old(queue) + [NewQueueRow(r.value, sender, prompt, response, now)]
      ensures r.Failure? ==> queue == old(queue)
      ensures cache == old(cache) && contexts == old(contexts)
    {
      if !reachable {
        return Failure(Unreachable());
      }
      var id := |queue|;
      queue := queue + [NewQueueRow(id, sender, prompt, response, now)];
      r := Success(id);
    }

    /** `get_pending_messages`: the first `limit` pending rows. */
    method GetPendingMessages(limit: nat, reachable: bool) returns (rows: seq<QueueRow>)
      ensures !reachable ==> rows == []
      ensures reachable ==> rows == PendingOldestFirst(queue)[..if |Pending(queue)| < limit then |Pending(queue)| else limit]
      ensures ByCreation(rows)
      ensures forall r :: r in rows ==> r in queue && r.status == "pending"
      ensures |rows| <= limit
    {
      if !reachable {
        return [];
      }
      var pending := PendingOldestFirst(queue);
      rows := pending[..if |pending| < limit then |pending| else limit];
      assert forall r :: r in rows ==> r in pending;
    }

    /** `update_queue_status`: the row with that id takes the new status;
        an id with no row changes nothing. */
    method UpdateQueueStatus(id: nat, status: string, metadata: Py.Json, now: int, reachable: bool)
      returns (r: Result<(), Py.PyError>)
      requires Valid()
      modifies this
      ensures Valid()
      ensures r.Success? <==> reachable
      ensures |queue| == old(|queue|)
      ensures forall i :: 0 <= i < |queue| ==>
        queue[i] == if reachable && i == id then StatusUpdated(old(queue[i]), status, metadata, now) else old(queue[i])
      ensures cache == old(cache) && contexts == old(contexts)
    {
      if !reachable {
        return Failure(Unreachable());
      }
      if id < |queue| {
        queue := queue[id := StatusUpdated(queue[id], status, metadata, now)];
      }
      r := Success(());
    }

    /** `get_context`. */
    method GetContext(sender: string, now: int, reachable: bool) returns (log: Log)
      ensures log == if reachable then ContextOf(contexts, sender, now) else Listed([])
    {
      if reachable && sender in contexts && contexts[sender].expiresAt > now {
        log := contexts[sender].messages;
      } else {
        log := Listed([]);
      }
    }

    /** `save_context`: the unexpired stored messages with the new ones
        appended, each stamped when it has no timestamp, the last fifty kept.
        A stored log that came back as a JSON string has no `copy`, and that
        error, like a message that is not a dictionary, is re-raised. */
    method SaveContext(sender: string, newMessages: seq<Py.Json>, metadata: Py.Json, now: int, reachable: bool)
      returns (r: Result<(), Py.PyError>)
      modifies this`contexts
      ensures r.Failure? ==> contexts == old(contexts)
      ensures var saved := ContextUpsert(old(contexts), sender, newMessages, metadata, now, reachable);
        (r.Success? <==> saved.Success?) && (saved.Success? ==> contexts == saved.value)
    {
      if !reachable {
        return Failure(Unreachable());
      }
      var existing := ContextOf(contexts, sender, now);
      if existing.Encoded? {
        return Failure(NoCopy());
      }
      var stamped := StampMessages(newMessages, now);
      if stamped.Failure? {
        return Failure(stamped.error);
      }
      contexts := ContextSaved(contexts, sender, existing.items + stamped.value, metadata, now);
      r := Success(());
    }

    /** `find_similar_response`: the loop over the messages with its early return. */
    method FindSimilarResponse(sender: string, prompt: string, now: int, reachable: bool) returns (r: Option<Py.Json>)
      ensures r == if reachable then Similar(ContextOf(contexts, sender, now), prompt) else None
    {
      if !reachable {
        return None;
      }
      var log := ContextOf(contexts, sender, now);
      if log.Encoded? {
        return None;
      }
      var messages := log.items;
      var i := 0;
      while i < |messages|
        invariant 0 <= i <= |messages|
        invariant SimilarFrom(messages, prompt, 0) == SimilarFrom(messages, prompt, i)
      {
        var asked := AskedAt(messages, prompt, i);
        if asked.Failure? {
          return None;
        }
        if asked.value && i + 1 < |messages| {
          var answered := AnsweredAt(messages, i + 1);
          if answered.Failure? {
            return None;
          }
          if answered.value {
            return Some(messages[i + 1]);
          }
        }
        i := i + 1;
      }
      r := None;
    }

    /** `update_conversation_context`: nothing is raised; a failure leaves the table as it was. */
    method UpdateConversationContext(sender: string, userMessage: string, botResponse: string,
                                     ttlHours: int, now: int, reachable: bool)
      modifies this
      ensures contexts == if reachable then ConversationUpdated(old(contexts), sender, userMessage, botResponse, ttlHours, now)
                          else old(contexts)
      ensures cache == old(cache) && queue == old(queue)
    {
      if sender == "" || userMessage == "" || botResponse == "" || !reachable {
        return;
      }
      var messages := if sender in contexts then contexts[sender].messages.items else [];
      messages := messages + Exchange(userMessage, botResponse);
      if |messages| > MaxConversationMessages {
        messages := messages[|messages| - MaxConversationMessages..];
      }
      var row := if sender in contexts
        then contexts[sender].(messages := Encoded(messages), lastInteraction := now, expiresAt := now + ttlHours * 3600)
        else ContextRow(Encoded(messages), None, now, now + ttlHours * 3600, None);
      contexts := contexts[sender := row];
    }

    /** `clear_conversation_context`: an empty sender is refused, and the
        error is only logged. */
    method ClearConversationContext(sender: string, now: int, reachable: bool)
      modifies this
      ensures contexts.Keys == old(contexts).Keys
      ensures forall k :: k in contexts ==>
        contexts[k] == if reachable && sender != "" && k == sender
                       then old(contexts)[k].(messages := Listed([]), lastInteraction := now)
                       else old(contexts)[k]
      ensures cache == old(cache) && queue == old(queue)
    {
      if sender == "" || !reachable {
        return;
      }
      if sender in contexts {
        contexts := contexts[sender := contexts[sender].(messages := Listed([]), lastInteraction := now)];
      }
    }

    /** `cleanup_expired`: rows whose expiry is now or earlier leave both tables. */
    method CleanupExpired(now: int, reachable: bool)
      modifies this
      ensures cache == if reachable then map k | k in old(cache) && old(cache)[k].expiresAt > now :: old(cache)[k] else old(cache)
      ensures contexts == if reachable then map k | k in old(contexts) && old(contexts)[k].expiresAt > now :: old(contexts)[k]
                          else old(contexts)
      ensures queue == old(queue)
    {
      if !reachable {
        return;
      }
      cache := map k | k in cache && cache[k].expiresAt > now :: cache[k];
      contexts := map k | k in contexts && contexts[k].expiresAt > now :: contexts[k];
    }

    /** `clear_expired_contexts`: only rows whose expiry is already past go. */
    method ClearExpiredContexts(now: int, reachable: bool) returns (r: Result<(), Py.PyError>)
      modifies this
      ensures r.Success? <==> reachable
      ensures contexts == if reachable then map k | k in old(contexts) && old(contexts)[k].expiresAt >= now :: old(contexts)[k]
                          else old(contexts)
      ensures cache == old(cache) && queue == old(queue)
    {
      if !reachable {
        return Failure(Unreachable());
      }
      contexts := map k | k in contexts && contexts[k].expiresAt >= now :: contexts[k];
      r := Success(());
    }
  }

  /** One more message stamped by the loop of `save_context`. */
  lemma StampedStep(msgs: seq<Py.Json>, i: nat, now: int, done: seq<Py.Json>)
    requires i < |msgs| && StampedAll(msgs[..i], now) == Success(done) && msgs[i].JDict?
    ensures StampedAll(msgs[..i + 1], now) == Success(done + [Stamped(msgs[i], now).value])
  {
    assert msgs[..i + 1] == msgs[..i] + [msgs[i]];
    StampedAppend(msgs[..i], msgs[i], now);
  }

  lemma {:induction false} StampedAppend(msgs: seq<Py.Json>, msg: Py.Json, now: int)
    requires StampedAll(msgs, now).Success? && Stamped(msg, now).Success?
    ensures StampedAll(msgs + [msg], now) == Success(StampedAll(msgs, now).value + [Stamped(msg, now).value])
    decreases |msgs|
  {
    if |msgs| == 0 {
      assert msgs + [msg] == [msg];
      assert [msg][1..] == [];
      var m := Stamped(msg, now).value;
      assert StampedAll([msg][1..], now) == Success([]);
      assert StampedAll([msg], now) == Success([m] + []);
      assert StampedAll(msgs, now).value == [];
      assert StampedAll(msgs, now).value + [m] == [m] + [];
    } else {
      var all := msgs + [msg];
      assert all[0] == msgs[0];
      assert all[1..] == msgs[1..] + [msg];
      StampedAppend(msgs[1..], msg, now);
      var m := Stamped(msgs[0], now).value;
      assert StampedAll(msgs, now).value == [m] + StampedAll(msgs[1..], now).value;
      var rest := StampedAll(msgs[1..], now).value;
      var last := Stamped(msg, now).value;
      assert StampedAll(all[1..], now) == Success(rest + [last]);
      assert StampedAll(all, now) == Success([m] + (rest + [last]));
      assert [m] + (rest + [last]) == ([m] + rest) + [last];
    }
  }

  /** A response saved to the cache is read back unchanged for a day. */
  lemma {:induction false} SavedResponseIsRead(cache: map<string, CacheRow>, prompt: string, response: Py.Json,
                                               model: string, saved: int, now: int)
    requires prompt != "" && model != "" && response.JDict? && Py.Truthy(response)
    requires saved <= now < saved + Day
    ensures CacheHit(CacheSaved(cache, prompt, response, model, saved), prompt, now) == Some(FormattedResponse(response.fields))
  {
    var c := CacheSaved(cache, prompt, response, model, saved);
    assert c[prompt].expiresAt > now;
  }

  /** A context row whose expiry is exactly now is removed by
      `cleanup_expired` but kept by `clear_expired_contexts`. */
  lemma {:induction false} SweepsDisagreeAtExpiry(contexts: map<string, ContextRow>, sender: string, now: int)
    requires sender in contexts && contexts[sender].expiresAt == now
    ensures sender !in (map k | k in contexts && contexts[k].expiresAt > now :: contexts[k])
    ensures sender in (map k | k in contexts && contexts[k].expiresAt >= now :: contexts[k])
  {
  }

  /** As written, a conversation stored by `update_conversation_context`
      is written as a JSON string, so `find_similar_response` can never
      answer from it, even right after the exchange was stored. */
  lemma {:induction false} StoredConversationIsNeverSearched(contexts: map<string, ContextRow>, sender: string,
                                                             userMessage: string, botResponse: string,
                                                             ttlHours: int, now: int)
    requires sender != "" && userMessage != "" && botResponse != "" && ttlHours > 0
    ensures Similar(ContextOf(ConversationUpdated(contexts, sender, userMessage, botResponse, ttlHours, now), sender, now),
                    userMessage) == None
  {
    var c := ConversationUpdated(contexts, sender, userMessage, botResponse, ttlHours, now);
    assert c[sender].expiresAt > now;
  }

  /** The log `update_conversation_context` evidently means to store: the
      same messages kept as a JSON array. */
  function ConversationKept(contexts: map<string, ContextRow>, sender: string, userMessage: string,
                            botResponse: string, ttlHours: int, now: int): (c: map<string, ContextRow>)
    ensures sender != "" && userMessage != "" && botResponse != "" ==> sender in c && c[sender].messages.Listed?
  {
    var updated := ConversationUpdated(contexts, sender, userMessage, botResponse, ttlHours, now);
    if sender in updated then updated[sender := updated[sender].(messages := Listed(updated[sender].messages.items))]
    else updated
  }

  /** Every message of a stored log can be read, and none is a user
      message asking `prompt`. */
  predicate NoEarlierAsk(messages: seq<Py.Json>, prompt: string) {
    forall j :: 0 <= j < |messages| ==> AskedAt(messages, prompt, j) == Success(false)
  }

  /** With the messages kept as an array, repeating the question finds the
      answer just stored, whatever the sender had stored before, as long as
      no earlier user message in it asks the same question. */
  lemma {:induction false} KeptConversationIsSearched(contexts: map<string, ContextRow>, sender: string,
                                                      userMessage: string, botResponse: string, ttlHours: int, now: int)
    requires sender != "" && userMessage != "" && botResponse != "" && ttlHours > 0
    requires NoEarlierAsk(if sender in contexts then contexts[sender].messages.items else [], userMessage)
    ensures Similar(ContextOf(ConversationKept(contexts, sender, userMessage, botResponse, ttlHours, now), sender, now),
                    userMessage) == Some(Exchange(userMessage, botResponse)[1])
  {
    var before := if sender in contexts then contexts[sender].messages.items else [];
    var c := ConversationKept(contexts, sender, userMessage, botResponse, ttlHours, now);
    assert c[sender].messages == Listed(PyStr.Last(before + Exchange(userMessage, botResponse), MaxConversationMessages));
    assert c[sender].expiresAt > now;
    KeptLogIsSearched(before, userMessage, botResponse);
  }

  /** The kept log, the stored messages with the exchange appended and the
      last ten kept, answers the question with the reply just added. */
  lemma {:induction false} KeptLogIsSearched(before: seq<Py.Json>, userMessage: string, botResponse: string)
    requires NoEarlierAsk(before, userMessage)
    ensures SimilarFrom(PyStr.Last(before + Exchange(userMessage, botResponse), MaxConversationMessages), userMessage, 0)
            == Some(Exchange(userMessage, botResponse)[1])
  {
    var msgs := Exchange(userMessage, botResponse);
    var after := PyStr.Last(before + msgs, MaxConversationMessages);
    ExchangeIsLast(before, userMessage, botResponse);
    var k := |after| - 2;
    assert after[k..] == msgs;
    ExchangeIsPair(after, userMessage, botResponse, k);
    assert |before| >= k && after[..k] == before[|before| - k..];
    KeptHasNoAsk(after, before, userMessage, k);
    FirstPairIsSimilar(after, userMessage, 0, k);
  }

  /** A log whose first `k` messages are the last `k` of a log without the
      question does not ask it in those `k` either. */
  lemma {:induction false} KeptHasNoAsk(after: seq<Py.Json>, before: seq<Py.Json>, prompt: string, k: nat)
    requires k <= |after| && k <= |before| && after[..k] == before[|before| - k..]
    requires NoEarlierAsk(before, prompt)
    ensures forall j :: 0 <= j < k ==> !PairAt(after, prompt, j)
    ensures ReadableBefore(after, prompt, 0, k)
  {
    forall j | 0 <= j < k
      ensures AskedAt(after, prompt, j) == Success(false)
    {
      assert after[j] == after[..k][j] == before[|before| - k + j];
      assert AskedAt(before, prompt, |before| - k + j) == Success(false);
    }
  }

  /** The exchange, wherever it sits in a log, is a matching pair. */
  lemma {:induction false} ExchangeIsPair(log: seq<Py.Json>, userMessage: string, botResponse: string, k: nat)
    requires k + 2 <= |log| && log[k..k + 2] == Exchange(userMessage, botResponse)
    ensures PairAt(log, userMessage, k) && log[k + 1] == Exchange(userMessage, botResponse)[1]
  {
    var msgs := Exchange(userMessage, botResponse);
    assert log[k] == msgs[0] && log[k + 1] == msgs[1] by {
      assert log[k..k + 2][0] == log[k] && log[k..k + 2][1] == log[k + 1];
    }
    Py.LookupFirst(msgs[0].fields, "role", 0);
    Py.LookupFirst(msgs[0].fields, "content", 1);
    Py.LookupFirst(msgs[1].fields, "role", 0);
    assert Py.HasKey(msgs[0].fields, "role") && Py.HasKey(msgs[0].fields, "content");
    assert msgs[1].fields[0].0 == "role";
  }
}
