/** `ConversationManager`: one memory record per sender phone in the
    `conversation_memory` table, holding that sender's messages (the last
    hundred) and the time of the last update. `reachable` stands for the
    database answering; times are integer seconds. */
module ConversationMemory {
  import opened Wrappers
  import Py
  import PyStr

  const MaxMessages: nat := 100
  const Day: int := 24 * 3600

  datatype Message = Message(role: string, content: string, timestamp: int, modelUsed: Option<string>)

  /** A record; `lastUpdate` is `None` until the first `add_message`
      writes it, since creating a record does not set it. */
  datatype Record = Record(messages: seq<Message>, lastUpdate: Option<int>)

  type Store = map<string, Record>

  /** The store once `_get_or_create_memory` has run for a sender. */
  function WithRecord(store: Store, sender: string): (s: Store)
    ensures sender in s && s.Keys == store.Keys + {sender}
    ensures sender in store ==> s == store
    ensures sender !in store ==> s[sender] == Record([], None) && forall k :: k in store ==> s[k] == store[k]
  {
    if sender in store then store else store[sender := Record([], None)]
  }

  /** The log after one more message: the message appended, the oldest
      dropped beyond a hundred. */
  function Appended(log: seq<Message>, msg: Message): (r: seq<Message>)
    ensures r == PyStr.Last(log + [msg], MaxMessages)
  {
    PyStr.Last(log + [msg], MaxMessages)
  }

  /** The store after `add_message` has saved a message: only the sender's
      record changes, to its log with the message appended and the time of
      the message as its last update. */
  function WithMessage(store: Store, sender: string, msg: Message): (s: Store)
    ensures s.Keys == store.Keys + {sender}
    ensures forall k :: k in store && k != sender ==> s[k] == store[k]
    ensures s[sender].messages == Appended(if sender in store then store[sender].messages else [], msg)
    ensures sender !in store ==> s[sender].messages == [msg]
    ensures s[sender].lastUpdate == Some(msg.timestamp)
  {
    var before := if sender in store then store[sender].messages else [];
    AppendedKeepsNewest(before, msg);
    store[sender := Record(Appended(before, msg), Some(msg.timestamp))]
  }

  /** The saved message is the newest entry of the sender's log. */
  lemma {:induction false} SavedMessageIsNewest(store: Store, sender: string, msg: Message)
    ensures var log := WithMessage(store, sender, msg)[sender].messages;
      |log| > 0 && log[|log| - 1] == msg
  {
    AppendedKeepsNewest(if sender in store then store[sender].messages else [], msg);
  }

  /** The appended message is last, the log never exceeds a hundred, and
      what precedes the new message is the tail of the old log. */
  lemma {:induction false} AppendedKeepsNewest(log: seq<Message>, msg: Message)
    ensures var r := Appended(log, msg);
      && |r| == (if |log| + 1 <= MaxMessages then |log| + 1 else MaxMessages)
      && r[|r| - 1] == msg
      && r[..|r| - 1] == PyStr.Last(log, |r| - 1)
  {
    var all := log + [msg];
    var r := Appended(log, msg);
    assert r == all[|all| - |r|..];
    assert r[|r| - 1] == all[|all| - 1];
    assert r[..|r| - 1] == log[|log| - (|r| - 1)..];
  }

  /** Two messages appended in a row end the log in that order. */
  lemma {:induction false} AppendedTwice(log: seq<Message>, first: Message, second: Message)
    ensures var l := Appended(Appended(log, first), second);
      |l| >= 2 && l[|l| - 2] == first && l[|l| - 1] == second
  {
    var once := Appended(log, first);
    AppendedKeepsNewest(log, first);
    var all := once + [second];
    var l := Appended(once, second);
    assert l == all[|all| - |l|..];
    assert |l| >= 2;
    assert l[|l| - 2] == all[|all| - 2] == once[|once| - 1];
    assert l[|l| - 1] == all[|all| - 1];
  }

  /** Two saves in a row for one sender end that sender's log with the two
      messages, in the order they were saved. */
  lemma {:induction false} SavedTwice(store: Store, sender: string, first: Message, second: Message)
    ensures var log := WithMessage(WithMessage(store, sender, first), sender, second)[sender].messages;
      |log| >= 2 && log[|log| - 2] == first && log[|log| - 1] == second
  {
    var once := WithMessage(store, sender, first);
    var before := if sender in store then store[sender].messages else [];
    assert once[sender].messages == Appended(before, first);
    AppendedTwice(before, first, second);
  }

  /** One line of the formatted conversation. */
  function Entry(msg: Message): (e: string)
    ensures msg.role == "user" ==> e == "Usuário: " + msg.content
    ensures msg.role != "user" ==> e == "Assistente: " + msg.content + "\n"
  {
    if msg.role == "user" then "Usuário: " + msg.content else "Assistente: " + msg.content + "\n"
  }

  /** One entry per message, in order. */
  function Entries(messages: seq<Message>): (es: seq<string>)
    ensures |es| == |messages|
    ensures forall i :: 0 <= i < |messages| ==> es[i] == Entry(messages[i])
  {
    seq(|messages|, i requires 0 <= i < |messages| => Entry(messages[i]))
  }

  /** The word budget: more than `maxTokens` words are cut to the last
      `maxTokens`, joined by single spaces (`words[-max_tokens:]`). */
  function Truncated(context: string, maxTokens: int): (r: string)
    ensures |PyStr.Words(context)| <= maxTokens ==> r == context
  {
    var words := PyStr.Words(context);
    if |words| > maxTokens then PyStr.Join(" ", PyStr.PySlice(words, -maxTokens, |words|)) else context
  }

  /** The context handed to the model for a sender's log: the formatted
      entries, one per line, cut to the word budget. */
  function Context(messages: seq<Message>, maxTokens: int): string {
    Truncated(PyStr.Join("\n", Entries(messages)), maxTokens)
  }

  /** Within a budget of at least one word, an over-long context keeps
      exactly its last `maxTokens` words. */
  lemma {:induction false} TruncatedKeepsLastWords(context: string, maxTokens: int)
    requires maxTokens >= 1
    ensures var words := PyStr.Words(context);
      && |PyStr.Words(Truncated(context, maxTokens))| <= (if |words| <= maxTokens then |words| else maxTokens)
      && (|words| > maxTokens ==> PyStr.Words(Truncated(context, maxTokens)) == words[|words| - maxTokens..])
  {
    var words := PyStr.Words(context);
    if |words| > maxTokens {
      var kept := PyStr.PySlice(words, -maxTokens, |words|);
      assert kept == words[|words| - maxTokens..];
      assert forall k :: 0 <= k < |kept| ==> PyStr.IsWord(kept[k]) by {
        forall k | 0 <= k < |kept| ensures PyStr.IsWord(kept[k]) {
          assert kept[k] == words[|words| - maxTokens + k];
        }
      }
      PyStr.WordsOfJoin(kept);
    }
  }

  /** A budget of zero slices with `words[-0:]`, which is the whole list:
      every word is kept. */
  lemma {:induction false} ZeroBudgetKeepsAllWords(context: string)
    ensures PyStr.Words(Truncated(context, 0)) == PyStr.Words(context)
  {
    var words := PyStr.Words(context);
    if |words| > 0 {
      assert PyStr.PySlice(words, 0, |words|) == words;
      PyStr.WordsOfJoin(words);
    }
  }

  /** The records `cleanup_old_memories` deletes: updated before the cut-off.
      A record never updated has no time and is kept. */
  function Stale(store: Store, days: int, now: int): (r: set<string>)
    ensures r <= store.Keys
    ensures forall k :: k in store && store[k].lastUpdate.None? ==> k !in r
    ensures forall k :: k in store && store[k].lastUpdate.Some? && store[k].lastUpdate.value >= now - days * Day ==> k !in r
  {
    set k | k in store && store[k].lastUpdate.Some? && store[k].lastUpdate.value < now - days * Day
  }

  class ConversationManager {
    var store: Store

    constructor ()
      ensures store == map[]
    {
      store := map[];
    }

    /** `_get_or_create_memory`: a failure is re-raised. */
    method GetOrCreateMemory(sender: string, reachable: bool) returns (r: Result<Record, Py.PyError>)
      modifies this
      ensures r.Success? <==> reachable
      ensures store == if reachable then WithRecord(old(store), sender) else old(store)
      ensures r.Success? ==> r.value == store[sender]
    {
      if !reachable {
        return Failure(Py.ValueError("database unreachable"));
      }
      if sender !in store {
        store := store[sender := Record([], None)];
      }
      r := Success(store[sender]);
    }

    /** `add_message`: nothing happens when `save_to_db` is false; errors are
        only logged. Only the sender's record changes. */
    method AddMessage(sender: string, role: string, content: string, modelUsed: Option<string>,
                      saveToDb: bool, now: int, reachable: bool)
      modifies this
      ensures !saveToDb || !reachable ==> store == old(store)
      ensures saveToDb && reachable ==> store == WithMessage(old(store), sender, Message(role, content, now, modelUsed))
    {
      if !saveToDb {
        return;
      }
      var memory := GetOrCreateMemory(sender, reachable);
      if memory.Failure? {
        return;
      }
      var msg := Message(role, content, now, modelUsed);
      var messages := memory.value.messages + [msg];
      if |messages| > MaxMessages {
        messages := messages[|messages| - MaxMessages..];
      }
      assert messages == Appended(memory.value.messages, msg);
      assert store[sender := Record(messages, Some(now))] == old(store)[sender := Record(messages, Some(now))];
      store := store[sender := Record(messages, Some(now))];
    }

    /** `format_conversation_for_llm`: the record is created if missing;
        on failure the result is the empty string. */
    method FormatConversationForLlm(sender: string, maxTokens: int, reachable: bool) returns (context: string)
      modifies this
      ensures store == if reachable then WithRecord(old(store), sender) else old(store)
      ensures !reachable ==> context == ""
      ensures reachable ==> context == Context(store[sender].messages, maxTokens)
    {
      var memory := GetOrCreateMemory(sender, reachable);
      if memory.Failure? {
        return "";
      }
      var messages := memory.value.messages;
      var formatted: seq<string> := [];
      var i := 0;
      while i < |messages|
        invariant 0 <= i <= |messages|
        invariant formatted == Entries(messages[..i])
      {
        if messages[i].role == "user" {
          formatted := formatted + ["Usuário: " + messages[i].content];
        } else {
          formatted := formatted + ["Assistente: " + messages[i].content + "\n"];
        }
        i := i + 1;
      }
      assert messages[..i] == messages;
      context := PyStr.Join("\n", formatted);
      var words := PyStr.Words(context);
      if |words| > maxTokens {
        context := PyStr.Join(" ", PyStr.PySlice(words, -maxTokens, |words|));
      }
    }

    /** `cleanup_old_memories`: errors are only logged. */
    method CleanupOldMemories(days: int, now: int, reachable: bool)
      modifies this
      ensures store == if reachable then map k | k in old(store) && k !in Stale(old(store), days, now) :: old(store)[k]
                       else old(store)
    {
      if !reachable {
        return;
      }
      store := map k | k in store && k !in Stale(store, days, now) :: store[k];
    }
  }

  /** A record survives cleanup exactly when it was updated at or after the
      cut-off, or never. */
  lemma {:induction false} CleanupKeepsRecent(store: Store, days: int, now: int, sender: string)
    requires sender in store
    ensures sender !in Stale(store, days, now) <==>
      store[sender].lastUpdate.None? || store[sender].lastUpdate.value >= now - days * Day
  {
  }
}
