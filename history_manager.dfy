/** `HistoryManager`: a per-sender message history. Unlike the memory of
    `ConversationManager`, the history is never trimmed; it is read back a
    page at a time. `reachable` stands for the database answering; times
    are integer seconds. */
module HistoryManager {
  import opened Wrappers
  import PyStr

  /** One stored message, with the outcome of the call that produced it. */
  datatype Entry = Entry(
    role: string,
    content: string,
    timestamp: int,
    modelUsed: Option<string>,
    success: bool,
    errorMessage: Option<string>)

  /** A history row: the messages and the time of the last append, which
      the first save leaves unset. */
  datatype Row = Row(sender: string, messages: seq<Entry>, lastUpdate: Option<int>)

  /** What `get_message_history` returns. */
  datatype Page = Page(messages: seq<Entry>, total: nat)

  const EmptyPage: Page := Page([], 0)

  class History {
    var rows: map<string, Row>
    ghost predicate Valid()
      reads this
    {
      forall k :: k in rows ==> rows[k].sender == k
    }

    constructor ()
      ensures Valid() && rows == map[]
    {
      rows := map[];
    }

    /** `save_message`: the saved row, or `None` when the database fails. */
    method SaveMessage(sender: string, role: string, content: string, modelUsed: Option<string>,
                       success: bool, errorMessage: Option<string>, now: int, reachable: bool)
      returns (r: Option<Row>)
      requires Valid()
      modifies this
      ensures Valid()
      ensures !reachable ==> r.None? && rows == old(rows)
      ensures reachable ==>
        var entry := Entry(role, content, now, modelUsed, success, errorMessage);
        && rows.Keys == old(rows).Keys + {sender}
        && (forall k :: k in old(rows) && k != sender ==> rows[k] == old(rows)[k])
        && (sender !in old(rows) ==> rows[sender] == Row(sender, [entry], None))
        && (sender in old(rows) ==> rows[sender] == Row(sender, old(rows)[sender].messages + [entry], Some(now)))
        && r == Some(rows[sender])
    {
      if !reachable {
        return None;
      }
      var entry := Entry(role, content, now, modelUsed, success, errorMessage);
      if sender !in rows {
        rows := rows[sender := Row(sender, [entry], None)];
      } else {
        var messages := rows[sender].messages + [entry];
        rows := rows[sender := Row(sender, messages, Some(now))];
      }
      r := Some(rows[sender]);
    }

    /** `get_message_history`: the whole count and the page
        `messages[offset:offset + limit]`. */
    method GetMessageHistory(sender: string, limit: int, offset: int, reachable: bool) returns (page: Page)
      ensures !reachable || sender !in rows ==> page == EmptyPage
      ensures reachable && sender in rows ==>
        && page.total == |rows[sender].messages|
        && page.messages == PyStr.PySlice(rows[sender].messages, offset, offset + limit)
    {
      if !reachable || sender !in rows {
        return EmptyPage;
      }
      var messages := rows[sender].messages;
      page := Page(PyStr.PySlice(messages, offset, offset + limit), |messages|);
    }
  }

  /** A page with non-negative bounds is the contiguous run of the log that
      starts at `offset`, at most `limit` long. */
  lemma {:induction false} PageIsWindow(log: seq<Entry>, offset: nat, limit: nat)
    ensures var page := PyStr.PySlice(log, offset, offset + limit);
      && |page| <= limit
      && (offset >= |log| ==> page == [])
      && (offset < |log| ==> page == log[offset..if offset + limit <= |log| then offset + limit else |log|])
  {
  }

  /** Paging covers the log: the page at `offset` followed by the page at
      `offset + limit` is the page of twice the size. */
  lemma {:induction false} ConsecutivePages(log: seq<Entry>, offset: nat, limit: nat)
    ensures PyStr.PySlice(log, offset, offset + limit) + PyStr.PySlice(log, offset + limit, offset + 2 * limit)
         == PyStr.PySlice(log, offset, offset + 2 * limit)
  {
    var n := |log|;
    var a := if offset <= n then offset else n;
    var b := if offset + limit <= n then offset + limit else n;
    var c := if offset + 2 * limit <= n then offset + 2 * limit else n;
    assert PyStr.PySlice(log, offset, offset + limit) == log[a..b];
    assert PyStr.PySlice(log, offset + limit, offset + 2 * limit) == log[b..c];
    assert PyStr.PySlice(log, offset, offset + 2 * limit) == log[a..c];
  }

  /** A saved message is read back last, and the total grows by one. */
  lemma {:induction false} SavedMessageIsLast(before: seq<Entry>, entry: Entry)
    ensures var log := before + [entry];
      && |log| == |before| + 1
      && PyStr.PySlice(log, |before|, |before| + 1) == [entry]
      && PyStr.PySlice(log, 0, |before|) == before
  {
    var log := before + [entry];
    assert log[|before|..|before| + 1] == [entry];
    assert log[0..|before|] == before;
  }
}
