/** The `response_cache` table behind `CacheManager`: one row per prompt,
    with an expiry time, a hit counter and the time of the last read. Rows
    are keyed by the SHA-256 hash of the prompt; the hash is injective here,
    so the table is keyed by the prompt itself. Times are integer seconds. */
module CacheManager {
  import opened Wrappers
  import Py

  /** A row of `response_cache`. `text` and `success` are what the stored
      response JSON holds under those keys. */
  datatype Row = Row(
    text: Py.Json,
    success: Py.Json,
    model: string,
    expiresAt: int,
    lastAccessed: int,
    hitCount: int,
    createdAt: int)

  /** The record a cache hit returns. */
  datatype Hit = Hit(
    text: Py.Json,
    model: string,
    success: bool,
    fromCache: bool,
    hitCount: int,
    createdAt: int,
    lastAccessed: int)

  type Table = map<string, Row>

  /** A row is readable while its expiry lies strictly in the future. */
  predicate Live(row: Row, now: int) {
    row.expiresAt > now
  }

  /** What `get_cached_response` returns for a table. */
  function Lookup(table: Table, prompt: string, now: int): (r: Option<Hit>)
    ensures r.Some? <==> prompt in table && Live(table[prompt], now)
    ensures r.Some? ==> && r.value.hitCount == table[prompt].hitCount + 1
                        && r.value.lastAccessed == now
                        && r.value.text == table[prompt].text && r.value.model == table[prompt].model
                        && r.value.success && r.value.fromCache
  {
    if prompt in table && Live(table[prompt], now) then
      var row := table[prompt];
      Some(Hit(row.text, row.model, true, true, row.hitCount + 1, row.createdAt, now))
    else None
  }

  /** The table after a lookup: a hit counts one more read and stamps the time. */
  function Touched(table: Table, prompt: string, now: int): (t: Table)
    ensures t.Keys == table.Keys
    ensures forall k :: k in table && k != prompt ==> t[k] == table[k]
    ensures prompt in table ==> t[prompt].expiresAt == table[prompt].expiresAt
    ensures prompt in table && Live(table[prompt], now) ==>
      t[prompt] == table[prompt].(hitCount := table[prompt].hitCount + 1, lastAccessed := now)
    ensures !(prompt in table && Live(table[prompt], now)) ==> t == table
  {
    if prompt in table && Live(table[prompt], now) then
      table[prompt := table[prompt].(hitCount := table[prompt].hitCount + 1, lastAccessed := now)]
    else table
  }

  /** The row `cache_response` upserts. The creation time is the database's
      default, set when the row is first inserted and kept by later upserts. */
  function Stored(table: Table, prompt: string, response: seq<(string, Py.Json)>, model: string,
                  ttlHours: int, now: int): (t: Table)
    ensures t.Keys == table.Keys + {prompt}
    ensures forall k :: k in table && k != prompt ==> t[k] == table[k]
    ensures t[prompt].hitCount == 1 && t[prompt].expiresAt == now + ttlHours * 3600
    ensures t[prompt].model == model && t[prompt].lastAccessed == now
  {
    var created := if prompt in table then table[prompt].createdAt else now;
    table[prompt := Row(Py.Get(response, "text", Py.JStr("")), Py.Get(response, "success", Py.JBool(true)),
                        model, now + ttlHours * 3600, now, 1, created)]
  }

  /** The rows the sweep removes: those whose expiry is already past. */
  function Expired(table: Table, now: int): set<string> {
    set k | k in table && table[k].expiresAt < now
  }

  /** The table after the sweep. */
  function Swept(table: Table, now: int): (t: Table)
    ensures t.Keys == table.Keys - Expired(table, now)
    ensures forall k :: k in t ==> t[k] == table[k] && t[k].expiresAt >= now
  {
    map k | k in table && table[k].expiresAt >= now :: table[k]
  }

  /** `CacheManager` over its table. `reachable` stands for the database
      answering; when it does not, every operation reports its failure
      value and the table is unchanged. */
  class ResponseCache {
    var table: Table

    constructor ()
      ensures table == map[]
    {
      table := map[];
    }

    /** `get_cached_response`. */
    method GetCachedResponse(prompt: string, now: int, reachable: bool) returns (r: Option<Hit>)
      modifies this
      ensures !reachable ==> r.None? && table == old(table)
      ensures reachable ==> r == Lookup(old(table), prompt, now) && table == Touched(old(table), prompt, now)
    {
      if !reachable {
        return None;
      }
      r := None;
      if prompt in table {
        var row := table[prompt];
        if row.expiresAt > now {
          table := table[prompt := row.(hitCount := row.hitCount + 1, lastAccessed := now)];
          r := Some(Hit(row.text, row.model, true, true, row.hitCount + 1, row.createdAt, now));
        }
      }
    }

    /** `cache_response`. */
    method CacheResponse(prompt: string, response: seq<(string, Py.Json)>, model: string,
                         ttlHours: int, now: int, reachable: bool) returns (ok: bool)
      modifies this
      ensures ok == reachable
      ensures table == if reachable then Stored(old(table), prompt, response, model, ttlHours, now) else old(table)
    {
      if !reachable {
        return false;
      }
      table := Stored(table, prompt, response, model, ttlHours, now);
      ok := true;
    }

    /** `cleanup_expired_cache`: the number of rows removed. */
    method CleanupExpiredCache(now: int, reachable: bool) returns (count: nat)
      modifies this
      ensures !reachable ==> count == 0 && table == old(table)
      ensures reachable ==> count == |Expired(old(table), now)| && table == Swept(old(table), now)
    {
      if !reachable {
        return 0;
      }
      count := |Expired(table, now)|;
      table := Swept(table, now);
    }
  }

  /** Storing a response and reading it back before the time to live runs
      out gives the stored text and model, counted as the second access. */
  lemma {:induction false} StoreThenLookup(table: Table, prompt: string, response: seq<(string, Py.Json)>,
                                           model: string, ttlHours: int, stored: int, now: int)
    requires stored <= now < stored + ttlHours * 3600
    ensures var hit := Lookup(Stored(table, prompt, response, model, ttlHours, stored), prompt, now);
      && hit.Some? && hit.value.model == model
      && hit.value.text == Py.Get(response, "text", Py.JStr(""))
      && hit.value.hitCount == 2 && hit.value.fromCache && hit.value.success
  {
    var t := Stored(table, prompt, response, model, ttlHours, stored);
    assert Live(t[prompt], now);
  }

  /** Prompts are matched exactly: storing one prompt leaves every other
      prompt's lookup as it was, even one that differs only in case. */
  lemma {:induction false} StoreLeavesOtherPrompts(table: Table, prompt: string, other: string,
                                                   response: seq<(string, Py.Json)>, model: string,
                                                   ttlHours: int, stored: int, now: int)
    requires other != prompt
    ensures Lookup(Stored(table, prompt, response, model, ttlHours, stored), other, now) == Lookup(table, other, now)
  {
    var t := Stored(table, prompt, response, model, ttlHours, stored);
    assert other in t <==> other in table;
    if other in table {
      assert t[other] == table[other];
    }
  }

  /** A row whose expiry has come is never returned, and the lookup leaves
      the table as it was. */
  lemma ExpiredRowIsNotRead(table: Table, prompt: string, now: int)
    requires prompt in table && table[prompt].expiresAt <= now
    ensures Lookup(table, prompt, now).None?
    ensures Touched(table, prompt, now) == table
  {
  }

  /** A hit reports the counter the table now holds, and a second read
      right after it counts one more. */
  lemma {:induction false} HitReportsStoredCount(table: Table, prompt: string, now: int, later: int)
    requires Lookup(table, prompt, now).Some? && now <= later
    requires later < table[prompt].expiresAt
    ensures Lookup(table, prompt, now).value.hitCount == Touched(table, prompt, now)[prompt].hitCount
    ensures var again := Lookup(Touched(table, prompt, now), prompt, later);
      again.Some? && again.value.hitCount == table[prompt].hitCount + 2 && again.value.lastAccessed == later
  {
    var t := Touched(table, prompt, now);
    assert Live(t[prompt], later);
  }

  /** A row expiring exactly now survives the sweep, although it can no
      longer be read. */
  lemma {:induction false} BoundaryRowSurvivesSweep(table: Table, prompt: string, now: int)
    requires prompt in table && table[prompt].expiresAt == now
    ensures prompt in Swept(table, now) && Lookup(Swept(table, now), prompt, now).None?
  {
    assert prompt !in Expired(table, now);
  }

  /** The sweep changes no lookup: it removes only rows that could no
      longer be read. */
  lemma {:induction false} SweepKeepsLiveRows(table: Table, prompt: string, now: int)
    ensures Lookup(Swept(table, now), prompt, now) == Lookup(table, prompt, now)
  {
    if prompt in table && Live(table[prompt], now) {
      assert prompt in Swept(table, now);
    }
  }
}
