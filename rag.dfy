/** Retrieval helpers: cosine similarity with its guard cases, ranking of
    candidate documents by similarity, the rows written when documents are
    indexed, and the context string assembled from retrieved chunks under a
    character budget. Embeddings and the square root are parameters. */
module Rag {
  import opened Wrappers
  import Py
  import PyStr
  import Sort = Ranking

  /** `math.sqrt`. */
  type Root = real -> real

  function Dot(a: seq<real>, b: seq<real>): real
    requires |a| == |b|
    decreases |a|
  {
    if |a| == 0 then 0.0 else a[0] * b[0] + Dot(a[1..], b[1..])
  }

  /** `sum(x * x for x in v)`. */
  function SumSquares(v: seq<real>): (r: real)
    ensures r >= 0.0
    decreases |v|
  {
    if |v| == 0 then 0.0 else v[0] * v[0] + SumSquares(v[1..])
  }

  /** The zero vector has a zero sum of squares. */
  lemma {:induction false} SumSquaresOfZero(v: seq<real>)
    requires forall i :: 0 <= i < |v| ==> v[i] == 0.0
    ensures SumSquares(v) == 0.0
    decreases |v|
  {
    if |v| > 0 {
      var rest := v[1..];
      assert forall i :: 0 <= i < |rest| ==> rest[i] == v[i + 1];
      SumSquaresOfZero(rest);
      assert v[0] * v[0] == 0.0;
    }
  }

  /** `_cosine_similarity`. */
  function Cosine(a: seq<real>, b: seq<real>, root: Root): (r: real)
    ensures |a| == 0 || |b| == 0 || |a| != |b| ==> r == 0.0
    ensures |a| == |b| && (root(SumSquares(a)) == 0.0 || root(SumSquares(b)) == 0.0) ==> r == 0.0
    ensures |a| == |b| > 0 && root(SumSquares(a)) != 0.0 && root(SumSquares(b)) != 0.0 ==>
      r * (root(SumSquares(a)) * root(SumSquares(b))) == Dot(a, b)
  {
    if |a| == 0 || |b| == 0 then 0.0
    else if |a| != |b| then 0.0
    else
      var normA := root(SumSquares(a));
      var normB := root(SumSquares(b));
      if normA == 0.0 || normB == 0.0 then 0.0
      else Dot(a, b) / (normA * normB)
  }

  /** With a square root that maps 0 to 0, a zero vector scores 0 against
      anything. */
  lemma {:induction false} ZeroVectorScoresZero(a: seq<real>, b: seq<real>, root: Root)
    requires root(0.0) == 0.0
    requires forall i :: 0 <= i < |a| ==> a[i] == 0.0
    ensures Cosine(a, b, root) == 0.0
  {
    SumSquaresOfZero(a);
  }

  /** A candidate row: its columns and its embedding (`doc.get("embedding")
      or []`). */
  datatype Candidate = Candidate(fields: seq<(string, Py.Json)>, embedding: seq<real>)

  /** A candidate with its score and its position in the candidate list. */
  datatype Scored = Scored(score: real, pos: nat, fields: seq<(string, Py.Json)>)

  /** A search result. */
  datatype Hit = Hit(id: Py.Json, content: Py.Json, metadata: Py.Json, score: real, namespace: Py.Json)

  /** The order of the stable descending sort: higher score first, and
      among equal scores the earlier candidate first. */
  predicate Before(a: Scored, b: Scored) {
    a.score > b.score || (a.score == b.score && a.pos < b.pos)
  }

  predicate Ranked(s: seq<Scored>) {
    forall i, j :: 0 <= i < j < |s| ==> Before(s[i], s[j])
  }

  /** The scored list of `candidates`, each at its own position. */
  predicate Numbered(s: seq<Scored>) {
    forall k :: 0 <= k < |s| ==> s[k].pos == k
  }

  /** The scores alone, the keys of the sort. */
  function Scores(s: seq<Scored>): (keys: seq<real>)
    ensures |keys| == |s| && forall k :: 0 <= k < |s| ==> keys[k] == s[k].score
  {
    seq(|s|, k requires 0 <= k < |s| => s[k].score)
  }

  /** `scored.sort(key=score, reverse=True)`: the elements in the order of
      Python's stable descending sort of their scores. */
  function SortByScore(s: seq<Scored>): (r: seq<Scored>)
    ensures |r| == |s|
    ensures forall a :: 0 <= a < |r| ==> r[a] in s
    ensures forall k :: 0 <= k < |s| ==> s[k] in r
    ensures Numbered(s) ==> Ranked(r)
  {
    var keys := Scores(s);
    var order := Sort.Rank(keys);
    var r := seq(|order|, a requires 0 <= a < |order| => s[order[a]]);
    assert forall k :: 0 <= k < |s| ==> s[k] in r by {
      forall k | 0 <= k < |s| ensures s[k] in r {
        assert k in order;
        var a :| 0 <= a < |order| && order[a] == k;
        assert r[a] == s[k];
      }
    }
    assert Numbered(s) ==> Ranked(r) by {
      if Numbered(s) {
        forall a, b | 0 <= a < b < |r| ensures Before(r[a], r[b]) {
          assert Sort.Precedes(keys, order[a], order[b]);
        }
      }
    }
    r
  }

  /** The score of every candidate, in candidate order. */
  function ScoreAll(query: seq<real>, candidates: seq<Candidate>, root: Root): (s: seq<Scored>)
    ensures |s| == |candidates| && Numbered(s)
  {
    seq(|candidates|, k requires 0 <= k < |candidates| =>
      Scored(Cosine(query, candidates[k].embedding, root), k, candidates[k].fields))
  }

  /** The result record of one ranked candidate. */
  function HitOf(c: Scored): (h: Hit)
    ensures h.score == c.score
    ensures h.content == Py.Get(c.fields, "content", Py.JStr(""))
  {
    Hit(Py.Get(c.fields, "id", Py.JNull), Py.Get(c.fields, "content", Py.JStr("")),
        Py.Get(c.fields, "metadata", Py.JDict([])), c.score, Py.Get(c.fields, "namespace", Py.JNull))
  }

  /** The ranking of `search_similar`: the candidates in stable descending
      score order. */
  function Ranking(query: seq<real>, candidates: seq<Candidate>, root: Root): (r: seq<Scored>)
    ensures Ranked(r)
    ensures |r| == |candidates|
    ensures forall k :: 0 <= k < |candidates| ==> ScoreAll(query, candidates, root)[k] in r
    ensures forall a :: 0 <= a < |r| ==> r[a] in ScoreAll(query, candidates, root)
  {
    SortByScore(ScoreAll(query, candidates, root))
  }

  /** `search_similar` once the query is embedded and the candidates are
      fetched: the best `max(0, top_k)` candidates, best first. */
  method SearchSimilar(query: seq<real>, candidates: seq<Candidate>, topK: int, root: Root)
    returns (hits: seq<Hit>)
    ensures |hits| == if topK <= 0 then 0 else if topK < |candidates| then topK else |candidates|
    ensures forall i, j :: 0 <= i < j < |hits| ==> hits[i].score >= hits[j].score
    ensures forall i :: 0 <= i < |hits| ==> hits[i] == HitOf(Ranking(query, candidates, root)[i])
  {
    var scored := ScoreCandidates(query, candidates, root);
    var ranked := SortByScore(scored);
    assert ranked == Ranking(query, candidates, root);
    var top := PyStr.PySlice(ranked, 0, if topK < 0 then 0 else topK);
    hits := seq(|top|, k requires 0 <= k < |top| => HitOf(top[k]));
  }

  /** The scoring loop of `search_similar`: each candidate's cosine
      similarity to the query, with its position and fields. */
  method ScoreCandidates(query: seq<real>, candidates: seq<Candidate>, root: Root) returns (scored: seq<Scored>)
    ensures scored == ScoreAll(query, candidates, root)
  {
    scored := [];
    var i := 0;
    while i < |candidates|
      invariant 0 <= i <= |candidates|
      invariant |scored| == i
      invariant forall k :: 0 <= k < i ==> scored[k] == Scored(Cosine(query, candidates[k].embedding, root), k, candidates[k].fields)
    {
      var embedding := candidates[i].embedding;
      var score := Cosine(query, embedding, root);
      scored := scored + [Scored(score, i, candidates[i].fields)];
      i := i + 1;
    }
  }

  /** No candidate left out of the top `n` scores more than one returned:
      everything returned scores at least as much as everything dropped,
      and the returned scores keep candidate order among equals. */
  lemma {:induction false} TopBeatsTheRest(query: seq<real>, candidates: seq<Candidate>, root: Root, n: nat)
    requires n <= |candidates|
    ensures var r := Ranking(query, candidates, root);
      forall i, j :: 0 <= i < n <= j < |r| ==> r[i].score >= r[j].score
    ensures var r := Ranking(query, candidates, root);
      forall i, j :: 0 <= i < j < |r| && r[i].score == r[j].score ==> r[i].pos < r[j].pos
  {
    var r := Ranking(query, candidates, root);
    assert Ranked(r);
  }

  /** A document to index: its columns. */
  datatype IndexRow = IndexRow(id: Py.Json, content: Py.Json, metadata: Py.Json, embedding: seq<real>,
                               namespace: Py.Json, createdAt: int)

  /** The embedding service, one text at a time. */
  type Embed = Py.Json -> seq<real>

  /** The namespace column: a non-empty namespace argument wins over the
      document's own. */
  function NamespaceOf(namespace: Option<string>, doc: seq<(string, Py.Json)>): (r: Py.Json)
    ensures namespace.Some? && namespace.value != "" ==> r == Py.JStr(namespace.value)
    ensures namespace.None? || namespace.value == "" ==> r == Py.Get(doc, "namespace", Py.JNull)
  {
    if namespace.Some? && namespace.value != "" then Py.JStr(namespace.value) else Py.Get(doc, "namespace", Py.JNull)
  }

  /** `index_documents`: one row per document and the count inserted; a
      database failure is re-raised. */
  method IndexDocuments(documents: seq<seq<(string, Py.Json)>>, namespace: Option<string>, embed: Embed,
                        now: int, reachable: bool)
    returns (r: Result<(nat, seq<IndexRow>), Py.PyError>)
    ensures r.Success? <==> reachable
    ensures r.Success? ==> var (inserted, rows) := r.value;
      && inserted == |documents| == |rows|
      && forall i :: 0 <= i < |rows| ==>
           var content := Py.Get(documents[i], "content", Py.JStr(""));
           rows[i] == IndexRow(Py.Get(documents[i], "id", Py.JNull), content,
                               Py.Get(documents[i], "metadata", Py.JDict([])), embed(content),
                               NamespaceOf(namespace, documents[i]), now)
  {
    var rows: seq<IndexRow> := [];
    var i := 0;
    while i < |documents|
      invariant 0 <= i <= |documents|
      invariant |rows| == i
      invariant forall k :: 0 <= k < i ==>
        var content := Py.Get(documents[k], "content", Py.JStr(""));
        rows[k] == IndexRow(Py.Get(documents[k], "id", Py.JNull), content,
                            Py.Get(documents[k], "metadata", Py.JDict([])), embed(content),
                            NamespaceOf(namespace, documents[k]), now)
    {
      var doc := documents[i];
      var content := Py.Get(doc, "content", Py.JStr(""));
      rows := rows + [IndexRow(Py.Get(doc, "id", Py.JNull), content, Py.Get(doc, "metadata", Py.JDict([])),
                               embed(content), NamespaceOf(namespace, doc), now)];
      i := i + 1;
    }
    if !reachable {
      return Failure(Py.ValueError("rag_documents upsert failed"));
    }
    r := Success((|rows|, rows));
  }

  const ContextHeader: string :=
    "Você recebeu trechos de contexto relevantes abaixo. Use-os para responder com precisão."

  /** A retrieved chunk: the title and source of its metadata, when present
      and non-empty, and its content. */
  datatype Chunk = Chunk(title: Option<string>, source: Option<string>, content: string)

  /** The heading of the chunk at 1-based position `idx`. */
  function Title(chunk: Chunk, idx: nat): (t: string)
    ensures chunk.title.Some? && chunk.title.value != "" ==> t == chunk.title.value
    ensures (chunk.title.None? || chunk.title.value == "") && chunk.source.Some? && chunk.source.value != "" ==>
      t == chunk.source.value
    ensures (chunk.title.None? || chunk.title.value == "") && (chunk.source.None? || chunk.source.value == "") ==>
      t == "Doc " + PyStr.NatToString(idx)
  {
    if chunk.title.Some? && chunk.title.value != "" then chunk.title.value
    else if chunk.source.Some? && chunk.source.value != "" then chunk.source.value
    else "Doc " + PyStr.NatToString(idx)
  }

  /** The entry of the chunk at 1-based position `idx`. */
  function ChunkEntry(chunk: Chunk, idx: nat): string {
    "[" + Title(chunk, idx) + "]\n" + PyStr.Strip(chunk.content)
  }

  /** The entries of all chunks, numbered from 1. */
  function Entries(chunks: seq<Chunk>): (es: seq<string>)
    ensures |es| == |chunks|
    ensures forall i :: 0 <= i < |chunks| ==> es[i] == ChunkEntry(chunks[i], i + 1)
  {
    seq(|chunks|, i requires 0 <= i < |chunks| => ChunkEntry(chunks[i], i + 1))
  }

  /** How many entries the budget admits, looking from entry `i` on: the
      first count at which the joined entries reach `maxChars`, or all. */
  function Admitted(entries: seq<string>, maxChars: int, i: nat): (k: nat)
    requires i <= |entries|
    ensures i <= k <= |entries|
    ensures k < |entries| ==> k > 0 && |PyStr.Join("\n\n", entries[..k])| >= maxChars
    ensures forall j :: i < j < k ==> |PyStr.Join("\n\n", entries[..j])| < maxChars
    decreases |entries| - i
  {
    if i == |entries| then i
    else if |PyStr.Join("\n\n", entries[..i + 1])| >= maxChars then i + 1
    else Admitted(entries, maxChars, i + 1)
  }

  /** `format_chunks_as_context`. */
  method FormatChunksAsContext(chunks: seq<Chunk>, maxChars: int) returns (context: string)
    ensures var k := Admitted(Entries(chunks), maxChars, 0);
      context == ContextHeader + "\n\n" + PyStr.Join("\n\n", Entries(chunks)[..k])
  {
    ghost var entries := Entries(chunks);
    var parts: seq<string> := [];
    var idx := 0;
    while idx < |chunks|
      invariant 0 <= idx <= |chunks|
      invariant parts == entries[..idx]
      invariant Admitted(entries, maxChars, 0) == Admitted(entries, maxChars, idx)
    {
      var entry := "[" + Title(chunks[idx], idx + 1) + "]\n" + PyStr.Strip(chunks[idx].content);
      parts := parts + [entry];
      assert parts == entries[..idx + 1];
      var joined := PyStr.Join("\n\n", parts);
      if |joined| >= maxChars {
        idx := idx + 1;
        break;
      }
      idx := idx + 1;
    }
    context := ContextHeader + "\n\n" + PyStr.Join("\n\n", parts);
  }

  /** The context always opens with the header and a blank line. */
  lemma {:induction false} ContextStartsWithHeader(chunks: seq<Chunk>, maxChars: int)
    ensures var k := Admitted(Entries(chunks), maxChars, 0);
      PyStr.StartsWith(ContextHeader + "\n\n" + PyStr.Join("\n\n", Entries(chunks)[..k]), ContextHeader + "\n\n")
  {
    var k := Admitted(Entries(chunks), maxChars, 0);
    var s := ContextHeader + "\n\n" + PyStr.Join("\n\n", Entries(chunks)[..k]);
    assert s[..|ContextHeader + "\n\n"|] == ContextHeader + "\n\n";
  }
}
