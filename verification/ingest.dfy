/** The ingestion script: gather articles from the feeds, cut each into
    chunks, build the list of texts to embed and the parallel list of point
    ids and metadata, and upsert the embedded chunks batch by batch. Fetching
    and parsing the feeds and pages, the embedding service and the vector
    index are outside the model: the feeds are given as the articles their
    entries yield, the embedder as a function from a batch of texts to
    vectors, and the random point ids as the `k`-th id drawn. */
module Ingest {
  import opened JsValues
  import opened Outcomes
  import opened Chunking

  /** At most this many entries are taken from each feed. */
  const FeedEntryCap: nat := 30

  /** At most this many articles are ingested in all. */
  const ArticleCap: nat := 50

  /** The `max_chars` the script chunks articles with. */
  const ChunkChars: nat := 1500

  /** The number of texts embedded and upserted together. */
  const BatchSize: nat := 16

  /** An article as a feed entry yields it; the link may be missing. */
  datatype Article = Article(id: string, title: string, link: Option<string>, content: string)

  /** The payload stored with a chunk. */
  datatype ChunkMeta = ChunkMeta(articleId: string, title: string, link: Option<string>, chunkIndex: nat)

  /** An element of `meta_list`: the point id drawn for a chunk, and its payload. */
  datatype Entry = Entry(pid: string, meta: ChunkMeta)

  /** A point sent to the vector index. */
  datatype Point = Point(id: string, vector: Vector, payload: ChunkMeta)

  /** `s[:n]`. */
  function Take<T>(s: seq<T>, n: nat): (r: seq<T>)
    ensures |r| <= n && |r| <= |s| && r == s[..|r|]
    ensures |s| >= n ==> |r| == n
    ensures |s| <= n ==> r == s
  {
    if |s| <= n then s else s[..n]
  }

  /** The articles each feed contributes: the first 30 of its entries. */
  function FeedShares(feeds: seq<seq<Article>>): (r: seq<seq<Article>>)
    ensures |r| == |feeds|
    ensures forall f :: 0 <= f < |feeds| ==> r[f] == Take(feeds[f], FeedEntryCap)
  {
    seq(|feeds|, f requires 0 <= f < |feeds| => Take(feeds[f], FeedEntryCap))
  }

  /** Feeds contribute at most 30 articles each. */
  lemma {:induction false} FeedSharesBound(feeds: seq<seq<Article>>)
    ensures |Flatten(FeedShares(feeds))| <= FeedEntryCap * |feeds|
    decreases |feeds|
  {
    if |feeds| > 0 {
      FeedSharesBound(feeds[1..]);
      assert FeedShares(feeds)[1..] == FeedShares(feeds[1..]);
    }
  }

  /** The article list of `main`: every feed's share, feed after feed, then the
      first 50 of them. */
  method GatherArticles(feeds: seq<seq<Article>>) returns (articles: seq<Article>)
    ensures articles == Take(Flatten(FeedShares(feeds)), ArticleCap)
    ensures |articles| <= ArticleCap && |articles| <= FeedEntryCap * |feeds|
  {
    var all: seq<Article> := [];
    for f := 0 to |feeds|
      invariant all == Flatten(FeedShares(feeds[..f]))
    {
      assert FeedShares(feeds[..f + 1]) == FeedShares(feeds[..f]) + [Take(feeds[f], FeedEntryCap)];
      FlattenSnoc(FeedShares(feeds[..f]), Take(feeds[f], FeedEntryCap));
      all := all + Take(feeds[f], FeedEntryCap);
    }
    assert feeds[..|feeds|] == feeds;
    FeedSharesBound(feeds);
    articles := Take(all, ArticleCap);
  }

  /** `art["content"] or art["title"]`: the text an article is chunked from. */
  function SourceText(a: Article): (r: string)
    ensures a.content != "" ==> r == a.content
    ensures a.content == "" ==> r == a.title
  {
    if a.content != "" then a.content else a.title
  }

  /** The chunks of one article. */
  function ArticleChunks(a: Article): seq<string>
  {
    Split(SourceText(a), ChunkChars)
  }

  /** The payloads of one article's chunks: its id, title and link, and the
      chunk's position within the article. */
  function ArticleMetas(a: Article): (r: seq<ChunkMeta>)
    ensures |r| == |ArticleChunks(a)|
    ensures forall idx :: 0 <= idx < |r| ==> r[idx] == ChunkMeta(a.id, a.title, a.link, idx)
  {
    seq(|ArticleChunks(a)|, idx requires 0 <= idx => ChunkMeta(a.id, a.title, a.link, idx))
  }

  /** The chunks of each article, article by article. */
  function ChunkLists(arts: seq<Article>): (r: seq<seq<string>>)
    ensures |r| == |arts|
    ensures forall i :: 0 <= i < |arts| ==> r[i] == ArticleChunks(arts[i])
  {
    seq(|arts|, i requires 0 <= i < |arts| => ArticleChunks(arts[i]))
  }

  /** The payloads of each article's chunks, article by article. */
  function MetaLists(arts: seq<Article>): (r: seq<seq<ChunkMeta>>)
    ensures |r| == |arts|
    ensures forall i :: 0 <= i < |arts| ==> r[i] == ArticleMetas(arts[i])
  {
    seq(|arts|, i requires 0 <= i < |arts| => ArticleMetas(arts[i]))
  }

  /** `texts_to_embed` once every article is chunked: the articles' chunks, in order. */
  function ChunkTexts(arts: seq<Article>): seq<string>
  {
    Flatten(ChunkLists(arts))
  }

  /** The payloads of `meta_list`, which grows in step with `texts_to_embed`. */
  function ChunkMetas(arts: seq<Article>): (r: seq<ChunkMeta>)
    ensures |r| == |ChunkTexts(arts)|
  {
    FlattenSameShape(MetaLists(arts), ChunkLists(arts));
    Flatten(MetaLists(arts))
  }

  /** The two lists describe the same chunks position by position: chunk `idx`
      of article `j` stands at the same index in both, with that article's id,
      title and link and the chunk index `idx`. */
  lemma LockstepAt(arts: seq<Article>, j: nat, idx: nat)
    requires j < |arts| && idx < |ArticleChunks(arts[j])|
    ensures |ChunkTexts(arts[..j])| + idx < |ChunkTexts(arts)|
    ensures ChunkTexts(arts)[|ChunkTexts(arts[..j])| + idx] == ArticleChunks(arts[j])[idx]
    ensures ChunkMetas(arts)[|ChunkTexts(arts[..j])| + idx] == ChunkMeta(arts[j].id, arts[j].title, arts[j].link, idx)
  {
    var cl, ml := ChunkLists(arts), MetaLists(arts);
    assert cl[..j] == ChunkLists(arts[..j]);
    assert ml[..j] == MetaLists(arts[..j]);
    assert |Flatten(ml[..j])| == |Flatten(cl[..j])| by {
      assert |ChunkMetas(arts[..j])| == |ChunkTexts(arts[..j])|;
    }
    FlattenAt(cl, j, idx);
    FlattenAt(ml, j, idx);
  }

  /** Each article's chunks put back together give the text it was chunked
      from: its content, or its title when the content is empty. An article
      with neither yields no chunk. */
  lemma ArticleChunksRoundTrip(a: Article)
    ensures Flatten(ArticleChunks(a)) == SourceText(a)
    ensures a.content != "" ==> Flatten(ArticleChunks(a)) == a.content
    ensures a.content == "" ==> Flatten(ArticleChunks(a)) == a.title
    ensures ArticleChunks(a) == [] <==> a.content == "" && a.title == ""
    ensures forall i :: 0 <= i < |ArticleChunks(a)| ==> 0 < |ArticleChunks(a)[i]| <= ChunkChars
  {
    SplitFlatten(SourceText(a), ChunkChars);
    SplitPieces(SourceText(a), ChunkChars);
  }

  /** The payloads of a list of entries, in order. */
  function MetasOf(entries: seq<Entry>): (r: seq<ChunkMeta>)
    ensures |r| == |entries|
    ensures forall k :: 0 <= k < |entries| ==> r[k] == entries[k].meta
  {
    seq(|entries|, k requires 0 <= k < |entries| => entries[k].meta)
  }

  /** One more article adds its chunks and their payloads at the end of both lists. */
  lemma ListsStep(arts: seq<Article>, a: nat)
    requires a < |arts|
    ensures ChunkTexts(arts[..a + 1]) == ChunkTexts(arts[..a]) + ArticleChunks(arts[a])
    ensures ChunkMetas(arts[..a + 1]) == ChunkMetas(arts[..a]) + ArticleMetas(arts[a])
  {
    assert ChunkLists(arts[..a + 1]) == ChunkLists(arts[..a]) + [ArticleChunks(arts[a])];
    assert MetaLists(arts[..a + 1]) == MetaLists(arts[..a]) + [ArticleMetas(arts[a])];
    FlattenSnoc(ChunkLists(arts[..a]), ArticleChunks(arts[a]));
    FlattenSnoc(MetaLists(arts[..a]), ArticleMetas(arts[a]));
  }

  /** The outer loop of `main` that fills `texts_to_embed` and `meta_list`:
      every gathered article in turn has its chunks appended. `pidOf(k)` is
      the id drawn for the `k`-th chunk. */
  method BuildEmbeddingInputs(articles: seq<Article>, pidOf: nat -> string)
    returns (texts: seq<string>, metaList: seq<Entry>)
    ensures texts == ChunkTexts(articles)
    ensures |metaList| == |texts|
    ensures forall k :: 0 <= k < |metaList| ==> metaList[k] == Entry(pidOf(k), ChunkMetas(articles)[k])
  {
    texts, metaList := [], [];
    for a := 0 to |articles|
      invariant texts == ChunkTexts(articles[..a])
      invariant MetasOf(metaList) == ChunkMetas(articles[..a])
      invariant forall k :: 0 <= k < |metaList| ==> metaList[k].pid == pidOf(k)
    {
      texts, metaList := AppendArticleChunks(texts, metaList, articles[a], pidOf);
      ListsStep(articles, a);
    }
    assert articles[..|articles|] == articles;
  }

  /** The inner loop: chunk one article and, for each chunk in order, draw a
      point id and append the chunk to the texts and its (id, payload) pair to
      the entries. */
  method AppendArticleChunks(texts: seq<string>, metaList: seq<Entry>, art: Article, pidOf: nat -> string)
    returns (texts': seq<string>, metaList': seq<Entry>)
    requires |metaList| == |texts|
    requires forall k :: 0 <= k < |metaList| ==> metaList[k].pid == pidOf(k)
    ensures texts' == texts + ArticleChunks(art)
    ensures MetasOf(metaList') == MetasOf(metaList) + ArticleMetas(art)
    ensures forall k :: 0 <= k < |metaList'| ==> metaList'[k].pid == pidOf(k)
  {
    var chunks := ChunkText(SourceText(art), ChunkChars);
    texts', metaList' := texts, metaList;
    for idx := 0 to |chunks|
      invariant texts' == texts + chunks[..idx]
      invariant MetasOf(metaList') == MetasOf(metaList) + ArticleMetas(art)[..idx]
      invariant forall k :: 0 <= k < |metaList'| ==> metaList'[k].pid == pidOf(k)
    {
      var pid := pidOf(|metaList'|);
      var metadata := ChunkMeta(art.id, art.title, art.link, idx);
      assert chunks[..idx + 1] == chunks[..idx] + [chunks[idx]];
      assert ArticleMetas(art)[..idx + 1] == ArticleMetas(art)[..idx] + [metadata];
      MetasOfSnoc(metaList', Entry(pid, metadata));
      texts' := texts' + [chunks[idx]];
      metaList' := metaList' + [Entry(pid, metadata)];
    }
    assert chunks[..|chunks|] == chunks;
    assert ArticleMetas(art)[..|chunks|] == ArticleMetas(art);
  }

  /** One more entry adds its payload at the end. */
  lemma MetasOfSnoc(entries: seq<Entry>, e: Entry)
    ensures MetasOf(entries + [e]) == MetasOf(entries) + [e.meta]
  {
  }

  /** The points built from one batch: embedding `j` is paired with entry `start + j`. */
  function BatchPoints(metaList: seq<Entry>, start: nat, embs: seq<Vector>): seq<Point>
    requires start + |embs| <= |metaList|
  {
    seq(|embs|, j requires 0 <= j < |embs| => Point(metaList[start + j].pid, embs[j], metaList[start + j].meta))
  }

  /** The inner loop of the batch loop: pair embedding `j` with entry
      `start + j`, in order. Indexing past the end of `meta_list` raises an
      index error (`ok` false), which ends the run. */
  method PairBatch(metaList: seq<Entry>, start: nat, embs: seq<Vector>) returns (points: seq<Point>, ok: bool)
    requires start <= |metaList|
    ensures ok <==> start + |embs| <= |metaList|
    ensures ok ==> points == BatchPoints(metaList, start, embs)
  {
    points := [];
    for j := 0 to |embs|
      invariant start + j <= |metaList|
      invariant points == BatchPoints(metaList, start, embs[..j])
    {
      if start + j >= |metaList| {
        // meta_list[i+j] raises IndexError
        return points, false;
      }
      var entry := metaList[start + j];
      points := points + [Point(entry.pid, embs[j], entry.meta)];
    }
    assert embs[..|embs|] == embs;
    ok := true;
  }

  /** `texts_to_embed[i:i+batch_size]` for the batch starting at `i = 16 * b`,
      clamped at the end of the list. */
  function BatchAt(texts: seq<string>, b: nat): (r: seq<string>)
    requires BatchSize * b < |texts|
    ensures 0 < |r| <= BatchSize
  {
    texts[BatchSize * b .. if BatchSize * b + BatchSize < |texts| then BatchSize * b + BatchSize else |texts|]
  }

  /** The batch loop of `main`: take the texts 16 at a time, embed each batch,
      pair embedding `j` of the batch starting at `i` with `meta_list[i + j]`,
      and upsert the batch's points. An embedder that returns more vectors than
      the batch has texts runs the pairing off the end of `meta_list`, which
      ends the script with an index error (`failed`). Answers the batches sent
      to the embedder and the point lists upserted, in order. */
  method UpsertBatches(texts: seq<string>, metaList: seq<Entry>, embed: seq<string> -> seq<Vector>)
    returns (batches: seq<seq<string>>, upserts: seq<seq<Point>>, failed: bool)
    requires |metaList| == |texts|
    // batch b is the slice of the texts starting at 16 * b, and batches come in order
    ensures |upserts| <= |batches|
    ensures forall b :: 0 <= b < |batches| ==> BatchSize * b < |texts| && batches[b] == BatchAt(texts, b)
    ensures !failed ==> |upserts| == |batches| == (|texts| + BatchSize - 1) / BatchSize
    ensures failed ==> |batches| == |upserts| + 1 &&
                       BatchSize * |upserts| + |embed(batches[|upserts|])| > |metaList|
    // within the batch starting at i, embedding j is paired with meta_list[i + j]
    ensures forall b :: 0 <= b < |upserts| ==>
              BatchSize * b + |embed(batches[b])| <= |metaList| &&
              upserts[b] == BatchPoints(metaList, BatchSize * b, embed(batches[b]))
    // one vector per text: no batch fails
    ensures (forall b :: 0 <= b < |batches| ==> |embed(batches[b])| == |batches[b]|) ==> !failed
  {
    batches, upserts, failed := [], [], false;
    var i := 0;
    while i < |texts|
      invariant |upserts| == |batches|
      invariant i == BatchSize * |batches|
      invariant |batches| > 0 ==> BatchSize * (|batches| - 1) < |texts|
      invariant forall b :: 0 <= b < |batches| ==> BatchSize * b < |texts| && batches[b] == BatchAt(texts, b)
      invariant forall b :: 0 <= b < |upserts| ==>
                  BatchSize * b + |embed(batches[b])| <= |metaList| &&
                  upserts[b] == BatchPoints(metaList, BatchSize * b, embed(batches[b]))
      decreases |texts| - i
    {
      // texts_to_embed[i:i+batch_size]
      var end := if i + BatchSize < |texts| then i + BatchSize else |texts|;
      var batch := texts[i..end];
      assert batch == BatchAt(texts, |batches|);
      var embs := embed(batch);
      batches := batches + [batch];
      var pointsBatch, ok := PairBatch(metaList, i, embs);
      if !ok {
        failed := true;
        return;
      }
      upserts := upserts + [pointsBatch];
      i := i + BatchSize;
    }
    DivUnique(|texts| + BatchSize - 1, BatchSize, |batches|);
  }

  /** The batches, in order, are exactly the pieces of the fixed-width splitter:
      consecutive slices of 16 texts that cover them all, only the last shorter. */
  lemma BatchesAreSplit(texts: seq<string>, batches: seq<seq<string>>)
    requires |batches| == (|texts| + BatchSize - 1) / BatchSize
    requires forall b :: 0 <= b < |batches| ==> BatchSize * b < |texts| && batches[b] == BatchAt(texts, b)
    ensures batches == Split(texts, BatchSize)
    ensures Flatten(batches) == texts
    ensures forall b :: 0 <= b < |batches| - 1 ==> |batches[b]| == BatchSize
  {
    SplitCount(texts, BatchSize);
    forall b | 0 <= b < |batches| ensures batches[b] == Split(texts, BatchSize)[b] {
      SplitAt(texts, BatchSize, b);
    }
    SplitFlatten(texts, BatchSize);
    SplitPieces(texts, BatchSize);
  }

  /** When every batch gets one vector per text, the upserted points, batch
      after batch, are the entries of `meta_list` in order, each with the
      vector computed for its own text. */
  lemma UpsertCoverage(texts: seq<string>, metaList: seq<Entry>, embed: seq<string> -> seq<Vector>, upserts: seq<seq<Point>>)
    requires |metaList| == |texts|
    requires |upserts| == |Split(texts, BatchSize)|
    requires forall b :: 0 <= b < |upserts| ==>
               |embed(Split(texts, BatchSize)[b])| == |Split(texts, BatchSize)[b]| &&
               BatchSize * b + |embed(Split(texts, BatchSize)[b])| <= |metaList| &&
               upserts[b] == BatchPoints(metaList, BatchSize * b, embed(Split(texts, BatchSize)[b]))
    ensures |Flatten(upserts)| == |texts|
    ensures forall k :: 0 <= k < |texts| ==>
              k / BatchSize < |Split(texts, BatchSize)| && k % BatchSize < |Split(texts, BatchSize)[k / BatchSize]| &&
              Split(texts, BatchSize)[k / BatchSize][k % BatchSize] == texts[k] &&
              Flatten(upserts)[k] == Point(metaList[k].pid, embed(Split(texts, BatchSize)[k / BatchSize])[k % BatchSize], metaList[k].meta)
  {
    var pieces := Split(texts, BatchSize);
    SplitPieces(texts, BatchSize);
    SplitFlatten(texts, BatchSize);
    assert forall b :: 0 <= b < |upserts| ==> |upserts[b]| == |pieces[b]|;
    FlattenSameShape(upserts, pieces);
    forall k | 0 <= k < |texts|
      ensures k / BatchSize < |pieces| && k % BatchSize < |pieces[k / BatchSize]|
      ensures pieces[k / BatchSize][k % BatchSize] == texts[k]
      ensures Flatten(upserts)[k] == Point(metaList[k].pid, embed(pieces[k / BatchSize])[k % BatchSize], metaList[k].meta)
    {
      FlattenUniform(pieces, BatchSize, k);
      FlattenUniform(upserts, BatchSize, k);
      var b, j := k / BatchSize, k % BatchSize;
      assert BatchSize * b + j == k;
    }
  }

  /** The whole of `main` past the feed fetching: gather the articles, build
      the two lists, and upsert them in batches. When the embedder returns one
      vector per text, every chunk of every gathered article is upserted exactly
      once, under the id drawn for it and with its own payload. */
  method RunIngest(feeds: seq<seq<Article>>, pidOf: nat -> string, embed: seq<string> -> seq<Vector>)
    returns (articles: seq<Article>, upserts: seq<seq<Point>>, failed: bool)
    ensures articles == Take(Flatten(FeedShares(feeds)), ArticleCap)
    ensures (forall batch :: |embed(batch)| == |batch|) ==>
              !failed && |Flatten(upserts)| == |ChunkTexts(articles)| &&
              forall k :: 0 <= k < |Flatten(upserts)| ==>
                Flatten(upserts)[k].id == pidOf(k) && Flatten(upserts)[k].payload == ChunkMetas(articles)[k]
  {
    articles := GatherArticles(feeds);
    var texts, metaList := BuildEmbeddingInputs(articles, pidOf);
    var batches;
    batches, upserts, failed := UpsertBatches(texts, metaList, embed);
    if forall batch :: |embed(batch)| == |batch| {
      BatchesAreSplit(texts, batches);
      UpsertCoverage(texts, metaList, embed, upserts);
    }
  }
}
