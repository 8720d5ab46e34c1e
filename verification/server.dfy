/** The HTTP handlers of the backend: `POST /chat`, `GET /history/:sessionId`
    and `POST /reset/:sessionId`, over the session store. The services the chat
    handler calls (the embedder, the vector index, the language model) are
    represented by the outcomes they deliver, and the clock by its readings. */
module Server {
  import opened JsValues
  import opened Outcomes
  import opened SessionStore
  import opened Prompt

  /** `session:${sessionId}:history`, the store key of a session's transcript. */
  function SessionKey(sid: string): string
  {
    "session:" + sid + ":history"
  }

  /** Distinct sessions have distinct keys, so one session's writes never reach another's transcript. */
  lemma SessionKeyInjective(a: string, b: string)
    requires SessionKey(a) == SessionKey(b)
    ensures a == b
  {
    var ka, kb := SessionKey(a), SessionKey(b);
    assert a == ka[8 .. |ka| - 8];
    assert b == kb[8 .. |kb| - 8];
  }

  /** The body of a `/chat` request; any field may be missing. */
  datatype ChatRequest = ChatRequest(sessionId: Option<string>, message: Option<string>, topK: Option<int>)

  /** The number of passages asked for when the request names none. */
  const DefaultTopK: int := 5

  /** `topK = 5` in the destructuring: the default applies only to a missing field. */
  function Limit(topK: Option<int>): int
  {
    if topK.Some? then topK.value else DefaultTopK
  }

  /** A chat message sent to the language model. */
  datatype Message = Message(role: string, content: string)

  const SystemInstruction: string := "You are a helpful news assistant."

  /** What the handler sends to the language model: the fixed system
      instruction, then the grounding prompt as the user's message. */
  function GenerationInput(message: Option<string>, hits: seq<Hit>): seq<Message>
  {
    [Message("system", SystemInstruction), Message("user", BuildPrompt(message, hits))]
  }

  /** The observable steps of a request, in the order they happen: writes to
      the store and calls to the services. */
  datatype Effect =
    | Push(key: string, turn: Turn)
    | SetExpiry(key: string, seconds: int)
    | EmbedQuery(text: Option<string>)
    | SearchIndex(vector: Vector, limit: int)
    | Generate(messages: seq<Message>)

  /** The reply to `/chat`: `200 {answer, sources}`, `400 {error: 'sessionId
      required'}`, or `500 {error: 'internal error', detail}`. */
  datatype ChatResponse =
    | Answered(answer: string, sources: seq<Option<string>>)
    | MissingSession
    | Failed(detail: string)

  /** `POST /chat`. A request without a truthy `sessionId` is refused before
      any work. Otherwise the user turn is stored and its time to live
      refreshed; then the query is embedded, the index searched and the
      language model asked; then the assistant turn is stored and its time to
      live refreshed; then the answer and the sources are returned. The first
      service failure ends the request with a 500 and nothing is rolled back:
      the user turn stays in the transcript without an assistant turn.
      `now1` and `now2` are the clock's readings for the two turns. */
  method Chat(store: ListStore, req: ChatRequest, now1: int, now2: int,
              embedding: Outcome<Vector>, search: Outcome<seq<Hit>>, generation: Outcome<GenResponse>)
    returns (resp: ChatResponse, effects: seq<Effect>)
    requires store.Valid()
    modifies store
    ensures store.Valid()
    // 400: nothing is written and no service is called
    ensures !Truthy(req.sessionId) ==>
              resp == MissingSession && effects == [] && store.State() == old(store.State())
    // the user turn is stored and its expiry set before the first service call
    ensures Truthy(req.sessionId) ==>
              var key := SessionKey(req.sessionId.value);
              |effects| >= 3 &&
              effects[..3] == [Push(key, Turn(User, req.message, now1)), SetExpiry(key, TtlSeconds), EmbedQuery(req.message)]
    // a failing embedding: 500, the user turn alone is persisted
    ensures Truthy(req.sessionId) && embedding.Fail? ==>
              resp == Failed(embedding.detail) && |effects| == 3 &&
              store.State() == Appended(old(store.State()), SessionKey(req.sessionId.value), Turn(User, req.message, now1))
    // the search is asked for `topK` passages near the query vector
    ensures Truthy(req.sessionId) && embedding.Ok? ==>
              |effects| >= 4 && effects[3] == SearchIndex(embedding.value, Limit(req.topK))
    // a failing search: 500, the user turn alone is persisted
    ensures Truthy(req.sessionId) && embedding.Ok? && search.Fail? ==>
              resp == Failed(search.detail) && |effects| == 4 &&
              store.State() == Appended(old(store.State()), SessionKey(req.sessionId.value), Turn(User, req.message, now1))
    // the language model is always asked once the search succeeds, even with no results
    ensures Truthy(req.sessionId) && embedding.Ok? && search.Ok? ==>
              |effects| >= 5 && effects[4] == Generate(GenerationInput(req.message, search.value))
    // a failing generation: 500, the user turn alone is persisted
    ensures Truthy(req.sessionId) && embedding.Ok? && search.Ok? && generation.Fail? ==>
              resp == Failed(generation.detail) && |effects| == 5 &&
              store.State() == Appended(old(store.State()), SessionKey(req.sessionId.value), Turn(User, req.message, now1))
    // success: the assistant turn holds the answer that is returned, and is stored after the user turn
    ensures Truthy(req.sessionId) && embedding.Ok? && search.Ok? && generation.Ok? ==>
              var key := SessionKey(req.sessionId.value);
              var bot := Turn(Assistant, Some(Answer(generation.value)), now2);
              resp == Answered(Answer(generation.value), Sources(search.value)) &&
              effects[5..] == [Push(key, bot), SetExpiry(key, TtlSeconds)] &&
              store.State() == Appended(Appended(old(store.State()), key, Turn(User, req.message, now1)), key, bot)
  {
    if !Truthy(req.sessionId) {
      return MissingSession, [];
    }
    var key := SessionKey(req.sessionId.value);
    ghost var before := store.State();

    // 1) the user turn
    var userTurn := Turn(User, req.message, now1);
    var _ := store.RPush(key, userTurn, now1);
    var _ := store.Expire(key, TtlSeconds, now1);
    effects := [Push(key, userTurn), SetExpiry(key, TtlSeconds)];
    ghost var afterUser := store.State();
    assert afterUser == Appended(before, key, userTurn);

    // 2) embed the query
    effects := effects + [EmbedQuery(req.message)];
    if embedding.Fail? {
      return Failed(embedding.detail), effects;
    }

    // 3) retrieve the passages
    effects := effects + [SearchIndex(embedding.value, Limit(req.topK))];
    if search.Fail? {
      return Failed(search.detail), effects;
    }
    var results := search.value;

    // 4) and 5) build the prompt and call the language model
    effects := effects + [Generate(GenerationInput(req.message, results))];
    if generation.Fail? {
      return Failed(generation.detail), effects;
    }
    var answer := Answer(generation.value);

    // 6) the assistant turn
    var botTurn := Turn(Assistant, Some(answer), now2);
    var _ := store.RPush(key, botTurn, now2);
    var _ := store.Expire(key, TtlSeconds, now2);
    assert store.State() == Appended(afterUser, key, botTurn);
    effects := effects + [Push(key, botTurn), SetExpiry(key, TtlSeconds)];

    // 7) the reply
    resp := Answered(answer, Sources(results));
  }

  /** `GET /history/:sessionId`: the whole transcript (`LRANGE key 0 -1`), in
      append order, or the empty list for an unknown or expired session. It
      only reads: neither the transcript nor its expiry changes. */
  method History(store: ListStore, sid: string, now: int) returns (history: seq<Turn>)
    ensures history == Visible(store.State(), SessionKey(sid), now)
  {
    history := store.LRange(SessionKey(sid), 0, -1, now);
    RangeWhole(Visible(store.State(), SessionKey(sid), now));
  }

  /** `POST /reset/:sessionId`: delete the session's transcript and answer `{ok: true}`. */
  method Reset(store: ListStore, sid: string, now: int) returns (ok: bool)
    requires store.Valid()
    modifies store
    ensures store.Valid() && ok
    ensures store.State() == Deleted(old(store.State()), SessionKey(sid))
  {
    var _ := store.Del(SessionKey(sid), now);
    ok := true;
  }

  /** After a successful chat whose second turn comes within the retention window
      of the first, the transcript is the earlier one followed by the user turn
      and then the assistant turn, it expires 24 hours after the assistant turn,
      and every other session reads as before. */
  lemma SuccessfulChatTranscript(s: Snapshot, sid: string, user: Turn, bot: Turn, other: string, now: int)
    requires user.ts <= bot.ts <= user.ts + TtlMillis
    requires other != sid
    ensures var after := Appended(Appended(s, SessionKey(sid), user), SessionKey(sid), bot);
            && Visible(after, SessionKey(sid), bot.ts) == Visible(s, SessionKey(sid), user.ts) + [user, bot]
            && after.deadlines[SessionKey(sid)] == bot.ts + TtlMillis
            && Visible(after, SessionKey(other), now) == Visible(s, SessionKey(other), now)
  {
    var key := SessionKey(sid);
    AppendedAllPair(s, key, user, bot);
    AppendedAllInOrder(s, key, [user, bot]);
    if SessionKey(other) == key {
      SessionKeyInjective(other, sid);
    }
    AppendedAllFrame(s, key, [user, bot], SessionKey(other), now);
  }

  /** One chat exchange as it lands in the transcript. */
  datatype Exchange = Exchange(user: Turn, bot: Turn)

  /** The turns of a series of exchanges, in the order they were written. */
  function Interleaved(xs: seq<Exchange>): (r: seq<Turn>)
    ensures |r| == 2 * |xs|
    ensures forall i :: 0 <= i < |xs| ==> r[2 * i] == xs[i].user && r[2 * i + 1] == xs[i].bot
    decreases |xs|
  {
    if xs == [] then []
    else
      var init := Interleaved(xs[..|xs| - 1]);
      var last := xs[|xs| - 1];
      init + [last.user, last.bot]
  }

  /** Writing two turns as a series is writing one, then the other. */
  lemma AppendedAllPair(s: Snapshot, key: string, first: Turn, second: Turn)
    ensures AppendedAll(s, key, [first, second]) == Appended(Appended(s, key, first), key, second)
  {
    assert [first, second][..1] == [first];
    assert [first][..0] == [];
    assert AppendedAll(s, key, [first]) == Appended(s, key, first);
  }

  /** Writing a series of turns then another is writing the whole series. */
  lemma {:induction false} AppendedAllConcat(s: Snapshot, key: string, a: seq<Turn>, b: seq<Turn>)
    ensures AppendedAll(s, key, a + b) == AppendedAll(AppendedAll(s, key, a), key, b)
    decreases |b|
  {
    if b == [] {
      assert a + b == a;
    } else {
      var b' := b[..|b| - 1];
      var last := b[|b| - 1];
      AppendedAllConcat(s, key, a, b');
      LastSplit(a, b);
      AppendedAllSnoc(s, key, a + b', last);
      AppendedAllSnoc(AppendedAll(s, key, a), key, b', last);
    }
  }

  /** The store after a series of successful chats on one session, each writing its
      user turn and then its assistant turn. */
  function AfterChats(s: Snapshot, key: string, xs: seq<Exchange>): Snapshot
    decreases |xs|
  {
    if xs == [] then s
    else
      var last := xs[|xs| - 1];
      Appended(Appended(AfterChats(s, key, xs[..|xs| - 1]), key, last.user), key, last.bot)
  }

  /** N chats issued one after another on one session leave exactly 2N new
      entries in its history, user and assistant alternating, in issue order. */
  lemma SerialChatsHistory(s: Snapshot, sid: string, xs: seq<Exchange>)
    requires xs != []
    requires forall i :: 0 <= i < |xs| ==> xs[i].user.role == User && xs[i].bot.role == Assistant
    requires Chained(Interleaved(xs))
    ensures var h := Visible(AfterChats(s, SessionKey(sid), xs), SessionKey(sid), xs[|xs| - 1].bot.ts);
            var before := Visible(s, SessionKey(sid), xs[0].user.ts);
            && |h| == |before| + 2 * |xs|
            && h[..|before|] == before
            && forall i :: 0 <= i < |xs| ==>
                 h[|before| + 2 * i] == xs[i].user && h[|before| + 2 * i].role == User &&
                 h[|before| + 2 * i + 1] == xs[i].bot && h[|before| + 2 * i + 1].role == Assistant
  {
    var key := SessionKey(sid);
    var turns := Interleaved(xs);
    AfterChatsIsAppendedAll(s, key, xs);
    AppendedAllInOrder(s, key, turns);
    assert turns[0] == xs[0].user;
    assert turns[|turns| - 1] == xs[|xs| - 1].bot;
  }

  /** A series of chats writes exactly the interleaved turns, in order. */
  lemma {:induction false} AfterChatsIsAppendedAll(s: Snapshot, key: string, xs: seq<Exchange>)
    ensures AfterChats(s, key, xs) == AppendedAll(s, key, Interleaved(xs))
    decreases |xs|
  {
    if xs != [] {
      var init := xs[..|xs| - 1];
      var last := xs[|xs| - 1];
      AfterChatsIsAppendedAll(s, key, init);
      AppendedAllConcat(s, key, Interleaved(init), [last.user, last.bot]);
      AppendedAllPair(AppendedAll(s, key, Interleaved(init)), key, last.user, last.bot);
    }
  }

  /** Resetting twice is resetting once; afterwards the history is empty and
      every other session reads as before. */
  lemma ResetIdempotent(s: Snapshot, sid: string, other: string, now: int)
    requires other != sid
    ensures Deleted(Deleted(s, SessionKey(sid)), SessionKey(sid)) == Deleted(s, SessionKey(sid))
    ensures Visible(Deleted(s, SessionKey(sid)), SessionKey(sid), now) == []
    ensures Visible(Deleted(s, SessionKey(sid)), SessionKey(other), now) == Visible(s, SessionKey(other), now)
  {
    var key, okey := SessionKey(sid), SessionKey(other);
    if okey == key {
      SessionKeyInjective(other, sid);
    }
    var r := Deleted(s, key);
    assert okey in s.lists <==> okey in r.lists;
    assert okey in s.deadlines <==> okey in r.deadlines;
  }

  /** The exchange of the worked example: a session `s1` asks about the election,
      the search returns two passages with links `l1` and `l2`; the reply lists
      both links in that order, and the history then holds the user turn and the
      assistant turn. */
  method ElectionScenario(l1: string, l2: string, vec: Vector, reply: GenResponse)
    returns (resp: ChatResponse, history: seq<Turn>)
    ensures resp.Answered? && resp.sources == [Some(l1), Some(l2)]
    ensures |history| == 2 && history[0].role == User && history[1].role == Assistant
    ensures history[1].content == Some(resp.answer)
  {
    var store := new ListStore();
    var hits := [Hit(Some(Payload(None, Some(l1), None, None)), 0.9),
                 Hit(Some(Payload(None, Some(l2), None, None)), 0.8)];
    var req := ChatRequest(Some("s1"), Some("What happened in the election?"), Some(2));
    var effects;
    resp, effects := Chat(store, req, 1000, 2000, Ok(vec), Ok(hits), Ok(reply));
    var user := Turn(User, req.message, 1000);
    var bot := Turn(Assistant, Some(Answer(reply)), 2000);
    SuccessfulChatTranscript(Snapshot(map[], map[]), "s1", user, bot, "s2", 2000);
    history := History(store, "s1", 2000);
  }
}
