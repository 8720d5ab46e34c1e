/** The key-value store that keeps each session's transcript: a Redis list per
    key, with an optional expiry deadline per key. Values are `Turn`s; their JSON
    encoding on the way in and out is taken to be a faithful round trip. */
module SessionStore {
  import opened JsValues

  datatype Role = User | Assistant

  /** One message of a transcript; `ts` is the writer's clock in milliseconds.
      The content of a user turn is the request's `message`, which may be absent. */
  datatype Turn = Turn(role: Role, content: Option<string>, ts: int)

  /** Retention of a transcript after its latest write: 24 hours, in seconds. */
  const TtlSeconds: int := 24 * 3600

  /** The same retention in milliseconds, the unit of the clock. */
  const TtlMillis: int := TtlSeconds * 1000

  /** The contents of the store: the list under each key, and the deadline
      (in milliseconds) of each key that has a time to live. */
  datatype Snapshot = Snapshot(lists: map<string, seq<Turn>>, deadlines: map<string, int>)

  /** Redis keeps a time to live only on a key that exists. */
  predicate WellFormed(s: Snapshot)
  {
    s.deadlines.Keys <= s.lists.Keys
  }

  /** A key is live at `now` when it holds a list whose deadline, if any, has
      not passed; Redis treats a key past its deadline as absent. */
  predicate Live(s: Snapshot, key: string, now: int)
  {
    key in s.lists && (key in s.deadlines ==> now <= s.deadlines[key])
  }

  /** The list a reader sees under `key` at `now`: empty when the key is absent or expired. */
  function Visible(s: Snapshot, key: string, now: int): seq<Turn>
  {
    if Live(s, key, now) then s.lists[key] else []
  }

  /** Every key other than `key` holds the same list and the same deadline in `s` and `r`. */
  predicate SameElsewhere(s: Snapshot, r: Snapshot, key: string)
  {
    s.lists - {key} == r.lists - {key} && s.deadlines - {key} == r.deadlines - {key}
  }

  /** RPUSH: append to a live list; on an absent or expired key start a new
      list, which has no time to live. */
  function Pushed(s: Snapshot, key: string, v: Turn, now: int): (r: Snapshot)
    ensures Visible(r, key, now) == Visible(s, key, now) + [v]
    ensures Live(s, key, now) ==> (key in s.deadlines <==> key in r.deadlines)
    ensures key !in r.deadlines || (key in s.deadlines && r.deadlines[key] == s.deadlines[key])
    ensures SameElsewhere(s, r, key)
    ensures WellFormed(s) ==> WellFormed(r)
  {
    if Live(s, key, now) then Snapshot(s.lists[key := s.lists[key] + [v]], s.deadlines)
    else Snapshot(s.lists[key := [v]], s.deadlines - {key})
  }

  /** EXPIRE: give a live key the deadline `seconds` from `now`; a timeout that
      is not positive deletes the key; on an absent or expired key nothing happens. */
  function Expired(s: Snapshot, key: string, seconds: int, now: int): (r: Snapshot)
    ensures Live(s, key, now) && seconds > 0 ==>
              Visible(r, key, now) == Visible(s, key, now) && key in r.deadlines && r.deadlines[key] == now + seconds * 1000
    ensures Live(s, key, now) && seconds <= 0 ==> key !in r.lists && key !in r.deadlines
    ensures !Live(s, key, now) ==> r == s
    ensures SameElsewhere(s, r, key)
    ensures WellFormed(s) ==> WellFormed(r)
  {
    if !Live(s, key, now) then s
    else if seconds <= 0 then Snapshot(s.lists - {key}, s.deadlines - {key})
    else Snapshot(s.lists, s.deadlines[key := now + seconds * 1000])
  }

  /** DEL: the key and its time to live are gone. */
  function Deleted(s: Snapshot, key: string): (r: Snapshot)
    ensures key !in r.lists && key !in r.deadlines
    ensures SameElsewhere(s, r, key)
    ensures WellFormed(s) ==> WellFormed(r)
  {
    Snapshot(s.lists - {key}, s.deadlines - {key})
  }

  /** LRANGE start stop: negative indices count from the end, out-of-range
      indices are clamped, and an empty range gives the empty list. */
  function Range<T>(l: seq<T>, start: int, stop: int): (r: seq<T>)
    ensures exists a, b :: 0 <= a <= b <= |l| && r == l[a..b]
  {
    var n := |l|;
    var a := if start < 0 then n + start else start;
    var b := if stop < 0 then n + stop else stop;
    var a' := if a < 0 then 0 else a;
    if a' > b || a' >= n then
      assert [] == l[0..0];
      []
    else
      var b' := if b >= n then n - 1 else b;
      l[a'..b' + 1]
  }

  /** `LRANGE key 0 -1` returns the whole list. */
  lemma RangeWhole<T>(l: seq<T>)
    ensures Range(l, 0, -1) == l
  {
    if |l| > 0 {
      assert l[0..|l|] == l;
    }
  }

  /** Appending a turn to a transcript the way the handlers do it: RPUSH, then
      EXPIRE with the 24-hour retention, both at the turn's own timestamp. */
  function Appended(s: Snapshot, key: string, t: Turn): (r: Snapshot)
    ensures Visible(r, key, t.ts) == Visible(s, key, t.ts) + [t]
    ensures key in r.deadlines && r.deadlines[key] == t.ts + TtlMillis
    ensures SameElsewhere(s, r, key)
    ensures WellFormed(s) ==> WellFormed(r)
  {
    Expired(Pushed(s, key, t, t.ts), key, TtlSeconds, t.ts)
  }

  /** A transcript stays readable, unchanged, until the retention window after its
      latest write has passed. */
  lemma AppendedStaysVisible(s: Snapshot, key: string, t: Turn, now: int)
    requires t.ts <= now <= t.ts + TtlMillis
    ensures Visible(Appended(s, key, t), key, now) == Visible(s, key, t.ts) + [t]
  {
    var r := Appended(s, key, t);
    assert Live(r, key, t.ts);
  }

  /** The same window seen the other way: once it has passed, the transcript reads as empty. */
  lemma AppendedExpires(s: Snapshot, key: string, t: Turn, now: int)
    requires now > t.ts + TtlMillis
    ensures Visible(Appended(s, key, t), key, now) == []
  {
  }

  /** Turns appended one after the other, in order. */
  function AppendedAll(s: Snapshot, key: string, turns: seq<Turn>): Snapshot
    decreases |turns|
  {
    if |turns| == 0 then s
    else Appended(AppendedAll(s, key, turns[..|turns| - 1]), key, turns[|turns| - 1])
  }

  /** One more turn at the end of a series is one more write after the others. */
  lemma AppendedAllSnoc(s: Snapshot, key: string, turns: seq<Turn>, t: Turn)
    ensures AppendedAll(s, key, turns + [t]) == Appended(AppendedAll(s, key, turns), key, t)
  {
    assert (turns + [t])[..|turns|] == turns;
  }

  /** Each turn is written no earlier than the previous one and before the
      previous write's retention window closed. */
  predicate Chained(turns: seq<Turn>)
  {
    forall i :: 0 < i < |turns| ==> turns[i - 1].ts <= turns[i].ts <= turns[i - 1].ts + TtlMillis
  }

  /** Append order is conversation order: after a chained series of writes the
      transcript is what it was at the first write followed by every turn, in order. */
  lemma {:induction false} AppendedAllInOrder(s: Snapshot, key: string, turns: seq<Turn>)
    requires turns != [] && Chained(turns)
    ensures Visible(AppendedAll(s, key, turns), key, turns[|turns| - 1].ts)
            == Visible(s, key, turns[0].ts) + turns
  {
    var n := |turns|;
    var init := turns[..n - 1];
    var last := turns[n - 1];
    if n == 1 {
      assert init == [];
    } else {
      ChainedPrefix(turns);
      AppendedAllInOrder(s, key, init);
      assert init[|init| - 1] == turns[n - 2] && init[0] == turns[0];
      AppendedAllStep(s, key, turns);
      LastSplit(Visible(s, key, turns[0].ts), turns);
    }
  }

  /** The last write of a series within the window of the one before it: the
      transcript is the one seen at the previous write followed by the last turn. */
  lemma AppendedAllStep(s: Snapshot, key: string, turns: seq<Turn>)
    requires |turns| >= 2
    requires turns[|turns| - 2].ts <= turns[|turns| - 1].ts <= turns[|turns| - 2].ts + TtlMillis
    ensures Visible(AppendedAll(s, key, turns), key, turns[|turns| - 1].ts)
            == Visible(AppendedAll(s, key, turns[..|turns| - 1]), key, turns[|turns| - 2].ts) + [turns[|turns| - 1]]
  {
    var n := |turns|;
    var init, prev, last := turns[..n - 1], turns[n - 2], turns[n - 1];
    var before := AppendedAll(s, key, init[..n - 2]);
    assert init[n - 2] == prev;
    assert AppendedAll(s, key, init) == Appended(before, key, prev);
    AppendedStaysVisible(before, key, prev, last.ts);
    assert AppendedAll(s, key, turns) == Appended(AppendedAll(s, key, init), key, last);
  }

  /** Dropping the last turn keeps a series chained. */
  lemma ChainedPrefix(turns: seq<Turn>)
    requires turns != [] && Chained(turns)
    ensures Chained(turns[..|turns| - 1])
  {
    var init := turns[..|turns| - 1];
    forall i | 0 < i < |init| ensures init[i - 1].ts <= init[i].ts <= init[i - 1].ts + TtlMillis {
      assert init[i] == turns[i] && init[i - 1] == turns[i - 1];
    }
  }

  /** Splitting off the last element of the second part of a concatenation. */
  lemma LastSplit<T>(a: seq<T>, b: seq<T>)
    requires b != []
    ensures a + b == (a + b[..|b| - 1]) + [b[|b| - 1]]
    ensures b == b[..|b| - 1] + [b[|b| - 1]]
  {
  }

  /** Writes to one key leave every other key's list and deadline as they were. */
  lemma {:induction false} AppendedAllFrame(s: Snapshot, key: string, turns: seq<Turn>, other: string, now: int)
    requires other != key
    ensures Visible(AppendedAll(s, key, turns), other, now) == Visible(s, other, now)
    decreases |turns|
  {
    if turns != [] {
      var prev := AppendedAll(s, key, turns[..|turns| - 1]);
      AppendedAllFrame(s, key, turns[..|turns| - 1], other, now);
      var r := Appended(prev, key, turns[|turns| - 1]);
      assert other in prev.lists <==> other in r.lists by {
        assert other in prev.lists <==> other in prev.lists - {key};
        assert other in r.lists <==> other in r.lists - {key};
      }
      assert other in prev.deadlines <==> other in r.deadlines by {
        assert other in prev.deadlines <==> other in prev.deadlines - {key};
        assert other in r.deadlines <==> other in r.deadlines - {key};
      }
      if other in prev.lists {
        assert prev.lists[other] == (prev.lists - {key})[other];
        assert r.lists[other] == (r.lists - {key})[other];
      }
      if other in prev.deadlines {
        assert prev.deadlines[other] == (prev.deadlines - {key})[other];
        assert r.deadlines[other] == (r.deadlines - {key})[other];
      }
    }
  }

  /** Deleting is idempotent: a second DEL changes nothing, and the key reads as
      empty at every time afterwards. */
  lemma DeletedIdempotent(s: Snapshot, key: string, now: int)
    ensures Deleted(Deleted(s, key), key) == Deleted(s, key)
    ensures Visible(Deleted(s, key), key, now) == []
  {
  }

  /** The session store: one Redis list per key plus the keys' deadlines, updated in place. */
  class ListStore {
    var lists: map<string, seq<Turn>>
    var deadlines: map<string, int>

    /** The store's contents as a value. */
    function State(): Snapshot
      reads this
    {
      Snapshot(lists, deadlines)
    }

    /** Redis's own invariant, kept by every method: only a key that exists
        carries a time to live. */
    ghost predicate Valid()
      reads this
    {
      WellFormed(State())
    }

    /** An empty store. */
    constructor ()
      ensures Valid() && State() == Snapshot(map[], map[])
    {
      lists := map[];
      deadlines := map[];
    }

    /** RPUSH key v; answers the new length of the list. */
    method RPush(key: string, v: Turn, now: int) returns (len: nat)
      requires Valid()
      modifies this
      ensures Valid() && State() == Pushed(old(State()), key, v, now)
      ensures len == |Visible(old(State()), key, now)| + 1
    {
      if Live(State(), key, now) {
        lists := lists[key := lists[key] + [v]];
      } else {
        lists := lists[key := [v]];
        deadlines := deadlines - {key};
      }
      len := |lists[key]|;
    }

    /** EXPIRE key seconds; answers whether the key existed. */
    method Expire(key: string, seconds: int, now: int) returns (applied: bool)
      requires Valid()
      modifies this
      ensures Valid() && State() == Expired(old(State()), key, seconds, now)
      ensures applied == Live(old(State()), key, now)
    {
      applied := Live(State(), key, now);
      if applied {
        if seconds <= 0 {
          lists := lists - {key};
          deadlines := deadlines - {key};
        } else {
          deadlines := deadlines[key := now + seconds * 1000];
        }
      }
    }

    /** LRANGE key start stop: reads only. */
    method LRange(key: string, start: int, stop: int, now: int) returns (items: seq<Turn>)
      ensures items == Range(Visible(State(), key, now), start, stop)
    {
      var l := if Live(State(), key, now) then lists[key] else [];
      items := Range(l, start, stop);
    }

    /** DEL key; answers how many live keys it removed. */
    method Del(key: string, now: int) returns (removed: nat)
      requires Valid()
      modifies this
      ensures Valid() && State() == Deleted(old(State()), key)
      ensures removed == if Live(old(State()), key, now) then 1 else 0
    {
      removed := if Live(State(), key, now) then 1 else 0;
      lists := lists - {key};
      deadlines := deadlines - {key};
    }
  }
}
