/** Webhook batches that wait for their WABA to become active: the `held_webhooks` table
    (apps/gateway/src/held-webhooks.ts, and `hold` and `releaseHeld` in gateway.ts). */
module Held {
  import opened Core

  const HELD_MAX_EVENTS: nat := 5000
  const HELD_MAX_AGE_MS: int := 259_200_000

  /** An event, by the identity Meta gave it. */
  type Event = nat

  datatype Row = Row(id: nat, phone: Option<string>, events: seq<Event>, eventCount: nat, heldAt: Time)

  function EventCount(rows: seq<Row>): nat {
    if rows == [] then 0 else rows[0].eventCount + EventCount(rows[1..])
  }

  /** The events of the batches, in the order they were held. */
  function Events(rows: seq<Row>): seq<Event> {
    if rows == [] then [] else rows[0].events + Events(rows[1..])
  }

  /** Whether releasing ingests the batch; the others are discarded. */
  predicate Wanted(row: Row, registered: set<string>) {
    row.phone.None? || row.phone.value in registered
  }

  function Keep(rows: seq<Row>, registered: set<string>): seq<Row> {
    if rows == [] then []
    else if Wanted(rows[0], registered) then [rows[0]] + Keep(rows[1..], registered)
    else Keep(rows[1..], registered)
  }

  function Drop(rows: seq<Row>, registered: set<string>): seq<Row> {
    if rows == [] then []
    else if Wanted(rows[0], registered) then Drop(rows[1..], registered)
    else [rows[0]] + Drop(rows[1..], registered)
  }

  function Fresh(rows: seq<Row>, now: Time): seq<Row> {
    if rows == [] then []
    else if rows[0].heldAt < now - HELD_MAX_AGE_MS then Fresh(rows[1..], now)
    else [rows[0]] + Fresh(rows[1..], now)
  }

  function Aged(rows: seq<Row>, now: Time): seq<Row> {
    if rows == [] then []
    else if rows[0].heldAt < now - HELD_MAX_AGE_MS then [rows[0]] + Aged(rows[1..], now)
    else Aged(rows[1..], now)
  }

  /** Rows in the order of their ids, each with its own count of events. */
  ghost predicate Wellformed(rows: seq<Row>, nextId: nat) {
    && (forall k :: 0 <= k < |rows| ==> rows[k].id < nextId && rows[k].eventCount == |rows[k].events|)
    && (forall j, k :: 0 <= j < k < |rows| ==> rows[j].id < rows[k].id)
  }

  lemma {:induction false} CountsAreEvents(rows: seq<Row>)
    requires forall k :: 0 <= k < |rows| ==> rows[k].eventCount == |rows[k].events|
    ensures EventCount(rows) == |Events(rows)|
  {
    if rows != [] {
      CountsAreEvents(rows[1..]);
    }
  }

  lemma {:induction false} EventsOfBoth(a: seq<Row>, b: seq<Row>)
    ensures Events(a + b) == Events(a) + Events(b)
    ensures EventCount(a + b) == EventCount(a) + EventCount(b)
  {
    if a == [] {
      assert a + b == b;
    } else {
      EventsOfBoth(a[1..], b);
      assert (a + b)[1..] == a[1..] + b;
      assert a[0].events + (Events(a[1..]) + Events(b)) == (a[0].events + Events(a[1..])) + Events(b);
    }
  }

  lemma FirstBatch(row: Row, rest: seq<Row>)
    ensures Events([row] + rest) == row.events + Events(rest)
    ensures EventCount([row] + rest) == row.eventCount + EventCount(rest)
  {
    assert ([row] + rest)[1..] == rest;
  }

  lemma LastBatch(rows: seq<Row>, row: Row)
    ensures Events(rows + [row]) == Events(rows) + row.events
    ensures EventCount(rows + [row]) == EventCount(rows) + row.eventCount
  {
    EventsOfBoth(rows, [row]);
    FirstBatch(row, []);
    assert [row] + [] == [row];
  }

  /** A release splits the held events: every one is ingested or discarded. */
  lemma {:induction false} ReleaseSplits(rows: seq<Row>, registered: set<string>)
    ensures multiset(Events(rows)) == multiset(Events(Keep(rows, registered))) + multiset(Events(Drop(rows, registered)))
  {
    if rows != [] {
      var rest := rows[1..];
      ReleaseSplits(rest, registered);
      assert Events(rows) == rows[0].events + Events(rest);
      if Wanted(rows[0], registered) {
        FirstBatch(rows[0], Keep(rest, registered));
      } else {
        FirstBatch(rows[0], Drop(rest, registered));
      }
    }
  }

  lemma {:induction false} SweepSplits(rows: seq<Row>, now: Time)
    ensures multiset(Events(rows)) == multiset(Events(Fresh(rows, now))) + multiset(Events(Aged(rows, now)))
    ensures EventCount(rows) == EventCount(Fresh(rows, now)) + EventCount(Aged(rows, now))
  {
    if rows != [] {
      var rest := rows[1..];
      SweepSplits(rest, now);
      assert Events(rows) == rows[0].events + Events(rest);
      if rows[0].heldAt < now - HELD_MAX_AGE_MS {
        FirstBatch(rows[0], Aged(rest, now));
      } else {
        FirstBatch(rows[0], Fresh(rest, now));
      }
    }
  }

  lemma {:induction false} FreshIsWellformed(rows: seq<Row>, now: Time, nextId: nat)
    requires Wellformed(rows, nextId)
    ensures Wellformed(Fresh(rows, now), nextId)
    ensures forall row :: row in Fresh(rows, now) <==> row in rows && row.heldAt >= now - HELD_MAX_AGE_MS
  {
    if rows != [] {
      FreshIsWellformed(rows[1..], now, nextId);
      assert rows == [rows[0]] + rows[1..];
      var rest := Fresh(rows[1..], now);
      forall k | 0 <= k < |rest| ensures rows[0].id < rest[k].id {
        assert rest[k] in rows[1..];
      }
    }
  }

  lemma {:induction false} AgedCounts(rows: seq<Row>, now: Time)
    requires forall k :: 0 <= k < |rows| ==> rows[k].eventCount == |rows[k].events|
    ensures EventCount(Aged(rows, now)) == |Events(Aged(rows, now))|
  {
    if rows != [] {
      AgedCounts(rows[1..], now);
      FirstBatch(rows[0], Aged(rows[1..], now));
    }
  }

  lemma SweepIsValid(rows: seq<Row>, now: Time, nextId: nat)
    requires Wellformed(rows, nextId)
    ensures Wellformed(Fresh(rows, now), nextId) && EventCount(Fresh(rows, now)) <= EventCount(rows)
    ensures EventCount(Aged(rows, now)) == |Events(Aged(rows, now))|
  {
    AgedCounts(rows, now);
    FreshIsWellformed(rows, now, nextId);
    SweepSplits(rows, now);
  }

  /** A held batch rewritten with fewer events, or gone when none are left. */
  function Replaced(rows: seq<Row>, k: nat, events: seq<Event>): seq<Row>
    requires k < |rows|
  {
    rows[..k] + (if events == [] then [] else [rows[k].(events := events, eventCount := |events|)]) + rows[k + 1..]
  }

  lemma Between(front: seq<Row>, row: Row, back: seq<Row>)
    ensures Events(front + [row] + back) == Events(front) + row.events + Events(back)
  {
    EventsOfBoth(front + [row], back);
    LastBatch(front, row);
  }

  lemma SplitRows(rows: seq<Row>, k: nat)
    requires k < |rows|
    ensures rows == rows[..k] + [rows[k]] + rows[k + 1..]
  {
  }

  lemma SplitEvents(rows: seq<Row>, k: nat)
    requires k < |rows|
    ensures Events(rows) == Events(rows[..k]) + rows[k].events + Events(rows[k + 1..])
  {
    var front, row, back := rows[..k], rows[k], rows[k + 1..];
    Between(front, row, back);
    SplitRows(rows, k);
  }

  lemma ReplacedEvents(rows: seq<Row>, k: nat, events: seq<Event>)
    requires k < |rows|
    ensures Events(Replaced(rows, k, events)) == Events(rows[..k]) + events + Events(rows[k + 1..])
  {
    if events == [] {
      NothingBetween(rows[..k], rows[k + 1..]);
    } else {
      Between(rows[..k], rows[k].(events := events, eventCount := |events|), rows[k + 1..]);
    }
  }

  lemma NothingBetween(front: seq<Row>, back: seq<Row>)
    ensures Events(front + [] + back) == Events(front) + [] + Events(back)
  {
    EventsOfBoth(front, back);
    assert front + [] == front;
    assert Events(front) + [] == Events(front);
  }

  lemma ReplacedIsWellformed(rows: seq<Row>, k: nat, events: seq<Event>, nextId: nat)
    requires k < |rows| && Wellformed(rows, nextId)
    ensures Wellformed(Replaced(rows, k, events), nextId)
  {
  }

  // ---- Which batches ------------------------------------------------------------------------

  /** `at` are the positions of the batches that are `p`, in their order, and `picked` those batches. */
  ghost predicate PicksAt(at: seq<nat>, rows: seq<Row>, picked: seq<Row>, p: Row -> bool) {
    && |at| == |picked|
    && (forall i, j :: 0 <= i < j < |at| ==> at[i] < at[j])
    && (forall i :: 0 <= i < |at| ==> at[i] < |rows| && picked[i] == rows[at[i]] && p(rows[at[i]]))
    && (forall k :: 0 <= k < |rows| && p(rows[k]) ==> k in at)
  }

  /** The batches of `rows` that are `p`, all of them, in their order. */
  ghost predicate AreThose(rows: seq<Row>, picked: seq<Row>, p: Row -> bool) {
    exists at: seq<nat> :: PicksAt(at, rows, picked, p)
  }

  /** Batches that came through a registered phone, or through none. */
  function OfRegistered(registered: set<string>): Row -> bool {
    (row: Row) => row.phone.None? || row.phone.value in registered
  }

  function OfOthers(registered: set<string>): Row -> bool {
    (row: Row) => row.phone.Some? && row.phone.value !in registered
  }

  /** Held for more than three days. */
  function TooOld(now: Time): Row -> bool { (row: Row) => now - row.heldAt > 3 * 24 * 3600_000 }

  function YoungEnough(now: Time): Row -> bool { (row: Row) => now - row.heldAt <= 3 * 24 * 3600_000 }

  ghost function Where(rows: seq<Row>, p: Row -> bool): seq<Row> {
    if rows == [] then [] else if p(rows[0]) then [rows[0]] + Where(rows[1..], p) else Where(rows[1..], p)
  }

  lemma {:induction false} WhereOfBoth(a: seq<Row>, b: seq<Row>, p: Row -> bool)
    ensures Where(a + b, p) == Where(a, p) + Where(b, p)
  {
    if a == [] {
      assert a + b == b;
    } else {
      WhereOfBoth(a[1..], b, p);
      assert (a + b)[1..] == a[1..] + b;
      Regroup([a[0]], Where(a[1..], p), Where(b, p));
    }
  }

  lemma Regroup<T>(a: seq<T>, b: seq<T>, c: seq<T>)
    ensures a + (b + c) == a + b + c
  {
  }

  lemma WhereWithLast(front: seq<Row>, last: Row, p: Row -> bool)
    ensures Where(front + [last], p) == if p(last) then Where(front, p) + [last] else Where(front, p)
  {
    WhereOfBoth(front, [last], p);
    assert [last][1..] == [];
  }

  lemma PicksOneMore(at: seq<nat>, front: seq<Row>, row: Row, picked: seq<Row>, p: Row -> bool)
    requires PicksAt(at, front, picked, p) && p(row)
    ensures PicksAt(at + [|front|], front + [row], picked + [row], p)
  {
    var all := at + [|front|];
    forall k | 0 <= k < |front| + 1 && p((front + [row])[k]) ensures k in all {
      if k < |front| {
        assert k in at;
      } else {
        assert all[|at|] == k;
      }
    }
  }

  lemma PicksNoMore(at: seq<nat>, front: seq<Row>, row: Row, picked: seq<Row>, p: Row -> bool)
    requires PicksAt(at, front, picked, p) && !p(row)
    ensures PicksAt(at, front + [row], picked, p)
  {
  }

  lemma PickedWithLast(at: seq<nat>, front: seq<Row>, last: Row, p: Row -> bool)
    requires PicksAt(at, front, Where(front, p), p)
    ensures PicksAt(if p(last) then at + [|front|] else at, front + [last], Where(front + [last], p), p)
  {
    WhereWithLast(front, last, p);
    if p(last) {
      PicksOneMore(at, front, last, Where(front, p), p);
    } else {
      PicksNoMore(at, front, last, Where(front, p), p);
    }
  }

  lemma {:induction false} Picked(rows: seq<Row>, p: Row -> bool) returns (at: seq<nat>)
    ensures PicksAt(at, rows, Where(rows, p), p)
  {
    if rows == [] {
      at := [];
    } else {
      var front, last := rows[..|rows| - 1], rows[|rows| - 1];
      assert rows == front + [last];
      var before := Picked(front, p);
      PickedWithLast(before, front, last, p);
      at := if p(last) then before + [|front|] else before;
    }
  }

  lemma {:induction false} ReleaseMeans(rows: seq<Row>, registered: set<string>)
    ensures Keep(rows, registered) == Where(rows, OfRegistered(registered))
    ensures Drop(rows, registered) == Where(rows, OfOthers(registered))
  {
    if rows != [] {
      ReleaseMeans(rows[1..], registered);
    }
  }

  lemma {:induction false} SweepMeans(rows: seq<Row>, now: Time)
    ensures Fresh(rows, now) == Where(rows, YoungEnough(now)) && Aged(rows, now) == Where(rows, TooOld(now))
  {
    if rows != [] {
      SweepMeans(rows[1..], now);
    }
  }

  /** A release ingests the batches that came through a registered phone or none, and discards the others. */
  lemma ReleaseTakesTheRegistered(rows: seq<Row>, registered: set<string>)
    ensures AreThose(rows, Keep(rows, registered), OfRegistered(registered))
    ensures AreThose(rows, Drop(rows, registered), OfOthers(registered))
  {
    ReleaseMeans(rows, registered);
    var kept := Picked(rows, OfRegistered(registered));
    var dropped := Picked(rows, OfOthers(registered));
  }

  /** The sweep drops the batches held for more than three days. */
  lemma SweepDropsTheOld(rows: seq<Row>, now: Time)
    ensures AreThose(rows, Fresh(rows, now), YoungEnough(now)) && AreThose(rows, Aged(rows, now), TooOld(now))
  {
    SweepMeans(rows, now);
    var young := Picked(rows, YoungEnough(now));
    var old' := Picked(rows, TooOld(now));
  }

  method SweepRows(rows: seq<Row>, now: Time) returns (kept: seq<Row>, dropped: nat)
    ensures kept == Fresh(rows, now) && dropped == EventCount(Aged(rows, now))
  {
    kept, dropped := [], 0;
    var left := rows;
    while left != []
      invariant kept + Fresh(left, now) == Fresh(rows, now)
      invariant dropped + EventCount(Aged(left, now)) == EventCount(Aged(rows, now))
      decreases |left|
    {
      FirstBatch(left[0], Aged(left[1..], now));
      if left[0].heldAt < now - HELD_MAX_AGE_MS {
        dropped := dropped + left[0].eventCount;
      } else {
        Regroup(kept, [left[0]], Fresh(left[1..], now));
        kept := kept + [left[0]];
      }
      left := left[1..];
    }
  }

  class Store {
    var rows: seq<Row>
    var nextId: nat
    /** The events given to `ingest`, in order. */
    var ingested: seq<Event>

    ghost predicate Valid()
      reads this
    {
      Wellformed(rows, nextId) && EventCount(rows) <= HELD_MAX_EVENTS
    }

    constructor ()
      ensures Valid() && rows == [] && ingested == []
    {
      rows, nextId, ingested := [], 0, [];
    }

    /** SELECT SUM(event_count). */
    method HeldEventCount() returns (n: nat)
      requires Valid()
      ensures n == EventCount(rows) == |Events(rows)|
    {
      n := 0;
      for i := 0 to |rows|
        invariant n == EventCount(rows[..i])
      {
        LastBatch(rows[..i], rows[i]);
        assert rows[..i + 1] == rows[..i] + [rows[i]];
        n := n + rows[i].eventCount;
      }
      assert rows[..|rows|] == rows;
      CountsAreEvents(rows);
    }

    /** Stores the batch unless it would push the hold past its limit. */
    method HoldBatch(phone: Option<string>, events: seq<Event>, now: Time) returns (held: bool, heldEvents: nat)
      requires Valid()
      modifies this`rows, this`nextId
      ensures Valid()
      ensures held <==> |Events(old(rows))| + |events| <= 5_000
      ensures rows == if held then old(rows) + [Row(old(nextId), phone, events, |events|, now)] else old(rows)
      ensures heldEvents == |Events(rows)|
    {
      heldEvents := HeldEventCount();
      if heldEvents + |events| > HELD_MAX_EVENTS {
        return false, heldEvents;
      }
      var row := Row(nextId, phone, events, |events|, now);
      LastBatch(rows, row);
      rows, nextId := rows + [row], nextId + 1;
      CountsAreEvents(rows);
      return true, heldEvents + |events|;
    }

    /** Ingests the held batches of the registered phones and of no phone, oldest first, and discards the rest. */
    method ReleaseHeld(registered: set<string>) returns (released: nat, discarded: nat, ghost kept: seq<Row>, ghost dropped: seq<Row>)
      requires Valid()
      modifies this`rows, this`ingested
      ensures Valid() && rows == []
      ensures AreThose(old(rows), kept, OfRegistered(registered)) && AreThose(old(rows), dropped, OfOthers(registered))
      ensures ingested == old(ingested) + Events(kept) && released == |Events(kept)| && discarded == |Events(dropped)|
      ensures kept == Keep(old(rows), registered) && dropped == Drop(old(rows), registered)
    {
      ReleaseTakesTheRegistered(rows, registered);
      kept, dropped := Keep(rows, registered), Drop(rows, registered);
      released, discarded := Release(registered);
    }

    method Release(registered: set<string>) returns (released: nat, discarded: nat)
      requires Valid()
      modifies this`rows, this`ingested
      ensures Valid() && rows == []
      ensures ingested == old(ingested) + Events(Keep(old(rows), registered))
      ensures released == |Events(Keep(old(rows), registered))| && discarded == |Events(Drop(old(rows), registered))|
    {
      ghost var before, live := rows, ingested;
      released, discarded := 0, 0;
      while rows != []
        invariant Valid()
        invariant ingested + Events(Keep(rows, registered)) == live + Events(Keep(before, registered))
        invariant released + |Events(Keep(rows, registered))| == |Events(Keep(before, registered))|
        invariant discarded + |Events(Drop(rows, registered))| == |Events(Drop(before, registered))|
        decreases |rows|
      {
        var batch, rest := rows[0], rows[1..];
        FirstBatch(batch, Keep(rest, registered));
        FirstBatch(batch, Drop(rest, registered));
        assert EventCount(rest) <= EventCount(rows);
        if batch.phone.None? || batch.phone.value in registered {
          Regroup(ingested, batch.events, Events(Keep(rest, registered)));
          ingested := ingested + batch.events;
          released := released + |batch.events|;
        } else {
          discarded := discarded + |batch.events|;
        }
        rows := rest;
      }
    }

    /** The sweep: drops batches held too long. */
    method ExpireHeld(now: Time) returns (dropped: nat, ghost gone: seq<Row>)
      requires Valid()
      modifies this`rows
      ensures Valid() && AreThose(old(rows), rows, YoungEnough(now))
      ensures AreThose(old(rows), gone, TooOld(now)) && dropped == |Events(gone)|
      ensures rows == Fresh(old(rows), now) && gone == Aged(old(rows), now)
    {
      SweepDropsTheOld(rows, now);
      gone := Aged(rows, now);
      SweepIsValid(rows, now, nextId);
      rows, dropped := SweepRows(rows, now);
    }

    /** Erasure rewrites one batch with the events it keeps. */
    method ReplaceHeld(k: nat, events: seq<Event>)
      requires Valid() && k < |rows| && |events| <= |rows[k].events|
      modifies this`rows
      ensures Valid() && rows == Replaced(old(rows), k, events)
      ensures rows[..k] == old(rows)[..k]
      ensures events != [] ==> |rows| == |old(rows)| && rows[k + 1..] == old(rows)[k + 1..]
                               && rows[k] == Row(old(rows)[k].id, old(rows)[k].phone, events, |events|, old(rows)[k].heldAt)
      ensures events == [] ==> rows[k..] == old(rows)[k + 1..]
    {
      ReplacedFits(rows, k, events, nextId);
      ghost var replaced := Replaced(rows, k, events);
      if events == [] {
        rows := rows[..k] + rows[k + 1..];
      } else {
        rows := rows[k := rows[k].(events := events, eventCount := |events|)];
      }
      assert rows == replaced;
    }
  }

  lemma ReplacedFits(rows: seq<Row>, k: nat, events: seq<Event>, nextId: nat)
    requires Wellformed(rows, nextId) && k < |rows| && |events| <= |rows[k].events|
    ensures Wellformed(Replaced(rows, k, events), nextId) && EventCount(Replaced(rows, k, events)) <= EventCount(rows)
  {
    CountsAreEvents(rows);
    SplitEvents(rows, k);
    ReplacedEvents(rows, k, events);
    ReplacedIsWellformed(rows, k, events, nextId);
    CountsAreEvents(Replaced(rows, k, events));
  }
}

/** The handshake between webhook workers and the saga: whoever stores a batch looks again whether the
    WABA became active meanwhile, and whoever makes it active releases what is held
    (apps/gateway/src/worker.ts, apps/gateway/src/provisioning.ts). */
module HeldHandshake {
  import opened Core
  import opened Held

  datatype Status = Waiting | Active | Dead

  /** Where a webhook worker is with one batch. */
  datatype Stage =
    | Holding(phone: Option<string>, events: seq<Event>)
    | Rechecking
    | Ingesting(events: seq<Event>, phones: set<string>)
    | Releasing(phones: set<string>)

  /** `sagas` are completed saga runs that have not released yet. `lost` is set when somebody died who was
      going to release. The logs say what became of every accepted event. */
  datatype State = State(
    status: Status,
    phones: set<string>,
    rows: seq<Row>,
    nextId: nat,
    workers: map<nat, Stage>,
    sagas: multiset<set<string>>,
    lost: bool,
    accepted: multiset<Event>,
    ingested: seq<Event>,
    live: multiset<Event>,
    discarded: multiset<Event>,
    expired: multiset<Event>,
    erased: multiset<Event>)

  const Initial: State :=
    State(Waiting, {}, [], 0, map[], multiset{}, false, multiset{}, [], multiset{}, multiset{}, multiset{}, multiset{})

  datatype Step =
    | HArrive(w: nat, phone: Option<string>, events: seq<Event>)
    | HHold(w: nat, now: Time)
    | HRecheck(w: nat)
    | HIngest(w: nat)
    | HRelease(w: nat)
    | HDie(w: nat)
    | SActivate
    | SRelease(phones: set<string>)
    | SDie(phones: set<string>)
    | SDeactivate(status: Status, phones: set<string>)
    | TSweep(now: Time)
    | TErase(k: nat, events: seq<Event>)

  predicate Possible(s: State, step: Step) {
    match step
    case HArrive(w, _, _) => w !in s.workers
    case HHold(w, _) => w in s.workers && s.workers[w].Holding?
    case HRecheck(w) => w in s.workers && s.workers[w].Rechecking?
    case HIngest(w) => w in s.workers && s.workers[w].Ingesting?
    case HRelease(w) => w in s.workers && s.workers[w].Releasing?
    case HDie(w) => w in s.workers
    case SActivate => s.status.Waiting?
    case SRelease(phones) => phones in s.sagas
    case SDie(phones) => phones in s.sagas
    case SDeactivate(status, _) => !status.Active?
    case TSweep(_) => true
    case TErase(k, events) => k < |s.rows| && multiset(events) <= multiset(s.rows[k].events)
  }

  /** The lookup: hold while pending, ingest on an active WABA's own phone, else ignore. */
  function Arrived(s: State, w: nat, phone: Option<string>, events: seq<Event>): State {
    if s.status.Waiting? then s.(workers := s.workers[w := Holding(phone, events)])
    else if s.status.Active? && (phone.None? || phone.value in s.phones)
      then s.(workers := s.workers[w := Ingesting(events, s.phones)])
    else s
  }

  function HeldNow(s: State, w: nat, now: Time): State
    requires w in s.workers && s.workers[w].Holding?
  {
    var st := s.workers[w];
    if EventCount(s.rows) + |st.events| > HELD_MAX_EVENTS then s.(workers := s.workers - {w})
    else s.(rows := s.rows + [Row(s.nextId, st.phone, st.events, |st.events|, now)], nextId := s.nextId + 1,
            workers := s.workers[w := Rechecking], accepted := s.accepted + multiset(st.events))
  }

  function Released(s: State, phones: set<string>): State {
    s.(rows := [], lost := false, ingested := s.ingested + Events(Keep(s.rows, phones)),
       discarded := s.discarded + multiset(Events(Drop(s.rows, phones))))
  }

  function Apply(s: State, step: Step): State
    requires Possible(s, step)
  {
    match step
    case HArrive(w, phone, events) => Arrived(s, w, phone, events)
    case HHold(w, now) => HeldNow(s, w, now)
    case HRecheck(w) =>
      s.(workers := if s.status.Active? then s.workers[w := Releasing(s.phones)] else s.workers - {w})
    case HIngest(w) =>
      s.(live := s.live + multiset(s.workers[w].events),
         workers := if s.rows != [] then s.workers[w := Releasing(s.workers[w].phones)] else s.workers - {w})
    case HRelease(w) => Released(s, s.workers[w].phones).(workers := s.workers - {w})
    case HDie(w) =>
      s.(workers := s.workers - {w}, lost := s.lost || s.workers[w].Rechecking? || s.workers[w].Releasing?)
    case SActivate => s.(status := Active, sagas := s.sagas + multiset{s.phones})
    case SRelease(phones) => Released(s, phones).(sagas := s.sagas - multiset{phones})
    case SDie(phones) => s.(sagas := s.sagas - multiset{phones}, lost := true)
    case SDeactivate(status, phones) => s.(status := status, phones := phones)
    case TSweep(now) => s.(rows := Fresh(s.rows, now), expired := s.expired + multiset(Events(Aged(s.rows, now))))
    case TErase(k, events) =>
      s.(rows := Replaced(s.rows, k, events), erased := s.erased + (multiset(s.rows[k].events) - multiset(events)))
  }

  predicate Run(s: State, steps: seq<Step>)
    decreases |steps|
  {
    steps == [] || (Possible(s, steps[0]) && Run(Apply(s, steps[0]), steps[1..]))
  }

  function After(s: State, steps: seq<Step>): State
    requires Run(s, steps)
    decreases |steps|
  {
    if steps == [] then s else After(Apply(s, steps[0]), steps[1..])
  }

  /** What an arriving batch meets: a pending WABA holds it, an active one ingests it when it came through one of
      its phones or none, and any other ignores it. */
  lemma ArrivalsMeetTheStatus(s: State, w: nat, phone: Option<string>, events: seq<Event>)
    requires Possible(s, HArrive(w, phone, events))
    ensures var s' := Apply(s, HArrive(w, phone, events));
            && s' == s.(workers := s'.workers)
            && (s.status.Waiting? ==> s'.workers == s.workers[w := Holding(phone, events)])
            && (s.status.Active? && phone in {None} + (set p | p in s.phones :: Some(p)) ==>
                  s'.workers == s.workers[w := Ingesting(events, s.phones)])
            && (s.status.Dead? || (s.status.Active? && phone.Some? && phone.value !in s.phones) ==> s' == s)
  {
  }

  /** And what the hold does with it: stored behind the others exactly when the hold stays within 5000 events, for
      its worker to look again. */
  lemma HoldsWithinTheLimit(s: State, w: nat, now: Time)
    requires Possible(s, HHold(w, now)) && Wellformed(s.rows, s.nextId)
    ensures var s', st := Apply(s, HHold(w, now)), s.workers[w];
            if |Events(s.rows)| + |st.events| <= 5_000 then
              && s'.rows == s.rows + [Row(s.nextId, st.phone, st.events, |st.events|, now)]
              && s'.workers == s.workers[w := Rechecking] && s'.accepted == s.accepted + multiset(st.events)
            else s' == s.(workers := s.workers - {w})
  {
    CountsAreEvents(s.rows);
  }

  // ---- Nothing stays held -------------------------------------------------------------------

  /** A worker that is going to look again, or to release. */
  ghost predicate WorkerCares(s: State) {
    exists w :: w in s.workers && (s.workers[w].Rechecking? || s.workers[w].Releasing?)
  }

  ghost predicate HandshakeOk(s: State) {
    s.status.Active? && s.rows != [] ==> s.lost || s.sagas != multiset{} || WorkerCares(s)
  }

  lemma StillCares(s: State, s': State, w: nat)
    requires w in s'.workers && (s'.workers[w].Rechecking? || s'.workers[w].Releasing?)
    ensures WorkerCares(s')
  {
  }

  /** Another worker than `w` that cares goes on caring. */
  lemma OthersCare(s: State, s': State, w: nat)
    requires forall v :: v in s.workers && v != w ==> v in s'.workers && s'.workers[v] == s.workers[v]
    requires w in s.workers ==> !s.workers[w].Rechecking? && !s.workers[w].Releasing?
    ensures WorkerCares(s) ==> WorkerCares(s')
  {
  }

  lemma HoldKeepsHandshake(s: State, w: nat, now: Time)
    requires HandshakeOk(s) && Possible(s, HHold(w, now))
    ensures HandshakeOk(HeldNow(s, w, now))
  {
    var s' := HeldNow(s, w, now);
    if w in s'.workers {
      StillCares(s, s', w);
    } else {
      OthersCare(s, s', w);
    }
  }

  lemma RecheckKeepsHandshake(s: State, w: nat)
    requires HandshakeOk(s) && Possible(s, HRecheck(w))
    ensures HandshakeOk(Apply(s, HRecheck(w)))
  {
    if s.status.Active? {
      StillCares(s, Apply(s, HRecheck(w)), w);
    }
  }

  lemma IngestKeepsHandshake(s: State, w: nat)
    requires HandshakeOk(s) && Possible(s, HIngest(w))
    ensures HandshakeOk(Apply(s, HIngest(w)))
  {
    if s.rows != [] {
      StillCares(s, Apply(s, HIngest(w)), w);
    }
  }

  lemma DeathKeepsHandshake(s: State, w: nat)
    requires HandshakeOk(s) && Possible(s, HDie(w))
    ensures HandshakeOk(Apply(s, HDie(w)))
  {
    if !s.workers[w].Rechecking? && !s.workers[w].Releasing? {
      OthersCare(s, Apply(s, HDie(w)), w);
    }
  }

  lemma ArrivalKeepsHandshake(s: State, w: nat, phone: Option<string>, events: seq<Event>)
    requires HandshakeOk(s) && Possible(s, HArrive(w, phone, events))
    ensures HandshakeOk(Arrived(s, w, phone, events))
  {
    OthersCare(s, Arrived(s, w, phone, events), w);
  }

  lemma StepKeepsHandshake(s: State, step: Step)
    requires HandshakeOk(s) && Possible(s, step)
    ensures HandshakeOk(Apply(s, step))
  {
    match step
    case HArrive(w, phone, events) => ArrivalKeepsHandshake(s, w, phone, events);
    case HHold(w, now) => HoldKeepsHandshake(s, w, now);
    case HRecheck(w) => RecheckKeepsHandshake(s, w);
    case HIngest(w) => IngestKeepsHandshake(s, w);
    case HDie(w) => DeathKeepsHandshake(s, w);
    case SActivate => assert s.phones in s.sagas + multiset{s.phones};
    case HRelease(_) =>
    case SRelease(_) =>
    case SDie(_) =>
    case SDeactivate(_, _) =>
    case TSweep(_) =>
    case TErase(_, _) =>
  }

  // ---- Accounting ---------------------------------------------------------------------------

  ghost predicate TableOk(s: State) {
    Wellformed(s.rows, s.nextId) && EventCount(s.rows) == |Events(s.rows)| <= HELD_MAX_EVENTS
  }

  /** Every accepted event is still held, or met exactly one end. */
  ghost predicate Accounted(s: State) {
    s.accepted == multiset(Events(s.rows)) + multiset(s.ingested) + s.discarded + s.expired + s.erased
  }

  lemma HoldKeepsTable(s: State, w: nat, now: Time)
    requires TableOk(s) && Accounted(s) && Possible(s, HHold(w, now))
    ensures TableOk(HeldNow(s, w, now)) && Accounted(HeldNow(s, w, now))
  {
    var st := s.workers[w];
    var row := Row(s.nextId, st.phone, st.events, |st.events|, now);
    LastBatch(s.rows, row);
  }

  lemma ReleaseKeepsTable(s: State, phones: set<string>)
    requires TableOk(s) && Accounted(s)
    ensures TableOk(Released(s, phones)) && Accounted(Released(s, phones))
  {
    ReleaseSplits(s.rows, phones);
    assert multiset(s.ingested + Events(Keep(s.rows, phones))) == multiset(s.ingested) + multiset(Events(Keep(s.rows, phones)));
  }

  lemma SweepKeepsTable(s: State, now: Time)
    requires TableOk(s) && Accounted(s)
    ensures TableOk(Apply(s, TSweep(now))) && Accounted(Apply(s, TSweep(now)))
  {
    SweepSplits(s.rows, now);
    FreshIsWellformed(s.rows, now, s.nextId);
    CountsAreEvents(Fresh(s.rows, now));
  }

  lemma EraseKeepsTable(s: State, k: nat, events: seq<Event>)
    requires TableOk(s) && Possible(s, TErase(k, events))
    ensures TableOk(Apply(s, TErase(k, events)))
  {
    SplitEvents(s.rows, k);
    ReplacedEvents(s.rows, k, events);
    ReplacedIsWellformed(s.rows, k, events, s.nextId);
    CountsAreEvents(Replaced(s.rows, k, events));
    SmallerMultiset(multiset(events), multiset(s.rows[k].events));
    assert |multiset(events)| == |events| && |multiset(s.rows[k].events)| == |s.rows[k].events|;
  }

  lemma EraseAccounts(s: State, k: nat, events: seq<Event>)
    requires Accounted(s) && Possible(s, TErase(k, events))
    ensures Accounted(Apply(s, TErase(k, events)))
  {
    SplitEvents(s.rows, k);
    ReplacedEvents(s.rows, k, events);
    var front, back := multiset(Events(s.rows[..k])), multiset(Events(s.rows[k + 1..]));
    var batch, kept := multiset(s.rows[k].events), multiset(events);
    assert multiset(Events(s.rows)) == front + batch + back;
    assert multiset(Events(Replaced(s.rows, k, events))) == front + kept + back;
    PartOfBatch(front, batch, back, kept);
  }

  lemma PartOfBatch(front: multiset<Event>, batch: multiset<Event>, back: multiset<Event>, kept: multiset<Event>)
    requires kept <= batch
    ensures front + batch + back == front + kept + back + (batch - kept)
  {
  }

  lemma SmallerMultiset(a: multiset<Event>, b: multiset<Event>)
    requires a <= b
    ensures |a| <= |b|
  {
    assert b == a + (b - a);
  }

  lemma StepKeepsTable(s: State, step: Step)
    requires TableOk(s) && Accounted(s) && Possible(s, step)
    ensures TableOk(Apply(s, step)) && Accounted(Apply(s, step))
  {
    match step
    case HHold(w, now) => HoldKeepsTable(s, w, now);
    case HRelease(w) => ReleaseKeepsTable(s, s.workers[w].phones);
    case SRelease(phones) => ReleaseKeepsTable(s, phones);
    case TSweep(now) => SweepKeepsTable(s, now);
    case TErase(k, events) => EraseKeepsTable(s, k, events); EraseAccounts(s, k, events);
    case _ =>
  }

  lemma {:induction false} RunKeepsAll(s: State, steps: seq<Step>)
    requires HandshakeOk(s) && TableOk(s) && Accounted(s) && Run(s, steps)
    ensures HandshakeOk(After(s, steps)) && TableOk(After(s, steps)) && Accounted(After(s, steps))
    decreases |steps|
  {
    if steps != [] {
      StepKeepsHandshake(s, steps[0]);
      StepKeepsTable(s, steps[0]);
      RunKeepsAll(Apply(s, steps[0]), steps[1..]);
    }
  }

  /** Main result: with no webhook worker and no saga step outstanding, an active WABA holds nothing,
      unless somebody died between storing or activating and releasing since the last release. */
  lemma ActiveHoldsNothing(steps: seq<Step>)
    requires Run(Initial, steps)
    ensures var s := After(Initial, steps);
            s.status.Active? && s.workers == map[] && s.sagas == multiset{} && !s.lost ==> s.rows == []
  {
    RunKeepsAll(Initial, steps);
  }

  /** What a death left behind is picked up by the next webhook that ingests: it sees the held batches,
      and once its release ran nothing is held and nothing is lost. */
  lemma NextIngestReleases(s: State, w: nat)
    requires Possible(s, HIngest(w)) && s.rows != []
    ensures var s' := Apply(s, HIngest(w));
            && Possible(s', HRelease(w))
            && Apply(s', HRelease(w)).rows == [] && !Apply(s', HRelease(w)).lost
  {
  }

  /** The hold never passes its limit, its total is the events it stores, and no event is lost or doubled. */
  lemma HeldEventsAddUp(steps: seq<Step>)
    requires Run(Initial, steps)
    ensures var s := After(Initial, steps);
            && EventCount(s.rows) == |Events(s.rows)| <= HELD_MAX_EVENTS
            && s.accepted == multiset(Events(s.rows)) + multiset(s.ingested) + s.discarded + s.expired + s.erased
  {
    RunKeepsAll(Initial, steps);
  }
}
