/**
 The telemetry queue, the spool and the control plane's table as one machine (`Emit`,
 `persist`, `deliver`, `send`, `sendPerEvent`, `remove` in
 internal/gateway/telemetry.go, and the telemetry routes of controlplane/app.py).
 Events are queued, written, posted, stored and removed in any interleaving; a post may
 be stored without its answer arriving, and may be stored late.
 */
module Spools {
  import opened Common

  datatype Event = Event(id: string, json: string)

  const MAX_FILES: nat := 10000

  /**
   `offered` is every event ever emitted, `sent` every one ever posted, `counted` those
   in this process's drop counter, `earlier` those in the counters of processes before it,
   and `lost` those still queued when a process was killed.
   */
  datatype Store = Store(
    cap: nat, files: map<string, string>, used: int, count: int, dropped: nat,
    table: map<string, string>,
    offered: map<string, string>, sent: set<Event>, counted: set<string>, earlier: set<string>,
    room: nat, queue: seq<Event>, lost: set<string>)

  datatype Action =
    | Emit(e: Event)
    | Persist
    | Post(batch: seq<Event>)
    | Arrive(events: seq<Event>)
    | Remove(id: string, drop: bool)
    | Restart

  function Ids(events: seq<Event>): set<string> { set e | e in events :: e.id }

  ghost predicate OnDisk(files: map<string, string>, batch: seq<Event>) {
    forall e :: e in batch ==> e.id in files && files[e.id] == e.json
  }

  function Insert(table: map<string, string>, e: Event): map<string, string> {
    if e.id in table then table else table[e.id := e.json]
  }

  function InsertAll(table: map<string, string>, events: seq<Event>): map<string, string> {
    if events == [] then table else Insert(InsertAll(table, events[..|events| - 1]), events[|events| - 1])
  }

  ghost function Sizes(files: map<string, string>): map<string, nat> { map id | id in files :: |files[id]| }

  /** Event ids are never reused, and what is removed uncounted was stored first. */
  ghost predicate Enabled(s: Store, a: Action) {
    match a
    case Emit(e) => e.id !in s.offered
    case Persist => s.queue != []
    case Post(batch) => OnDisk(s.files, batch)
    case Arrive(events) => forall e :: e in events ==> e in s.sent
    case Remove(id, drop) => id in s.files && (drop || id in s.table)
    case Restart => true
  }

  predicate Full(s: Store, e: Event) { s.used + |e.json| > s.cap || s.count >= MAX_FILES }

  ghost function Next(s: Store, a: Action): Store
    requires Enabled(s, a)
  {
    match a
    case Emit(e) =>
      var s' := s.(offered := s.offered[e.id := e.json]);
      if |s.queue| < s.room then s'.(queue := s.queue + [e])
      else s'.(dropped := s.dropped + 1, counted := s.counted + {e.id})
    case Persist =>
      var e, s' := s.queue[0], s.(queue := s.queue[1..]);
      if Full(s, e) then s'.(dropped := s.dropped + 1, counted := s.counted + {e.id})
      else s'.(files := s.files[e.id := e.json], used := s.used + |e.json|, count := s.count + 1)
    case Post(batch) => s.(sent := s.sent + set e | e in batch)
    case Arrive(events) => s.(table := InsertAll(s.table, events))
    case Remove(id, drop) =>
      var s' := s.(files := s.files - {id}, used := s.used - |s.files[id]|, count := s.count - 1);
      if drop then s'.(dropped := s.dropped + 1, counted := s.counted + {id}) else s'
    case Restart =>
      s.(used := Sum(Sizes(s.files)), count := |s.files|, dropped := 0, counted := {}, earlier := s.earlier + s.counted,
         queue := [], lost := s.lost + Ids(s.queue))
  }

  // ----- what every run keeps -----

  ghost predicate Within(part: map<string, string>, whole: map<string, string>) {
    forall id :: id in part ==> id in whole && part[id] == whole[id]
  }

  /** Every event emitted is somewhere, unchanged. */
  ghost predicate Placed(s: Store) {
    && (forall id :: id in s.offered ==>
          id in s.files || id in s.table || id in s.counted || id in s.earlier || id in s.lost || id in Ids(s.queue))
    && Within(s.files, s.offered) && Within(s.table, s.offered)
    && (forall e :: e in s.sent ==> e.id in s.offered && s.offered[e.id] == e.json)
  }

  /** The counters say what was dropped and what is on disk, which keeps within its caps. */
  ghost predicate Gauged(s: Store) {
    && s.counted !! s.files.Keys && s.counted <= s.offered.Keys && s.dropped == |s.counted|
    && s.used == Sum(Sizes(s.files)) && s.count == |s.files|
    && s.used <= s.cap && s.count <= MAX_FILES
  }

  /** What is queued was emitted, and is neither written nor counted yet. */
  ghost predicate Waiting(s: Store) {
    && |s.queue| <= s.room && DistinctIds(s.queue)
    && (forall e :: e in s.queue ==>
          e.id in s.offered && s.offered[e.id] == e.json && e.id !in s.files && e.id !in s.counted)
  }

  ghost predicate Inv(s: Store) { Placed(s) && Gauged(s) && Waiting(s) }

  function Opened(cap: nat, room: nat): Store { Store(cap, map[], 0, 0, 0, map[], map[], {}, {}, {}, room, [], {}) }

  /** The first row for an id stays, and rows come only from what is inserted. */
  lemma {:induction false} InsertAllKeeps(table: map<string, string>, events: seq<Event>)
    ensures var t := InsertAll(table, events);
      && (forall id :: id in table ==> id in t && t[id] == table[id])
      && (forall e :: e in events ==> e.id in t)
      && (forall id :: id in t && id !in table ==> Event(id, t[id]) in events)
  {
    if events == [] {
    } else {
      InsertAllKeeps(table, events[..|events| - 1]);
      assert events == events[..|events| - 1] + [events[|events| - 1]];
    }
  }

  lemma NothingOnDisk()
    ensures Sum(Sizes(map[])) == 0
  {
    assert Sizes(map[]) == map[];
  }

  lemma WriteSizes(files: map<string, string>, id: string, json: string)
    requires id !in files
    ensures Sum(Sizes(files[id := json])) == Sum(Sizes(files)) + |json|
    ensures |files[id := json]| == |files| + 1
  {
    assert Sizes(files[id := json]) == Sizes(files)[id := |json|];
    SumUpdate(Sizes(files), id, |json|);
    assert files[id := json].Keys == files.Keys + {id};
    assert |files[id := json]| == |files[id := json].Keys|;
  }

  lemma RemoveSizes(files: map<string, string>, id: string)
    requires id in files
    ensures Sum(Sizes(files - {id})) == Sum(Sizes(files)) - |files[id]|
    ensures |files - {id}| == |files| - 1
  {
    assert Sizes(files - {id}) == Sizes(files) - {id};
    SumRemove(Sizes(files), id);
    assert (files - {id}).Keys == files.Keys - {id};
    assert |files - {id}| == |(files - {id}).Keys|;
  }

  lemma NextKeepsInv(s: Store, a: Action)
    requires Inv(s) && Enabled(s, a)
    ensures Inv(Next(s, a))
  {
    hide Placed, Gauged, Waiting;
    match a
    case Emit(e) => EmitKeepsInv(s, e);
    case Persist => PersistKeepsInv(s);
    case Post(batch) => PostKeepsInv(s, batch);
    case Arrive(events) => ArriveKeepsInv(s, events);
    case Remove(id, drop) => RemoveKeepsInv(s, id, drop);
    case Restart => RestartKeepsInv(s);
  }

  lemma RestartKeepsInv(s: Store)
    requires Inv(s)
    ensures Inv(Next(s, Restart))
  {
    hide Sum, Sizes, InsertAll;
    assert Placed(Next(s, Restart)) by { hide Gauged, Waiting, Within; }
  }

  lemma PostKeepsInv(s: Store, batch: seq<Event>)
    requires Inv(s) && Enabled(s, Post(batch))
    ensures Inv(Next(s, Post(batch)))
  {
    hide Sum, Sizes;
  }

  lemma EmitPlaces(s: Store, e: Event)
    requires Placed(s) && Enabled(s, Emit(e))
    ensures Placed(Next(s, Emit(e)))
  {
    assert e in s.queue + [e] && forall x :: x in s.queue ==> x in s.queue + [e];
  }

  lemma EmitGauges(s: Store, e: Event)
    requires Gauged(s) && e.id !in s.offered && e.id !in s.files
    ensures Gauged(Next(s, Emit(e)))
  {
    hide Sum, Sizes;
  }

  lemma EmitWaits(s: Store, e: Event)
    requires Waiting(s) && e.id !in s.offered && e.id !in s.files && e.id !in s.counted
    ensures Waiting(Next(s, Emit(e)))
  {
    hide Sum, Sizes;
    forall i | 0 <= i < |s.queue| ensures s.queue[i].id != e.id {
      assert s.queue[i] in s.queue;
    }
  }

  lemma EmitKeepsInv(s: Store, e: Event)
    requires Inv(s) && Enabled(s, Emit(e))
    ensures Inv(Next(s, Emit(e)))
  {
    assert e.id !in s.files && e.id !in s.counted;
    hide Placed, Gauged, Waiting;
    EmitPlaces(s, e);
    EmitGauges(s, e);
    EmitWaits(s, e);
  }

  lemma PersistPlaces(s: Store)
    requires Placed(s) && Enabled(s, Persist) && s.queue[0].id in s.offered && s.offered[s.queue[0].id] == s.queue[0].json
    ensures Placed(Next(s, Persist))
  {
    assert s.queue == [s.queue[0]] + s.queue[1..];
    assert forall x :: x in s.queue ==> x == s.queue[0] || x in s.queue[1..];
  }

  lemma PersistGauges(s: Store, e: Event)
    requires Gauged(s) && s.queue != [] && s.queue[0] == e && e.id in s.offered && e.id !in s.files && e.id !in s.counted
    ensures Gauged(Next(s, Persist))
  {
    hide Sum, Sizes;
    if !Full(s, e) { WriteSizes(s.files, e.id, e.json); }
  }

  lemma PersistWaits(s: Store)
    requires Waiting(s) && Enabled(s, Persist)
    ensures Waiting(Next(s, Persist))
  {
    var rest := s.queue[1..];
    assert forall x :: x in rest ==> x in s.queue;
    forall x | x in rest ensures x.id != s.queue[0].id {
      var i :| 0 <= i < |rest| && rest[i] == x;
      assert s.queue[i + 1] == x;
    }
  }

  lemma PersistKeepsInv(s: Store)
    requires Inv(s) && Enabled(s, Persist)
    ensures Inv(Next(s, Persist))
  {
    assert s.queue[0] in s.queue;
    PersistWaits(s);
    PersistPlaces(s);
    PersistGauges(s, s.queue[0]);
    hide Placed, Gauged, Waiting;
  }

  lemma ArriveKeepsInv(s: Store, events: seq<Event>)
    requires Inv(s) && Enabled(s, Arrive(events))
    ensures Inv(Next(s, Arrive(events)))
  {
    hide Sum, Sizes, InsertAll;
    InsertAllKeeps(s.table, events);
  }

  lemma RemoveKeepsInv(s: Store, id: string, drop: bool)
    requires Inv(s) && Enabled(s, Remove(id, drop))
    ensures Inv(Next(s, Remove(id, drop)))
  {
    hide Sum, Sizes, InsertAll;
    RemoveSizes(s.files, id);
  }

  ghost predicate ValidRun(s: Store, acts: seq<Action>)
    decreases |acts|, 0
  {
    acts == [] || (ValidRun(s, acts[..|acts| - 1]) && Enabled(After(s, acts[..|acts| - 1]), acts[|acts| - 1]))
  }

  ghost function After(s: Store, acts: seq<Action>): Store
    requires ValidRun(s, acts)
    decreases |acts|, 1
  {
    if acts == [] then s else Next(After(s, acts[..|acts| - 1]), acts[|acts| - 1])
  }

  lemma RunSnoc(s: Store, acts: seq<Action>, a: Action)
    requires ValidRun(s, acts) && Enabled(After(s, acts), a)
    ensures ValidRun(s, acts + [a]) && After(s, acts + [a]) == Next(After(s, acts), a)
  {
    assert (acts + [a])[..|acts|] == acts;
  }

  lemma {:induction false} RunKeepsInv(s: Store, acts: seq<Action>)
    requires Inv(s) && ValidRun(s, acts)
    ensures Inv(After(s, acts))
  {
    if acts == [] {
    } else {
      RunKeepsInv(s, acts[..|acts| - 1]);
      NextKeepsInv(After(s, acts[..|acts| - 1]), acts[|acts| - 1]);
    }
  }

  /**
   Every event of every run is on disk, in the table, in a drop counter, or queued, unless a
   process was killed with it in the queue; the gauges are exact.
   */
  lemma Conserved(cap: nat, room: nat, acts: seq<Action>)
    requires ValidRun(Opened(cap, room), acts)
    ensures var s := After(Opened(cap, room), acts);
      && (forall id :: id in s.offered ==>
            || (id in s.files && s.files[id] == s.offered[id])
            || (id in s.table && s.table[id] == s.offered[id])
            || id in s.counted + s.earlier
            || id in Ids(s.queue) || id in s.lost)
      && s.dropped == |s.counted|
      && s.used == Sum(Sizes(s.files)) <= cap && s.count == |s.files| <= MAX_FILES && |s.queue| <= room
      && (Drained(Opened(cap, room), acts) ==> s.lost == {})
  {
    NothingOnDisk();
    RunKeepsInv(Opened(cap, room), acts);
    CapIsFixed(Opened(cap, room), acts);
    NoneKilled(Opened(cap, room), acts);
  }

  /** A process that drains its queue before it ends loses nothing. */
  ghost predicate Drained(s: Store, acts: seq<Action>)
    requires ValidRun(s, acts)
  {
    forall n :: 0 <= n < |acts| && acts[n] == Restart ==> ValidRun(s, acts[..n]) && After(s, acts[..n]).queue == []
  }

  lemma {:induction false} NoneKilled(s: Store, acts: seq<Action>)
    requires ValidRun(s, acts)
    ensures Drained(s, acts) ==> After(s, acts).lost == s.lost
  {
    if acts == [] {
    } else {
      var prev := acts[..|acts| - 1];
      NoneKilled(s, prev);
      if Drained(s, acts) {
        forall n | 0 <= n < |prev| && prev[n] == Restart ensures ValidRun(s, prev[..n]) && After(s, prev[..n]).queue == [] {
          assert acts[n] == Restart && prev[..n] == acts[..n];
        }
        if acts[|prev|] == Restart { assert After(s, acts[..|prev|]).queue == []; }
        assert Ids([]) == {};
      }
      hide Enabled, Sum, Sizes, InsertAll;
    }
  }

  lemma {:induction false} CapIsFixed(s: Store, acts: seq<Action>)
    requires ValidRun(s, acts)
    ensures After(s, acts).cap == s.cap && After(s, acts).room == s.room
  {
    if acts == [] {
    } else {
      CapIsFixed(s, acts[..|acts| - 1]);
    }
  }

  lemma {:induction false} WithinIsSmaller(part: map<string, string>, whole: map<string, string>)
    requires Within(part, whole)
    ensures Sum(Sizes(part)) <= Sum(Sizes(whole)) && |part| <= |whole|
    decreases |part|
  {
    hide Sum, Sizes;
    if part == map[] {
      NothingOnDisk();
    } else {
      var id :| id in part;
      RemoveSizes(part, id);
      RemoveSizes(whole, id);
      WithinIsSmaller(part - {id}, whole - {id});
    }
  }

  lemma {:induction false} QueueIsSmaller(queue: seq<Event>, offered: map<string, string>)
    requires DistinctIds(queue) && forall e :: e in queue ==> e.id in offered
    ensures |queue| <= |offered|
  {
    if queue == [] {
    } else {
      var e := queue[|queue| - 1];
      assert e in queue;
      forall x | x in queue[..|queue| - 1] ensures x.id in offered - {e.id} {
        assert x in queue;
      }
      QueueIsSmaller(queue[..|queue| - 1], offered - {e.id});
      RemoveSizes(offered, e.id);
    }
  }

  /** All of it at once would keep within the caps, on disk and in the queue. */
  ghost predicate Fits(offered: map<string, string>, cap: nat, room: nat) {
    Sum(Sizes(offered)) <= cap && |offered| <= 10000 && |offered| <= room
  }

  lemma RoomInQueue(s: Store, e: Event)
    requires Waiting(s) && e.id !in s.offered && Fits(s.offered[e.id := e.json], s.cap, s.room)
    ensures |s.queue| < s.room
  {
    QueueIsSmaller(s.queue, s.offered);
    WriteSizes(s.offered, e.id, e.json);
    hide Sum, Sizes;
  }

  lemma RoomOnDisk(s: Store, e: Event)
    requires Gauged(s) && Within(s.files, s.offered) && e.id !in s.files && e.id in s.offered && s.offered[e.id] == e.json
    requires Fits(s.offered, s.cap, s.room)
    ensures !Full(s, e)
  {
    hide Sum, Sizes;
    WriteSizes(s.files, e.id, e.json);
    WithinIsSmaller(s.files[e.id := e.json], s.offered);
  }

  /** One step drops nothing if, counting what it offers, everything fits. */
  lemma FittingStepDropsNothing(s: Store, a: Action)
    requires Inv(s) && Enabled(s, a) && !(a.Remove? && a.drop) && s.counted == {}
    requires Fits(Next(s, a).offered, s.cap, s.room)
    ensures Next(s, a).counted == {} && Next(s, a).earlier == s.earlier
  {
    hide Sum, Sizes, InsertAll, Fits, Full;
    match a {
      case Emit(e) => RoomInQueue(s, e);
      case Persist =>
        assert s.queue[0] in s.queue;
        RoomOnDisk(s, s.queue[0]);
      case _ =>
    }
    hide Gauged, Placed, Waiting;
  }

  lemma FitsEarlier(s: Store, a: Action)
    requires Enabled(s, a) && Fits(Next(s, a).offered, s.cap, s.room)
    ensures Fits(s.offered, s.cap, s.room)
  {
    hide Sum, Sizes;
    WithinIsSmaller(s.offered, Next(s, a).offered);
  }

  /** Nothing is dropped in a run whose events would all fit at once, unless the control plane refuses one. */
  lemma {:induction false} FittingRunDropsNothing(cap: nat, room: nat, acts: seq<Action>)
    requires ValidRun(Opened(cap, room), acts) && Fits(After(Opened(cap, room), acts).offered, cap, room)
    requires forall a :: a in acts ==> !(a.Remove? && a.drop)
    ensures var s := After(Opened(cap, room), acts); s.counted == s.earlier == {} && s.dropped == 0
  {
    NothingOnDisk();
    RunKeepsInv(Opened(cap, room), acts);
    if acts == [] {
    } else {
      var prev, a, start := acts[..|acts| - 1], acts[|acts| - 1], Opened(cap, room);
      RunKeepsInv(start, prev);
      CapIsFixed(start, prev);
      assert a in acts && forall x :: x in prev ==> x in acts;
      hide Next, Sum, Sizes, Enabled, Fits, Placed, Waiting;
      FitsEarlier(After(start, prev), a);
      FittingRunDropsNothing(cap, room, prev);
      FittingStepDropsNothing(After(start, prev), a);
    }
  }

  /** However often an event is sent again, its row is the first one and never changes; every row is an event offered. */
  lemma {:induction false} RowsAreFinal(s: Store, acts: seq<Action>)
    requires Inv(s) && ValidRun(s, acts)
    ensures var s' := After(s, acts);
      && (forall id :: id in s.table ==> id in s'.table && s'.table[id] == s.table[id])
      && Within(s'.table, s'.offered)
  {
    RunKeepsInv(s, acts);
    if acts == [] {
    } else {
      var prev, a := acts[..|acts| - 1], acts[|acts| - 1];
      RowsAreFinal(s, prev);
      NextKeepsRows(After(s, prev), a);
      hide Next, Within, Gauged, Enabled;
    }
  }

  lemma NextKeepsRows(s: Store, a: Action)
    requires Enabled(s, a)
    ensures var s' := Next(s, a); forall id :: id in s.table ==> id in s'.table && s'.table[id] == s.table[id]
  {
    hide Sum, Sizes, InsertAll;
    if a.Arrive? { InsertAllKeeps(s.table, a.events); }
  }

  // ----- batches -----

  const BATCH_EVENTS: nat := 200
  const BATCH_BYTES: nat := 57344
  const BATCHES: nat := 5
  const MAX_EVENT: nat := 8192
  const BODY_LIMIT: nat := 65536

  function Bytes(b: seq<Event>): nat { if b == [] then 0 else Bytes(b[..|b| - 1]) + |b[|b| - 1].json| }

  predicate Ready(b: seq<Event>) { |b| >= BATCH_EVENTS || Bytes(b) >= BATCH_BYTES }

  /** A batch was not ready before its last event. */
  predicate Tight(b: seq<Event>) { b != [] && !Ready(b[..|b| - 1]) }

  datatype Cut = Cut(done: seq<seq<Event>>, open: seq<Event>)

  /** One more event read; a batch is closed as soon as it is ready. */
  function CutOne(c: Cut, e: Event): Cut {
    var b := c.open + [e];
    if Ready(b) then Cut(c.done + [b], []) else Cut(c.done, b)
  }

  function CutAll(events: seq<Event>): Cut {
    if events == [] then Cut([], []) else CutOne(CutAll(events[..|events| - 1]), events[|events| - 1])
  }

  function Closed(c: Cut): seq<seq<Event>> { if c.open == [] then c.done else c.done + [c.open] }

  /** The batches of one tick over the events read from the directory. */
  function Batches(events: seq<Event>): seq<seq<Event>> { Closed(CutAll(events)) }

  function Concat(bs: seq<seq<Event>>): seq<Event> { if bs == [] then [] else Concat(bs[..|bs| - 1]) + bs[|bs| - 1] }

  lemma ConcatSnoc(bs: seq<seq<Event>>, b: seq<Event>)
    ensures Concat(bs + [b]) == Concat(bs) + b
  {
    assert (bs + [b])[..|bs|] == bs;
  }

  lemma {:induction false} CutAllExact(events: seq<Event>)
    ensures var c := CutAll(events);
      && Concat(c.done) + c.open == events
      && (forall b :: b in c.done ==> Tight(b) && Ready(b))
      && !Ready(c.open)
  {
    if events == [] {
    } else {
      var init, e := events[..|events| - 1], events[|events| - 1];
      CutAllExact(init);
      assert init + [e] == events;
      CutOneExact(CutAll(init), init, e);
    }
  }

  lemma CutOneExact(c: Cut, events: seq<Event>, e: Event)
    requires Concat(c.done) + c.open == events && (forall b :: b in c.done ==> Tight(b) && Ready(b)) && !Ready(c.open)
    ensures var c' := CutOne(c, e);
      Concat(c'.done) + c'.open == events + [e] && (forall b :: b in c'.done ==> Tight(b) && Ready(b)) && !Ready(c'.open)
  {
    var b := c.open + [e];
    CutOneTight(c.open, e);
    hide Ready, Concat, Tight;
    ConcatSnoc(c.done, b);
    assert Concat(c.done) + b == events + [e];
    if Ready(b) { assert Concat(c.done + [b]) + [] == events + [e]; }
  }

  lemma CutOneTight(open: seq<Event>, e: Event)
    requires !Ready(open)
    ensures Tight(open + [e]) && !Ready([])
  {
    assert (open + [e])[..|open|] == open;
  }

  /** The batches are the events in order, each as short as it can be, all but the last as full as required. */
  lemma BatchesExact(events: seq<Event>)
    ensures Concat(Batches(events)) == events
    ensures forall b :: b in Batches(events) ==> Tight(b)
    ensures forall i :: 0 <= i < |Batches(events)| - 1 ==> Ready(Batches(events)[i])
  {
    CutAllExact(events);
    var c := CutAll(events);
    hide CutAll, Ready, Concat;
    ConcatSnoc(c.done, c.open);
    if c.open != [] { OpenIsTight(c.open); }
  }

  lemma {:induction false} BytesPrefix(b: seq<Event>, n: nat)
    requires n <= |b|
    ensures Bytes(b[..n]) <= Bytes(b)
  {
    if n < |b| {
      BytesPrefix(b[..|b| - 1], n);
      assert b[..|b| - 1][..n] == b[..n];
    } else {
      assert b[..n] == b;
    }
  }

  lemma OpenIsTight(b: seq<Event>)
    requires b != [] && !Ready(b)
    ensures Tight(b)
  {
    BytesPrefix(b, |b| - 1);
  }

  // ----- the request body -----

  function Joined(b: seq<Event>): string {
    if b == [] then "" else (if |b| == 1 then "" else Joined(b[..|b| - 1]) + ",") + b[|b| - 1].json
  }

  const PREFIX := "{\"events\":["
  const SUFFIX := "]}"

  function Body(b: seq<Event>): string { PREFIX + Joined(b) + SUFFIX }

  method BuildBody(b: seq<Event>) returns (body: string)
    ensures body == Body(b)
  {
    body := PREFIX;
    assert b[..0] == [];
    for i := 0 to |b|
      invariant body == PREFIX + Joined(b[..i])
    {
      assert b[..i + 1][..i] == b[..i];
      if i > 0 {
        body := body + ",";
      }
      body := body + b[i].json;
      assert body == PREFIX + Joined(b[..i + 1]);
    }
    assert b[..|b|] == b;
    body := body + SUFFIX;
  }

  lemma {:induction false} JoinedSize(b: seq<Event>)
    requires b != []
    ensures |Joined(b)| == Bytes(b) + |b| - 1
  {
    if |b| > 1 {
      JoinedSize(b[..|b| - 1]);
    } else {
      assert b[..0] == [];
    }
  }

  /** Every body a tick builds: at most 200 events, and at most 57343 + largest event + 199 + 13 bytes. */
  lemma BodyBound(events: seq<Event>, b: seq<Event>, largest: nat)
    requires b in Batches(events) && forall e :: e in events ==> |e.json| <= largest
    ensures 1 <= |b| <= BATCH_EVENTS
    ensures |Body(b)| <= 57343 + largest + 199 + 13
  {
    BatchesExact(events);
    BatchIsPart(Batches(events), b);
    JoinedSize(b);
    assert b[|b| - 1] in b;
  }

  lemma {:induction false} BatchIsPart(bs: seq<seq<Event>>, b: seq<Event>)
    requires b in bs
    ensures forall e :: e in b ==> e in Concat(bs)
  {
    if b != bs[|bs| - 1] {
      assert bs == bs[..|bs| - 1] + [bs[|bs| - 1]];
      BatchIsPart(bs[..|bs| - 1], b);
    }
  }

  // ----- exactly when every body fits -----

  const HEX := "0123456789abcdef"

  /** Two hundred event ids of 32 hexadecimal digits. */
  function IdOf(i: nat): string
    requires i < 200
  {
    [HEX[i / 16], HEX[i % 16]] + seq(30, _ => '0')
  }

  /** An event with nothing but its id, and white space after it, which JSON ignores. */
  function Padded(id: string, size: nat): string { Stub(id) + seq(size, _ => ' ') }

  function Stub(id: string): string { "{\"id\":\"" + id + "\"}" }

  /** White space after an object does not stop it from decoding. */
  ghost predicate Lenient(decodes: string -> bool) { forall id, n :: decodes(Padded(id, n)) }

  /** Sizes that fill a batch to one byte short of ready and then add one event of size `m`. */
  function TightSize(i: nat, m: nat): nat { if i < 198 then 288 else if i == 198 then 319 else m }

  function TightEvent(i: nat, m: nat): Event
    requires i < 200 && m >= 41
  {
    Event(IdOf(i), Padded(IdOf(i), TightSize(i, m) - 41))
  }

  function Tightest(n: nat, m: nat): seq<Event>
    requires n <= 200 && m >= 41
  {
    seq(n, i requires 0 <= i < n => TightEvent(i, m))
  }

  lemma TightEventSize(i: nat, m: nat)
    requires i < 200 && m >= 41
    ensures |TightEvent(i, m).json| == TightSize(i, m)
  {
    assert |IdOf(i)| == 32;
  }

  lemma HexDistinct(i: nat, j: nat)
    requires i < 16 && j < 16 && HEX[i] == HEX[j]
    ensures i == j
  {}

  lemma IdsDiffer(i: nat, j: nat)
    requires i < 200 && j < 200 && IdOf(i) == IdOf(j)
    ensures i == j
  {
    assert IdOf(i)[0] == HEX[i / 16] && IdOf(i)[1] == HEX[i % 16];
    assert IdOf(j)[0] == HEX[j / 16] && IdOf(j)[1] == HEX[j % 16];
    HexDistinct(i / 16, j / 16);
    HexDistinct(i % 16, j % 16);
  }

  lemma {:induction false} TightestBytes(n: nat, m: nat)
    requires n <= 200 && m >= 41
    ensures Bytes(Tightest(n, m)) == if n <= 198 then 288 * n else if n == 199 then 57343 else 57343 + m
  {
    if n == 0 {
    } else {
      TightestBytes(n - 1, m);
      assert Tightest(n, m)[..n - 1] == Tightest(n - 1, m) by { hide TightEvent; }
      TightEventSize(n - 1, m);
      hide TightEvent;
    }
  }

  lemma {:induction false} TightestIsOpen(n: nat, m: nat)
    requires n < 200 && m >= 41
    ensures CutAll(Tightest(n, m)) == Cut([], Tightest(n, m))
  {
    if n == 0 {
      assert Tightest(0, m) == [];
    } else {
      hide *;
      TightestIsOpen(n - 1, m);
      TightestGrows(n, m);
      TightestNotReady(n, m);
      StaysOpen(Tightest(n - 1, m), TightEvent(n - 1, m));
    }
  }

  lemma TightestGrows(n: nat, m: nat)
    requires 1 <= n <= 200 && m >= 41
    ensures Tightest(n - 1, m) + [TightEvent(n - 1, m)] == Tightest(n, m)
  {
    hide TightEvent;
  }

  lemma TightestNotReady(n: nat, m: nat)
    requires n < 200 && m >= 41
    ensures !Ready(Tightest(n, m))
  {
    TightestBytes(n, m);
    hide Bytes, TightEvent;
  }

  lemma StaysOpen(events: seq<Event>, e: Event)
    requires CutAll(events) == Cut([], events) && !Ready(events + [e])
    ensures CutAll(events + [e]) == Cut([], events + [e])
  {
    assert (events + [e])[..|events|] == events;
    hide Ready;
  }

  lemma TightestBatch(m: nat)
    requires m >= 41
    ensures Batches(Tightest(200, m)) == [Tightest(200, m)]
    ensures |Body(Tightest(200, m))| == 57343 + m + 199 + 13
  {
    var es := Tightest(200, m);
    TightestIsOpen(199, m);
    TightestBytes(200, m);
    assert es[..199] == Tightest(199, m);
    assert Tightest(199, m) + [es[199]] == es;
    JoinedSize(es);
  }

  ghost predicate DistinctIds(events: seq<Event>) {
    forall i, j :: 0 <= i < j < |events| ==> events[i].id != events[j].id
  }

  ghost predicate AtMost(events: seq<Event>, largest: nat) { forall e :: e in events ==> |e.json| <= largest }

  ghost predicate AllDecode(events: seq<Event>, decodes: string -> bool) { forall e :: e in events ==> decodes(e.json) }

  ghost predicate AllFit(events: seq<Event>) { forall b :: b in Batches(events) ==> |Body(b)| <= BODY_LIMIT }

  lemma SmallEventsFit(events: seq<Event>, largest: nat)
    requires AtMost(events, largest) && largest <= 7981
    ensures AllFit(events)
  {
    forall b | b in Batches(events) ensures |Body(b)| <= BODY_LIMIT {
      BodyBound(events, b, largest);
    }
  }

  lemma TightestOverflows(decodes: string -> bool, largest: nat)
    requires Lenient(decodes) && largest > 7981
    ensures var es := Tightest(200, largest);
      DistinctIds(es) && AtMost(es, largest) && AllDecode(es, decodes) && !AllFit(es)
  {
    var es := Tightest(200, largest);
    TightestBatch(largest);
    assert es in Batches(es);
    hide Batches, Body;
    forall i, j | 0 <= i < j < |es| ensures es[i].id != es[j].id {
      if es[i].id == es[j].id { IdsDiffer(i, j); }
    }
    forall e | e in es ensures |e.json| <= largest && decodes(e.json) {
      var i :| 0 <= i < |es| && es[i] == e;
      TightEventSize(i, largest);
    }
  }

  /**
   The batching is tight: directories of decodable events up to a size never make a
   request the receiver must refuse for its length, exactly if that size is at most 7981.
   */
  lemma EveryBodyFitsIff(decodes: string -> bool, largest: nat)
    requires Lenient(decodes)
    ensures
      (forall events :: DistinctIds(events) && AtMost(events, largest) && AllDecode(events, decodes) ==> AllFit(events))
        <==> largest <= 7981
  {
    if largest <= 7981 {
      forall events | AtMost(events, largest) ensures AllFit(events) { SmallEventsFit(events, largest); }
    } else {
      TightestOverflows(decodes, largest);
    }
  }
}
