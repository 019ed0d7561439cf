/**
 The spool's methods and the control plane's handlers, each proved to be steps of the
 spool machine.
 */
module Delivery {
  import opened Common
  import opened S = Spools

  /**
   How one post goes: no answer, a status other than 200, a 200 that is not the
   expected answer, or the control plane's own answer.  In the first three the control
   plane may or may not have processed the request.
   */
  datatype Wire = Lost(reached: bool) | Status(code: int, reached: bool) | Garbled(reached: bool) | Answered

  function Taken(events: seq<Event>, takes: Event -> bool): seq<Event> {
    if events == [] then []
    else
      var e := events[|events| - 1];
      Taken(events[..|events| - 1], takes) + if takes(e) then [e] else []
  }

  lemma {:induction false} TakenAre(events: seq<Event>, takes: Event -> bool)
    ensures forall e :: e in Taken(events, takes) <==> e in events && takes(e)
  {
    if events == [] {
    } else {
      TakenAre(events[..|events| - 1], takes);
      assert events == events[..|events| - 1] + [events[|events| - 1]];
    }
  }

  function Names(events: seq<Event>): seq<string> { seq(|events|, i requires 0 <= i < |events| => events[i].id) }

  class ControlPlane {
    var table: map<string, string>

    constructor ()
      ensures table == map[]
    {
      table := map[];
    }

    /** `takes` is the schema and timestamp check. */
    method Telemetry(e: Event, takes: Event -> bool) returns (status: int)
      modifies this
      ensures status == if takes(e) then 200 else 422
      ensures table == InsertAll(old(table), Taken([e], takes))
    {
      assert [e][..0] == [];
      if !takes(e) {
        return 422;
      }
      assert Taken([e], takes) == [e];
      assert InsertAll(table, [e]) == Insert(table, e);
      if e.id !in table {
        table := table[e.id := e.json];
      }
      return 200;
    }

    /** A malformed element costs itself; an id already stored is accepted without a second row. */
    method TelemetryBatch(events: seq<Event>, takes: Event -> bool) returns (accepted: seq<string>)
      modifies this
      ensures table == InsertAll(old(table), Taken(events, takes))
      ensures accepted == Names(Taken(events, takes))
    {
      accepted := [];
      assert events[..0] == [];
      for i := 0 to |events|
        invariant table == InsertAll(old(table), Taken(events[..i], takes))
        invariant accepted == Names(Taken(events[..i], takes))
      {
        var e := events[i];
        ghost var before := Taken(events[..i], takes);
        assert events[..i + 1][..i] == events[..i];
        assert Taken(events[..i + 1], takes) == if takes(e) then before + [e] else before;
        if takes(e) {
          assert (before + [e])[..|before|] == before;
          assert Names(before + [e]) == Names(before) + [e.id];
          if e.id !in table {
            table := table[e.id := e.json];
          }
          accepted := accepted + [e.id];
        }
      }
      assert events[..|events|] == events;
    }
  }

  /** The answers after which the same event will be refused again. */
  /** A file the delivery loop takes: present, not over-long, and decodable. */
  predicate Reads(files: map<string, string>, id: string, decodes: string -> bool) {
    id in files && |files[id]| <= MAX_EVENT && decodes(files[id])
  }

  /** The events of a listing that the delivery loop reads. */
  function Readable(files: map<string, string>, listing: seq<string>, decodes: string -> bool): seq<Event> {
    if listing == [] then []
    else
      var id := listing[|listing| - 1];
      Readable(files, listing[..|listing| - 1], decodes) + if Reads(files, id, decodes) then [Event(id, files[id])] else []
  }

  /** Exactly the listed files that are there, of at most 8192 bytes, and decodable. */
  lemma {:induction false} ReadableAre(files: map<string, string>, listing: seq<string>, decodes: string -> bool)
    ensures forall e :: e in Readable(files, listing, decodes) <==>
      e.id in listing && e.id in files && e.json == files[e.id] && |e.json| <= 8192 && decodes(e.json)
  {
    if listing == [] {
    } else {
      ReadableAre(files, listing[..|listing| - 1], decodes);
      assert listing == listing[..|listing| - 1] + [listing[|listing| - 1]];
    }
  }

  ghost predicate Distinct(listing: seq<string>) { forall i, j :: 0 <= i < j < |listing| ==> listing[i] != listing[j] }

  /** What is measured of a directory when some of it is still to do. */
  ghost predicate Measured(files: map<string, string>, todo: set<string>, used: nat, count: nat) {
    todo <= files.Keys && used == Sum(Sizes(files - todo)) && count == |files - todo|
  }

  lemma MeasureNone(files: map<string, string>)
    ensures Measured(files, files.Keys, 0, 0)
  {
    assert files - files.Keys == map[];
    NothingOnDisk();
  }

  lemma MeasureOne(files: map<string, string>, todo: set<string>, id: string, used: nat, count: nat)
    requires Measured(files, todo, used, count) && id in todo
    ensures Measured(files, todo - {id}, used + |files[id]|, count + 1)
  {
    hide Sum, Sizes;
    assert files - (todo - {id}) == (files - todo)[id := files[id]];
    WriteSizes(files - todo, id, files[id]);
  }

  lemma MeasuredAll(files: map<string, string>, used: nat, count: nat)
    requires Measured(files, {}, used, count)
    ensures used == Sum(Sizes(files)) && count == |files|
  {
    assert files - {} == files;
  }

  method Measure(files: map<string, string>) returns (used: nat, count: nat)
    ensures used == Sum(Sizes(files)) && count == |files|
  {
    used, count := 0, 0;
    var todo := files.Keys;
    MeasureNone(files);
    hide Sum, Sizes;
    while todo != {}
      invariant Measured(files, todo, used, count)
      decreases todo
    {
      var id :| id in todo;
      MeasureOne(files, todo, id, used, count);
      used, count, todo := used + |files[id]|, count + 1, todo - {id};
    }
    MeasuredAll(files, used, count);
  }

  lemma RestartIs(s: Store, used: int, count: int)
    requires used == Sum(Sizes(s.files)) && count == |s.files|
    ensures Next(s, S.Restart) == Store(s.cap, s.files, used, count, 0, s.table, s.offered, s.sent, {},
      s.earlier + s.counted, s.room, [], s.lost + Ids(s.queue))
  {}

  class Telemetry {
    const cap: nat
    const room: nat
    var queue: seq<Event>
    var files: map<string, string>
    var used: int
    var count: int
    var dropped: nat
    var perEvent: bool
    ghost var offered: map<string, string>
    ghost var sent: set<Event>
    ghost var counted: set<string>
    ghost var earlier: set<string>
    ghost var lost: set<string>

    ghost function State(cp: ControlPlane): Store
      reads this, cp
    {
      Store(cap, files, used, count, dropped, cp.table, offered, sent, counted, earlier, room, queue, lost)
    }

    ghost predicate IsRun(cp: ControlPlane, s0: Store, acts: seq<Action>)
      reads this, cp
    {
      ValidRun(s0, acts) && After(s0, acts) == State(cp)
    }

    constructor (cap: nat, room: nat)
      ensures this.cap == cap && this.room == room && files == map[] && !perEvent
      ensures forall cp: ControlPlane :: cp.table == map[] ==> State(cp) == Opened(cap, room)
    {
      this.cap, this.room, queue, files, used, count, dropped, perEvent := cap, room, [], map[], 0, 0, 0, false;
      offered, sent, counted, earlier, lost := map[], {}, {}, {}, {};
    }

    /** A new process counts what it finds in the directory. */
    method Reopen(ghost cp: ControlPlane)
      modifies this
      ensures State(cp) == Next(old(State(cp)), S.Restart) && !perEvent
    {
      ghost var was := State(cp);
      used, count := Measure(files);
      RestartIs(was, used, count);
      hide Next, Sum, Sizes, Ids;
      dropped, perEvent := 0, false;
      earlier, counted, lost := earlier + counted, {}, lost + Ids(queue);
      queue := [];
    }

    /** Queued, or counted as dropped when the queue is full. */
    method Emit(e: Event, ghost cp: ControlPlane)
      requires e.id !in offered
      modifies this
      ensures State(cp) == Next(old(State(cp)), S.Emit(e)) && perEvent == old(perEvent)
      ensures if |old(queue)| < room then queue == old(queue) + [e] && dropped == old(dropped)
              else queue == old(queue) && dropped == old(dropped) + 1
    {
      offered := offered[e.id := e.json];
      if |queue| < room {
        queue := queue + [e];
      } else {
        dropped, counted := dropped + 1, counted + {e.id};
      }
    }

    /** The next event of the queue: refused and counted when either cap would be passed, otherwise written. */
    method Persist(ghost cp: ControlPlane)
      requires queue != []
      modifies this
      ensures State(cp) == Next(old(State(cp)), S.Persist) && perEvent == old(perEvent)
      ensures queue == old(queue)[1..]
      ensures var e := old(queue)[0];
        if old(used) + |e.json| <= cap && old(count) < 10000 then files == old(files)[e.id := e.json] && dropped == old(dropped)
        else files == old(files) && dropped == old(dropped) + 1
    {
      var e := queue[0];
      queue := queue[1..];
      if used + |e.json| > cap || count >= MAX_FILES {
        dropped, counted := dropped + 1, counted + {e.id};
        return;
      }
      files := files[e.id := e.json];
      used, count := used + |e.json|, count + 1;
    }

    /** What is left in the queue at an orderly end is written before it. */
    method Drain(ghost cp: ControlPlane, ghost s0: Store, ghost acts: seq<Action>) returns (ghost acts': seq<Action>)
      requires IsRun(cp, s0, acts)
      modifies this
      ensures IsRun(cp, s0, acts') && queue == []
    {
      acts' := acts;
      while queue != []
        invariant IsRun(cp, s0, acts')
        decreases |queue|
      {
        RunSnoc(s0, acts', S.Persist);
        acts' := acts' + [S.Persist];
        Persist(cp);
        hide Next, ValidRun, After;
      }
    }

    method Remove(e: Event, drop: bool, ghost cp: ControlPlane, ghost s0: Store, ghost acts: seq<Action>)
      returns (ghost acts': seq<Action>)
      requires IsRun(cp, s0, acts) && e.id in files && files[e.id] == e.json && (drop || e.id in cp.table)
      modifies this
      ensures IsRun(cp, s0, acts')
      ensures files == old(files) - {e.id} && perEvent == old(perEvent)
      ensures dropped == old(dropped) + if drop then 1 else 0
    {
      acts' := acts + [S.Remove(e.id, drop)];
      RunSnoc(s0, acts, S.Remove(e.id, drop));
      hide ValidRun, After;
      if drop {
        dropped, counted := dropped + 1, counted + {e.id};
      }
      files, used, count := files - {e.id}, used - |e.json|, count - 1;
    }

    /** A post leaves the gateway; whether it is processed is `reached`. */
    method PostAll(batch: seq<Event>, reached: bool, takes: Event -> bool, cp: ControlPlane, ghost s0: Store, ghost acts: seq<Action>)
      returns (accepted: seq<string>, ghost acts': seq<Action>)
      requires IsRun(cp, s0, acts) && OnDisk(files, batch)
      modifies this`sent, cp
      ensures IsRun(cp, s0, acts')
      ensures reached ==> accepted == Names(Taken(batch, takes)) && forall e :: e in batch && takes(e) ==> e.id in cp.table
      ensures !reached ==> cp.table == old(cp.table)
    {
      acts', accepted := acts + [Post(batch)], [];
      RunSnoc(s0, acts, Post(batch));
      sent := sent + set e | e in batch;
      if reached {
        TakenAre(batch, takes);
        InsertAllKeeps(cp.table, Taken(batch, takes));
        ghost var arrived := Arrive(Taken(batch, takes));
        RunSnoc(s0, acts', arrived);
        acts' := acts' + [arrived];
        accepted := cp.TelemetryBatch(batch, takes);
      }
    }

    /** The single-event route, which answers 200 with the id or 422. */
    method PostOne(e: Event, reached: bool, takes: Event -> bool, cp: ControlPlane, ghost s0: Store, ghost acts: seq<Action>)
      returns (status: int, ghost acts': seq<Action>)
      requires IsRun(cp, s0, acts) && OnDisk(files, [e])
      modifies this`sent, cp
      ensures IsRun(cp, s0, acts')
      ensures status == (if takes(e) then 200 else 422) && (reached && takes(e) ==> e.id in cp.table)
      ensures !reached ==> cp.table == old(cp.table)
    {
      acts', status := acts + [Post([e])], if takes(e) then 200 else 422;
      RunSnoc(s0, acts, Post([e]));
      sent := sent + set x | x in [e];
      if reached {
        TakenAre([e], takes);
        InsertAllKeeps(cp.table, Taken([e], takes));
        ghost var arrived := Arrive(Taken([e], takes));
        RunSnoc(s0, acts', arrived);
        acts' := acts' + [arrived];
        status := cp.Telemetry(e, takes);
      }
    }

    /** One event on its own: acknowledged and removed, refused and counted, or kept. */
    method SendOne(e: Event, wire: Wire, takes: Event -> bool, cp: ControlPlane, ghost s0: Store, ghost acts: seq<Action>)
      returns (settled: bool, ghost acts': seq<Action>)
      requires IsRun(cp, s0, acts) && e.id in files && files[e.id] == e.json
      modifies this, cp
      ensures IsRun(cp, s0, acts') && perEvent == old(perEvent)
      ensures settled <==> Definite(wire)
      ensures files == if settled then old(files) - {e.id} else old(files)
      // No answer, an unreadable one, a redirect, a 429 or a server error: the event waits, uncounted.
      ensures wire.Lost? || wire.Garbled? || (wire.Status? && (wire.code < 400 || wire.code == 429 || wire.code >= 500)) ==>
        !settled && files == old(files) && dropped == old(dropped)
      // Any other 4xx, or the control plane's own refusal: it is given up and counted once.
      ensures wire.Status? && 400 <= wire.code < 500 && wire.code != 429 ==>
        settled && files == old(files) - {e.id} && dropped == old(dropped) + 1
      ensures wire.Answered? ==> settled && dropped == old(dropped) + (if takes(e) then 0 else 1) && (takes(e) ==> e.id in cp.table)
    {
      hide Next, ValidRun, After;
      var status;
      status, acts' := PostOne(e, wire.Answered? || wire.reached, takes, cp, s0, acts);
      var acked := wire.Answered? && status == 200;
      if !acked {
        status := if wire.Answered? then status else if wire.Status? then wire.code else 200;
        if status < 400 || status >= 500 || status == 429 {
          return false, acts';
        }
      }
      acts' := Remove(e, !acked, cp, s0, acts');
      settled := true;
    }

    /**
     One post per event, in order.  It stops at the first answer that is not an
     acknowledgement and not a refusal, and that event is still on disk.
     */
    method SendPerEvent(batch: seq<Event>, n: nat, net: nat -> Wire, takes: nat -> Event -> bool,
                        cp: ControlPlane, ghost s0: Store, ghost acts: seq<Action>)
      returns (ok: bool, n': nat, ghost acts': seq<Action>)
      requires IsRun(cp, s0, acts) && OnDisk(files, batch) && DistinctIds(batch)
      modifies this, cp
      ensures IsRun(cp, s0, acts') && perEvent == old(perEvent)
      ensures ok ==> n' == n + |batch| && files == old(files) - Ids(batch)
      ensures !ok ==> n < n' <= n + |batch| && files == old(files) - Ids(batch[..n' - n - 1])
      // The answer it stops at says nothing for good about the event; every answer before it did.
      ensures !ok ==> var w := net(n' - 1);
        w.Lost? || w.Garbled? || (w.Status? && (w.code < 400 || w.code == 429 || w.code >= 500))
      ensures forall i :: n <= i < n' - (if ok then 0 else 1) ==>
        net(i).Answered? || (net(i).Status? && 400 <= net(i).code < 500 && net(i).code != 429)
      ensures dropped == old(dropped) + Refused(batch, n, net, takes, if ok then |batch| else n' - n - 1)
    {
      acts', n' := acts, n;
      hide Next, ValidRun, After, Ids, DistinctIds, OnDisk;
      NoneRemoved(files, batch, takes(n));
      for i := 0 to |batch|
        invariant IsRun(cp, s0, acts') && perEvent == old(perEvent)
        invariant n' == n + i && files == old(files) - Ids(batch[..i])
        invariant (forall j :: n <= j < n' ==> Definite(net(j))) && dropped == old(dropped) + Refused(batch, n, net, takes, i)
      {
        NextOnDisk(old(files), batch, i);
        var settled;
        settled, acts' := SendOne(batch[i], net(n'), takes(n'), cp, s0, acts');
        n' := n' + 1;
        if !settled {
          return false, n', acts';
        }
      }
      assert batch[..|batch|] == batch;
      ok := true;
    }

    /**
     One batch.  It is removed whole when the control plane answers with what it took,
     the rest being counted; a lost answer, a retryable status or a body the control
     plane refuses for its length removes nothing; an answer that is not the batch
     route's switches to one post per event.
     */
    method Send(batch: seq<Event>, n: nat, net: nat -> Wire, takes: nat -> Event -> bool,
                cp: ControlPlane, ghost s0: Store, ghost acts: seq<Action>)
      returns (ok: bool, n': nat, ghost acts': seq<Action>)
      requires IsRun(cp, s0, acts) && OnDisk(files, batch) && DistinctIds(batch)
      modifies this, cp
      ensures IsRun(cp, s0, acts') && n <= n'
      ensures ok ==> files == old(files) - Ids(batch)
      ensures !ok ==> exists m :: 0 <= m <= |batch| && files == old(files) - Ids(batch[..m])
      ensures !old(perEvent) && (net(n).Lost? || (net(n).Status? && net(n).code != 404 && net(n).code != 405)) ==>
        !ok && files == old(files) && dropped == old(dropped) && !perEvent
      ensures !old(perEvent) && net(n).Answered? && |Body(batch)| > BODY_LIMIT ==>
        !ok && files == old(files) && dropped == old(dropped) && !perEvent
      ensures !old(perEvent) && net(n).Answered? && |Body(batch)| <= BODY_LIMIT ==>
        && ok && !perEvent && dropped == old(dropped) + |batch| - |Taken(batch, takes(n))|
        && forall e :: e in batch && takes(n)(e) ==> e.id in cp.table
      ensures !old(perEvent) && (net(n).Garbled? || (net(n).Status? && (net(n).code == 404 || net(n).code == 405))) ==> perEvent
      ensures old(perEvent) ==> perEvent
      ensures Healthy(net) && |Body(batch)| <= BODY_LIMIT ==> ok
    {
      hide Next, ValidRun, After;
      if perEvent {
        ok, n', acts' := SendPerEvent(batch, n, net, takes, cp, s0, acts);
        if !ok { assert files == old(files) - Ids(batch[..n' - n - 1]); }
        return;
      }
      var body := BuildBody(batch);
      var wire := net(n);
      if wire.Answered? && |body| > BODY_LIMIT {
        wire := Status(413, false);
      }
      n' := n + 1;
      var accepted;
      accepted, acts' := PostAll(batch, wire.Answered? || wire.reached, takes(n), cp, s0, acts);
      if wire.Garbled? || (wire.Status? && (wire.code == 404 || wire.code == 405)) {
        perEvent := true;
        ok, n', acts' := SendPerEvent(batch, n', net, takes, cp, s0, acts');
        if !ok { assert files == old(files) - Ids(batch[..n' - n - 2]); }
        return;
      }
      if !wire.Answered? {
        assert files == old(files) - Ids(batch[..0]);
        return false, n', acts';
      }
      acts' := RemoveAll(batch, accepted, takes(n), cp, s0, acts');
      ok := true;
    }

    /** Removes a batch the control plane has answered for, counting what it did not take. */
    method RemoveAll(batch: seq<Event>, accepted: seq<string>, ghost takes: Event -> bool,
                     ghost cp: ControlPlane, ghost s0: Store, ghost acts: seq<Action>)
      returns (ghost acts': seq<Action>)
      requires IsRun(cp, s0, acts) && OnDisk(files, batch) && DistinctIds(batch)
      requires accepted == Names(Taken(batch, takes)) && forall e :: e in batch && takes(e) ==> e.id in cp.table
      modifies this
      ensures IsRun(cp, s0, acts') && perEvent == old(perEvent)
      ensures files == old(files) - Ids(batch)
      ensures dropped == old(dropped) + |batch| - |Taken(batch, takes)|
    {
      acts' := acts;
      hide Next, ValidRun, After, Ids, Taken, Names, OnDisk, DistinctIds;
      NoneRemoved(files, batch, takes);
      for i := 0 to |batch|
        invariant IsRun(cp, s0, acts') && perEvent == old(perEvent)
        invariant files == old(files) - Ids(batch[..i])
        invariant dropped == old(dropped) + i - |Taken(batch[..i], takes)|
      {
        var e := batch[i];
        NextOnDisk(old(files), batch, i);
        TakenSnoc(batch, takes, i);
        NamedIffTaken(batch, takes, i);
        acts' := Remove(e, e.id !in accepted, cp, s0, acts');
      }
      assert batch[..|batch|] == batch;
    }

    /**
     One tick: the directory is read in order and cut into batches, at most five of
     which are sent, until an exchange fails or the context is cancelled.
     */
    method Deliver(listing: seq<string>, decodes: string -> bool, cancelled: nat -> bool, n: nat, net: nat -> Wire, takes: nat -> Event -> bool,
                   cp: ControlPlane, ghost s0: Store, ghost acts: seq<Action>)
      returns (n': nat, ghost acts': seq<Action>, ghost batches: seq<seq<Event>>)
      requires IsRun(cp, s0, acts) && Distinct(listing)
      modifies this, cp
      ensures IsRun(cp, s0, acts')
      ensures |batches| <= BATCHES && batches <= Batches(Readable(old(files), listing, decodes))
      ensures Healthy(net) && (forall i :: !cancelled(i)) && AllFit(Readable(old(files), listing, decodes)) ==>
        && batches == FirstFive(Batches(Readable(old(files), listing, decodes)))
        && files == old(files) - Ids(Concat(batches))
    {
      hide Next, ValidRun, After, CutAll, Readable, Walked, Batches, Distinct, Bytes, Concat, Ids, OnDisk, DistinctIds, Body, Healthy;
      var batch: seq<Event> := [];
      var batchBytes, sentBatches, ok := 0, 0, true;
      n', acts', batches := n, acts, [];
      WalkStarts(files, listing, decodes);
      for i := 0 to |listing|
        invariant IsRun(cp, s0, acts') && sentBatches == |batches| <= BATCHES && batchBytes == Bytes(batch)
        invariant CutAll(Readable(old(files), listing[..i], decodes)) == Cut(batches, batch)
        invariant Walked(old(files), files, listing, i, batch)
        invariant files == old(files) - Ids(Concat(batches))
      {
        PrefixOfBatches(old(files), listing, decodes, i);
        if cancelled(i) || sentBatches >= BATCHES {
          return;
        }
        var id := listing[i];
        ReadNext(old(files), files, listing, decodes, i, batch);
        if id in files {
          WalkOn(old(files), files, listing, i, batch);
        }
        WalkPast(old(files), files, listing, i, batch);
        PrefixOfBatches(old(files), listing, decodes, i + 1);
        if id in files && |files[id]| <= MAX_EVENT && decodes(files[id]) {
          batch, batchBytes := batch + [Event(id, files[id])], batchBytes + |files[id]|;
          if |batch| >= BATCH_EVENTS || batchBytes >= BATCH_BYTES {
            WalkSent(old(files), files, listing, i + 1, batch);
            RemovedSoFar(old(files), batches, batch);
            batches := batches + [batch];
            assert batch in batches;
            ok, n', acts' := Send(batch, n', net, takes, cp, s0, acts');
            if !ok {
              return;
            }
            batch, batchBytes, sentBatches := [], 0, sentBatches + 1;
          }
        }
      }
      WalkEnds(old(files), files, listing, decodes, batches, batch);
      if |batch| > 0 && sentBatches < BATCHES {
        RemovedSoFar(old(files), batches, batch);
        assert batch in batches + [batch];
        batches := batches + [batch];
        ok, n', acts' := Send(batch, n', net, takes, cp, s0, acts');
      }
    }
  }

  /**
   Part of the way through a listing: files not yet walked are as they were, and the
   open batch is on disk, each event once.
   */
  ghost predicate Walked(was: map<string, string>, now: map<string, string>, listing: seq<string>, i: nat, batch: seq<Event>) {
    && i <= |listing|
    && (forall id :: id !in listing[..i] ==> (id in now <==> id in was) && (id in was ==> now[id] == was[id]))
    && OnDisk(now, batch) && DistinctIds(batch)
    && (forall e :: e in batch ==> e.id in listing[..i])
  }

  lemma WalkStarts(files: map<string, string>, listing: seq<string>, decodes: string -> bool)
    ensures Walked(files, files, listing, 0, []) && Bytes([]) == 0 && files - Ids(Concat([])) == files
    ensures CutAll(Readable(files, listing[..0], decodes)) == Cut([], [])
  {}

  lemma WalkPast(was: map<string, string>, now: map<string, string>, listing: seq<string>, i: nat, batch: seq<Event>)
    requires Walked(was, now, listing, i, batch) && i < |listing|
    ensures Walked(was, now, listing, i + 1, batch)
  {
    assert listing[..i + 1] == listing[..i] + [listing[i]];
  }

  lemma WalkOn(was: map<string, string>, now: map<string, string>, listing: seq<string>, i: nat, batch: seq<Event>)
    requires Walked(was, now, listing, i, batch) && Distinct(listing) && i < |listing| && listing[i] in now
    ensures var e := Event(listing[i], now[listing[i]]);
      Walked(was, now, listing, i + 1, batch + [e]) && Bytes(batch + [e]) == Bytes(batch) + |e.json|
  {
    var e := Event(listing[i], now[listing[i]]);
    WalkPast(was, now, listing, i, batch);
    NotBefore(listing, i);
    assert forall x :: x in batch ==> x.id != e.id;
    assert (batch + [e])[..|batch|] == batch;
    hide Bytes, Distinct;
    assert listing[..i + 1][i] == listing[i];
  }

  lemma NotBefore(listing: seq<string>, i: nat)
    requires Distinct(listing) && i < |listing|
    ensures listing[i] !in listing[..i]
  {}

  lemma ReadNext(was: map<string, string>, now: map<string, string>, listing: seq<string>, decodes: string -> bool,
                 i: nat, batch: seq<Event>)
    requires i < |listing| && Distinct(listing) && Walked(was, now, listing, i, batch)
    ensures var id := listing[i]; var read := Readable(was, listing[..i], decodes);
      CutAll(Readable(was, listing[..i + 1], decodes)) ==
        if Reads(now, id, decodes) then CutOne(CutAll(read), Event(id, now[id])) else CutAll(read)
  {
    var id, read := listing[i], Readable(was, listing[..i], decodes);
    assert listing[..i + 1][..i] == listing[..i];
    NotBefore(listing, i);
    if Reads(now, id, decodes) {
      assert Readable(was, listing[..i + 1], decodes) == read + [Event(id, now[id])];
      assert (read + [Event(id, now[id])])[..|read|] == read;
    } else {
      assert Readable(was, listing[..i + 1], decodes) == read;
    }
  }

  lemma WalkSent(was: map<string, string>, before: map<string, string>, listing: seq<string>, i: nat, batch: seq<Event>)
    requires Walked(was, before, listing, i, batch)
    ensures OnDisk(before, batch) && DistinctIds(batch)
    ensures Walked(was, before - Ids(batch), listing, i, []) && Bytes([]) == 0
  {}

  lemma RemovedSoFar(files: map<string, string>, batches: seq<seq<Event>>, batch: seq<Event>)
    ensures files - Ids(Concat(batches)) - Ids(batch) == files - Ids(Concat(batches + [batch]))
  {
    ConcatSnoc(batches, batch);
    assert Ids(Concat(batches) + batch) == Ids(Concat(batches)) + Ids(batch);
  }

  lemma CutGrows(read: seq<Event>, e: Event)
    ensures CutAll(read).done <= CutAll(read + [e]).done
  {
    assert (read + [e])[..|read|] == read;
  }

  lemma ReadStep(files: map<string, string>, listing: seq<string>, decodes: string -> bool, i: nat)
    requires i < |listing|
    ensures CutAll(Readable(files, listing[..i], decodes)).done <= CutAll(Readable(files, listing[..i + 1], decodes)).done
  {
    var id, read := listing[i], Readable(files, listing[..i], decodes);
    assert listing[..i + 1][..i] == listing[..i];
    if Reads(files, id, decodes) {
      CutGrows(read, Event(id, files[id]));
    } else {
      assert read + [] == read;
    }
    hide CutAll;
  }

  /** The batches cut so far are the first of the tick's batches. */
  lemma {:induction false} PrefixOfBatches(files: map<string, string>, listing: seq<string>, decodes: string -> bool, i: nat)
    requires i <= |listing|
    ensures CutAll(Readable(files, listing[..i], decodes)).done <= Batches(Readable(files, listing, decodes))
    decreases |listing| - i
  {
    hide CutAll, Readable;
    if i < |listing| {
      ReadStep(files, listing, decodes, i);
      PrefixOfBatches(files, listing, decodes, i + 1);
    } else {
      assert listing[..i] == listing;
    }
  }

  lemma WalkEnds(was: map<string, string>, now: map<string, string>, listing: seq<string>, decodes: string -> bool,
                 batches: seq<seq<Event>>, batch: seq<Event>)
    requires Walked(was, now, listing, |listing|, batch)
    requires CutAll(Readable(was, listing[..|listing|], decodes)) == Cut(batches, batch)
    ensures OnDisk(now, batch) && DistinctIds(batch)
    ensures batches <= Batches(Readable(was, listing, decodes))
    ensures (if batch == [] then batches else batches + [batch]) == Batches(Readable(was, listing, decodes))
  {
    assert listing[..|listing|] == listing;
  }

  /** With the events before it removed, the next one is still there; then it too is removed. */
  lemma NextOnDisk(files: map<string, string>, batch: seq<Event>, i: nat)
    requires OnDisk(files, batch) && DistinctIds(batch) && i < |batch|
    ensures var left := files - Ids(batch[..i]);
      batch[i].id in left && left[batch[i].id] == batch[i].json && left - {batch[i].id} == files - Ids(batch[..i + 1])
  {
    assert batch[..i + 1] == batch[..i] + [batch[i]];
    assert Ids(batch[..i + 1]) == Ids(batch[..i]) + {batch[i].id};
    assert batch[i].id !in Ids(batch[..i]);
  }

  lemma NoneRemoved(files: map<string, string>, batch: seq<Event>, takes: Event -> bool)
    ensures files - Ids(batch[..0]) == files && Taken(batch[..0], takes) == []
  {}

  lemma TakenSnoc(batch: seq<Event>, takes: Event -> bool, i: nat)
    requires i < |batch|
    ensures |Taken(batch[..i + 1], takes)| == |Taken(batch[..i], takes)| + if takes(batch[i]) then 1 else 0
  {
    assert batch[..i + 1][..i] == batch[..i];
  }

  lemma NamedIffTaken(batch: seq<Event>, takes: Event -> bool, i: nat)
    requires DistinctIds(batch) && i < |batch|
    ensures batch[i].id in Names(Taken(batch, takes)) <==> takes(batch[i])
  {
    TakenAre(batch, takes);
    hide Taken;
    var taken := Taken(batch, takes);
    NamesAre(taken, batch[i].id);
    if batch[i].id in Names(taken) {
      var e :| e in taken && e.id == batch[i].id;
      var j :| 0 <= j < |batch| && batch[j] == e;
      assert j == i;
    }
  }

  lemma NamesAre(events: seq<Event>, id: string)
    ensures id in Names(events) <==> exists e :: e in events && e.id == id
  {
    if e :| e in events && e.id == id {
      var k :| 0 <= k < |events| && events[k] == e;
      assert Names(events)[k] == id;
    }
    if id in Names(events) {
      var k :| 0 <= k < |events| && Names(events)[k] == id;
      assert events[k] in events;
    }
  }

  /** Every post is processed and answered. */
  ghost predicate Healthy(net: nat -> Wire) { forall k :: net(k).Answered? }

  function FirstFive(bs: seq<seq<Event>>): seq<seq<Event>> { if |bs| <= 5 then bs else bs[..5] }

  /** How many of the first `m` events, each posted in its turn, were answered without being taken. */
  function Refused(batch: seq<Event>, n: nat, net: nat -> Wire, takes: nat -> Event -> bool, m: nat): nat
    requires m <= |batch|
  {
    if m == 0 then 0
    else
      var taken := net(n + m - 1).Answered? && takes(n + m - 1)(batch[m - 1]);
      Refused(batch, n, net, takes, m - 1) + if taken then 0 else 1
  }

  /** An answer that settles an event one way or the other. */
  predicate Definite(wire: Wire) { wire.Answered? || (wire.Status? && 400 <= wire.code < 500 && wire.code != 429) }
}
