/**
 The policy store and its file (`PolicyStore` and `atomicFile` in
 internal/gateway/policy.go), with crashes between any two disk operations.
 */
module PolicyStores {
  import opened Common
  import opened Policies

  /** `visible` is what a read of the file sees; `durable` is what is left after power is lost. */
  datatype Disk = Disk(durable: Option<Policy>, visible: Option<Policy>)

  /** The atomic write in progress: a pending file being filled, or renamed and not yet synced. */
  datatype Work = Idle | Writing(p: Policy) | Renamed(p: Policy)

  /** `active` lists every policy that has ever been current, in order. */
  datatype Store = Store(up: bool, current: Option<Policy>, disk: Disk, work: Work, active: seq<Policy>)

  const EMPTY := Store(false, None, Disk(None, None), Idle, [])

  datatype Action =
    | Start(verified: bool)
    | Offer(p: Policy)
    | Rename
    | Sync
    | Fail
    | Flush
    | Crash(powerLost: bool)

  /** A start restores the file it finds, or refuses to run when it cannot verify it. */
  function StartUp(s: Store, verified: bool): Store {
    match s.disk.visible
    case None => s.(up := true)
    case Some(p) => if verified then s.(up := true, current := Some(p), active := s.active + [p]) else s
  }

  datatype Offered = Rollback | Equivocation | AlreadyCurrent | Newer

  function Judge(current: Option<Policy>, p: Policy): Offered {
    if current.None? then Newer
    else if p.version < current.value.version then Rollback
    else if p.version > current.value.version then Newer
    else if Canonical(p) == Canonical(current.value) then AlreadyCurrent
    else Equivocation
  }

  predicate Enabled(s: Store, a: Action) {
    match a
    case Start(_) => !s.up
    case Offer(_) => s.up && s.work.Idle?
    case Rename => s.work.Writing?
    case Sync => s.work.Renamed?
    case Fail => !s.work.Idle?
    case Flush => true
    case Crash(_) => true
  }

  function Next(s: Store, a: Action): Store
    requires Enabled(s, a)
  {
    match a
    case Start(verified) => StartUp(s, verified)
    case Offer(p) => if Judge(s.current, p) == Newer then s.(work := Writing(p)) else s
    case Rename => s.(disk := s.disk.(visible := Some(s.work.p)), work := Renamed(s.work.p))
    case Sync =>
      Store(s.up, Some(s.work.p), Disk(s.disk.visible, s.disk.visible), Idle, s.active + [s.work.p])
    case Fail => s.(work := Idle)
    case Flush => s.(disk := s.disk.(durable := s.disk.visible))
    case Crash(powerLost) =>
      Store(false, None, if powerLost then Disk(s.disk.durable, s.disk.durable) else s.disk, Idle, s.active)
  }

  // ----- the high-water mark -----

  /** `a` may be followed by `b`: a later version, or the same policy. */
  ghost predicate Follows(a: Policy, b: Policy) {
    a.version < b.version || (a.version == b.version && Canonical(a) == Canonical(b))
  }

  ghost predicate Above(active: seq<Policy>, p: Option<Policy>) {
    forall i :: 0 <= i < |active| ==> p.Some? && Follows(active[i], p.value)
  }

  /** The versions that were active never went down, and one version never named two policies. */
  ghost predicate Monotone(active: seq<Policy>) {
    forall i, j :: 0 <= i < j < |active| ==> Follows(active[i], active[j])
  }

  /** What holds of memory and of the file as a read sees it. */
  ghost predicate Consistent(s: Store) {
    && Monotone(s.active)
    && Above(s.active, s.disk.visible)
    && (s.current.Some? ==> s.up && s.active != [] && s.active[|s.active| - 1] == s.current.value)
    && (s.up && s.current.None? ==> s.active == [])
    && (!s.up ==> s.current.None? && s.work.Idle?)
    && (!s.work.Idle? ==> forall i :: 0 <= i < |s.active| ==> s.active[i].version < s.work.p.version)
    && (s.work.Renamed? ==> s.disk.visible == Some(s.work.p))
  }

  /** And of the file as it would be found after a loss of power. */
  ghost predicate Inv(s: Store) { Consistent(s) && Above(s.active, s.disk.durable) }

  lemma NextKeepsConsistent(s: Store, a: Action)
    requires Consistent(s) && Enabled(s, a) && a != Crash(true)
    ensures Consistent(Next(s, a))
  {
    hide Canonical;
    if a.Start? && s.active != [] {
      var first := s.active[0];
      assert s.disk.visible.Some?;
    } else if a.Offer? && Judge(s.current, a.p) == Newer && s.current.Some? {
      forall i | 0 <= i < |s.active| ensures s.active[i].version < a.p.version {
        assert i < |s.active| - 1 ==> Follows(s.active[i], s.active[|s.active| - 1]);
      }
    }
  }

  /**
   The file a start adopts would also survive, at its version or later, if power
   were lost next.  A start reads the file and does not sync it.
   */
  ghost predicate SafeStart(s: Store) {
    s.disk.visible.Some? ==> s.disk.durable.Some? && Follows(s.disk.visible.value, s.disk.durable.value)
  }

  lemma NextKeepsInv(s: Store, a: Action)
    requires Inv(s) && Enabled(s, a) && (a == Start(true) ==> SafeStart(s))
    ensures Inv(Next(s, a))
  {
    hide Canonical;
    if a != Crash(true) {
      NextKeepsConsistent(s, a);
    }
  }

  ghost predicate ValidRun(s: Store, acts: seq<Action>)
    decreases |acts|, 0
  {
    acts == [] || (ValidRun(s, acts[..|acts| - 1]) && Enabled(After(s, acts[..|acts| - 1]), acts[|acts| - 1]))
  }

  ghost function After(s: Store, acts: seq<Action>): Store
    requires ValidRun(s, acts)
    decreases |acts|, 1
  {
    if acts == [] then s else Next(After(s, acts[..|acts| - 1]), acts[|acts| - 1])
  }

  /** A run in which every start that adopts a file is safe. */
  ghost predicate SafeRun(s: Store, acts: seq<Action>) {
    ValidRun(s, acts) &&
    (acts == [] ||
      (SafeRun(s, acts[..|acts| - 1]) && (acts[|acts| - 1] == Start(true) ==> SafeStart(After(s, acts[..|acts| - 1])))))
  }

  lemma {:induction false} RunKeepsInv(s: Store, acts: seq<Action>)
    requires Inv(s) && SafeRun(s, acts)
    ensures Inv(After(s, acts))
  {
    if acts == [] {
    } else {
      RunKeepsInv(s, acts[..|acts| - 1]);
      NextKeepsInv(After(s, acts[..|acts| - 1]), acts[|acts| - 1]);
    }
  }

  /**
   Over any run of offers, disk failures, crashes at any step and safe restarts: the
   versions that become active never go down, one version never names two policies,
   and what the disk would give back is never behind what is current.
   */
  lemma HighWaterMark(acts: seq<Action>)
    requires SafeRun(EMPTY, acts)
    ensures var s := After(EMPTY, acts);
      && Monotone(s.active)
      && (s.current.Some? ==>
            && s.disk.durable.Some? && s.current.value.version <= s.disk.durable.value.version
            && s.disk.visible.Some? && s.current.value.version <= s.disk.visible.value.version)
  {
    RunKeepsInv(EMPTY, acts);
    hide Canonical;
    var s := After(EMPTY, acts);
    if s.current.Some? {
      assert Follows(s.active[|s.active| - 1], s.disk.durable.value);
      assert Follows(s.active[|s.active| - 1], s.disk.visible.value);
    }
  }

  /**
   A running store takes a policy of a later version, or any when it has none, and it is
   current and durable once written; every other offer changes nothing.
   */
  lemma LaterVersionIsTaken(s: Store, p: Policy)
    requires Enabled(s, Offer(p))
    ensures var offered := Next(s, Offer(p));
      if s.current.None? || p.version > s.current.value.version then
        && Enabled(offered, Rename) && Enabled(Next(offered, Rename), Sync)
        && var taken := Next(Next(offered, Rename), Sync);
           taken.current == Some(p) && taken.disk == Disk(Some(p), Some(p)) && taken.active == s.active + [p] && taken.work.Idle?
      else offered == s
  {
    hide Canonical;
  }

  /** Where power is never lost, no start needs to be safe. */
  lemma {:induction false} KilledProcessesOnly(s: Store, acts: seq<Action>)
    requires Consistent(s) && ValidRun(s, acts) && Crash(true) !in acts
    ensures Consistent(After(s, acts))
  {
    if acts == [] {
    } else {
      KilledProcessesOnly(s, acts[..|acts| - 1]);
      NextKeepsConsistent(After(s, acts[..|acts| - 1]), acts[|acts| - 1]);
    }
  }

  /** Where every crash is a loss of power, every start is safe. */
  lemma {:induction false} PowerLossesOnly(acts: seq<Action>)
    requires ValidRun(EMPTY, acts) && Crash(false) !in acts
    ensures SafeRun(EMPTY, acts)
    ensures var s := After(EMPTY, acts); !s.up ==> s.disk.durable == s.disk.visible && s.work.Idle?
  {
    hide Canonical;
    if acts == [] {
    } else {
      PowerLossesOnly(acts[..|acts| - 1]);
    }
  }

  /**
   When both happen: versions rise through every run that follows a start and whose
   later starts are safe, exactly if that start is safe itself.  From an unsafe one,
   losing power next brings back a policy the adopted one may not be followed by, or
   none at all, after which the adopted version can be given to another policy.
   */
  lemma StartIsSafeIff(s: Store)
    requires Inv(s) && !s.up && s.disk.visible.Some? && PlainPolicy(s.disk.visible.value)
    ensures var t := StartUp(s, true);
      SafeStart(s) <==> forall acts :: SafeRun(t, acts) ==> Monotone(After(t, acts).active)
  {
    var t := StartUp(s, true);
    if SafeStart(s) {
      NextKeepsInv(s, Start(true));
      forall acts | SafeRun(t, acts) ensures Monotone(After(t, acts).active) { RunKeepsInv(t, acts); }
    } else {
      UnsafeStart(s);
    }
  }

  lemma UnsafeStart(s: Store)
    requires Inv(s) && !s.up && s.disk.visible.Some? && PlainPolicy(s.disk.visible.value) && !SafeStart(s)
    ensures var t := StartUp(s, true); exists acts :: SafeRun(t, acts) && !Monotone(After(t, acts).active)
  {
    var p, t, n := s.disk.visible.value, StartUp(s, true), |s.active|;
    var restart := [Crash(true), Start(true)];
    RunTwo(t, Crash(true), Start(true));
    var u := After(t, restart);
    if s.disk.durable.Some? {
      assert u.active[n] == p && u.active[n + 1] == s.disk.durable.value;
      assert !Follows(u.active[n], u.active[n + 1]);
    } else {
      var q := p.(expires := p.expires + 1);
      if Canonical(p) == Canonical(q) { CanonicalInjective(p, q); }
      hide Canonical;
      assert u == Store(true, None, Disk(None, None), Idle, s.active + [p]);
      RunSnoc(t, restart, Offer(q));
      RunSnoc(t, restart + [Offer(q)], Rename);
      RunSnoc(t, restart + [Offer(q)] + [Rename], Sync);
      var v := After(t, restart + [Offer(q)] + [Rename] + [Sync]);
      assert v.active[n] == p && v.active[n + 1] == q;
      assert !Follows(v.active[n], v.active[n + 1]);
    }
  }

  lemma RunTwo(s: Store, a: Action, b: Action)
    requires Enabled(s, a) && Enabled(Next(s, a), b)
    requires a != Start(true) && (b == Start(true) ==> SafeStart(Next(s, a)))
    ensures SafeRun(s, [a, b]) && After(s, [a, b]) == Next(Next(s, a), b)
  {
    RunSnoc(s, [], a);
    assert [] + [a] == [a];
    RunSnoc(s, [a], b);
    assert [a] + [b] == [a, b];
  }

  /**
   Such a start is reachable from an empty directory: take one policy, kill the process
   between rename and sync of the next, start, lose power, start.
   */
  lemma RollbackAfterTwoCrashes(p: Policy, q: Policy)
    requires p.version < q.version
    ensures
      var acts := [Start(true), Offer(p), Rename, Sync, Offer(q), Rename, Crash(false), Start(true), Crash(true), Start(true)];
      ValidRun(EMPTY, acts) && After(EMPTY, acts).active == [p, q, p]
  {
    hide Canonical;
    var a, b, c := [Start(true), Offer(p), Rename], [Sync, Offer(q), Rename], [Crash(false), Start(true), Crash(true)];
    RunThree(EMPTY, Start(true), Offer(p), Rename);
    var s := After(EMPTY, a);
    assert s == Store(true, None, Disk(None, Some(p)), Renamed(p), []);
    RunThree(s, Sync, Offer(q), Rename);
    var t := After(s, b);
    assert t == Store(true, Some(p), Disk(Some(p), Some(q)), Renamed(q), [p]);
    RunThree(t, Crash(false), Start(true), Crash(true));
    var u := After(t, c);
    assert u == Store(false, None, Disk(Some(p), Some(p)), Idle, [p, q]);
    hide Next, Enabled, ValidRun, After;
    RunAppend(EMPTY, a, b);
    RunAppend(EMPTY, a + b, c);
    assert Enabled(u, Start(true)) && Next(u, Start(true)).active == [p, q, p] by { LastStart(u, p); }
    RunSnoc(EMPTY, a + b + c, Start(true));
    assert a + b + c + [Start(true)]
        == [Start(true), Offer(p), Rename, Sync, Offer(q), Rename, Crash(false), Start(true), Crash(true), Start(true)];
  }

  lemma LastStart(u: Store, p: Policy)
    requires !u.up && u.disk.visible == Some(p)
    ensures Enabled(u, Start(true)) && Next(u, Start(true)).active == u.active + [p]
  {}

  lemma RunSnoc(s: Store, acts: seq<Action>, a: Action)
    requires ValidRun(s, acts) && Enabled(After(s, acts), a)
    ensures ValidRun(s, acts + [a]) && After(s, acts + [a]) == Next(After(s, acts), a)
    ensures SafeRun(s, acts) && a != Start(true) ==> SafeRun(s, acts + [a])
    ensures SafeRun(s, acts) && SafeStart(After(s, acts)) ==> SafeRun(s, acts + [a])
  {
    assert (acts + [a])[..|acts|] == acts;
  }

  lemma {:induction false} RunAppend(s: Store, xs: seq<Action>, ys: seq<Action>)
    requires ValidRun(s, xs) && ValidRun(After(s, xs), ys)
    ensures ValidRun(s, xs + ys) && After(s, xs + ys) == After(After(s, xs), ys)
  {
    if ys == [] {
      assert xs + ys == xs;
    } else {
      var init, last := ys[..|ys| - 1], ys[|ys| - 1];
      RunAppend(s, xs, init);
      RunSnoc(s, xs + init, last);
      assert xs + init + [last] == xs + ys;
    }
  }

  lemma RunThree(s: Store, a: Action, b: Action, c: Action)
    requires Enabled(s, a) && Enabled(Next(s, a), b) && Enabled(Next(Next(s, a), b), c)
    ensures ValidRun(s, [a, b, c]) && After(s, [a, b, c]) == Next(Next(Next(s, a), b), c)
  {
    RunSnoc(s, [], a);
    assert [] + [a] == [a];
    RunSnoc(s, [a], b);
    assert [a] + [b] == [a, b];
    RunSnoc(s, [a, b], c);
    assert [a, b] + [c] == [a, b, c];
  }

  // ----- the store itself -----

  datatype Outcome = Accepted | Rejected(why: Offered) | Unverified | DiskError

  /** Where an uninterrupted write stops; `failing` is the first disk operation that fails, if any. */
  datatype WriteResult = Written | NotRenamed | NotSynced

  class PolicyStore {
    var current: Option<Policy>
    var disk: Disk

    ghost function State(active: seq<Policy>): Store
      reads this
    {
      Store(true, current, disk, Idle, active)
    }

    constructor (disk: Disk)
      ensures current == None && this.disk == disk
    {
      current, this.disk := None, disk;
    }

    /** The pending file is filled and synced, renamed into place, and the directory synced. */
    method AtomicFile(p: Policy, disks: WriteResult) returns (ok: bool)
      modifies this`disk
      ensures ok <==> disks == Written
      ensures disk == match disks
                      case Written => Disk(Some(p), Some(p))
                      case NotSynced => old(disk).(visible := Some(p))
                      case NotRenamed => old(disk)
    {
      if disks == NotRenamed {
        return false;
      }
      disk := disk.(visible := Some(p));
      if disks == NotSynced {
        return false;
      }
      disk := disk.(durable := disk.visible);
      return true;
    }

    /** `p` is None when verification fails.  Persisted acceptance is the machine's offer, rename and sync. */
    method Apply(p: Option<Policy>, persist: bool, disks: WriteResult) returns (r: Outcome)
      modifies this
      ensures r == Unverified <==> p.None?
      ensures p.Some? && old(current).Some? && p.value.version < old(current).value.version ==> r == Rejected(Rollback)
      ensures p.Some? && old(current).Some? && p.value.version == old(current).value.version ==>
        r == if Canonical(p.value) == Canonical(old(current).value) then Accepted else Rejected(Equivocation)
      ensures p.Some? && (old(current).None? || p.value.version > old(current).value.version) ==>
        if persist && disks != Written then r == DiskError else r == Accepted && current == p
      ensures p.Some? && Judge(old(current), p.value) != Newer ==>
        && current == old(current) && disk == old(disk)
        && r == if Judge(old(current), p.value) == AlreadyCurrent then Accepted else Rejected(Judge(old(current), p.value))
      ensures p.Some? && Judge(old(current), p.value) == Newer ==>
        if persist then
          forall active :: ValidRun(old(State(active)), Uninterrupted(p.value, disks)) &&
            State(After(old(State(active)), Uninterrupted(p.value, disks)).active) == After(old(State(active)), Uninterrupted(p.value, disks))
        else current == p && disk == old(disk)
      ensures p.Some? && Judge(old(current), p.value) == Newer ==>
        r == if persist && disks != Written then DiskError else Accepted
      ensures r == Accepted && persist && current != old(current) ==> disk == Disk(current, current)
      ensures r != Accepted ==> current == old(current)
    {
      if p.None? {
        return Unverified;
      }
      ghost var was := Store(true, current, disk, Idle, []);
      forall active { UninterruptedRun(was.(active := active), p.value, disks); }
      hide Canonical;
      if current.Some? {
        if p.value.version < current.value.version {
          return Rejected(Rollback);
        }
        if p.value.version == current.value.version {
          if Canonical(p.value) != Canonical(current.value) {
            return Rejected(Equivocation);
          }
          return Accepted;
        }
      }
      if persist {
        var ok := AtomicFile(p.value, disks);
        if !ok {
          return DiskError;
        }
      }
      current := p;
      return Accepted;
    }

    /** At startup: adopts the verified file whatever its age, and starts nothing on one that does not verify. */
    method Restore(verified: bool) returns (ok: bool)
      modifies this`current
      ensures ok <==> disk.visible.None? || verified
      ensures current == if ok && disk.visible.Some? then disk.visible else old(current)
      ensures ok && old(current).None? ==>
        forall active :: StartUp(Store(false, None, disk, Idle, active), verified).current == current
    {
      match disk.visible
      case None => return true;
      case Some(p) =>
        if !verified {
          return false;
        }
        current := Some(p);
        return true;
    }
  }

  /** The machine's actions for one offer with no crash in between. */
  function Uninterrupted(p: Policy, disks: WriteResult): seq<Action> {
    match disks
    case Written => [Offer(p), Rename, Sync]
    case NotSynced => [Offer(p), Rename, Fail]
    case NotRenamed => [Offer(p), Fail]
  }

  lemma UninterruptedRun(s: Store, p: Policy, disks: WriteResult)
    requires s.up && s.work.Idle?
    ensures Judge(s.current, p) == Newer ==>
      && ValidRun(s, Uninterrupted(p, disks))
      && After(s, Uninterrupted(p, disks)) ==
         match disks
         case Written => Store(true, Some(p), Disk(Some(p), Some(p)), Idle, s.active + [p])
         case NotSynced => s.(disk := s.disk.(visible := Some(p)))
         case NotRenamed => s
  {
    if Judge(s.current, p) == Newer {
      hide Judge;
      RunSnoc(s, [], Offer(p));
      assert [] + [Offer(p)] == [Offer(p)];
      if disks == NotRenamed {
        RunSnoc(s, [Offer(p)], Fail);
        assert [Offer(p)] + [Fail] == [Offer(p), Fail];
      } else {
        RunSnoc(s, [Offer(p)], Rename);
        assert [Offer(p)] + [Rename] == [Offer(p), Rename];
        var last := if disks == Written then Sync else Fail;
        RunSnoc(s, [Offer(p), Rename], last);
        assert [Offer(p), Rename] + [last] == Uninterrupted(p, disks);
      }
    }
  }
}
