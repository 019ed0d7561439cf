/**
 The idempotency store (internal/gateway/idempotency.go): one file per key, a byte
 budget, a time to live.  `size` stands for the length of an entry's JSON.
 */
module Idempotency {
  import opened Common
  import opened Routing

  /** `stored` is in whole seconds. */
  datatype File = File(entry: Entry, stored: int, size: nat)

  datatype Begun = Claimed | NotStored | Conflict | Mismatch | Prior(stored: Stored)

  /** What the request does with the answer: the phase the routing machine puts it in. */
  function PhaseAfter(b: Begun): Phase {
    match b
    case Claimed => Scan
    case NotStored => Scan
    case Conflict => Finished(Problem(409))
    case Mismatch => Finished(Problem(422))
    case Prior(stored) => Finished(Replayed(stored))
  }

  /** What a begin is told by an entry that counts. */
  function Told(e: Entry, hash: string): Begun {
    match e
    case Running(h) => if h == hash then Conflict else Mismatch
    case Unknown(h) => if h == hash then Conflict else Mismatch
    case Done(h, stored) => if h == hash then Prior(stored) else Mismatch
  }

  ghost function Sizes(files: map<string, File>): map<string, nat> { map k | k in files :: files[k].size }

  lemma SizesUpdate(files: map<string, File>, key: string, f: File)
    ensures Sum(Sizes(files[key := f])) == Sum(Sizes(files)) + f.size - if key in files then files[key].size else 0
    ensures |files[key := f]| == |files| + if key in files then 0 else 1
  {
    assert Sizes(files[key := f]) == Sizes(files)[key := f.size];
    SumUpdate(Sizes(files), key, f.size);
    assert files[key := f].Keys == files.Keys + {key};
  }

  lemma SizesRemove(files: map<string, File>, key: string)
    requires key in files
    ensures Sum(Sizes(files - {key})) == Sum(Sizes(files)) - files[key].size
    ensures |files - {key}| == |files| - 1
  {
    assert Sizes(files - {key}) == Sizes(files) - {key};
    SumRemove(Sizes(files), key);
    assert (files - {key}).Keys == files.Keys - {key};
  }

  class IdemStore {
    const ttl: Time
    const limit: nat
    var files: map<string, File>
    var used: int
    var count: int

    /** The counters are the files: nothing leaks and nothing is counted twice. */
    ghost predicate Valid()
      reads this
    {
      && used == Sum(Sizes(files)) && count == |files|
      && forall k :: k in files ==> files[k].size > 0
    }

    ghost function Entries(): map<string, Entry>
      reads this
    {
      map k | k in files :: files[k].entry
    }

    predicate Unexpired(key: string, now: Time)
      reads this
    {
      key in files ==> now - files[key].stored as real <= ttl
    }

    /** A key already on disk can always be rewritten; a new one needs room. */
    predicate Admits(key: string, size: nat)
      reads this
    {
      key in files || used + size <= limit
    }

    constructor (ttl: Time, limit: nat)
      ensures Valid() && files == map[] && this.ttl == ttl && this.limit == limit
    {
      this.ttl, this.limit := ttl, limit;
      files, used, count := map[], 0, 0;
      new;
      assert Sizes(files) == map[];
    }

    method Read(key: string, now: Time) returns (e: Option<Entry>)
      ensures e == if key in files && now - files[key].stored as real <= ttl then Some(files[key].entry) else None
    {
      if key !in files || now - files[key].stored as real > ttl {
        return None;
      }
      return Some(files[key].entry);
    }

    /** The budget is checked for new keys only, so settling a claimed key always succeeds. */
    method Write(key: string, e: Entry, size: nat, now: Time) returns (ok: bool)
      requires Valid() && size > 0
      modifies this
      ensures Valid()
      ensures ok <==> key in old(files) || old(used) + size <= limit
      ensures files == if ok then old(files)[key := File(e, now.Floor, size)] else old(files)
    {
      SizesUpdate(files, key, File(e, now.Floor, size));
      var existing := 0;
      if key in files {
        existing := files[key].size;
      } else if used + size > limit {
        return false;
      }
      files := files[key := File(e, now.Floor, size)];
      if existing == 0 {
        count := count + 1;
      }
      used := used + size - existing;
      return true;
    }

    /**
     Claims a key as the routing machine's first step does.  Whether the entry is
     stored is decided before anything is sent: a new key needs room in the budget.
     */
    method Begin(key: string, hash: string, size: nat, now: Time) returns (r: Begun)
      requires Valid() && size > 0
      modifies this
      ensures Valid()
      ensures r == NotStored <==> !old(Admits(key, size))
      ensures r == if key in old(files) && now - old(files)[key].stored as real <= ttl then Told(old(files)[key].entry, hash)
                   else if key in old(files) || old(used) + size <= limit then Claimed
                   else NotStored
      ensures r == Claimed ==> files == old(files)[key := File(Running(hash), now.Floor, size)]
      ensures r != Claimed ==> files == old(files)
      ensures forall req: Request, sh: Shared :: req.key == Some(key) && req.hash == hash && sh.store == old(Entries()) ==>
        StepBegin(req, sh, r != NotStored, !old(Unexpired(key, now))) == (At(req, PhaseAfter(r)), sh.(store := Entries()))
    {
      var prior := Read(key, now);
      if prior.Some? {
        if prior.value.hash != hash {
          return Mismatch;
        }
        match prior.value
        case Done(_, stored) => return Prior(stored);
        case _ => return Conflict;
      }
      var ok := Write(key, Running(hash), size, now);
      assert ok ==> Entries() == old(Entries())[key := Running(hash)];
      r := if ok then Claimed else NotStored;
    }

    method Finish(key: string, e: Entry, size: nat, now: Time)
      requires Valid() && size > 0
      modifies this
      ensures Valid()
      ensures files == if key in old(files) || old(used) + size <= limit then old(files)[key := File(e, now.Floor, size)] else old(files)
      ensures Entries() == if old(Admits(key, size)) then old(Entries())[key := e] else old(Entries())
    {
      var ok := Write(key, e, size, now);
    }

    method Release(key: string)
      requires Valid()
      modifies this
      ensures Valid()
      ensures files == old(files) - {key} && Entries() == old(Entries()) - {key}
    {
      if key in files {
        SizesRemove(files, key);
        used := used - files[key].size;
        count := count - 1;
      } else {
        assert files - {key} == files;
      }
      files := files - {key};
    }
  }
}
