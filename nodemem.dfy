/**
 * The node-memory store as the deposit lock uses it: for every address, the
 * `DEPOSIT_LOCK` entries written for it, each with its writer (owner) and the
 * instant it expires. An entry is visible exactly while `now < expireAt`.
 */
module NodeMem {
  import opened Wrappers

  /** Lifetime of a deposit lock, in seconds (5 minutes). */
  const LOCK_TTL: int := 5 * 60

  datatype LockEntry = LockEntry(owner: string, expireAt: int)

  predicate Live(e: LockEntry, now: int) {
    now < e.expireAt
  }

  /** What a plain read returns: the first visible entry, or nothing. */
  function FirstLive(es: seq<LockEntry>, now: int): Option<LockEntry> {
    if es == [] then None
    else if Live(es[0], now) then Some(es[0])
    else FirstLive(es[1..], now)
  }

  /** The owners a distinct-owner read reports. */
  ghost function LiveOwners(es: seq<LockEntry>, now: int): set<string> {
    set e | e in es && Live(e, now) :: e.owner
  }

  predicate NoDuplicates(s: seq<string>) {
    forall i, j :: 0 <= i < j < |s| ==> s[i] != s[j]
  }

  /** A plain read finds an entry exactly when a visible one exists, and what it finds is visible. */
  lemma {:induction false} FirstLiveFinds(es: seq<LockEntry>, now: int)
    ensures FirstLive(es, now).None? <==> forall e :: e in es ==> !Live(e, now)
    ensures FirstLive(es, now).Some? ==> FirstLive(es, now).value in es && Live(FirstLive(es, now).value, now)
  {
    if es != [] {
      FirstLiveFinds(es[1..], now);
      assert forall e :: e in es ==> e == es[0] || e in es[1..];
    }
  }

  lemma LiveOwnersAppend(es: seq<LockEntry>, e: LockEntry, now: int)
    ensures LiveOwners(es + [e], now) == LiveOwners(es, now) + (if Live(e, now) then {e.owner} else {})
  {
    var all := es + [e];
    forall o | o in LiveOwners(all, now)
      ensures o in LiveOwners(es, now) + (if Live(e, now) then {e.owner} else {})
    {
      var x :| x in all && Live(x, now) && x.owner == o;
      if x != e {
        assert x in es;
      }
    }
    forall o | o in LiveOwners(es, now) ensures o in LiveOwners(all, now) {
      var x :| x in es && Live(x, now) && x.owner == o;
      assert x in all;
    }
    if Live(e, now) {
      assert e in all;
    }
  }

  /** A sequence without repeats has as many distinct elements as it is long. */
  lemma {:induction false} DistinctCount(s: seq<string>)
    requires NoDuplicates(s)
    ensures |set x | x in s| == |s|
  {
    if s != [] {
      var last := s[|s| - 1];
      var init := s[..|s| - 1];
      DistinctCount(init);
      assert (set x | x in s) == (set x | x in init) + {last};
      assert last !in init;
    }
  }

  class NodeMemory {
    /** The identity this node writes as the owner of its entries. */
    const self: string
    var locks: map<string, seq<LockEntry>>

    constructor (self: string)
      ensures this.self == self && locks == map[]
    {
      this.self := self;
      locks := map[];
    }

    function Entries(addr: string): seq<LockEntry>
      reads this
    {
      if addr in locks then locks[addr] else []
    }

    /** `readNodeMem({name: DEPOSIT_LOCK, value: addr})`: one visible entry or none. */
    method Read(addr: string, now: int) returns (found: Option<LockEntry>)
      ensures found == FirstLive(Entries(addr), now)
    {
      var es := Entries(addr);
      var i := 0;
      while i < |es| && !Live(es[i], now)
        invariant 0 <= i <= |es|
        invariant FirstLive(es[i..], now) == FirstLive(es, now)
      {
        assert es[i..][1..] == es[i + 1..];
        i := i + 1;
      }
      found := if i < |es| then Some(es[i]) else None;
    }

    /** `readNodeMem(..., {distinct: 'owner'})`: the owners of the visible entries, each once. */
    method ReadDistinctOwners(addr: string, now: int) returns (owners: seq<string>)
      ensures NoDuplicates(owners)
      ensures (set o | o in owners) == LiveOwners(Entries(addr), now)
      ensures |owners| == |LiveOwners(Entries(addr), now)|
    {
      var es := Entries(addr);
      owners := [];
      for i := 0 to |es|
        invariant NoDuplicates(owners)
        invariant (set o | o in owners) == LiveOwners(es[..i], now)
      {
        assert es[..i + 1] == es[..i] + [es[i]];
        LiveOwnersAppend(es[..i], es[i], now);
        if Live(es[i], now) && es[i].owner !in owners {
          owners := owners + [es[i].owner];
        }
      }
      assert es[..|es|] == es;
      DistinctCount(owners);
    }

    /** `writeNodeMem([{name: DEPOSIT_LOCK, value: addr}], ttl)`: appends one entry owned by this node. */
    method Write(addr: string, ttl: int, now: int)
      modifies this
      ensures locks == old(locks)[addr := old(Entries(addr)) + [LockEntry(self, now + ttl * 1000)]]
    {
      locks := locks[addr := Entries(addr) + [LockEntry(self, now + ttl * 1000)]];
    }
  }

  /** An entry written at `now` makes every read find an entry until it expires. */
  lemma FreshEntrySeen(es: seq<LockEntry>, e: LockEntry, now: int)
    requires Live(e, now)
    ensures FirstLive(es + [e], now).Some?
  {
    assert e in es + [e];
    FirstLiveFinds(es + [e], now);
  }

  /**
   * When nothing was visible at `t0` and an entry is appended then, a read at
   * any later instant while that entry lives finds exactly it.
   */
  lemma {:induction false} OnlyFreshEntryVisible(es: seq<LockEntry>, e: LockEntry, t0: int, t1: int)
    requires forall x :: x in es ==> !Live(x, t0)
    requires t0 <= t1 && Live(e, t1)
    ensures FirstLive(es + [e], t1) == Some(e)
  {
    if es != [] {
      assert es[0] in es;
      assert (es + [e])[1..] == es[1..] + [e];
      assert forall x :: x in es[1..] ==> x in es;
      OnlyFreshEntryVisible(es[1..], e, t0, t1);
    }
  }

  /**
   * Acquire then confirm: when no entry was visible and this node appends one,
   * the distinct-owner read sees exactly that node until the entry expires.
   */
  lemma SoleWriterConfirms(es: seq<LockEntry>, owner: string, expireAt: int, acquiredAt: int, now: int)
    requires forall e :: e in es ==> !Live(e, acquiredAt)
    requires acquiredAt <= now < expireAt
    ensures LiveOwners(es + [LockEntry(owner, expireAt)], now) == {owner}
  {
    var all := es + [LockEntry(owner, expireAt)];
    forall o | o in LiveOwners(all, now) ensures o == owner {
      var e :| e in all && Live(e, now) && e.owner == o;
      assert e !in es;
    }
    assert LockEntry(owner, expireAt) in all;
  }

  /** Two visible entries from different owners make the confirmation read report two or more owners. */
  lemma RaceDetected(es: seq<LockEntry>, a: LockEntry, b: LockEntry, now: int)
    requires a in es && b in es && Live(a, now) && Live(b, now) && a.owner != b.owner
    ensures |LiveOwners(es, now)| >= 2
  {
    assert {a.owner, b.owner} <= LiveOwners(es, now);
    assert |{a.owner, b.owner}| == 2;
    SubsetCard({a.owner, b.owner}, LiveOwners(es, now));
  }

  /** Two visible entries written by the same owner count as one: the read does not tell them apart. */
  lemma SameOwnerNotDetected(owner: string, t1: int, t2: int, now: int)
    requires now < t1 && now < t2
    ensures LiveOwners([LockEntry(owner, t1), LockEntry(owner, t2)], now) == {owner}
  {
    var es := [LockEntry(owner, t1), LockEntry(owner, t2)];
    assert es[0] in es;
  }

  lemma SubsetCard<T>(a: set<T>, b: set<T>)
    requires a <= b
    ensures |a| <= |b|
  {
    assert b == a + (b - a);
  }
}
