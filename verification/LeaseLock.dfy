/** The distributed lock: one etcd key hanging on a lease, tagged with its owner, and inherited by a new
    locker of the same owner (pkg/etcd/locker.go). The transaction that looks at the key and the put that
    inherits it are two calls; nothing checks the key between them. */
module LeaseLock {
  import opened Basics

  type Lease = nat

  datatype Entry = Entry(owner: string, lease: Lease)

  /** The part of etcd the lock uses: its key, the live leases with the owner each was granted to, and the
      next lease id. */
  datatype Etcd = Etcd(key: Option<Entry>, live: map<Lease, string>, next: Lease)

  /** The etcd call that fails, if any. A call that reports failure may have taken effect all the same. */
  datatype Fault =
    | NoFault
    | GrantFails(applied: bool)
    | KeepAliveFails
    | CommitFails(applied: bool)
    | PutFails(applied: bool)

  function Grant(e: Etcd, owner: string): Etcd {
    e.(live := e.live[e.next := owner], next := e.next + 1)
  }

  /** A lease goes, by revocation or expiry, and takes the key with it if the key hangs on it. */
  function Drop(e: Etcd, lease: Lease): Etcd {
    e.(live := e.live - {lease},
       key := if e.key.Some? && e.key.value.lease == lease then None else e.key)
  }

  /** The revoke after a failure; its own failure is ignored. */
  function CleanUp(e: Etcd, lease: Lease, revoked: bool): Etcd {
    if revoked then Drop(e, lease) else e
  }

  function Write(e: Etcd, owner: string, lease: Lease): Etcd {
    e.(key := Some(Entry(owner, lease)))
  }

  /** The key is free, or already belongs to the same owner. */
  predicate MayTake(e: Etcd, owner: string) {
    e.key.Some? ==> e.key.value.owner == owner
  }

  // ----- an attempt: the transaction, and the put of an inheriting locker -----

  datatype Phase = Refused | Taken | Inheriting

  /** Up to the transaction, under the lease `e.next`. */
  function Transact(e: Etcd, owner: string, fault: Fault, revoked: bool): (Etcd, Phase) {
    var granted := Grant(e, owner);
    match fault
    case GrantFails(applied) => (if applied then granted else e, Refused)
    case KeepAliveFails => (granted, Refused)
    case CommitFails(applied) =>
      (CleanUp(if applied && e.key.None? then Write(granted, owner, e.next) else granted, e.next, revoked), Refused)
    case _ =>
      if e.key.None? then (Write(granted, owner, e.next), Taken)
      else if e.key.value.owner != owner then (CleanUp(granted, e.next, revoked), Refused)
      else (granted, Inheriting)
  }

  /** The inheriting put; it is refused if the lease is gone by then. */
  function Put(e: Etcd, owner: string, lease: Lease, fault: Fault, revoked: bool): (Etcd, bool) {
    if lease !in e.live then (CleanUp(e, lease, revoked), false)
    else if fault.PutFails? then
      (CleanUp(if fault.applied then Write(e, owner, lease) else e, lease, revoked), false)
    else (Write(e, owner, lease), true)
  }

  /** Both, with nothing in between. */
  function Attempt(e: Etcd, owner: string, fault: Fault, revoked: bool): (Etcd, bool) {
    var (f, phase) := Transact(e, owner, fault, revoked);
    if phase.Inheriting? then Put(f, owner, e.next, fault, revoked) else (f, phase.Taken?)
  }

  // ----- the code -----

  class Server {
    var key: Option<Entry>
    var live: map<Lease, string>
    var next: Lease

    ghost function State(): Etcd
      reads this
    {
      Etcd(key, live, next)
    }

    constructor ()
      ensures State() == Etcd(None, map[], 0)
    {
      key, live, next := None, map[], 0;
    }

    method GrantLease(owner: string) returns (lease: Lease)
      modifies this
      ensures State() == Grant(old(State()), owner) && lease == old(next)
    {
      lease := next;
      live := live[lease := owner];
      next := next + 1;
    }

    method Revoke(lease: Lease, effective: bool)
      modifies this
      ensures State() == CleanUp(old(State()), lease, effective)
    {
      if effective {
        live := live - {lease};
        if key.Some? && key.value.lease == lease {
          key := None;
        }
      }
    }
  }

  class Locker {
    const server: Server
    var leaseID: Lease
    var isLocked: bool

    constructor (server: Server)
      ensures this.server == server && !isLocked
    {
      this.server := server;
      leaseID, isLocked := 0, false;
    }

    /** `revoked`: the revoke after a failure takes effect. Only a failing call that took effect can leave a trace
        in the key, and never under another owner. */
    method TryLockWithOwner(owner: string, fault: Fault, revoked: bool) returns (ok: bool)
      requires Consistent(server.State())
      modifies this, server
      ensures (server.State(), ok) == Attempt(old(server.State()), owner, fault, revoked)
      ensures ok <==> MayTake(old(server.State()), owner)
                      && (fault.NoFault? || (fault.PutFails? && old(server.key).None?))
      ensures ok ==> isLocked && server.key == Some(Entry(owner, leaseID)) && leaseID !in old(server.live)
      ensures !ok ==> isLocked == old(isLocked) && leaseID == old(leaseID)
      ensures !ok ==>
                (server.key != old(server.key) <==>
                 || (fault == CommitFails(true) && old(server.key).None? && !revoked)
                 || (fault == PutFails(true) && old(server.key).Some? && old(server.key).value.owner == owner))
      ensures !ok && server.key != old(server.key) && server.key.Some? ==> server.key.value.owner == owner
      ensures !ok ==>
                (server.live == old(server.live) <==>
                 fault == GrantFails(false) || (revoked && !fault.GrantFails? && !fault.KeepAliveFails?))
      ensures Consistent(server.State())
    {
      ghost var before := server.State();
      assert before.live[before.next := owner] - {before.next} == before.live;
      if fault.GrantFails? {
        if fault.applied {
          var unused := server.GrantLease(owner);
          assert unused in server.live;
        }
        return false;
      }
      var lease := server.GrantLease(owner);
      assert lease in server.live && lease !in before.live;
      if fault.KeepAliveFails? {
        return false;
      }
      if fault.CommitFails? {
        if fault.applied && server.key.None? {
          server.key := Some(Entry(owner, lease));
        }
        server.Revoke(lease, revoked);
        return false;
      }
      if server.key.None? {
        server.key := Some(Entry(owner, lease));
      } else {
        if server.key.value.owner != owner {
          server.Revoke(lease, revoked);
          return false;
        }
        if fault.PutFails? {
          if fault.applied {
            server.key := Some(Entry(owner, lease));
          }
          server.Revoke(lease, revoked);
          return false;
        }
        server.key := Some(Entry(owner, lease));
      }
      leaseID := lease;
      isLocked := true;
      return true;
    }

    /** Answers no exactly when an undisturbed attempt would succeed for every owner. */
    method LockExist() returns (exist: bool)
      ensures !exist <==> forall owner :: Attempt(server.State(), owner, NoFault, true).1
      ensures exist ==> forall owner ::
                Attempt(server.State(), owner, NoFault, true).1 <==> owner == server.key.value.owner
    {
      exist := server.key.Some?;
      ghost var e := server.State();
      if exist {
        ghost var holder := e.key.value.owner;
        assert |holder + "x"| > |holder|;
        assert !Attempt(e, holder + "x", NoFault, true).1;
      }
    }

    /** Without an effective revoke the key stays until the lease runs out. */
    method Unlock(revoked: bool)
      modifies this, server
      ensures !isLocked && leaseID == old(leaseID)
      ensures server.State() ==
              if old(isLocked) && revoked then Drop(old(server.State()), leaseID) else old(server.State())
    {
      if isLocked {
        isLocked := false;
        server.Revoke(leaseID, revoked);
      }
    }
  }

  // ----- every run -----

  /** A present key hangs on a live lease that was granted to the key's owner; lease ids are not reused. */
  predicate Consistent(e: Etcd) {
    && (e.key.Some? ==> e.key.value.lease in e.live && e.live[e.key.value.lease] == e.key.value.owner)
    && forall l :: l in e.live ==> l < e.next
  }

  datatype Event =
    | Begin(locker: nat, owner: string, fault: Fault, revoked: bool)
    | Inherit(lease: Lease, fault: Fault, revoked: bool)
    | Unlock(locker: nat, revoked: bool)
    | Expire(lease: Lease)

  datatype Pending = Pending(locker: nat, owner: string)

  /** Lockers are known by number; `held` gives the lease of those that are locked, and `pending` the attempts
      between transaction and put, by their lease. */
  datatype World = World(etcd: Etcd, held: map<nat, Lease>, pending: map<Lease, Pending>)

  const START := World(Etcd(None, map[], 0), map[], map[])

  function Step(w: World, ev: Event): World {
    match ev
    case Begin(i, owner, fault, revoked) =>
      var (e, phase) := Transact(w.etcd, owner, fault, revoked);
      World(e,
            if phase.Taken? then w.held[i := w.etcd.next] else w.held,
            if phase.Inheriting? then w.pending[w.etcd.next := Pending(i, owner)] else w.pending)
    case Inherit(lease, fault, revoked) =>
      if lease !in w.pending then w else
      var (e, ok) := Put(w.etcd, w.pending[lease].owner, lease, fault, revoked);
      World(e, if ok then w.held[w.pending[lease].locker := lease] else w.held, w.pending - {lease})
    case Unlock(i, revoked) =>
      if i in w.held then w.(etcd := CleanUp(w.etcd, w.held[i], revoked), held := w.held - {i}) else w
    case Expire(lease) =>
      w.(etcd := Drop(w.etcd, lease))
  }

  function Run(w: World, evs: seq<Event>): World {
    if evs == [] then w else Step(Run(w, evs[..|evs| - 1]), evs[|evs| - 1])
  }

  ghost predicate Good(w: World) {
    && Consistent(w.etcd)
    && (forall i :: i in w.held ==> w.held[i] < w.etcd.next)
    && (forall l :: l in w.pending ==> l < w.etcd.next && (w.etcd.key.Some? ==> w.etcd.key.value.lease != l))
    && (forall l :: l in w.pending && l in w.etcd.live ==> w.etcd.live[l] == w.pending[l].owner)
  }

  /** The owner of the key stays, unless the lease the key hangs on ends, and then the key is gone. */
  predicate Exclusive(e: Etcd, f: Etcd) {
    e.key.Some? ==>
      if f.key.None? then e.key.value.lease !in f.live else f.key.value.owner == e.key.value.owner
  }

  /** An inheriting put that lands on a present key, and either finds another owner there, or reports failure and
      takes the key along with its lease. */
  predicate Overwrites(w: World, ev: Event) {
    && ev.Inherit? && ev.lease in w.pending && ev.lease in w.etcd.live
    && w.etcd.key.Some? && ev.fault != PutFails(false)
    && (w.etcd.key.value.owner != w.pending[ev.lease].owner
        || (ev.fault == PutFails(true) && ev.revoked))
  }

  lemma TransactIsExclusive(e: Etcd, owner: string, fault: Fault, revoked: bool)
    requires Consistent(e)
    ensures var (f, phase) := Transact(e, owner, fault, revoked);
            && Consistent(f) && Exclusive(e, f) && e.next <= f.next
            && (forall l :: l in f.live && l != e.next ==> l in e.live && f.live[l] == e.live[l])
            && (f.key.Some? ==> f.key == e.key || f.key.value.lease == e.next)
            && (phase.Taken? ==> e.next < f.next)
            && (phase.Inheriting? ==> f == Grant(e, owner) && e.key.Some? && e.key.value.owner == owner)
  {
  }

  lemma BeginIsExclusive(w: World, ev: Event)
    requires Good(w) && ev.Begin?
    ensures Good(Step(w, ev)) && Exclusive(w.etcd, Step(w, ev).etcd)
  {
    TransactIsExclusive(w.etcd, ev.owner, ev.fault, ev.revoked);
  }

  lemma InheritIsExclusiveIff(w: World, ev: Event)
    requires Good(w) && ev.Inherit? && ev.lease in w.pending
    ensures Good(Step(w, ev))
    ensures Exclusive(w.etcd, Step(w, ev).etcd) <==> !Overwrites(w, ev)
  {
    var (e, ok) := Put(w.etcd, w.pending[ev.lease].owner, ev.lease, ev.fault, ev.revoked);
    assert Consistent(e);
    assert forall l :: l in e.live ==> l in w.etcd.live && e.live[l] == w.etcd.live[l];
    assert e.key.Some? ==> e.key == w.etcd.key || e.key.value.lease == ev.lease;
  }

  /** Exactly these steps break exclusion. */
  lemma StepIsExclusiveIff(w: World, ev: Event)
    requires Good(w)
    ensures Good(Step(w, ev))
    ensures Exclusive(w.etcd, Step(w, ev).etcd) <==> !Overwrites(w, ev)
  {
    if ev.Begin? {
      BeginIsExclusive(w, ev);
    } else if ev.Inherit? && ev.lease in w.pending {
      InheritIsExclusiveIff(w, ev);
    }
  }

  /** A locker comes to be locked only with the key in its owner's name and on its own lease. */
  lemma LockedWithKey(w: World, ev: Event, i: nat)
    requires Good(w) && i in Step(w, ev).held
    ensures var next := Step(w, ev);
            || (i in w.held && w.held[i] == next.held[i])
            || (next.held[i] in next.etcd.live
                && next.etcd.key == Some(Entry(next.etcd.live[next.held[i]], next.held[i])))
  {
  }

  lemma {:induction false} EveryRunIsGood(evs: seq<Event>)
    ensures Good(Run(START, evs))
  {
    if evs != [] {
      EveryRunIsGood(evs[..|evs| - 1]);
      StepIsExclusiveIff(Run(START, evs[..|evs| - 1]), evs[|evs| - 1]);
    }
  }

  lemma RunNext(w: World, evs: seq<Event>, k: nat)
    requires k < |evs|
    ensures Run(w, evs[..k + 1]) == Step(Run(w, evs[..k]), evs[k])
  {
    var upto := evs[..k + 1];
    assert upto[..|upto| - 1] == evs[..k] && upto[|upto| - 1] == evs[k];
  }

  ghost predicate ExclusiveAt(evs: seq<Event>, k: nat)
    requires k < |evs|
  {
    Exclusive(Run(START, evs[..k]).etcd, Run(START, evs[..k + 1]).etcd)
  }

  ghost predicate OverwritesAt(evs: seq<Event>, k: nat)
    requires k < |evs|
  {
    Overwrites(Run(START, evs[..k]), evs[k])
  }

  /** Every step of a run keeps exclusion exactly when no inheriting put overwrites. */
  lemma EveryStepIsExclusiveIff(evs: seq<Event>)
    ensures (forall k :: 0 <= k < |evs| ==> ExclusiveAt(evs, k)) <==>
            (forall k :: 0 <= k < |evs| ==> !OverwritesAt(evs, k))
  {
    forall k | 0 <= k < |evs| ensures ExclusiveAt(evs, k) <==> !OverwritesAt(evs, k) {
      EveryRunIsGood(evs[..k]);
      RunNext(START, evs, k);
      StepIsExclusiveIff(Run(START, evs[..k]), evs[k]);
    }
  }

  // ----- a condition on the events -----

  /** No attempt is between its transaction and its put, except with a lease that has ended. */
  ghost predicate NobodyInGap(w: World) {
    forall l :: l in w.pending ==> l !in w.etcd.live
  }

  /** If the event removes the key, then nobody is left in the gap. */
  ghost predicate Undisturbed(w: World, ev: Event) {
    var next := Step(w, ev);
    w.etcd.key.Some? && next.etcd.key.None? ==> NobodyInGap(next)
  }

  /** Whoever is in the gap still finds its own owner in the key. */
  ghost predicate GapAgrees(w: World) {
    forall l :: l in w.pending && l in w.etcd.live ==> w.etcd.key.Some? && w.etcd.key.value.owner == w.pending[l].owner
  }

  lemma StepKeepsGap(w: World, ev: Event)
    requires Good(w) && GapAgrees(w) && Undisturbed(w, ev)
    ensures GapAgrees(Step(w, ev))
  {
    var next := Step(w, ev);
    StepIsExclusiveIff(w, ev);
    if next.etcd.key.Some? {
      forall l | l in next.pending && l in next.etcd.live ensures next.etcd.key.value.owner == next.pending[l].owner {
        assert (ev.Begin? && l == w.etcd.next) || (l in w.pending && l in w.etcd.live);
      }
    } else if w.etcd.key.None? {
      assert forall l :: l in next.pending ==> l in w.pending;
    }
  }

  /** Exclusion in every run in which nothing removes the key while a locker is between its transaction and its
      put: the owner stays for as long as the lease the key hangs on, and is never replaced by another, the one
      exception to the former being a put that fails, takes effect and is revoked. */
  lemma {:induction false} OwnerIsNeverReplaced(evs: seq<Event>, k: nat)
    requires k < |evs|
    requires forall i :: 0 <= i <= k ==> Undisturbed(Run(START, evs[..i]), evs[i])
    ensures var w, next := Run(START, evs[..k]), Run(START, evs[..k + 1]);
            && Good(w) && GapAgrees(w) && Good(next) && GapAgrees(next)
            && (w.etcd.key.Some? && next.etcd.key.Some? ==> next.etcd.key.value.owner == w.etcd.key.value.owner)
            && (Exclusive(w.etcd, next.etcd) || (evs[k].Inherit? && evs[k].fault == PutFails(true) && evs[k].revoked))
  {
    if k > 0 {
      OwnerIsNeverReplaced(evs, k - 1);
      assert k - 1 + 1 == k;
    }
    var w := Run(START, evs[..k]);
    RunNext(START, evs, k);
    StepIsExclusiveIff(w, evs[k]);
    StepKeepsGap(w, evs[k]);
  }

  // ----- inheritance -----

  /** An event that takes the key from its owner: the lease it hangs on ends, or a put overwrites it. */
  predicate Frees(w: World, ev: Event) {
    w.etcd.key.Some? &&
    match ev
    case Begin(_, _, _, _) => false
    case Inherit(_, _, _) => Overwrites(w, ev)
    case Unlock(i, revoked) => revoked && i in w.held && w.held[i] == w.etcd.key.value.lease
    case Expire(l) => l == w.etcd.key.value.lease
  }

  lemma OwnerStaysIff(w: World, ev: Event)
    requires Good(w) && w.etcd.key.Some?
    ensures var f := Step(w, ev).etcd;
            (f.key.Some? && f.key.value.owner == w.etcd.key.value.owner) <==> !Frees(w, ev)
  {
    StepIsExclusiveIff(w, ev);
  }

  /** Inheritance: once a locker has taken the key, the owner keeps it, whatever older lockers unlock or let
      expire, for as long as nothing frees the lease it hangs on at the time. */
  lemma {:induction false} InheritedLockSurvives(w: World, evs: seq<Event>, owner: string)
    requires Good(w) && w.etcd.key.Some? && w.etcd.key.value.owner == owner
    requires forall k :: 0 <= k < |evs| ==> !Frees(Run(w, evs[..k]), evs[k])
    ensures var last := Run(w, evs);
            Good(last) && last.etcd.key.Some? && last.etcd.key.value.owner == owner
  {
    if evs != [] {
      var n := |evs| - 1;
      var front := evs[..n];
      forall k | 0 <= k < |front| ensures !Frees(Run(w, front[..k]), front[k]) {
        assert front[..k] == evs[..k] && front[k] == evs[k];
      }
      InheritedLockSurvives(w, front, owner);
      assert evs[..n] == front;
      StepIsExclusiveIff(Run(w, front), evs[n]);
      OwnerStaysIff(Run(w, front), evs[n]);
    }
  }

  /** A new locker of the same owner moves the key to a lease of its own, so the older lease frees nothing. */
  lemma OlderLeaseIsHarmless(e: Etcd, owner: string, older: Lease, revoked: bool)
    requires Consistent(e) && e.key == Some(Entry(owner, older))
    ensures var (f, ok) := Attempt(e, owner, NoFault, revoked);
            ok && f.key == Some(Entry(owner, e.next)) && Drop(f, older).key == f.key
  {
  }

  // ----- overwriting happens -----

  /** The old lease expires after the transaction of an inheriting locker, another owner takes the key, and the
      put hands it back: both owners' lockers are then locked, on leases that are both alive. */
  lemma GapCanReplaceOwner(a: string, b: string)
    requires a != b
    ensures var evs := [Begin(0, a, NoFault, true), Begin(1, a, NoFault, true), Expire(0),
                        Begin(2, b, NoFault, true), Inherit(1, NoFault, true)];
            var w, next := Run(START, evs[..4]), Run(START, evs);
            && w.etcd.key == Some(Entry(b, 2)) && Overwrites(w, evs[4])
            && next.etcd.key == Some(Entry(a, 1))
            && 1 in next.held && next.held[1] == 1 && 2 in next.held && next.held[2] == 2
            && next.etcd.live == map[1 := a, 2 := b]
  {
    var evs := [Begin(0, a, NoFault, true), Begin(1, a, NoFault, true), Expire(0),
                Begin(2, b, NoFault, true), Inherit(1, NoFault, true)];
    RunNext(START, evs, 0);
    RunNext(START, evs, 1);
    RunNext(START, evs, 2);
    RunNext(START, evs, 3);
    RunNext(START, evs, 4);
    assert evs[..5] == evs && evs[..0] == [];
    var w3 := Run(START, evs[..3]);
    assert w3.etcd.live == map[1 := a] && w3.etcd.key.None? && w3.pending == map[1 := Pending(1, a)];
  }
}
