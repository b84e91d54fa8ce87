/**
 What the store steps of a tick do, said on the record and the clock alone: when the lease is taken, when an entry is
 given up, what a failure leaves, and which trades are archived.
 */
module SandboxTicks {
  import opened Wrappers
  import opened SandboxTypes
  import opened Totals
  import opened SandboxSpec
  import opened SandboxInvariant
  import opened SandboxService
  import opened SandboxClaiming
  import SandboxOwner
  import SandboxWorkers

  /** The lease is taken exactly when it is free, ran out, or is one's own; then it lasts thirty seconds. */
  lemma AcquireIff(s: State, worker: string, now: int)
    ensures var r := Acquire(s, worker, now);
      && (r.Some? <==> (s.lease.Some? && s.lease.value.owner != worker ==> s.lease.value.until <= now))
      && (r.Some? ==>
            && r.value.lease == Some(Lease(worker, now + 30000))
            && if s.bootId == Some(worker) then r.value == s.(lease := r.value.lease)
               else !r.value.armed && r.value.killed && r.value.reconciledAt.None?
                    && SandboxOwner.AllLeave(s.trades, r.value.trades, Restart))
  {
    SandboxOwner.RecoverIff(s, worker);
  }

  /** An entry goes out only while armed, allowed and under the lease; otherwise its order expires and nothing else. */
  lemma RecheckIff(s: State, worker: string, id: OrderId, allowed: bool)
    ensures var (s', go) := SandboxWorkers.Recheck(s, worker, id, allowed);
      && (go <==> allowed && s.armed && !s.killed && s.lease.Some? && s.lease.value.owner == worker)
      && (go ==> s' == s)
      && (!go ==>
            && (forall k: nat :: FirstWithId(s.orders, id, k) ==>
                  s' == s.(orders := s.orders[k := s.orders[k].(state := Expired)]))
            && ((forall k: nat :: !FirstWithId(s.orders, id, k)) ==> s' == s))
  {
    hide OrderIndex;
    var i := OrderIndex(s.orders, id);
    if i < |s.orders| {
      assert FirstWithId(s.orders, id, i);
    }
  }

  /**
   After a failure the owner of the lease halts, distrusts the last reconciliation and cancels the first live entry with
   cancels left; a flat record within the time of grace is left alone.
   */
  lemma FailIff(s: State, worker: string, grace: bool, now: int)
    ensures var (s', a) := FailTick(s, worker, grace, now);
      var halted := s.(haltReason := Some(ServiceError), armed := false, reconciledAt := None);
      if s.lease.None? || s.lease.value.owner != worker || (grace && SandboxOwner.Flat(s)) then s' == s && a == None
      else
        && (forall k: nat :: FirstToStop(s.orders, k, now) ==> Cancels(halted, s', a, k, now))
        && ((forall k: nat :: !FirstToStop(s.orders, k, now)) ==> s' == halted && a == None)
  {
    hide ClaimEmergencyCancel, FirstToStop, Cancels;
    EmergencyIff(s.(haltReason := Some(ServiceError), armed := false, reconciledAt := None), now);
  }

  // Archiving.

  /** A closed trade of an earlier day whose orders are all finished. */
  ghost predicate Ripe(t: Trade, os: seq<Order>, today: int) {
    t.closedAt.Some? && t.id.day < today
    && forall k :: 0 <= k < |os| && os[k].id.trade == t.id ==> Terminal(os[k])
  }

  /** The ripe trades of a list, in its order. */
  ghost function RipeOf(ts: seq<Trade>, os: seq<Order>, today: int): seq<Trade>
    decreases |ts|
  {
    if ts == [] then []
    else (if Ripe(ts[0], os, today) then [ts[0]] else []) + RipeOf(ts[1..], os, today)
  }

  function TradesOf(rows: seq<ArchiveRow>): seq<Trade> {
    seq(|rows|, i requires 0 <= i < |rows| => rows[i].trade)
  }

  lemma RipeIs(s: State, t: Trade, now: int)
    ensures Archivable(s, t, now) == Ripe(t, s.orders, Day(now))
  {
    if Archivable(s, t, now) {
      forall k | 0 <= k < |s.orders| && s.orders[k].id.trade == t.id ensures Terminal(s.orders[k]) {
        assert s.orders[k] in s.orders;
      }
    }
  }

  lemma RipeWithout(t: TradeId, u: Trade, os: seq<Order>, today: int)
    requires u.id != t
    ensures Ripe(u, Without(t, os), today) == Ripe(u, os, today)
  {
    WithoutMembers(t, os);
    var ps := Without(t, os);
    if Ripe(u, os, today) {
      forall k | 0 <= k < |ps| && ps[k].id.trade == u.id ensures Terminal(ps[k]) {
        assert ps[k] in ps;
        var j :| 0 <= j < |os| && os[j] == ps[k];
      }
    }
    if Ripe(u, ps, today) {
      forall j | 0 <= j < |os| && os[j].id.trade == u.id ensures Terminal(os[j]) {
        assert os[j] in ps;
        var k :| 0 <= k < |ps| && ps[k] == os[j];
      }
    }
  }

  lemma {:induction false} RipeOfWithout(t: TradeId, ts: seq<Trade>, os: seq<Order>, today: int)
    requires forall u :: u in ts ==> u.id != t
    ensures RipeOf(ts, Without(t, os), today) == RipeOf(ts, os, today)
    decreases |ts|
  {
    if ts != [] {
      RipeWithout(t, ts[0], os, today);
      RipeOfWithout(t, ts[1..], os, today);
    }
  }

  /** The trades archived are the first of the ripe ones, as many as a batch takes, in the order of the record. */
  lemma {:induction false} ArchiveIff(s: State, todo: seq<Trade>, max: nat, now: int)
    requires UniqueTrades(todo)
    ensures var ripe := RipeOf(todo, s.orders, Day(now));
      TradesOf(Archive(s, todo, max, now).1) == if |ripe| <= max then ripe else ripe[..max]
    decreases |todo|
  {
    hide Ripe, Archivable, UniqueTrades;
    var ripe := RipeOf(todo, s.orders, Day(now));
    if todo != [] && max > 0 {
      var t, rest := todo[0], todo[1..];
      RipeIs(s, t, now);
      RestUnique(todo);
      if !Archivable(s, t, now) {
        ArchiveIff(s, rest, max, now);
        assert ripe == RipeOf(rest, s.orders, Day(now));
      } else {
        var s1 := ArchiveOne(s, t);
        ArchiveIff(s1, rest, max - 1, now);
        RipeOfWithout(t.id, rest, s.orders, Day(now));
        FirstMoves(s, todo, max, now);
        assert ripe == [t] + RipeOf(rest, s.orders, Day(now));
      }
    }
  }

  lemma RestUnique(todo: seq<Trade>)
    requires UniqueTrades(todo) && todo != []
    ensures UniqueTrades(todo[1..]) && forall u :: u in todo[1..] ==> u.id != todo[0].id
  {
  }

  lemma FirstMoves(s: State, todo: seq<Trade>, max: nat, now: int)
    requires todo != [] && max > 0 && Archivable(s, todo[0], now)
    ensures TradesOf(Archive(s, todo, max, now).1)
         == [todo[0]] + TradesOf(Archive(ArchiveOne(s, todo[0]), todo[1..], max - 1, now).1)
  {
    hide Archivable, ArchiveOne;
  }
}
