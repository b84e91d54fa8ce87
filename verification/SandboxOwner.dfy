/** What the owner's commands need and do, said on the record and the clock alone. */
module SandboxOwner {
  import opened Wrappers
  import opened SandboxTypes
  import opened Totals
  import opened SandboxSpec

  /** Nothing is at work and nothing is held open. */
  ghost predicate Flat(s: State) {
    (forall o :: o in s.orders ==> Terminal(o)) && forall t :: t in s.trades ==> t.closedAt.Some?
  }

  ghost predicate Acceptable(requestId: string) {
    16 <= |requestId| <= 100
    && forall c :: c in requestId ==>
      'a' <= c <= 'z' || 'A' <= c <= 'Z' || '0' <= c <= '9' || c == '-' || c == '_'
  }

  lemma RequestIs(requestId: string)
    ensures ValidRequest(requestId) == Acceptable(requestId)
  {
    if ValidRequest(requestId) {
      forall c | c in requestId ensures RequestChar(c) {
        var i :| 0 <= i < |requestId| && requestId[i] == c;
      }
    } else if Acceptable(requestId) {
      forall i | 0 <= i < |requestId| ensures RequestChar(requestId[i]) {
        assert requestId[i] in requestId;
      }
    }
  }

  /** Entries are armed, for the day, exactly on a flat record reconciled in the last ten seconds. */
  lemma ArmIff(s: State, requestId: string, now: int)
    requires requestId !in s.commands
    ensures var r := Control(s, ArmOperation, requestId, now);
      && (r.Ok? <==>
          && Acceptable(requestId) && |s.commands| < 1000 && Flat(s)
          && s.reconciledAt.Some? && s.reconciledAt.value <= now <= s.reconciledAt.value + 10000)
      && (r.Ok? ==>
          r.value == s.(armed := true, armedDay := Some(Day(now)), killed := false, haltReason := None,
                        commands := s.commands[requestId := ControlCommand(ArmOperation)]))
  {
    RequestIs(requestId);
  }

  /** Every open trade is asked to leave for this reason; the closed ones stay as they are. */
  ghost predicate AllLeave(ts: seq<Trade>, ts': seq<Trade>, reason: ExitReason) {
    |ts'| == |ts|
    && forall i :: 0 <= i < |ts| ==>
      ts'[i] == if ts[i].closedAt.Some? then ts[i] else ts[i].(exitReason := Some(reason))
  }

  /** A stop is always taken, whatever the record's state: nothing is armed and every open trade leaves. */
  lemma StopIff(s: State, requestId: string, now: int)
    requires requestId !in s.commands
    ensures var r := Control(s, StopOperation, requestId, now);
      && (r.Ok? <==> Acceptable(requestId))
      && (r.Ok? ==>
          && !r.value.armed && r.value.killed && AllLeave(s.trades, r.value.trades, KillSwitch)
          && r.value.orders == s.orders && r.value.haltReason == s.haltReason)
  {
    RequestIs(requestId);
  }

  /** A command is taken once: again the same one changes nothing, and another under its id is refused. */
  lemma CommandOnce(s: State, operation: Operation, requestId: string, now: int)
    requires Acceptable(requestId) && requestId in s.commands
    ensures Control(s, operation, requestId, now) ==
            if s.commands[requestId] == ControlCommand(operation) then Ok(s) else Err(RequestIdReused)
  {
    RequestIs(requestId);
  }

  /** A new process takes over: nothing is armed, every open trade leaves, and calls under way are in doubt. */
  lemma RecoverIff(s: State, bootId: string)
    ensures var s' := Recover(s, bootId);
      if s.bootId == Some(bootId) then s' == s
      else
        && s'.bootId == Some(bootId) && !s'.armed && s'.killed && s'.reconciledAt.None?
        && AllLeave(s.trades, s'.trades, Restart) && |s'.orders| == |s.orders|
        && forall i :: 0 <= i < |s.orders| ==> InDoubt(s.orders[i], s'.orders[i])
  {
  }

  predicate InDoubt(o: Order, o': Order) {
    && o' == o.(state := o'.state, cancelState := o'.cancelState)
    && o'.state == (if o.state.Submitting? then Uncertain else o.state)
    && o'.cancelState == if o.cancelState.CancelSubmitting? then CancelUncertain else o.cancelState
  }

  /** The only trade an owner may resolve: known, open, of an earlier day, with trading stopped and disarmed. */
  ghost predicate Resolvable(s: State, i: nat, id: TradeId, now: int) {
    i < |s.trades| && s.trades[i].id == id && (forall j :: 0 <= j < i ==> s.trades[j].id != id)
    && s.trades[i].closedAt.None? && id.day < Day(now) && s.killed && !s.armed
  }

  /** Resolving books what was filled at the close of the trade's own day, and its working orders expire. */
  lemma ResolveIff(s: State, id: TradeId, reason: string, requestId: string, now: int)
    requires requestId !in s.commands
    ensures var r := ResolveTrade(s, id, reason, requestId, now);
      && (r.Ok? <==>
          && Acceptable(requestId) && |s.commands| < 1000 && TrimmedLength(reason) >= 3 && |reason| <= 200
          && exists i: nat :: Resolvable(s, i, id, now))
      && (r.Ok? ==> forall i: nat :: Resolvable(s, i, id, now) ==>
            |r.value.trades| == |s.trades| && Resolved(s.trades[i], r.value.trades[i], s.orders)
            && r.value.trades == s.trades[i := r.value.trades[i]] && OrdersExpired(s.orders, r.value.orders, id))
  {
    hide TrimmedLength, Total, ExpireTrade;
    RequestIs(requestId);
    var i := TradeIndex(s.trades, id);
    if i < |s.trades| {
      assert Resolvable(s, i, id, now) <==>
        !Closed(s.trades[i]) && id.day < Day(now) && s.killed && !s.armed;
    }
    ExpiredOnly(s.orders, id);
  }

  predicate Resolved(t: Trade, t': Trade, os: seq<Order>) {
    && t'.resolved && t'.closedAt == Some(t.id.day * 86400000 - 19800000 + (15 * 60 + 30) * 60000)
    && t'.buys == Total(Bought, t.id, os)
    && t'.netPnl == (if t'.buys == 0 then 0
                     else Total(Received, t.id, os) - Total(Spent, t.id, os) - t.costReserve)
    && t'.exitReason == (if t.exitReason.None? then Some(OwnerResolved) else t.exitReason)
    && t' == t.(closedAt := t'.closedAt, buys := t'.buys, netPnl := t'.netPnl, exitReason := t'.exitReason,
                resolved := true)
  }

  ghost predicate OrdersExpired(os: seq<Order>, os': seq<Order>, id: TradeId) {
    |os'| == |os|
    && forall k :: 0 <= k < |os| ==>
      os'[k] == if os[k].id.trade == id && !Terminal(os[k]) then os[k].(state := Expired, cancelState := NoCancel)
                else os[k]
  }

  lemma ExpiredOnly(os: seq<Order>, id: TradeId)
    ensures OrdersExpired(os, ExpireTrade(os, id), id)
  {
  }
}
