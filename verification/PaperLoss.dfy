/** The daily loss bound needs a broker that honours limit prices; the paper broker is one. */
module PaperLoss {
  import opened SandboxTypes
  import opened SandboxSpec
  import opened SandboxWorld
  import opened SandboxRuns
  import opened LossBound
  import opened PaperSpec
  import opened PaperAgreement
  import opened PaperRuns
  import opened PaperSafety

  lemma ReportKeepsLimits(rows: seq<PaperRow>)
    requires BookOk(rows)
    ensures forall b :: b in Report(rows) ==> RowLimitKept(b)
  {
    ReportMembers(rows);
    forall b | b in Report(rows) ensures RowLimitKept(b) {
      var r :| r in rows && Reported(r) == b;
      assert RowOk(r);
    }
  }

  ghost predicate FollowsSamePolicy(pw: PaperWorld, pw': PaperWorld) {
    exists e, now :: PaperEnabled(pw, e, now) && !e.OwnerPolicy? && pw' == PaperStep(pw, e, now)
  }

  /** A day on the paper broker without a change of policy, and without an exit of the day below its stop limit. */
  ghost predicate SteadyDay(pws: seq<PaperWorld>) {
    && pws != [] && DayStart(pws[0]) && LimitsKept(pws[0].w.s.orders, Day(pws[0].w.now))
    && (forall i :: 0 < i < |pws| ==> FollowsSamePolicy(pws[i - 1], pws[i]))
    && (forall i :: 0 <= i < |pws| ==> ExitsAboveStop(pws[i].w.s, Day(pws[0].w.now)))
    && (forall t :: t in pws[0].w.s.trades ==> Closed(t) && Day(t.closedAt.value) != Day(pws[0].w.now))
  }

  lemma SnapWellFormed(pw: PaperWorld, day: int)
    requires PaperOk(pw, day) && pw.snap.Some?
    ensures BookOk(pw.snap.value.rows)
  {
    hide BookOk;
  }

  lemma EventOfDay(pw: PaperWorld, e: PaperEvent, now: int, day: int)
    requires PaperOk(pw, day) && PaperEnabled(pw, e, now) && !e.OwnerPolicy?
    ensures OfDay(AsEvent(pw, e, now), now, day)
  {
    hide PaperOk, BookOk, RowsOf, PaperAfter, Place, CancelRow, RowLimitKept, Report, HasDue;
    DayOfOk(pw, day);
    if e.Ticked? {
      SnapWellFormed(pw, day);
      ReportKeepsLimits(pw.snap.value.rows);
    }
  }

  lemma SteadyFollows(pw: PaperWorld, pw': PaperWorld, day: int)
    requires PaperOk(pw, day) && FollowsSamePolicy(pw, pw')
    ensures FollowsOfDay(pw.w, pw'.w, day) && PaperFollows(pw, pw')
  {
    hide PaperOk, OfDay, AsEvent, Enabled, Step, PaperEnabled;
    var e, now :| PaperEnabled(pw, e, now) && !e.OwnerPolicy? && pw' == PaperStep(pw, e, now);
    AsEventEnabled(pw, e, now, day);
    EventOfDay(pw, e, now, day);
  }

  lemma {:induction false} SteadyDayOk(pws: seq<PaperWorld>, i: nat)
    requires SteadyDay(pws) && i < |pws|
    ensures PaperOk(pws[i], Day(pws[0].w.now))
  {
    hide PaperOk, FollowsSamePolicy, DayStart, ExitsAboveStop, LimitsKept;
    if i == 0 {
      DayStartOk(pws[0]);
    } else {
      SteadyDayOk(pws, i - 1);
      SteadyFollows(pws[i - 1], pws[i], Day(pws[0].w.now));
      PaperFollowsOk(pws[i - 1], pws[i], Day(pws[0].w.now));
    }
  }

  /** On the paper broker, the day's realised result stays at or above minus the daily loss limit. */
  lemma PaperLossBound(pws: seq<PaperWorld>, i: nat)
    requires SteadyDay(pws) && i < |pws|
    ensures var s, day := pws[i].w.s, Day(pws[0].w.now);
      && -pws[0].w.s.policy.dailyLoss <= DayPnl(s.trades, day, false)
      && (forall t :: t in s.trades && ClosedOn(t, day) ==> t.netPnl >= -t.plannedRisk)
  {
    hide PaperOk, FollowsSamePolicy, FollowsOfDay, Safe, ExitsAboveStop, LimitsKept, DayPnl, BookOk;
    var day := Day(pws[0].w.now);
    var ws := seq(|pws|, k requires 0 <= k < |pws| => pws[k].w);
    forall k | 0 < k < |ws| ensures FollowsOfDay(ws[k - 1], ws[k], day) {
      SteadyDayOk(pws, k - 1);
      SteadyFollows(pws[k - 1], pws[k], day);
    }
    DailyLossBound(ws, day, i);
  }
}
