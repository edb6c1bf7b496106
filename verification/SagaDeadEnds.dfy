/** Runs that leave a saga stranded: the ways in which a compensation can break off once
    its claim has taken effect. */
module SagaDeadEnds {
  import opened Base
  import opened Broker
  import opened SagaRows
  import opened SagaProtocol
  import opened SagaStories
  import opened SagaStranded
  import Ledger

  // ---------------------------------------------------------------------------
  // The compensation after a failed publish breaks off

  /** Where it breaks off: the claim reports an error after its effect, Cancel fails,
      the mark fails, or the orchestrator crashes after the claim. */
  datatype Break = AtClaim | AtCancel | AtMark | ByCrash

  /** The row is claimed and the request stands at `c`. */
  function Claimed(x: SagaId, data: SubscriptionData, c: Compensation): System {
    Created(x, data, map[x := None], StartCompensates(c)).(
      rows := map[x := Row(Compensating, data, 0)], history := map[x := [Awaiting, Compensating]])
  }

  lemma ClaimStep(x: SagaId, data: SubscriptionData, out: Outcome)
    requires out.TakesEffect()
    ensures var s, e := Published(x, data, ErrNoEffect), OfCompensation(Starter(x), Claim(out));
            && Enabled(s, e)
            && Apply(s, e) == Claimed(x, data, if out.Ok? then ToCancel(data.subscriptionId) else Finished(false))
  {
    var s := Published(x, data, ErrNoEffect);
    assert TaskAt(s, Starter(x)) && CurrentTask(s, Starter(x)) == Task(x, ToClaim);
    assert [Awaiting] + [Compensating] == [Awaiting, Compensating];
  }

  lemma RowIsClaimed(x: SagaId, data: SubscriptionData, out: Outcome) returns (t: Story)
    requires out.TakesEffect()
    ensures Tells(t, ANY_MODE)
    ensures Last(t) == Claimed(x, data, if out.Ok? then ToCancel(data.subscriptionId) else Finished(false))
  {
    hide Tells, Enabled, Apply;
    t := CommandIsPublished(x, data, ErrNoEffect, ANY_MODE);
    ClaimStep(x, data, out);
    t := Continue(t, ANY_MODE, OfCompensation(Starter(x), Claim(out)),
                  Claimed(x, data, if out.Ok? then ToCancel(data.subscriptionId) else Finished(false)));
  }

  /** Cancel was called with this outcome. */
  function Tried(x: SagaId, data: SubscriptionData, out: Outcome): System {
    Claimed(x, data, if out.Ok? then ToMark else Finished(false)).(
      tried := {(x, data.subscriptionId)}, cancelled := if out.Ok? then {x} else {})
  }

  lemma CancelStep(x: SagaId, data: SubscriptionData, out: Outcome)
    ensures var s, e := Claimed(x, data, ToCancel(data.subscriptionId)), OfCompensation(Starter(x), Cancel(out));
            Enabled(s, e) && Apply(s, e) == Tried(x, data, out)
  {
    var s := Claimed(x, data, ToCancel(data.subscriptionId));
    assert TaskAt(s, Starter(x)) && CurrentTask(s, Starter(x)) == Task(x, ToCancel(data.subscriptionId));
  }

  lemma CancelIsTried(x: SagaId, data: SubscriptionData, out: Outcome) returns (t: Story)
    ensures Tells(t, ANY_MODE) && Last(t) == Tried(x, data, out)
  {
    hide Tells, Enabled, Apply;
    t := RowIsClaimed(x, data, Ok);
    CancelStep(x, data, out);
    t := Continue(t, ANY_MODE, OfCompensation(Starter(x), Cancel(out)), Tried(x, data, out));
  }

  lemma MarkFails(x: SagaId, data: SubscriptionData) returns (t: Story)
    ensures Tells(t, ANY_MODE)
    ensures Last(t) == SetStarter(Tried(x, data, Ok), x, StartCompensates(Finished(false)))
  {
    hide Tells;
    t := CancelIsTried(x, data, Ok);
    var s := Last(t);
    assert TaskAt(s, Starter(x)) && CurrentTask(s, Starter(x)) == Task(x, ToMark);
    t := Continue(t, ANY_MODE, OfCompensation(Starter(x), Mark(ErrNoEffect)),
                  SetStarter(s, x, StartCompensates(Finished(false))));
  }

  lemma CrashAfterClaim(x: SagaId, data: SubscriptionData) returns (t: Story)
    ensures Tells(t, ANY_MODE)
    ensures Last(t) == Claimed(x, data, ToClaim).(procs := map[], waiters := map[])
  {
    hide Tells;
    t := RowIsClaimed(x, data, Ok);
    assert Last(t).replies.ReleaseAll() == Last(t).replies;
    t := Continue(t, ANY_MODE, CrashOrchestrator, Claimed(x, data, ToClaim).(procs := map[], waiters := map[]));
  }

  /** Queues and hands are empty, and only the request may still have to return. */
  predicate Quiet(s: System, x: SagaId) {
    && InState(s.rows, x, Compensating) && s.replies.msgs == map[] && s.commands.msgs == map[] && s.parts == map[]
    && (s.procs == map[] || s.procs == map[Starter(x) := Start(0, StartCompensates(Finished(false)))])
  }

  lemma QuietIsStranded(s: System, x: SagaId)
    requires Quiet(s, x)
    ensures Stranded(s, x)
  {
  }

  /** However the compensation after a failed publish breaks off once the row is claimed,
      the saga is stranded: without any call of Cancel, after one that failed, and after
      one that succeeded. */
  lemma BreakStrandsSaga(x: SagaId, data: SubscriptionData, where: Break) returns (t: Story)
    ensures IsRun(t.states, t.events) && t.states != [] && Stranded(Last(t), x) && x !in Last(t).accepted
    ensures where.AtClaim? || where.ByCrash? ==> Last(t).tried == {}
    ensures where.AtMark? ==> x in Last(t).cancelled
  {
    hide Tells, Stranded;
    match where {
      case AtClaim => t := RowIsClaimed(x, data, ErrAfterEffect);
      case AtCancel => t := CancelIsTried(x, data, ErrNoEffect);
      case AtMark => t := MarkFails(x, data);
      case ByCrash => t := CrashAfterClaim(x, data);
    }
    QuietIsStranded(Last(t), x);
    StoryIsRun(t, ANY_MODE);
  }

  // ---------------------------------------------------------------------------
  // A mailed saga that timed out, and a reaper whose Cancel fails

  predicate IsOnlySaga(s: System, x: SagaId) {
    s.procs == map[] && s.rows.Keys == {x} && InState(s.rows, x, Awaiting)
  }

  /** A reaper is at work on the one saga. */
  function ReaperAt(s: System, x: SagaId, c: Compensation): System {
    s.(procs := map[Reaper(0) := Reap([x], c)])
  }

  /** Cancel was called for it and failed. */
  function NotCancelled(s: System, x: SagaId): System
    requires x in s.rows
  {
    Moved(s, x, Compensating).(tried := s.tried + {(x, s.rows[x].data.subscriptionId)})
  }

  lemma ReaperStarts(s: System, x: SagaId)
    requires IsOnlySaga(s, x)
    ensures var e := OfReaper(0, StartReap(s.rows[x].timeoutAt + 1, [x]));
            Enabled(s, e) && Apply(s, e) == ReaperAt(s, x, ToClaim)
  {
    assert TimedOutIds(s.rows, s.rows[x].timeoutAt + 1) == {x};
  }

  lemma ReaperMoves(s: System, x: SagaId, c: Compensation, c': Compensation)
    ensures var u := ReaperAt(s, x, c);
            && TaskAt(u, Reaper(0)) && CurrentTask(u, Reaper(0)) == Task(x, c)
            && SetTask(u, Reaper(0), c') == ReaperAt(s, x, c')
  {
  }

  lemma ReaperClaims(s: System, x: SagaId)
    requires IsOnlySaga(s, x)
    ensures var u, e := ReaperAt(s, x, ToClaim), OfCompensation(Reaper(0), Claim(Ok));
            var c := ToCancel(s.rows[x].data.subscriptionId);
            Enabled(u, e) && Apply(u, e) == ReaperAt(Moved(s, x, Compensating), x, c)
  {
    hide SetTask, TaskOf, Record;
    var u, t := ReaperAt(s, x, ToClaim), Moved(s, x, Compensating);
    ReaperMoves(s, x, ToClaim, ToClaim);
    ReaperMoves(t, x, ToClaim, ToCancel(s.rows[x].data.subscriptionId));
    assert WithRows(u, ClaimRow(u.rows, x), x) == ReaperAt(t, x, ToClaim);
  }

  lemma ReaperCannotCancel(s: System, x: SagaId, sub: int)
    ensures var u, e := ReaperAt(s, x, ToCancel(sub)), OfCompensation(Reaper(0), Cancel(ErrNoEffect));
            Enabled(u, e) && Apply(u, e) == ReaperAt(s.(tried := s.tried + {(x, sub)}), x, Finished(false))
  {
    hide SetTask, TaskOf;
    ReaperMoves(s, x, ToCancel(sub), ToClaim);
    ReaperMoves(s.(tried := s.tried + {(x, sub)}), x, ToCancel(sub), Finished(false));
  }

  lemma ReaperEnds(s: System, x: SagaId)
    requires s.procs == map[]
    ensures var u, e := ReaperAt(s, x, Finished(false)), OfReaper(0, ReapNext); Enabled(u, e) && Apply(u, e) == s
  {
  }

  lemma ReaperFails(t: Story, s: System, x: SagaId) returns (t': Story)
    requires Tells(t, ANY_MODE) && Last(t) == s && IsOnlySaga(s, x)
    ensures Tells(t', ANY_MODE) && Last(t') == NotCancelled(s, x)
  {
    hide Tells, Enabled, Apply;
    var sub := s.rows[x].data.subscriptionId;
    ReaperStarts(s, x);
    t' := Continue(t, ANY_MODE, OfReaper(0, StartReap(s.rows[x].timeoutAt + 1, [x])), ReaperAt(s, x, ToClaim));
    ReaperClaims(s, x);
    t' := Continue(t', ANY_MODE, OfCompensation(Reaper(0), Claim(Ok)),
                   ReaperAt(Moved(s, x, Compensating), x, ToCancel(sub)));
    ReaperCannotCancel(Moved(s, x, Compensating), x, sub);
    t' := Continue(t', ANY_MODE, OfCompensation(Reaper(0), Cancel(ErrNoEffect)),
                   ReaperAt(NotCancelled(s, x), x, Finished(false)));
    ReaperEnds(NotCancelled(s, x), x);
    t' := Continue(t', ANY_MODE, OfReaper(0, ReapNext), NotCancelled(s, x));
  }

  /** The one reply left says that the mail of the half-compensated saga was sent. */
  predicate HasLateReply(s: System, x: SagaId) {
    && s.procs == map[] && InState(s.rows, x, Compensating)
    && s.replies == Queue(1, map[0 := Delivery(ConfirmationSent(x), None)])
  }

  lemma LateReplyChangesNothing(s: System, x: SagaId)
    requires HasLateReply(s, x)
    ensures var u, e := InHand(s, 0, 0, ToComplete), OfReplier(0, Complete(Ok));
            Enabled(u, e) && Apply(u, e) == InHand(s, 0, 0, ToSettle(Ack))
  {
  }

  lemma LateReplyIsAcked(s: System, x: SagaId)
    requires HasLateReply(s, x)
    ensures var u, e := InHand(s, 0, 0, ToSettle(Ack)), OfReplier(0, SettleReply);
            Enabled(u, e) && Apply(u, e) == s.(replies := Queue(1, map[]))
  {
    assert s.replies.Take(0, 0).Settle(0, 0, Ack).msgs == map[];
  }

  lemma LateReplyIsHandled(t: Story, s: System, x: SagaId) returns (t': Story)
    requires Tells(t, ANY_MODE) && Last(t) == s && HasLateReply(s, x)
    ensures Tells(t', ANY_MODE) && Last(t') == s.(replies := Queue(1, map[]))
  {
    hide Tells, Enabled, Apply;
    t' := ReplyIsDispatched(t, ANY_MODE, 0, 0);
    LateReplyChangesNothing(s, x);
    t' := Continue(t', ANY_MODE, OfReplier(0, Complete(Ok)), InHand(s, 0, 0, ToSettle(Ack)));
    LateReplyIsAcked(s, x);
    t' := Continue(t', ANY_MODE, OfReplier(0, SettleReply), s.(replies := Queue(1, map[])));
  }

  /** The mail went out, the request timed out, the reaper's Cancel failed and the late
      reply was acknowledged: nothing is left that could touch the saga. */
  lemma AcceptedSagaIsStranded(x: SagaId, data: SubscriptionData) returns (t: Story)
    requires HasFields(data)
    ensures IsRun(t.states, t.events) && t.states != [] && Stranded(Last(t), x)
    ensures var s := Last(t);
            && x in s.accepted && x in s.returned && s.returned[x] == TimedOutWaiting && x !in s.cancelled
            && s.procs == map[] && s.parts == map[] && s.commands.msgs == map[] && s.replies.msgs == map[]
  {
    hide Tells, Stranded;
    var l: Ledger.State;
    t, l := RequestGivesUp(x, data);
    var s := Last(t);
    t := ReaperFails(t, s, x);
    t := LateReplyIsHandled(t, NotCancelled(s, x), x);
    QuietIsStranded(Last(t), x);
    StoryIsRun(t, ANY_MODE);
  }
}
