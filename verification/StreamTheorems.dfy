/** What one session keeps in every run, and what a late timer or an early notification can do. */
module StreamTheorems {
  import opened Wrappers
  import opened FrameIdentity
  import opened StreamSession

  function After(run: seq<Event>): Session {
    Exec(InitialSession, run)
  }

  lemma Reached(run: seq<Event>)
    ensures SessionOk(After(run))
  {
    RunOk(InitialSession, run);
  }

  lemma {:induction false} ExecAppend(s: Session, run: seq<Event>, more: seq<Event>)
    ensures Exec(s, run + more) == Exec(Exec(s, run), more)
    decreases |run|
  {
    if run == [] {
      assert run + more == more;
    } else {
      assert (run + more)[0] == run[0] && (run + more)[1..] == run[1..] + more;
      ExecAppend(Step(s, run[0]), run[1..], more);
    }
  }

  lemma StepAfter(run: seq<Event>, e: Event)
    ensures After(run + [e]) == Step(After(run), e)
  {
    ExecAppend(InitialSession, run, [e]);
    var s := After(run);
    assert Exec(s, [e]) == Exec(Step(s, e), []);
  }

  // ----- one operation at a time -----

  /**
   An unfinished session waits for exactly one operation: the request, the response, the header,
   a part, or an idle wait that no notification has overtaken. It closes once, when it finishes.
   */
  lemma ExactlyOneCurrentOperation(run: seq<Event>)
    ensures var s := After(run);
            && (!s.finished ==> CurrentOperations(s) == 1)
            && s.seen.closings == if s.finished then 1 else 0
  {
    Reached(run);
  }

  /**
   Counting every handler that would act, expired waits included, the session has exactly one
   outstanding operation if and only if no notification overtook an expired idle wait.
   */
  lemma OneOperationIffNoOvertakenTimer(run: seq<Event>)
    requires !After(run).finished
    ensures var s := After(run);
            s.ops.requests + s.ops.responses + s.ops.headers + s.ops.parts + (if s.ops.armed then 1 else 0) + s.ops.expired == 1
            <==> s.seen.overtaken == 0
  {
    Reached(run);
  }

  predicate IsTimerEvent(e: Event) {
    e.TimerExpires? || e.ExpiredRuns? || e.AbortedRuns?
  }

  /**
   The idle timer can close a session that is writing a part if and only if a notification came
   between the expiry of an idle wait and its handler.
   */
  lemma TimerClosesAWritingSessionIff(run: seq<Event>)
    requires !After(run).finished && After(run).writing
    ensures (exists e :: IsTimerEvent(e) && After(run + [e]).finished) <==> After(run).seen.overtaken > 0
  {
    Reached(run);
    var s := After(run);
    forall e | IsTimerEvent(e) ensures After(run + [e]).finished <==> e.ExpiredRuns? && s.ops.expired > 0 {
      StepAfter(run, e);
    }
    assert IsTimerEvent(ExpiredRuns);
  }

  function Stamp(number: nat): Identity {
    Identity(0, number, 0, 0)
  }

  /** Such a run: a wait expires, a notification starts the second part, and the late handler closes. */
  lemma LateTimerClosesAWritingSession()
    ensures exists run :: !After(run).finished && After(run).writing && After(run + [ExpiredRuns]).finished
  {
    hide WriteLatest, CancelSession;
    var one, two := Some(Stamp(1)), Some(Stamp(2));
    var begin, header, part := ReadDone(false, Stream(Color), one, true), HeaderDone(false, None), PartDone(false, None);
    var run := [begin] + [header] + [part] + [TimerExpires] + [Notify(Color, two)];
    StepAfter([], begin);
    assert [] + [begin] == [begin];
    StepAfter([begin], header);
    StepAfter([begin] + [header], part);
    StepAfter([begin] + [header] + [part], TimerExpires);
    StepAfter([begin] + [header] + [part] + [TimerExpires], Notify(Color, two));
    StepAfter(run, ExpiredRuns);
    LateTimer(one, two);
  }

  lemma LateTimer(one: Option<Identity>, two: Option<Identity>)
    requires one == Some(Stamp(1)) && two == Some(Stamp(2))
    ensures var s3 := Step(Step(Step(InitialSession, ReadDone(false, Stream(Color), one, true)), HeaderDone(false, None)), PartDone(false, None));
            var s5 := Step(Step(s3, TimerExpires), Notify(Color, two));
            !s5.finished && s5.writing && Step(s5, ExpiredRuns).finished
  {
  }

  // ----- parts -----

  /** Each part is strictly newer than every part before it. */
  lemma PartsStrictlyIncrease(run: seq<Event>, i: nat, j: nat)
    requires i < j < |After(run).seen.parts|
    ensures StrictlyAfter(After(run).seen.parts[j], After(run).seen.parts[i])
  {
    Reached(run);
  }

  // ----- notifications -----

  lemma CountersGrow(s: Session, e: Event)
    ensures s.seen.notified <= Step(s, e).seen.notified
    ensures s.seen.parts <= Step(s, e).seen.parts
  {
    hide Sendable;
    match e
    case Notify(_, _) =>
    case PartDone(_, _) =>
    case HeaderDone(_, _) =>
    case _ =>
  }

  lemma {:induction false} CountersGrowOverRuns(s: Session, more: seq<Event>)
    ensures s.seen.notified <= Exec(s, more).seen.notified
    decreases |more|
  {
    if more != [] {
      CountersGrow(s, more[0]);
      CountersGrowOverRuns(Step(s, more[0]), more[1..]);
    }
  }

  /**
   Every notification after the header was written is followed by a fetch of the latest preview
   unless the session finishes first: whenever the session is not writing, the fetches cover all
   notifications, those of any earlier moment included.
   */
  lemma NotificationIsFollowedByAFetch(run: seq<Event>, more: seq<Event>)
    requires !After(run + more).finished && !After(run + more).writing
    ensures After(run + more).seen.covered >= After(run).seen.notified
  {
    Reached(run + more);
    ExecAppend(InitialSession, run, more);
    CountersGrowOverRuns(After(run), more);
  }

  /** While a notification is uncovered a part is being written, and its completion settles it. */
  lemma CompletionSettlesTheNotification(run: seq<Event>, error: bool, fetched: Option<Identity>)
    requires !After(run).finished && After(run).seen.covered < After(run).seen.notified
    ensures After(run).ops.parts == 1
    ensures var s := After(run + [PartDone(error, fetched)]);
            s.finished || s.seen.covered == s.seen.notified
  {
    Reached(run);
    StepAfter(run, PartDone(error, fetched));
  }

  /**
   A notification while the header is being written has no effect at all once the header is out:
   the first part is the frame fetched before the header, and no later fetch is owed.
   */
  lemma NotificationDuringHeaderIsLost(run: seq<Event>, kind: Kind, early: Option<Identity>, fetched: Option<Identity>)
    requires !After(run).finished && After(run).ops.headers == 1
    ensures After(run + [Notify(kind, early)] + [HeaderDone(false, fetched)]) == After(run + [HeaderDone(false, fetched)])
    ensures After(run + [HeaderDone(false, fetched)]).part == After(run).initial
  {
    Reached(run);
    StepAfter(run, Notify(kind, early));
    StepAfter(run + [Notify(kind, early)], HeaderDone(false, fetched));
    StepAfter(run, HeaderDone(false, fetched));
  }

  /**
   A notification leads to a fetch, at once or when the part in progress is done, exactly when
   the session streams that kind, is not finished, and its header has been written.
   */
  lemma NotificationCountsIff(run: seq<Event>, kind: Kind, fetched: Option<Identity>)
    ensures var s, s' := After(run), After(run + [Notify(kind, fetched)]);
            (s'.seen.covered > s.seen.covered || (s'.refresh && s'.ops.parts == 1 && s'.seen.notified > s.seen.notified))
            <==> (!s.finished && s.streaming && s.kind == kind && s.ops.headers == 0)
  {
    Reached(run);
    StepAfter(run, Notify(kind, fetched));
  }
}
