/**
 What the exit of a provider process does to a retry that may have been delivered. `processExited` makes a failing run of its
 own, and `refresh` takes it for a new turn: it inherits the attempts and is retried, although the provider has said nothing.
 */
module RunRecoveryExits {
  import opened Common
  import opened RunRecovery
  import opened RunRecoverySafety

  predicate Restorable(s: State) {
    s.session.Some? && s.session.value.shouldRestore && s.session.value.bound
  }

  /** `refresh` is about to write a record for a new failing turn, and nothing stands against a retry of it. */
  predicate MayRetry(s: State, mayRecover: bool) {
    && Records(s) && mayRecover && Recent(s, s.observations[s.pc.observation].attachedAt, s.pc.run) && !CancelledRun(s, s.pc.run)
    && Retryable(s.pc.run.code) && CarriedAttempts(Budget(s), s.pc.run) < |s.delays| && Within(s, s.pc.run.timestamp)
  }

  /** The record that `refresh` will write for a new failing turn plans a retry exactly under these conditions. */
  lemma NewRecordIsScheduledIff(s: State, mayRecover: bool)
    requires Records(s)
    ensures var t := Decide(s, mayRecover);
      && t.budget.Some? && t.budget.value.turnId == s.pc.run.turnId && Visible(t) == t.budget
      && (t.budget.value.status == Scheduled <==> MayRetry(s, mayRecover))
  {
  }

  function ExitOf(s: State): Run
    requires s.session.Some?
  {
    ProcessFailure(Process(s.session.value.process), Iso(s.now))
  }

  /** The server was killed and restarted, nothing is watched yet, and the process is found to have ended. */
  function ExitEvents(mayRecover: bool): seq<Event> {
    [ProcessEnded, TaskStarts(mayRecover), MonitorAnswers(None), RunDecided(mayRecover)]
  }

  lemma {:induction false} RunsSplit(s: State, a: seq<Event>, b: seq<Event>, turnId: TurnId)
    ensures After(s, a + b) == After(After(s, a), b)
    ensures Submissions(s, a + b) == Submissions(s, a) + Submissions(After(s, a), b)
    ensures Unanswered(s, turnId, a + b) <==> Unanswered(s, turnId, a) && Unanswered(After(s, a), turnId, b)
    decreases |a|
  {
    if a == [] {
      assert a + b == b;
    } else {
      assert (a + b)[0] == a[0] && (a + b)[1..] == a[1..] + b;
      RunsSplit(Next(s, a[0]), a[1..], b, turnId);
    }
  }

  /** The events take `s` to `t`, send `sent` prompts, and answer nothing that was sent for `turnId`. */
  predicate Leads(s: State, events: seq<Event>, t: State, turnId: TurnId, sent: nat) {
    After(s, events) == t && Submissions(s, events) == sent && Unanswered(s, turnId, events)
  }

  lemma LeadsOn(s: State, events: seq<Event>, t: State, turnId: TurnId, sent: nat, e: Event)
    requires Leads(s, events, t, turnId, sent) && NoAnswer(t, turnId, e)
    ensures Leads(s, events + [e], Next(t, e), turnId, sent + if e.ReadinessKnown? && Submits(t, e.blocked) then 1 else 0)
  {
    RunsSplit(s, events, [e], turnId);
    assert [e][1..] == [];
  }

  lemma LeadsAcross(s: State, a: seq<Event>, t: State, b: seq<Event>, u: State, turnId: TurnId, m: nat, n: nat)
    requires Leads(s, a, t, turnId, m) && Leads(t, b, u, turnId, n)
    ensures Leads(s, a + b, u, turnId, m + n)
  {
    RunsSplit(s, a, b, turnId);
  }

  // ---------- the exit becomes a planned retry ----------

  /** A new turn's exit, noted under the observation that adopts it, becomes a planned retry beside a retry that was handed
      over exactly when recovery is allowed, the session is bound and restorable, an attempt is left, Stop does not cover it
      and it is at most ten minutes old. */
  lemma ExitIsScheduledIff(s: State, mayRecover: bool, process: string, at: int)
    requires s.pc.Deciding? && s.pc.run == ProcessFailure(Process(process), Iso(at)) && s.pc.observation in s.observations
    requires s.observations[s.pc.observation].attachedAt <= at && Agrees(s)
    requires Budget(s).Some? && Budget(s).value.status == Retrying && Budget(s).value.turnId != Process(process)
    ensures var t := Decide(s, mayRecover);
      Budget(t).value.status == Scheduled
      <==> && mayRecover && Restorable(s) && Budget(s).value.attempts < |s.delays| && !CancelledRun(s, s.pc.run)
           && s.now - at <= 600000
    ensures Budget(Decide(s, mayRecover)).value.status == Scheduled
            ==> Budget(Decide(s, mayRecover)).value.attempts == Budget(s).value.attempts
  {
    if Records(s) {
      NewRecordIsScheduledIff(s, mayRecover);
    }
  }

  /** The record of a retry that was handed over, no task waits, and the killed server's observations are gone. */
  predicate KilledWhileRetrying(s: State) {
    && s.pc == Idle && s.queue == [] && s.current.None? && Agrees(s)
    && Budget(s).Some? && Budget(s).value.status == Retrying
  }

  predicate ExitIsRetried(s: State, mayRecover: bool) {
    && KilledWhileRetrying(s) && mayRecover && Restorable(s)
    && Budget(s).value.turnId != ExitOf(s).turnId
    && Budget(s).value.attempts < |s.delays|
    && !CancelledRun(s, ExitOf(s))
  }

  /** The observation made for the exit, once it has adopted it. */
  function Watching(exit: Run, now: int): Observation {
    NewObservation("", now, Some(exit)).(seen := Some(KeyOf(exit)), run := Some(exit))
  }

  /** The states between the exit and its record. */
  function Taken(s: State): State
    requires s.session.Some?
  {
    s.(observations := s.observations[s.created := NewObservation("", s.now, Some(ExitOf(s)))], current := Some(s.created),
       created := s.created + 1, pc := Reading(ThenNothing, s.created, 0))
  }

  function Adopted(s: State): State
    requires s.session.Some?
  {
    s.(observations := s.observations[s.created := Watching(ExitOf(s), s.now)], current := Some(s.created),
       created := s.created + 1, pc := Deciding(ThenNothing, s.created, ExitOf(s), true))
  }

  lemma ExitSteps(s: State)
    requires KilledWhileRetrying(s) && s.session.Some?
    ensures Next(Next(s, ProcessEnded), TaskStarts(true)) == Taken(s)
    ensures Next(Taken(s), MonitorAnswers(None)) == Adopted(s)
    ensures !FromProvider(Taken(s), None)
  {
    ExitIsTaken(s);
    assert Next(Taken(s), MonitorAnswers(None)).observations == Adopted(s).observations;
  }

  lemma ExitIsTaken(s: State)
    requires KilledWhileRetrying(s) && s.session.Some?
    ensures Next(Next(s, ProcessEnded), TaskStarts(true)) == Taken(s)
  {
    assert Next(s, ProcessEnded).queue[1..] == [];
  }

  lemma ExitIsAdopted(s: State, turnId: TurnId)
    requires KilledWhileRetrying(s) && s.session.Some?
    ensures Leads(s, [ProcessEnded, TaskStarts(true), MonitorAnswers(None)], Adopted(s), turnId, 0)
  {
    ExitSteps(s);
    assert Leads(s, [], s, turnId, 0);
    LeadsOn(s, [], s, turnId, 0, ProcessEnded);
    LeadsOn(s, [] + [ProcessEnded], Next(s, ProcessEnded), turnId, 0, TaskStarts(true));
    LeadsOn(s, [] + [ProcessEnded] + [TaskStarts(true)], Taken(s), turnId, 0, MonitorAnswers(None));
    assert [] + [ProcessEnded] + [TaskStarts(true)] + [MonitorAnswers(None)] == [ProcessEnded, TaskStarts(true), MonitorAnswers(None)];
  }

  lemma ExitIsRecordedIff(s: State, mayRecover: bool)
    requires KilledWhileRetrying(s) && s.session.Some?
    ensures var t := Decide(Adopted(s), mayRecover);
      Budget(t).Some? && Budget(t).value.status == Scheduled <==> ExitIsRetried(s, mayRecover)
  {
    var a := Adopted(s);
    if Records(a) {
      NewRecordIsScheduledIff(a, mayRecover);
    }
  }

  /** With a retry under way when the server was killed, the exit found after the restart becomes a planned retry exactly when
      recovery is allowed, the session is bound and restorable, an attempt is left and Stop does not cover the exit (and the
      retry was not itself for this exit). The provider has reported nothing. */
  lemma ExitAfterRestartIff(s: State, mayRecover: bool, turnId: TurnId)
    requires KilledWhileRetrying(s)
    ensures var t := After(s, ExitEvents(mayRecover));
      && Unanswered(s, turnId, ExitEvents(mayRecover)) && Submissions(s, ExitEvents(mayRecover)) == 0
      && (Budget(t).Some? && Budget(t).value.status == Scheduled <==> ExitIsRetried(s, mayRecover))
  {
    if mayRecover && s.session.Some? {
      AllowedExit(s, turnId);
      ExitIsRecordedIff(s, mayRecover);
    } else {
      RefusedExit(s, mayRecover, turnId);
    }
  }

  lemma AllowedExit(s: State, turnId: TurnId)
    requires KilledWhileRetrying(s) && s.session.Some?
    ensures Leads(s, ExitEvents(true), Decide(Adopted(s), true), turnId, 0)
  {
    ExitIsAdopted(s, turnId);
    LeadsOn(s, [ProcessEnded, TaskStarts(true), MonitorAnswers(None)], Adopted(s), turnId, 0, RunDecided(true));
    assert [ProcessEnded, TaskStarts(true), MonitorAnswers(None)] + [RunDecided(true)] == ExitEvents(true);
  }

  lemma RefusedExit(s: State, mayRecover: bool, turnId: TurnId)
    requires KilledWhileRetrying(s) && !(mayRecover && s.session.Some?)
    ensures Leads(s, ExitEvents(mayRecover), s, turnId, 0)
  {
    assert Next(s, ProcessEnded).queue[1..] == [];
    assert Next(Next(s, ProcessEnded), TaskStarts(mayRecover)) == s;
    assert Leads(s, [], s, turnId, 0);
    LeadsOn(s, [], s, turnId, 0, ProcessEnded);
    LeadsOn(s, [] + [ProcessEnded], Next(s, ProcessEnded), turnId, 0, TaskStarts(mayRecover));
    LeadsOn(s, [] + [ProcessEnded] + [TaskStarts(mayRecover)], s, turnId, 0, MonitorAnswers(None));
    LeadsOn(s, [] + [ProcessEnded] + [TaskStarts(mayRecover)] + [MonitorAnswers(None)], s, turnId, 0, RunDecided(mayRecover));
    assert [] + [ProcessEnded] + [TaskStarts(mayRecover)] + [MonitorAnswers(None)] + [RunDecided(mayRecover)] == ExitEvents(mayRecover);
  }

  // ---------- the planned retry is sent ----------

  /** The record the exit leaves, planned for `later`. */
  function Planned(s: State, later: nat): Failure
    requires KilledWhileRetrying(s) && s.session.Some?
  {
    Failure(ExitOf(s).turnId, Iso(s.now), ProcessExited, Budget(s).value.attempts, |s.delays|, Scheduled, Some(Iso(s.now + later)), None, None)
  }

  function Armed(s: State, later: nat): State
    requires KilledWhileRetrying(s) && s.session.Some?
  {
    Save(s, Some(Planned(s, later))).(
      observations := s.observations[s.created := Watching(ExitOf(s), s.now).(timer := Some(RetryTimer), pending := multiset{RetryTimer})],
      current := Some(s.created), created := s.created + 1)
  }

  lemma ExitArmsTheTimer(s: State)
    requires ExitIsRetried(s, true)
    ensures Decide(Adopted(s), true) == Armed(s, s.delays[Budget(s).value.attempts])
  {
    var t := Armed(s, s.delays[Budget(s).value.attempts]);
    var failure := RecordFor(ClearTimer(Adopted(s).(pc := Idle), s.created), s.now, ExitOf(s), true);
    assert failure == Planned(s, s.delays[Budget(s).value.attempts]);
    assert multiset{} + multiset{RetryTimer} == multiset{RetryTimer};
    assert Decide(Adopted(s), true).observations == t.observations;
  }

  function SendEvents(o: nat, later: nat): seq<Event> {
    [Tick(later), Timeout(o, RetryTimer), TaskStarts(true), MonitorAnswers(None), RefreshReturns, ReadinessKnown(None)]
  }

  /** The state once the timer has fired and its task reads the provider, which has nothing to say. */
  function Rereading(t: State, o: nat, later: nat): State
    requires o in t.observations
  {
    t.(now := t.now + later, pc := Reading(ThenRetry(o, 0), o, 0),
       observations := t.observations[o := t.observations[o].(timer := None, pending := multiset{})])
  }

  lemma ArmedSteps(s: State, later: nat)
    requires KilledWhileRetrying(s) && s.session.Some?
    ensures var t, o := Armed(s, later), s.created;
      && Next(Next(Next(t, Tick(later)), Timeout(o, RetryTimer)), TaskStarts(true)) == Rereading(t, o, later)
      && Next(Rereading(t, o, later), MonitorAnswers(None)) == Rereading(t, o, later).(pc := Resuming(ThenRetry(o, 0)))
  {
    ArmedFires(s, later);
    RereadingReturns(s, later);
  }

  lemma ArmedFires(s: State, later: nat)
    requires KilledWhileRetrying(s) && s.session.Some?
    ensures var t, o := Armed(s, later), s.created;
      Next(Next(Next(t, Tick(later)), Timeout(o, RetryTimer)), TaskStarts(true)) == Rereading(t, o, later)
  {
    var t, o := Armed(s, later), s.created;
    TimerQueuesTheRetry(s, later);
    var fired := Rereading(t, o, later).(pc := Idle, queue := [RetryTask(o)]);
    assert fired.queue[1..] == [];
    assert Next(fired, TaskStarts(true)) == Rereading(t, o, later);
  }

  lemma TimerQueuesTheRetry(s: State, later: nat)
    requires KilledWhileRetrying(s) && s.session.Some?
    ensures var t, o := Armed(s, later), s.created;
      Next(Next(t, Tick(later)), Timeout(o, RetryTimer)) == Rereading(t, o, later).(pc := Idle, queue := [RetryTask(o)])
  {
    var t, o := Armed(s, later), s.created;
    var fired := Next(Next(t, Tick(later)), Timeout(o, RetryTimer));
    assert fired.queue == [RetryTask(o)];
    assert multiset{RetryTimer} - multiset{RetryTimer} == multiset{};
    assert fired.observations == Rereading(t, o, later).observations;
  }

  lemma RereadingReturns(s: State, later: nat)
    requires KilledWhileRetrying(s) && s.session.Some?
    ensures var t, o := Armed(s, later), s.created;
      Next(Rereading(t, o, later), MonitorAnswers(None)) == Rereading(t, o, later).(pc := Resuming(ThenRetry(o, 0)))
  {
    var read := Rereading(Armed(s, later), s.created, later);
    assert Next(read, MonitorAnswers(None)).observations == read.observations;
  }

  lemma ArmedIsReread(s: State, later: nat, turnId: TurnId)
    requires KilledWhileRetrying(s) && Restorable(s)
    ensures Leads(Armed(s, later), SendEvents(s.created, later)[..4], Rereading(Armed(s, later), s.created, later).(pc := Resuming(ThenRetry(s.created, 0))),
                  turnId, 0)
  {
    var t, o := Armed(s, later), s.created;
    ArmedSteps(s, later);
    var a, b := Next(t, Tick(later)), Next(Next(t, Tick(later)), Timeout(o, RetryTimer));
    assert Leads(t, [], t, turnId, 0);
    LeadsOn(t, [], t, turnId, 0, Tick(later));
    LeadsOn(t, [] + [Tick(later)], a, turnId, 0, Timeout(o, RetryTimer));
    LeadsOn(t, [] + [Tick(later)] + [Timeout(o, RetryTimer)], b, turnId, 0, TaskStarts(true));
    var events := [] + [Tick(later)] + [Timeout(o, RetryTimer)] + [TaskStarts(true)];
    LeadsOn(t, events, Rereading(t, o, later), turnId, 0, MonitorAnswers(None));
    assert events + [MonitorAnswers(None)] == SendEvents(o, later)[..4];
  }

  lemma ArmedIsSent(s: State, later: nat, turnId: TurnId)
    requires KilledWhileRetrying(s) && Restorable(s) && later <= 600000
    ensures exists u :: Leads(Armed(s, later), SendEvents(s.created, later), u, turnId, 1)
  {
    var t, o := Armed(s, later), s.created;
    var resuming := Rereading(t, o, later).(pc := Resuming(ThenRetry(o, 0)));
    var ready := resuming.(pc := CheckingReady(o, 0));
    ArmedIsReread(s, later, turnId);
    LeadsOn(t, SendEvents(o, later)[..4], resuming, turnId, 0, RefreshReturns);
    assert Next(resuming, RefreshReturns) == ready;
    LeadsOn(t, SendEvents(o, later)[..4] + [RefreshReturns], ready, turnId, 0, ReadinessKnown(None));
    assert Submits(ready, None);
    assert SendEvents(o, later)[..4] + [RefreshReturns] + [ReadinessKnown(None)] == SendEvents(o, later);
  }

  /** So a retry that may have been delivered is sent again, although nothing has answered it. */
  lemma ExitIsSentAgain(s: State, turnId: TurnId)
    requires ExitIsRetried(s, true) && s.delays[Budget(s).value.attempts] <= 600000
    ensures var events := ExitEvents(true) + SendEvents(s.created, s.delays[Budget(s).value.attempts]);
      Unanswered(s, turnId, events) && Submissions(s, events) == 1
  {
    var later := s.delays[Budget(s).value.attempts];
    AllowedExit(s, turnId);
    ExitArmsTheTimer(s);
    ArmedIsSent(s, later, turnId);
    var u :| Leads(Armed(s, later), SendEvents(s.created, later), u, turnId, 1);
    LeadsAcross(s, ExitEvents(true), Armed(s, later), SendEvents(s.created, later), u, turnId, 0, 1);
  }

  // ---------- in every run ----------

  /** May the prompt about to be sent be sent again after a kill and an exit? An attempt is left behind this one, the session
      is bound and restorable, the failure is not an exit of this process, and Stop does not cover an exit now. */
  predicate Replayable(s: State) {
    && Visible(s).Some? && Restorable(s) && Visible(s).value.attempts + 1 < |s.delays|
    && s.delays[Visible(s).value.attempts + 1] <= 600000
    && Visible(s).value.turnId != ExitOf(s).turnId && !CancelledRun(s, ExitOf(s))
  }

  function ReplayEvents(s: State): seq<Event>
    requires Replayable(s)
  {
    [Killed] + (ExitEvents(true) + SendEvents(s.created, s.delays[Visible(s).value.attempts + 1]))
  }

  /** Any submission, in any run, may be followed by a second one that nothing the provider says lies between: the server is
      killed while the first is under way, and then finds the process gone. */
  lemma SubmissionMayBeReplayed(delays: seq<nat>, now: int, session: Option<Session>, before: seq<Event>)
    requires var s := Execute(Start(delays, now, session), before).state; Submits(s, None) && Replayable(s)
    ensures var s := Execute(Start(delays, now, session), before).state;
      var sent := Next(s, ReadinessKnown(None));
      Unanswered(sent, Visible(s).value.turnId, ReplayEvents(s)) && Submissions(sent, ReplayEvents(s)) == 1
  {
    RunKeepsInv(Start(delays, now, session), before);
    KillLeadsToReplay(Execute(Start(delays, now, session), before).state);
  }

  lemma KillLeadsToReplay(s: State)
    requires Agrees(s) && Submits(s, None) && Replayable(s)
    ensures var sent := Next(s, ReadinessKnown(None));
      Unanswered(sent, Visible(s).value.turnId, ReplayEvents(s)) && Submissions(sent, ReplayEvents(s)) == 1
  {
    var sent, turnId := Next(s, ReadinessKnown(None)), Visible(s).value.turnId;
    var killed := Next(sent, Killed);
    KillLeavesTheRecord(s);
    ExitIsSentAgain(killed, turnId);
    RunsSplit(sent, [Killed], ExitEvents(true) + SendEvents(s.created, s.delays[Visible(s).value.attempts + 1]), turnId);
    assert [Killed][1..] == [];
  }

  lemma KillLeavesTheRecord(s: State)
    requires Agrees(s) && Submits(s, None) && Replayable(s)
    ensures var killed := Next(Next(s, ReadinessKnown(None)), Killed);
      && ExitIsRetried(killed, true) && Budget(killed).value.attempts == Visible(s).value.attempts + 1
      && killed.created == s.created && killed.delays == s.delays
  {
  }

  // ---------- one such run ----------

  const OVERLOADED := Run(Native("t"), Iso(0), Some(Iso(0)), None, Failed, Some(ServerOverloaded))
  const BOUND := Session(true, true, false, None, "p", None)
  const TO_THE_RECORD := [WatchPath("f"), TaskStarts(true), MonitorAnswers(Some(OVERLOADED)), RunDecided(true)]
  const TO_THE_PROMPT := [Tick(15000), Timeout(0, RetryTimer), TaskStarts(true), MonitorAnswers(None), RefreshReturns]
  const FRESH := Initial(RUN_RETRY_DELAYS_MS, 0, Some(BOUND))
  const FIRST_RECORD := Failure(Native("t"), Iso(0), ServerOverloaded, 0, 3, Scheduled, Some(Iso(15000)), None, None)
  const SEEN_FAILING := NewObservation("f", 0, None).(seen := Some(KeyOf(OVERLOADED)), run := Some(OVERLOADED))
  const PLANNED := Save(FRESH, Some(FIRST_RECORD)).(created := 1, current := Some(0),
    observations := map[0 := SEEN_FAILING.(timer := Some(RetryTimer), pending := multiset{RetryTimer})])
  const READY := PLANNED.(now := 15000, pc := CheckingReady(0, 0), observations := map[0 := SEEN_FAILING])

  lemma FirstFailureIsPlanned()
    ensures After(FRESH, TO_THE_RECORD) == PLANNED
  {
    var s1 := Next(FRESH, WatchPath("f"));
    assert s1 == FRESH.(observations := map[0 := NewObservation("f", 0, None)], current := Some(0), created := 1, queue := [RefreshTask]);
    var s2 := Next(s1, TaskStarts(true));
    assert s1.queue[1..] == [];
    assert s2 == s1.(queue := [], pc := Reading(ThenNothing, 0, 0));
    var s3 := Next(s2, MonitorAnswers(Some(OVERLOADED)));
    assert s3.observations == map[0 := SEEN_FAILING];
    var s4 := Next(s3, RunDecided(true));
    assert RecordFor(s3.(pc := Idle), 0, OVERLOADED, true) == FIRST_RECORD;
    assert multiset{} + multiset{RetryTimer} == multiset{RetryTimer};
    assert s4.observations == PLANNED.observations;
    FourEvents(FRESH, TO_THE_RECORD);
  }

  lemma FourEvents(s: State, events: seq<Event>)
    requires |events| == 4
    ensures After(s, events) == Next(Next(Next(Next(s, events[0]), events[1]), events[2]), events[3])
  {
    assert events[1..] == [events[1], events[2], events[3]];
    assert [events[1], events[2], events[3]][1..] == [events[2], events[3]];
    assert [events[2], events[3]][1..] == [events[3]];
    assert [events[3]][1..] == [];
    AfterFirst(s, events);
    AfterFirst(Next(s, events[0]), [events[1], events[2], events[3]]);
    AfterFirst(Next(Next(s, events[0]), events[1]), [events[2], events[3]]);
    AfterFirst(Next(Next(Next(s, events[0]), events[1]), events[2]), [events[3]]);
  }

  lemma AfterFirst(s: State, events: seq<Event>)
    requires events != []
    ensures After(s, events) == After(Next(s, events[0]), events[1..])
  {
  }

  const REREADING := READY.(pc := Reading(ThenRetry(0, 0), 0, 0))

  lemma TimerLeadsToRereading()
    ensures Next(Next(Next(PLANNED, Tick(15000)), Timeout(0, RetryTimer)), TaskStarts(true)) == REREADING
  {
    var fired := Next(Next(PLANNED, Tick(15000)), Timeout(0, RetryTimer));
    assert multiset{RetryTimer} - multiset{RetryTimer} == multiset{};
    assert fired.observations == map[0 := SEEN_FAILING] && fired.queue == [RetryTask(0)] && fired.queue[1..] == [];
  }

  lemma RereadingLeadsToReady()
    ensures Next(Next(REREADING, MonitorAnswers(None)), RefreshReturns) == READY
  {
    var read := Next(REREADING, MonitorAnswers(None));
    assert read.observations == REREADING.observations;
    assert read == READY.(pc := Resuming(ThenRetry(0, 0)));
  }

  lemma PromptIsReady()
    ensures After(PLANNED, TO_THE_PROMPT) == READY
  {
    TimerLeadsToRereading();
    RereadingLeadsToReady();
    FourEvents(PLANNED, TO_THE_PROMPT[..4]);
    assert TO_THE_PROMPT == TO_THE_PROMPT[..4] + [RefreshReturns];
    RunsSplit(PLANNED, TO_THE_PROMPT[..4], [RefreshReturns], Native("t"));
    assert [RefreshReturns][1..] == [];
  }

  lemma ReadyIsReplayable()
    ensures Submits(READY, None) && Replayable(READY) && Visible(READY).value.turnId == Native("t")
  {
    assert RUN_RETRY_DELAYS_MS[1] == 45000;
  }

  /** A turn fails on an overloaded server and is retried after fifteen seconds. The server is killed during that submission;
      afterwards the process is gone, and the prompt goes out a second time. The provider reports nothing from the first
      submission on. */
  lemma KilledSubmissionIsSentTwice()
    ensures var s := Execute(Start(RUN_RETRY_DELAYS_MS, 0, Some(BOUND)), TO_THE_RECORD + TO_THE_PROMPT).state;
      && Submits(s, None) && Replayable(s)
      && Unanswered(Next(s, ReadinessKnown(None)), Native("t"), ReplayEvents(s))
      && Submissions(Next(s, ReadinessKnown(None)), ReplayEvents(s)) == 1
  {
    ExecuteIsAfter(Start(RUN_RETRY_DELAYS_MS, 0, Some(BOUND)), TO_THE_RECORD + TO_THE_PROMPT);
    RunsSplit(FRESH, TO_THE_RECORD, TO_THE_PROMPT, Native("t"));
    FirstFailureIsPlanned();
    PromptIsReady();
    ReadyIsReplayable();
    SubmissionMayBeReplayed(RUN_RETRY_DELAYS_MS, 0, Some(BOUND), TO_THE_RECORD + TO_THE_PROMPT);
  }
}
