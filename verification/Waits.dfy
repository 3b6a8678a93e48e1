/** A wait that is overdue is announced to the supervisor once, in any run (apps/server/src/coordination/continuation.ts). */
module Waits {
  import opened Common
  import opened InboxPolicy
  import opened Coordination
  import opened Supervisors

  /** A wait is declared and not announced yet. */
  predicate Pending(s: State, id: Id) {
    ControlOf(s, id).awaiting.Some? && !ControlOf(s, id).awaiting.value.alerted
  }

  /** The event declares a wait for `id`, whether or not it is accepted. */
  predicate Declares(e: Event, id: Id) {
    e.Updates? && e.id == id && e.input.awaiting.Some? && e.input.awaiting.value.Some?
  }

  /** The event tells the supervisor of `id` that its wait is overdue. */
  predicate Announces(s: State, e: Event, id: Id) {
    e.Alerts? && e.id == id && AlertDue(Expired(s), id)
  }

  function Announcements(s: State, events: seq<Event>, id: Id): nat
    decreases |events|
  {
    if events == [] then 0 else (if Announces(s, events[0], id) then 1 else 0) + Announcements(Next(s, events[0]), events[1..], id)
  }

  predicate NoDeclaration(events: seq<Event>, id: Id) {
    forall e :: e in events ==> !Declares(e, id)
  }

  predicate NoNewWait(s: State, t: State, id: Id) {
    Pending(t, id) ==> Pending(s, id)
  }

  // ---------- one event ----------

  /** Setting a control that has no wait, or the one it had. */
  lemma SetControlNoNewWait(s: State, x: Id, control: Control, id: Id)
    requires x == id ==> control.awaiting.None? || control.awaiting == ControlOf(s, x).awaiting
    ensures NoNewWait(s, SetControl(s, x, control), id)
  {
  }

  lemma BeforeTaskNoNewWait(s: State, x: Id, input: UpdateInput, id: Id)
    requires x in s.assignments && BeforeTask(s, x, input).Ok?
    requires x == id ==> input.awaiting.None? || input.awaiting.value.None?
    ensures NoNewWait(s, BeforeTask(s, x, input).value, id)
  {
    RedirectNoNewWait(s, x, input, id);
    var s1 := Redirect(s, x, input);
    if input.awaiting.Some? {
      var t := SetAwaiting(s1, x, input.awaiting.value).value;
      assert BeforeTask(s, x, input).value.controls == t.controls;
      SetControlNoNewWait(s1, x, t.controls[x], id);
    }
  }

  lemma RedirectNoNewWait(s: State, x: Id, input: UpdateInput, id: Id)
    ensures NoNewWait(s, Redirect(s, x, input), id)
  {
  }

  lemma UpdateNoNewWait(s: State, x: Id, input: UpdateInput, unused: Id, text: string, id: Id)
    requires x == id ==> input.awaiting.None? || input.awaiting.value.None?
    ensures NoNewWait(s, Update(s, x, input, unused, text).state, id)
  {
    var t := Update(s, x, input, unused, text).state;
    if t != s {
      BeforeTaskNoNewWait(s, x, input, id);
      if input.task.Some? {
        TaskUpdateLeavesControls(BeforeTask(s, x, input).value, x, input.task.value, input.options, unused, text);
      }
      assert t.controls == BeforeTask(s, x, input).value.controls;
    }
  }

  lemma FinishNoNewWait(s: State, x: Id, options: Options, unused: Id, text: string, id: Id)
    ensures NoNewWait(s, Finish(s, x, options, unused, text).state, id)
  {
    var t := Finish(s, x, options, unused, text).state;
    if t != s {
      var closed := Close(s, x).value;
      CloseControls(s, x);
      if StillOwed(s, x) {
        NotifyLeavesControls(closed, x, "A supervised worker completed its assignment.", options, unused, text);
      }
      assert t.controls == closed.controls;
    }
  }

  lemma RegisterNoNewWait(s: State, x: Id, accepts: Option<bool>, launchedBy: Option<Id>, id: Id)
    ensures NoNewWait(s, Register(s, x, accepts, launchedBy), id)
  {
  }

  /** An announcement settles the wait of its assignment and touches no other. */
  lemma AlertNoNewWait(s: State, x: Id, unused: Id, text: string, id: Id)
    ensures NoNewWait(s, AlertOverdueAwait(s, x, unused, text), id)
    ensures AlertDue(Expired(s), x) ==> Pending(s, x) && !Pending(AlertOverdueAwait(s, x, unused, text), x)
  {
  }

  lemma OtherEventsLeaveControls(s: State, e: Event)
    requires !e.Updates? && !e.Finishes? && !e.Registers? && !e.Alerts? && !e.HumanSets? && !e.RecoveryMoves?
    ensures Next(s, e).controls == s.controls
  {
    match e
    case Disconnects(x, unused, text) => DisconnectKeepsLinks(s, x, unused, text);
    case Sends(sender, m, recipient, text, options) => SendLeavesControls(s, sender, m, recipient, text, options);
    case Acknowledges(x, ids, keys) => AcknowledgeLeavesControls(s, x, ids, keys);
    case Reads(x, awareness, supply, order) => MailLeavesControls(s, x, awareness, supply, order);
    case Dispatches(supervisor, m, worker, expected, task, text) =>
      DispatchLeavesControls(s, supervisor, m, worker, expected, task, text);
    case _ =>
  }

  lemma StepNoNewWait(s: State, e: Event, id: Id)
    requires !Declares(e, id)
    ensures NoNewWait(s, Next(s, e), id)
    ensures Announces(s, e, id) ==> Pending(s, id) && !Pending(Next(s, e), id)
  {
    match e
    case Updates(x, input, unused, text) => UpdateNoNewWait(s, x, input, unused, text, id);
    case Finishes(x, options, unused, text) => FinishNoNewWait(s, x, options, unused, text, id);
    case Registers(x, accepts, launchedBy) => RegisterNoNewWait(s, x, accepts, launchedBy, id);
    case Alerts(x, unused, text) => AlertNoNewWait(s, x, unused, text, id);
    case HumanSets(x, mode) =>
    case RecoveryMoves(x, recovery) => SetControlNoNewWait(s, x, ControlOf(s, x).(recovery := recovery), id);
    case _ => OtherEventsLeaveControls(s, e);
  }

  // ---------- whole runs ----------

  /** Between two declarations of a wait, whatever happens and however often the check is repeated, it is announced at most
      once, and not at all when there was no wait left to announce. */
  lemma {:induction false} WaitIsAnnouncedOnce(s: State, events: seq<Event>, id: Id)
    requires NoDeclaration(events, id)
    ensures Announcements(s, events, id) <= if Pending(s, id) then 1 else 0
    decreases |events|
  {
    if events != [] {
      assert events[0] in events;
      StepNoNewWait(s, events[0], id);
      WaitIsAnnouncedOnce(Next(s, events[0]), events[1..], id);
    }
  }

  function Declarations(events: seq<Event>, id: Id): nat
    decreases |events|
  {
    if events == [] then 0 else (if Declares(events[0], id) then 1 else 0) + Declarations(events[1..], id)
  }

  /** So over a run from the start there are no more announcements than declarations. */
  lemma {:induction false} AnnouncementsNeedDeclarations(s: State, events: seq<Event>, id: Id)
    ensures Announcements(s, events, id) <= Declarations(events, id) + if Pending(s, id) then 1 else 0
    decreases |events|
  {
    if events != [] {
      AnnouncementsNeedDeclarations(Next(s, events[0]), events[1..], id);
      if !Declares(events[0], id) {
        StepNoNewWait(s, events[0], id);
      }
    }
  }
}
