/** Who supervises whom: `update` keeps every chain of supervisors ending; the binding of a launched session may not. */
module Supervisors {
  import opened Common
  import opened InboxPolicy
  import opened Coordination
  import opened Chains

  lemma SetControlLinks(s: State, id: Id, c: Control)
    ensures Links(SetControl(s, id, c)) == if c.supervisor.Some? then Links(s)[id := c.supervisor.value] else Links(s) - {id}
  {
  }

  lemma SameSupervisorSameLinks(s: State, id: Id, c: Control)
    requires c.supervisor == ControlOf(s, id).supervisor
    ensures Links(SetControl(s, id, c)) == Links(s)
  {
  }

  lemma RedirectLinks(s: State, id: Id, input: UpdateInput)
    ensures Links(Redirect(s, id, input))
            == if input.supervisor.None? then Links(s)
               else if input.supervisor.value.Some? then Links(s)[id := input.supervisor.value.value]
               else Links(s) - {id}
  {
    var control := ControlOf(s, id);
    if input.continuation.Some? && input.supervisor.None? {
      SetContinuationLinks(s, id, input.continuation.value);
    } else if input.continuation.Some? {
      SetControlLinks(s, id, Control(input.continuation.value, input.supervisor.value, None, control.revision + 1, None));
    } else if input.supervisor.Some? {
      SetControlLinks(s, id, control.(supervisor := input.supervisor.value, revision := control.revision + 1));
    }
  }

  lemma BeforeTaskLinks(s: State, id: Id, input: UpdateInput)
    requires id in s.assignments && BeforeTask(s, id, input).Ok?
    ensures Links(BeforeTask(s, id, input).value) == Links(Redirect(s, id, input))
  {
    var s1 := Redirect(s, id, input);
    if input.awaiting.Some? {
      SameSupervisorSameLinks(s1, id, SetAwaiting(s1, id, input.awaiting.value).value.controls[id]);
    }
  }

  lemma NotifyLeavesControls(s: State, worker: Id, reason: string, options: Options, unused: Id, text: string)
    requires Notify(s, worker, reason, options, unused, text).Ok?
    ensures Notify(s, worker, reason, options, unused, text).value.controls == s.controls
  {
  }

  lemma TaskUpdateLeavesControls(s: State, id: Id, input: TaskInput, options: Options, unused: Id, text: string)
    requires UpdateTaskAndNotify(s, id, input, options, unused, text).Ok?
    ensures UpdateTaskAndNotify(s, id, input, options, unused, text).value.controls == s.controls
  {
  }

  /** `update` adds a supervisor only after the walk has found that its chain ends, is unfinished and avoids the worker. */
  lemma UpdateKeepsGrounded(s: State, id: Id, input: UpdateInput, unused: Id, text: string)
    requires Grounded(Links(s))
    ensures Grounded(Links(Update(s, id, input, unused, text).state))
  {
    var t := Update(s, id, input, unused, text).state;
    if t != s {
      BeforeTaskLinks(s, id, input);
      RedirectLinks(s, id, input);
      if input.task.Some? {
        TaskUpdateLeavesControls(BeforeTask(s, id, input).value, id, input.task.value, input.options, unused, text);
      }
      assert Links(t) == Links(Redirect(s, id, input));
      if input.supervisor.Some? && input.supervisor.value.Some? {
        LinkKeepsGrounded(Links(s), Unfinished(s), id, input.supervisor.value.value);
      } else if input.supervisor.Some? {
        UnlinkKeepsGrounded(Links(s), id);
      }
    }
  }

  lemma SetContinuationLinks(s: State, id: Id, mode: Mode)
    ensures Links(SetContinuation(s, id, mode, None)) == Links(s)
  {
    var prior := ControlOf(s, id);
    SameSupervisorSameLinks(s, id, Control(mode, prior.supervisor, None, prior.revision + 1, None));
  }

  lemma CloseControls(s: State, id: Id)
    requires Close(s, id).Ok?
    ensures Close(s, id).value.controls == SetContinuation(s, id, WaitingForInput, None).controls
  {
  }

  lemma FinishKeepsLinks(s: State, id: Id, options: Options, unused: Id, text: string)
    ensures Links(Finish(s, id, options, unused, text).state) == Links(s)
  {
    var t := Finish(s, id, options, unused, text).state;
    if t != s {
      var closed := Close(s, id).value;
      CloseControls(s, id);
      SetContinuationLinks(s, id, WaitingForInput);
      if StillOwed(s, id) {
        NotifyLeavesControls(closed, id, "A supervised worker completed its assignment.", options, unused, text);
      }
      assert t.controls == closed.controls;
    }
  }

  lemma DisconnectKeepsLinks(s: State, id: Id, unused: Id, text: string)
    ensures Disconnect(s, id, unused, text).state.controls == s.controls
  {
    var s1 := AddEvent(s.(assignments := s.assignments[id := Disconnected]), id);
    if Notify(s1, id, "An unattended supervised worker disconnected.", Options(None, None, None), unused, text).Ok? {
      NotifyLeavesControls(s1, id, "An unattended supervised worker disconnected.", Options(None, None, None), unused, text);
    }
  }

  lemma SendLeavesControls(s: State, sender: Id, id: Id, recipient: Id, text: string, options: Options)
    ensures Send(s, sender, id, recipient, text, options).state.controls == s.controls
  {
  }

  lemma MailLeavesControls(s: State, id: Id, awareness: bool, supply: bool, order: seq<Id>)
    ensures Mail(s, id, awareness, supply, order).state.controls == s.controls
  {
  }

  lemma RegisterLeavesControls(s: State, id: Id, accepts: Option<bool>)
    ensures Register(s, id, accepts, None).controls == s.controls
  {
  }

  lemma AcknowledgeLeavesControls(s: State, id: Id, ids: seq<Id>, keys: seq<HandoffKey>)
    ensures Acknowledge(s, id, ids, keys).state.controls == s.controls
  {
  }

  lemma DispatchLeavesControls(s: State, supervisor: Id, id: Id, worker: Id, expected: int, task: Option<TaskInput>, text: string)
    ensures Dispatch(s, supervisor, id, worker, expected, task, text).state.controls == s.controls
  {
  }

  lemma AlertKeepsLinks(s: State, id: Id, unused: Id, text: string)
    ensures Links(AlertOverdueAwait(s, id, unused, text)) == Links(s)
  {
    if AlertDue(Expired(s), id) {
      var control := ControlOf(s, id);
      SameSupervisorSameLinks(s, id, control.(awaiting := Some(control.awaiting.value.(alerted := true))));
      assert AlertOverdueAwait(s, id, unused, text).controls
             == SetControl(s, id, control.(awaiting := Some(control.awaiting.value.(alerted := true)))).controls;
    }
  }

  lemma OtherEventsKeepLinks(s: State, e: Event)
    requires !e.Updates? && !(e.Registers? && e.launchedBy.Some?)
    ensures Links(Next(s, e)) == Links(s)
  {
    match e
    case Finishes(id, options, unused, text) => FinishKeepsLinks(s, id, options, unused, text);
    case Disconnects(id, unused, text) => DisconnectKeepsLinks(s, id, unused, text);
    case Alerts(id, unused, text) => AlertKeepsLinks(s, id, unused, text);
    case HumanSets(id, mode) => SetContinuationLinks(s, id, mode);
    case RecoveryMoves(id, recovery) => SameSupervisorSameLinks(s, id, ControlOf(s, id).(recovery := recovery));
    case Sends(sender, id, recipient, text, options) => SendLeavesControls(s, sender, id, recipient, text, options);
    case Acknowledges(id, ids, keys) => AcknowledgeLeavesControls(s, id, ids, keys);
    case Reads(id, awareness, supply, order) => MailLeavesControls(s, id, awareness, supply, order);
    case Registers(id, accepts, _) => RegisterLeavesControls(s, id, accepts);
    case Dispatches(supervisor, id, worker, expected, task, text) =>
      DispatchLeavesControls(s, supervisor, id, worker, expected, task, text);
    case _ =>
  }

  /** Binding a launched session sets the supervisor unchecked, so it is safe exactly when the supervisor's chain does not
      lead back to the new assignment. */
  lemma BindingIsSafeIff(s: State, id: Id, supervisor: Id)
    requires Grounded(Links(s)) && supervisor in Unfinished(s)
    ensures Grounded(Links(Bind(s, id, supervisor))) <==> !LeadsTo(Links(s), supervisor, id)
  {
    SetControlLinks(s, id, Control(Unattended, Some(supervisor), None, ControlOf(s, id).revision + 1, None));
    UncheckedLinkIff(Links(s), id, supervisor);
  }

  // ---------- whole runs ----------

  /** Whom the registration makes the supervisor of the new assignment, with no check. */
  function BoundTo(s: State, e: Event): Option<Id>
    requires e.Registers?
  {
    if e.launchedBy.Some? && ControlOf(s, e.id).revision == 0 && e.launchedBy.value in Unfinished(Register(s, e.id, e.accepts, None))
    then e.launchedBy else None
  }

  /** If the event binds a launched session, the chain of its supervisor does not lead back to it. */
  ghost predicate SafeBinding(s: State, e: Event) {
    e.Registers? && BoundTo(s, e).Some? ==> !LeadsTo(Links(s), BoundTo(s, e).value, e.id)
  }

  lemma RegisterLinks(s: State, e: Event)
    requires e.Registers? && e.launchedBy.Some?
    ensures Links(Next(s, e))
            == if BoundTo(s, e).Some? then Links(s)[e.id := BoundTo(s, e).value]
               else if ControlOf(s, e.id).revision == 0 then Links(s) - {e.id}
               else Links(s)
  {
    RegisterLeavesControls(s, e.id, e.accepts);
    if ControlOf(s, e.id).revision == 0 {
      SetControlLinks(s, e.id, Control(Unattended, BoundTo(s, e), None, 1, None));
    }
  }

  lemma StepIsGroundedIff(s: State, e: Event)
    requires Grounded(Links(s))
    ensures Grounded(Links(Next(s, e))) <==> SafeBinding(s, e)
  {
    if e.Updates? {
      UpdateKeepsGrounded(s, e.id, e.input, e.unused, e.text);
    } else if e.Registers? && e.launchedBy.Some? {
      RegisterLinks(s, e);
      if BoundTo(s, e).Some? {
        UncheckedLinkIff(Links(s), e.id, BoundTo(s, e).value);
      } else {
        UnlinkKeepsGrounded(Links(s), e.id);
      }
    } else {
      OtherEventsKeepLinks(s, e);
    }
  }

  ghost predicate SafeBindings(s: State, events: seq<Event>)
    decreases |events|
  {
    events == [] || (SafeBinding(s, events[0]) && SafeBindings(Next(s, events[0]), events[1..]))
  }

  /** In every state of the run every chain of supervisors ends, and no assignment supervises itself, directly or through
      others. */
  ghost predicate AlwaysGrounded(s: State, events: seq<Event>)
    decreases |events|
  {
    && Grounded(Links(s)) && Acyclic(Links(s))
    && (events == [] || AlwaysGrounded(Next(s, events[0]), events[1..]))
  }

  /** The relation stays grounded in all of a run exactly when each launched session in it is bound to a supervisor whose
      chain does not lead back to it. Updates, finishes and everything else are harmless. */
  lemma {:induction false} SupervisorsStayGrounded(s: State, events: seq<Event>)
    requires Grounded(Links(s))
    ensures AlwaysGrounded(s, events) <==> SafeBindings(s, events)
    decreases |events|
  {
    GroundedIsAcyclic(Links(s));
    if events != [] {
      StepIsGroundedIff(s, events[0]);
      if Grounded(Links(Next(s, events[0]))) {
        SupervisorsStayGrounded(Next(s, events[0]), events[1..]);
      }
    }
  }

  /** In particular from the start, when nobody supervises anybody. */
  lemma SupervisorsFromTheStart(now: int, events: seq<Event>)
    ensures AlwaysGrounded(Initial(now), events) <==> SafeBindings(Initial(now), events)
  {
    assert Links(Initial(now)) == map[];
    forall k ensures Ends(map[], k) {
      assert Walk(map[], k, 1).None?;
    }
    SupervisorsStayGrounded(Initial(now), events);
  }

  // ---------- a run that closes a cycle ----------

  const BOSS_A := UpdateInput(false, None, None, Some(Some("a")), None, None, Options(None, None, None))
  /** "a" and "b" register, "b" is given the supervisor "a"; then "a" registers again, as a session that "b" launched. */
  const TO_THE_PAIR := [Registers("a", None, None), Registers("b", None, None), Updates("b", BOSS_A, "u", "")]
  const LAUNCHED_BY_B := Registers("a", None, Some("b"))
  const PAIR := Initial(0).(assignments := map["a" := Active, "b" := Active], log := EventLog(3, map["a" := 1, "b" := 3]),
                            controls := map["b" := Control(WaitingForInput, Some("a"), None, 1, None)])

  lemma PairIsReached()
    ensures Execute(Initial(0), TO_THE_PAIR) == PAIR
  {
    var s1 := Next(Initial(0), TO_THE_PAIR[0]);
    assert s1 == Initial(0).(assignments := map["a" := Active], log := EventLog(1, map["a" := 1]));
    var s2 := Next(s1, TO_THE_PAIR[1]);
    assert s2 == Initial(0).(assignments := map["a" := Active, "b" := Active], log := EventLog(2, map["a" := 1, "b" := 2]));
    assert SupervisorVerdict(s2, "b", BOSS_A).None? by {
      assert Links(s2) == map[] && "a" in Unfinished(s2);
      assert Check(map[], Unfinished(s2), {"b", "a"}, None) == Clear;
    }
    assert Next(s2, TO_THE_PAIR[2]) == PAIR;
    ThreeEvents(Initial(0), TO_THE_PAIR);
  }

  lemma ThreeEvents(s: State, events: seq<Event>)
    requires |events| == 3
    ensures Execute(s, events) == Next(Next(Next(s, events[0]), events[1]), events[2])
  {
    assert events[1..] == [events[1], events[2]];
    assert [events[1], events[2]][1..] == [events[2]];
    assert [events[2]][1..] == [];
    FirstEvent(s, events);
    FirstEvent(Next(s, events[0]), [events[1], events[2]]);
    FirstEvent(Next(Next(s, events[0]), events[1]), [events[2]]);
  }

  lemma FirstEvent(s: State, events: seq<Event>)
    requires events != []
    ensures Execute(s, events) == Execute(Next(s, events[0]), events[1..])
  {
  }

  /** Until then every chain ends; afterwards each supervises the other. */
  lemma RegistrationCanCloseACycle()
    ensures Grounded(Links(Execute(Initial(0), TO_THE_PAIR)))
    ensures !Acyclic(Links(Next(Execute(Initial(0), TO_THE_PAIR), LAUNCHED_BY_B)))
  {
    PairIsReached();
    forall k ensures Ends(Links(PAIR), k) {
      assert Walk(Links(PAIR), k, 2).None?;
    }
    var t := Next(PAIR, LAUNCHED_BY_B);
    assert Links(t)["a"] == "b" && Links(t)["b"] == "a";
    assert Walk(Links(t), "a", 2) == Some("a");
  }
}
