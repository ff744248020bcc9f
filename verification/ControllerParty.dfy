/** The controller as one of the parties that share the session owner: whatever its calls do to the
    owner are moves of a client that names only transactions it was given. So what holds of all
    runs of the parties and what holds of all runs of the controller hold of the same run. */
module ControllerParty {
  import opened Outcomes
  import opened Times
  import opened ByteStrings
  import opened TwitchSession
  import opened TwitchPorts
  import opened Sessions = SessionOwnerSpec
  import opened AuthenticationWorkflow
  import opened AuthenticationRuns
  import Parties = SessionParties

  // ---------------------------------------------------------------- what a client does at the owner

  /** The others take a turn, or the client takes a step of its own. */
  datatype Act = Waits(id: nat) | Takes(step: Step)

  function Acted(w: World, act: Act): World {
    match act
    case Waits(id) => Yielded(w, id)
    case Takes(step) => w.(owner := Apply(w.owner, step))
  }

  function Played(w: World, acts: seq<Act>): World
    decreases |acts|
  {
    if acts == [] then w else Played(Acted(w, acts[0]), acts[1..])
  }

  /** The transactions the client was given, after one more act. */
  function Given(w: World, act: Act, mine: set<nat>): set<nat> {
    if act.Takes? && Apply(w.owner, act.step).nextTransaction > w.owner.nextTransaction then mine + {w.owner.nextTransaction} else mine
  }

  function AllGiven(w: World, acts: seq<Act>, mine: set<nat>): set<nat>
    decreases |acts|
  {
    if acts == [] then mine else AllGiven(Acted(w, acts[0]), acts[1..], Given(w, acts[0], mine))
  }

  /** The client neither recovers nor restores, and names only what is its own. */
  predicate Allowed(act: Act, mine: set<nat>) {
    match act
    case Waits(id) => id == 0 || id in mine
    case Takes(step) =>
      !step.Restoring? && !step.StartingRecovery? && (Parties.Named(step).Some? ==> Parties.Named(step).value in mine)
  }

  predicate AllAllowed(w: World, acts: seq<Act>, mine: set<nat>)
    decreases |acts|
  {
    acts == [] || (Allowed(acts[0], mine) && AllAllowed(Acted(w, acts[0]), acts[1..], Given(w, acts[0], mine)))
  }

  lemma {:induction false} PlayedOn(w: World, acts: seq<Act>, more: seq<Act>, mine: set<nat>)
    requires AllAllowed(w, acts, mine) && AllAllowed(Played(w, acts), more, AllGiven(w, acts, mine))
    ensures AllAllowed(w, acts + more, mine) && Played(w, acts + more) == Played(Played(w, acts), more)
    ensures AllGiven(w, acts + more, mine) == AllGiven(Played(w, acts), more, AllGiven(w, acts, mine))
    decreases |acts|
  {
    if acts == [] {
      assert acts + more == more;
    } else {
      assert (acts + more)[1..] == acts[1..] + more;
      PlayedOn(Acted(w, acts[0]), acts[1..], more, Given(w, acts[0], mine));
    }
  }

  // ---------------------------------------------------------------- a client's stretch of work

  /** From one world to another, from some transactions to others. */
  ghost predicate Leads(w: World, mine: set<nat>, after: World, theirs: set<nat>) {
    exists acts :: AllAllowed(w, acts, mine) && Played(w, acts) == after && AllGiven(w, acts, mine) == theirs
  }

  /** The controller's transaction is one it was given. */
  predicate Owns(v: View, mine: set<nat>) {
    v.transaction.Some? ==> v.transaction.value in mine
  }

  ghost predicate LeadsTo(w: World, mine: set<nat>, view: View, after: World) {
    exists theirs :: Leads(w, mine, after, theirs) && Owns(view, theirs)
  }

  /** A call or a part of one is a stretch of a client's work. */
  ghost predicate Led(w: World, mine: set<nat>, x: Exit) {
    LeadsTo(w, mine, x.view, x.world)
  }

  lemma LeadsByNothing(w: World, mine: set<nat>)
    ensures Leads(w, mine, w, mine)
  {
    assert AllAllowed(w, [], mine) && Played(w, []) == w && AllGiven(w, [], mine) == mine;
  }

  lemma LeadsByOne(w: World, act: Act, mine: set<nat>)
    requires Allowed(act, mine)
    ensures Leads(w, mine, Acted(w, act), Given(w, act, mine))
  {
    var acts, after := [act], Acted(w, act);
    assert acts[1..] == [];
    assert AllAllowed(after, [], Given(w, act, mine));
    assert Played(w, acts) == Played(after, []) && AllGiven(w, acts, mine) == AllGiven(after, [], Given(w, act, mine));
    assert AllAllowed(w, acts, mine);
  }

  lemma LeadsOn(w: World, mine: set<nat>, mid: World, ours: set<nat>, after: World, theirs: set<nat>)
    requires Leads(w, mine, mid, ours) && Leads(mid, ours, after, theirs)
    ensures Leads(w, mine, after, theirs)
  {
    var acts :| AllAllowed(w, acts, mine) && Played(w, acts) == mid && AllGiven(w, acts, mine) == ours;
    var more :| AllAllowed(mid, more, ours) && Played(mid, more) == after && AllGiven(mid, more, ours) == theirs;
    PlayedOn(w, acts, more, mine);
    assert Played(w, acts + more) == after;
  }

  lemma LedOn(w: World, mine: set<nat>, mid: World, ours: set<nat>, view: View, after: World)
    requires Leads(w, mine, mid, ours) && LeadsTo(mid, ours, view, after)
    ensures LeadsTo(w, mine, view, after)
  {
    var theirs :| Leads(mid, ours, after, theirs) && Owns(view, theirs);
    LeadsOn(w, mine, mid, ours, after, theirs);
  }

  lemma Stays(v: View, w: World, mine: set<nat>)
    requires Owns(v, mine)
    ensures LeadsTo(w, mine, v, w)
  {
    LeadsByNothing(w, mine);
  }

  lemma WaitingLeads(v: View, w: World, mine: set<nat>)
    requires Owns(v, mine)
    ensures Leads(w, mine, Waiting(v, w), mine)
  {
    LeadsByOne(w, Waits(if v.transaction.Some? then v.transaction.value else 0), mine);
  }

  /** Waits for the others and then takes a step that opens no transaction. */
  lemma WaitAndTake(v: View, w: World, mine: set<nat>, step: Step)
    requires Owns(v, mine) && Allowed(Takes(step), mine) && !Opens(step)
    ensures Leads(w, mine, Waiting(v, w).(owner := Apply(Waiting(v, w).owner, step)), mine)
  {
    var seen := Waiting(v, w);
    WaitingLeads(v, w, mine);
    LeadsByOne(seen, Takes(step), mine);
    LeadsOn(w, mine, seen, mine, seen.(owner := Apply(seen.owner, step)), mine);
  }

  /** Waits for the others and then takes a step that may open one. */
  lemma WaitAndOpen(v: View, w: World, mine: set<nat>, step: Step)
    requires Owns(v, mine) && Allowed(Takes(step), mine)
    ensures var seen := Waiting(v, w);
            Leads(w, mine, seen.(owner := Apply(seen.owner, step)), Given(seen, Takes(step), mine))
  {
    var seen := Waiting(v, w);
    WaitingLeads(v, w, mine);
    LeadsByOne(seen, Takes(step), mine);
    LeadsOn(w, mine, seen, mine, seen.(owner := Apply(seen.owner, step)), Given(seen, Takes(step), mine));
  }

  // ---------------------------------------------------------------- ends and requests

  lemma ReleasedLeads(v: View, w: World, mine: set<nat>, erase: bool, ports: Ports)
    requires Owns(v, mine)
    ensures Leads(w, mine, Released(v, w, erase, ports).world, mine)
  {
    if v.transaction.Some? {
      WaitAndTake(v, w, mine, Discarding(v.transaction.value, erase, ports.erased));
    } else {
      LeadsByNothing(w, mine);
    }
  }

  lemma FailingLeads(v: View, w: World, mine: set<nat>, error: ControlError, erase: bool, ports: Ports)
    requires Owns(v, mine)
    ensures Led(w, mine, Failing(v, w, error, erase, ports))
  {
    ReleasedLeads(v, w, mine, erase, ports);
  }

  lemma FinishingLeads(v: View, w: World, mine: set<nat>, diagnostic: Option<ControlError>, ports: Ports)
    requires Owns(v, mine)
    ensures Led(w, mine, Finishing(v, w, diagnostic, ports))
  {
    if v.transaction.Some? {
      ReleasedLeads(v, w, mine, true, ports);
    } else {
      WaitAndTake(v, w, mine, ErasingSaved(ports.erased));
    }
  }

  lemma RefusedLeads(v: View, w: World, mine: set<nat>, phase: Phase, ports: Ports)
    requires Owns(v, mine)
    ensures Led(w, mine, DispatchRefused(v, w, phase, ports))
  {
    FinishingLeads(v, w, mine, Some(DispatchFailed), ports);
    FailingLeads(v, w, mine, DispatchFailed, v.Rotated(), ports);
  }

  lemma AskingLeads(v: View, w: World, mine: set<nat>, phase: Phase, command: Command, ports: Ports)
    requires Owns(v, mine)
    ensures Led(w, mine, Asking(v, w, phase, command, ports))
  {
    var x := Asking(v, w, phase, command, ports);
    if v.pending.Some? || v.nextRequest >= MAX_U64 {
      FailingLeads(v, w, mine, ControlExhausted, false, ports);
    } else if !ports.queued {
      RefusedLeads(v.(nextRequest := v.nextRequest + 1, pending := Some(InFlight(v.nextRequest, phase))), w, mine, phase, ports);
    } else {
      Stays(x.view, w, mine);
    }
  }

  lemma AskingWithCredentialsLeads(v: View, w: World, mine: set<nat>, phase: Phase, ports: Ports)
    requires Owns(v, mine)
    ensures Led(w, mine, AskingWithCredentials(v, w, phase, ports))
  {
    if v.HasCredentials() {
      var credentials := v.draft.value.credentials.value;
      AskingLeads(v.(draft := Some(v.draft.value.(credentials := None))), w, mine, phase,
                  if phase.Refresh? then AskRefresh(credentials) else AskValidation(credentials), ports);
    } else {
      FailingLeads(v, w, mine, InvalidState, false, ports);
    }
  }

  // ---------------------------------------------------------------- calls that open a flow

  lemma ConnectionBegunLeads(v: View, w: World, mine: set<nat>, ports: Ports)
    requires Owns(v, mine)
    ensures Led(w, mine, ConnectionBegun(v, w, ports))
  {
    var x, first := ConnectionBegun(v, w, ports), Waiting(v, w);
    WaitingLeads(v, w, mine);
    if NotIdle(v, first.owner, ports).Some? {
      Stays(v, first, mine);
    } else {
      var seen := Waiting(v, first);
      var (after, reserved) := ReserveNew(seen.owner);
      WaitAndOpen(v, first, mine, ReservingNew);
      LeadsOn(w, mine, first, mine, seen.(owner := after), Given(seen, Takes(ReservingNew), mine));
      if reserved.Err? {
        assert seen.(owner := after) == seen && x == Exit(v, seen, x.ended);
      } else {
        var begun := Concealed(v.(transaction := Some(reserved.value)));
        AskingLeads(begun, seen.(owner := after), Given(seen, Takes(ReservingNew), mine), Start, AskDevice, ports);
        LedOn(w, mine, seen.(owner := after), Given(seen, Takes(ReservingNew), mine), x.view, x.world);
      }
    }
  }

  /** Taking a session out of the owner. */
  ghost predicate TakeLed(w: World, mine: set<nat>, t: Take) {
    LeadsTo(w, mine, t.view, t.world)
  }

  lemma SavedTakenLeads(v: View, w: World, mine: set<nat>, ports: Ports)
    requires Owns(v, mine)
    ensures TakeLed(w, mine, SavedTaken(v, w, ports))
  {
    var seen, step := Waiting(v, w), CheckingOutSaved(ports.loading);
    var (after, checked) := CheckoutSaved(seen.owner, ports.loading);
    WaitAndOpen(v, w, mine, step);
    if checked.Err? || checked.value.None? {
      assert seen.(owner := after) == seen && SavedTaken(v, w, ports).view == v;
      assert Given(seen, Takes(step), mine) == mine;
    } else {
      assert Owns(Adopted(v, checked.value.value), Given(seen, Takes(step), mine));
    }
  }

  lemma ActiveTakenLeads(v: View, w: World, mine: set<nat>)
    requires Owns(v, mine)
    ensures TakeLed(w, mine, ActiveTaken(v, w))
  {
    var seen := Waiting(v, w);
    var (after, checked) := CheckoutActive(seen.owner);
    WaitAndOpen(v, w, mine, CheckingOutActive);
    if checked.Err? {
      assert seen.(owner := after) == seen && ActiveTaken(v, w).view == v;
      assert Given(seen, Takes(CheckingOutActive), mine) == mine;
    } else {
      assert Owns(Adopted(v, checked.value), Given(seen, Takes(CheckingOutActive), mine));
    }
  }

  lemma AnyTakenLeads(v: View, w: World, mine: set<nat>, ports: Ports)
    requires Owns(v, mine)
    ensures TakeLed(w, mine, AnyTaken(v, w, ports))
  {
    var active := ActiveTaken(v, w);
    ActiveTakenLeads(v, w, mine);
    if active.error == Some(NoSession) {
      var ours :| Leads(w, mine, active.world, ours) && Owns(active.view, ours);
      assert active.view == v;
      SavedTakenLeads(v, active.world, ours, ports);
      var saved := SavedTaken(v, active.world, ports);
      LedOn(w, mine, active.world, ours, saved.view, saved.world);
    }
  }

  lemma SavedConnectionBegunLeads(v: View, w: World, mine: set<nat>, ports: Ports)
    requires Owns(v, mine)
    ensures Led(w, mine, SavedConnectionBegun(v, w, ports))
  {
    var x, first := SavedConnectionBegun(v, w, ports), Waiting(v, w);
    WaitingLeads(v, w, mine);
    if NotIdle(v, first.owner, ports).Some? {
      Stays(v, first, mine);
    } else {
      var taken := SavedTaken(v, first, ports);
      SavedTakenLeads(v, first, mine, ports);
      var ours :| Leads(first, mine, taken.world, ours) && Owns(taken.view, ours);
      LeadsOn(w, mine, first, mine, taken.world, ours);
      SavedTakenContinues(v, first, ours, ports, x);
      LedOn(w, mine, taken.world, ours, x.view, x.world);
    }
  }

  /** What follows once the saved session was asked for. */
  lemma SavedTakenContinues(v: View, first: World, ours: set<nat>, ports: Ports, x: Exit)
    requires Owns(SavedTaken(v, first, ports).view, ours)
    requires var (after, checked) := CheckoutSaved(Waiting(v, first).owner, ports.loading);
             x == if checked.Err? then Failing(v, Waiting(v, first), Mapped(checked.error), false, ports)
                  else if checked.value.None? then Exit(v, Waiting(v, first), Fine(false))
                  else AskingWithCredentials(Concealed(Adopted(v, checked.value.value)), Waiting(v, first).(owner := after), ValidateSaved, ports)
    ensures LeadsTo(SavedTaken(v, first, ports).world, ours, x.view, x.world)
  {
    var (after, checked) := CheckoutSaved(Waiting(v, first).owner, ports.loading);
    var taken := SavedTaken(v, first, ports);
    if checked.Err? {
      FailingLeads(v, taken.world, ours, Mapped(checked.error), false, ports);
    } else if checked.value.None? {
      Stays(v, taken.world, ours);
    } else {
      AskingWithCredentialsLeads(Concealed(taken.view), taken.world, ours, ValidateSaved, ports);
    }
  }

  lemma RevokedOrErasedLeads(v: View, w: World, mine: set<nat>, ports: Ports)
    requires Owns(v, mine)
    ensures Led(w, mine, RevokedOrErased(v, w, ports))
  {
    if v.HasCredentials() {
      AskingLeads(v.(draft := Some(v.draft.value.(credentials := None))), w, mine, Revoke,
                  AskRevocation(v.draft.value.credentials.value.access), ports);
    } else {
      FinishingLeads(v, w, mine, None, ports);
    }
  }

  lemma DisconnectedByLeads(v: View, w: World, mine: set<nat>, ports: Ports)
    requires Owns(v, mine)
    ensures Led(w, mine, DisconnectedBy(v, w, ports))
  {
    var x, first := DisconnectedBy(v, w, ports), Waiting(v, w);
    WaitingLeads(v, w, mine);
    if NotRunning(v, first.owner, ports).Some? || v.pending.Some? || !ports.settingsSaved {
      Stays(v, first, mine);
    } else {
      DroppedLeads(v.(authorization := None, deferred := None), first, mine, ports, x);
      LedOn(w, mine, first, mine, x.view, x.world);
    }
  }

  /** What follows once posting is off. */
  lemma DroppedLeads(dropped: View, first: World, mine: set<nat>, ports: Ports, x: Exit)
    requires Owns(dropped, mine)
    requires x == if dropped.transaction.Some? then RevokedOrErased(Concealed(dropped), first, ports)
                  else
                    var taken := AnyTaken(dropped, first, ports);
                    if taken.error.Some? then Exit(taken.view, taken.world, Bad(Mapped(taken.error.value)))
                    else RevokedOrErased(Concealed(taken.view), taken.world, ports)
    ensures Led(first, mine, x)
  {
    if dropped.transaction.Some? {
      RevokedOrErasedLeads(Concealed(dropped), first, mine, ports);
    } else {
      var taken := AnyTaken(dropped, first, ports);
      AnyTakenLeads(dropped, first, mine, ports);
      if taken.error.None? {
        var ours :| Leads(first, mine, taken.world, ours) && Owns(taken.view, ours);
        RevokedOrErasedLeads(Concealed(taken.view), taken.world, ours, ports);
        LedOn(first, mine, taken.world, ours, x.view, x.world);
      }
    }
  }

  // ---------------------------------------------------------------- results

  lemma DeviceAcceptedLeads(v: View, w: World, mine: set<nat>, device: Device, ports: Ports)
    requires Owns(v, mine)
    ensures Led(w, mine, DeviceAccepted(v, w, device, ports))
  {
    FailingLeads(v, w, mine, InvalidResult, false, ports);
    LeadsByNothing(w, mine);
  }

  lemma PollDeferredLeads(v: View, w: World, mine: set<nat>, code: Bytes, retry: Option<nat>, ports: Ports)
    requires Owns(v, mine)
    ensures Led(w, mine, PollDeferred(v, w, code, retry, ports))
  {
    FailingLeads(v, w, mine, InvalidResult, false, ports);
    FailingLeads(v, w, mine, InvalidState, false, ports);
    LeadsByNothing(w, mine);
  }

  lemma GrantAcceptedLeads(v: View, w: World, mine: set<nat>, grant: Grant, ports: Ports)
    requires Owns(v, mine)
    ensures Led(w, mine, GrantAccepted(v, w, grant, ports))
  {
    var open := Concealed(v.(authorization := None));
    match ValidityOf(grant, ports.system)
    case NoClock => Stays(open, w, mine);
    case TooLate => FailingLeads(open, w, mine, InvalidResult, false, ports);
    case At(credentials) =>
      AskingWithCredentialsLeads(open.(draft := Some(Draft(Some(credentials), None, false))), w, mine, ValidateInitial, ports);
  }

  lemma SessionPublishedLeads(v: View, w: World, mine: set<nat>, session: Session, rotated: bool, ports: Ports)
    requires Owns(v, mine)
    ensures Led(w, mine, SessionPublished(v, w, session, rotated, ports))
  {
    var x, times := SessionPublished(v, w, session, rotated, ports), ScheduleFor(session.expiresAt, ports.steady, ports.systemAgain);
    if v.transaction.None? {
      FailingLeads(v, w, mine, InvalidState, false, ports);
    } else if times.NoClock? {
      Stays(v, w, mine);
    } else if times.TooLate? {
      FailingLeads(v, w, mine, InvalidResult, rotated, ports);
    } else {
      var seen := Waiting(v, w);
      var (after, committed) := Commit(seen.owner, v.transaction.value, session, ports.persisted);
      WaitAndTake(v, w, mine, Committing(v.transaction.value, session, ports.persisted));
      if committed.Err? {
        FailingLeads(v, seen.(owner := after), mine, Mapped(committed.error), rotated, ports);
        LedOn(w, mine, seen.(owner := after), mine, x.view, x.world);
      } else {
        assert x.world == seen.(owner := after) && x.view.transaction.None?;
      }
    }
  }

  lemma ValidationAcceptedLeads(v: View, w: World, mine: set<nat>, credentials: Credentials, identity: Identity, ports: Ports)
    requires Owns(v, mine)
    ensures Led(w, mine, ValidationAccepted(v, w, credentials, identity, ports))
  {
    FailingLeads(v, w, mine, InvalidState, false, ports);
    FailingLeads(v, w, mine, WrongIdentity, true, ports);
    FailingLeads(v, w, mine, InvalidResult, true, ports);
    Stays(v, w, mine);
    if ports.system.Some? && AddDuration(ports.system.value, identity.expiresIn).Some? {
      var session := ValidatedSession(credentials, identity, AddDuration(ports.system.value, identity.expiresIn).value);
      SessionPublishedLeads(v, w, mine, session, v.Rotated(), ports);
    }
  }

  lemma RotationAdoptedLeads(v: View, w: World, mine: set<nat>, credentials: Credentials, user: User, ports: Ports)
    requires Owns(v, mine)
    ensures Led(w, mine, RotationAdopted(v, w, credentials, user, ports))
  {
    var x := RotationAdopted(v, w, credentials, user, ports);
    var session := Session(credentials.access, credentials.refresh, credentials.expiresAt, user.id, user.login, [CHAT_SCOPE]);
    if v.transaction.None? {
      FailingLeads(v, w, mine, InvalidState, true, ports);
    } else {
      var seen := Waiting(v, w);
      var (after, error) := PersistPending(seen.owner, v.transaction.value, session, ports.persisted);
      WaitAndTake(v, w, mine, PersistingPending(v.transaction.value, session, ports.persisted));
      if error.Some? {
        FailingLeads(v, seen.(owner := after), mine, Mapped(error.value), true, ports);
      } else {
        AskingWithCredentialsLeads(v.(draft := Some(Draft(Some(credentials), Some(user), true))), seen.(owner := after), mine, ValidateRotated, ports);
      }
      LedOn(w, mine, seen.(owner := after), mine, x.view, x.world);
    }
  }

  lemma RotationAcceptedLeads(v: View, w: World, mine: set<nat>, grant: Grant, ports: Ports)
    requires Owns(v, mine)
    ensures Led(w, mine, RotationAccepted(v, w, grant, ports))
  {
    if v.draft.None? {
      FailingLeads(v, w, mine, InvalidState, true, ports);
    } else {
      var rotating := v.(draft := Some(v.draft.value.(rotated := true)));
      FailingLeads(rotating, w, mine, InvalidState, true, ports);
      FailingLeads(rotating, w, mine, InvalidResult, true, ports);
      Stays(rotating, w, mine);
      if v.draft.value.identity.Some? && ValidityOf(grant, ports.system).At? {
        RotationAdoptedLeads(rotating, w, mine, ValidityOf(grant, ports.system).time, v.draft.value.identity.value, ports);
      }
    }
  }

  lemma RetryAwaitedLeads(v: View, w: World, mine: set<nat>, phase: Phase, delay: nat, shown: ControlError, ports: Ports)
    requires Owns(v, mine)
    ensures Led(w, mine, RetryAwaited(v, w, phase, delay, shown, ports))
  {
    FailingLeads(v, w, mine, InvalidResult, false, ports);
    LeadsByNothing(w, mine);
  }

  lemma RetriedLeads(v: View, w: World, mine: set<nat>, phase: Phase, error: ApiError, credentials: Credentials, shown: ControlError, ports: Ports)
    requires Owns(v, mine)
    ensures Led(w, mine, Retried(v, w, phase, error, credentials, shown, ports))
  {
    if v.draft.None? {
      FailingLeads(v, w, mine, InvalidState, false, ports);
    } else if !ValidToken(credentials.access) || !ValidToken(credentials.refresh) {
      FailingLeads(v, w, mine, InvalidResult, true, ports);
    } else {
      var kept := v.(draft := Some(v.draft.value.(credentials := Some(credentials))));
      RetryAwaitedLeads(kept, w, mine, phase, RetryDelay(error.retryAfter), shown, ports);
      AskingWithCredentialsLeads(kept, w, mine, Phase.Refresh, ports);
      FailingLeads(kept, w, mine, shown, phase.Refresh? || phase.ValidateRotated?, ports);
    }
  }

  lemma FailureHandledLeads(v: View, w: World, mine: set<nat>, phase: Phase, error: ApiError, retained: Option<Secret>, ports: Ports)
    requires Owns(v, mine)
    ensures Led(w, mine, FailureHandled(v, w, phase, error, retained, ports))
  {
    if phase.Revoke? {
      FinishingLeads(v, w, mine, Some(AuthenticationFailed), ports);
    } else if phase.Poll? && error.disposition.DoRetry? && retained.Some? && retained.value.DeviceCode? {
      PollDeferredLeads(v, w, mine, retained.value.code, Some(RetryDelay(error.retryAfter)), ports);
    } else if (Validates(phase) || phase.Refresh?) && retained.Some? && retained.value.Kept? {
      RetriedLeads(v, w, mine, phase, error, retained.value.credentials, ShownError(error.disposition), ports);
    } else {
      FailingLeads(v, w, mine, InvalidResult, phase.Refresh? || phase.ValidateRotated?, ports);
      FailingLeads(v, w, mine, InvalidResult, false, ports);
      FailingLeads(v, w, mine, ShownError(error.disposition), false, ports);
    }
  }

  lemma SuccessHandledLeads(v: View, w: World, mine: set<nat>, phase: Phase, success: Success, ports: Ports)
    requires Owns(v, mine)
    ensures Led(w, mine, SuccessHandled(v, w, phase, success, ports))
  {
    if phase.Start? && success.Started? {
      DeviceAcceptedLeads(v, w, mine, success.device, ports);
    } else if phase.Poll? && success.StillPending? {
      PollDeferredLeads(v, w, mine, success.code, None, ports);
    } else if phase.Poll? && success.Granted? {
      GrantAcceptedLeads(v, w, mine, success.grant, ports);
    } else if Validates(phase) && success.Validated? {
      ValidationAcceptedLeads(v, w, mine, success.credentials, success.identity, ports);
    } else if phase.Refresh? && success.Renewed? {
      RotationAcceptedLeads(v, w, mine, success.renewal, ports);
    } else if phase.Revoke? {
      FinishingLeads(v, w, mine, if success.Revoked? then None else Some(InvalidResult), ports);
    } else {
      FailingLeads(v, w, mine, InvalidResult, phase.ValidateRotated?, ports);
    }
  }

  lemma ResultRefusedLeads(v: View, w: World, mine: set<nat>, phase: Phase, ports: Ports)
    requires Owns(v, mine)
    ensures Led(w, mine, ResultRefused(v, w, phase, ports))
  {
    FinishingLeads(v, w, mine, Some(InvalidResult), ports);
    FailingLeads(v, w, mine, InvalidResult, phase.ValidateRotated?, ports);
  }

  lemma ResultHandledLeads(v: View, w: World, mine: set<nat>, result: AuthResult, ports: Ports)
    requires Owns(v, mine)
    ensures Led(w, mine, ResultHandled(v, w, result, ports))
  {
    if v.pending.None? || v.pending.value.id != result.id {
      Stays(v, w, mine);
    } else {
      var phase, taken := v.pending.value.phase, v.(pending := None, accepted := v.accepted + [result.id]);
      if OperationOf(phase) != result.operation || (result.outcome.Ok? && result.retained.Some?) {
        ResultRefusedLeads(taken, w, mine, phase, ports);
      } else if result.outcome.Ok? {
        SuccessHandledLeads(taken, w, mine, phase, result.outcome.value, ports);
      } else {
        FailureHandledLeads(taken, w, mine, phase, result.outcome.error, result.retained, ports);
      }
    }
  }

  // ---------------------------------------------------------------- the clock

  lemma CheckedUpLeads(v: View, w: World, mine: set<nat>, phase: Phase, ports: Ports)
    requires Owns(v, mine)
    ensures Led(w, mine, CheckedUp(v, w, phase, ports))
  {
    var x, taken := CheckedUp(v, w, phase, ports), ActiveTaken(v, w);
    ActiveTakenLeads(v, w, mine);
    var ours :| Leads(w, mine, taken.world, ours) && Owns(taken.view, ours);
    if taken.error == Some(Busy) {
      assert taken.view == v;
    } else if taken.error.Some? {
      FailingLeads(v, taken.world, ours, Mapped(taken.error.value), false, ports);
      LedOn(w, mine, taken.world, ours, x.view, x.world);
    } else {
      AskingWithCredentialsLeads(Concealed(taken.view), taken.world, ours, phase, ports);
      LedOn(w, mine, taken.world, ours, x.view, x.world);
    }
  }

  lemma OwnerFollowedLeads(v: View, w: World, mine: set<nat>, now: nat, connected: Connected, ports: Ports)
    requires Owns(v, mine) && v.schedule.Some?
    ensures Led(w, mine, OwnerFollowed(v, w, now, connected, ports))
  {
    LeadsByNothing(w, mine);
    FailingLeads(v, w, mine, InvalidResult, false, ports);
    CheckedUpLeads(v, w, mine, if now >= v.schedule.value.refresh then Phase.Refresh else ValidateActive, ports);
  }

  lemma ConnectedTickedLeads(v: View, w: World, mine: set<nat>, now: nat, ports: Ports)
    requires Owns(v, mine) && v.schedule.Some?
    ensures Led(w, mine, ConnectedTicked(v, w, now, ports))
  {
    var x, seen := ConnectedTicked(v, w, now, ports), Waiting(v, w);
    WaitingLeads(v, w, mine);
    match Observe(seen.owner) {
      case Disconnected => FailingLeads(v, seen, mine, MustReconnect, false, ports);
      case ShuttingDown => FailingLeads(v, seen, mine, ControlStopping, false, ports);
      case Updating => Stays(x.view, seen, mine);
      case Active(connected) => OwnerFollowedLeads(v, seen, mine, now, connected, ports);
    }
    LedOn(w, mine, seen, mine, x.view, x.world);
  }

  lemma FlowTickedLeads(v: View, w: World, mine: set<nat>, now: nat, ports: Ports)
    requires Owns(v, mine) && (v.deferred.Some? || v.authorization.Some?)
    ensures Led(w, mine, FlowTicked(v, w, now, ports))
  {
    Stays(v, w, mine);
    if v.deferred.Some? {
      AskingWithCredentialsLeads(v.(deferred := None), w, mine, v.deferred.value.phase, ports);
    } else if v.authorization.value.code.None? {
      FailingLeads(v, w, mine, InvalidState, false, ports);
    } else {
      AskingLeads(v.(authorization := Some(v.authorization.value.(code := None))), w, mine, Poll,
                  AskPoll(v.authorization.value.code.value), ports);
    }
  }

  lemma InnerTickedLeads(v: View, w: World, mine: set<nat>, reading: Option<nat>, polled: Polled, ports: Ports)
    requires Owns(v, mine)
    ensures Led(w, mine, InnerTicked(v, w, reading, polled, ports))
  {
    Stays(v, w, mine);
    FailingLeads(v, w, mine, AuthorizationExpired, false, ports);
    if reading.Some? {
      match polled
      case PollPanicked =>
      case Arrived(result) => ResultHandledLeads(v, w, mine, result, ports);
      case Nothing =>
        if v.deferred.Some? || v.authorization.Some? {
          FlowTickedLeads(v, w, mine, reading.value, ports);
        } else if v.schedule.Some? {
          ConnectedTickedLeads(v, w, mine, reading.value, ports);
        }
    }
  }

  lemma CaughtLeads(w: World, mine: set<nat>, inner: Exit, ports: Ports)
    requires Led(w, mine, inner)
    ensures Led(w, mine, PanicCaught(inner, ports))
  {
    if inner.ended.Unwound? {
      var x := PanicCaught(inner, ports);
      var ours :| Leads(w, mine, inner.world, ours) && Owns(inner.view, ours);
      FinishingLeads(inner.view, inner.world, ours, Some(ControlInternal), ports);
      FailingLeads(inner.view, inner.world, ours, ControlInternal, inner.view.Rotated(), ports);
      LedOn(w, mine, inner.world, ours, x.view, x.world);
    }
  }

  lemma TickedLeads(v: View, w: World, mine: set<nat>, reading: Option<nat>, polled: Polled, ports: Ports)
    requires Owns(v, mine)
    ensures Led(w, mine, Ticked(v, w, reading, polled, ports))
  {
    var x, first := Ticked(v, w, reading, polled, ports), Waiting(v, w);
    WaitingLeads(v, w, mine);
    if NotRunning(v, first.owner, ports).Some? {
      Stays(v, first, mine);
    } else {
      InnerTickedLeads(v, first, mine, reading, polled, ports);
      CaughtLeads(first, mine, InnerTicked(v, first, reading, polled, ports), ports);
    }
    LedOn(w, mine, first, mine, x.view, x.world);
  }

  lemma StoppedLeads(v: View, w: World, mine: set<nat>, diagnostic: Option<ControlError>)
    requires Owns(v, mine)
    ensures Led(w, mine, Stopped(v, w, diagnostic))
  {
    WaitAndTake(v, w, mine, Stopping);
  }

  lemma ShutDownLeads(v: View, w: World, mine: set<nat>, ports: Ports)
    requires Owns(v, mine)
    ensures Led(w, mine, ShutDown(v, w, ports))
  {
    var x := ShutDown(v, w, ports);
    if v.snapshot.shuttingDown {
      Stays(v, w, mine);
    } else if v.snapshot.status.Disconnecting? {
      var finished := Finishing(v, w, None, ports);
      FinishingLeads(v, w, mine, None, ports);
      var ours :| Leads(w, mine, finished.world, ours) && Owns(finished.view, ours);
      StoppedLeads(finished.view, finished.world, ours, if finished.ended.Bad? then Some(finished.ended.error) else None);
      LedOn(w, mine, finished.world, ours, x.view, x.world);
    } else {
      StoppedLeads(v, w, mine, None);
    }
  }

  // ---------------------------------------------------------------- runs

  /** Every call of the controller, whatever its ports answer, is a client's work at the owner. */
  lemma CallLeads(v: View, w: World, mine: set<nat>, call: Call)
    requires Owns(v, mine)
    ensures Led(w, mine, Made(v, w, call))
  {
    match call
    case BeginningConnection(ports) => ConnectionBegunLeads(v, w, mine, ports);
    case BeginningSaved(ports) => SavedConnectionBegunLeads(v, w, mine, ports);
    case Ticking(reading, polled, ports) => TickedLeads(v, w, mine, reading, polled, ports);
    case DisconnectingNow(ports) => DisconnectedByLeads(v, w, mine, ports);
    case StoppingNow(ports) => ShutDownLeads(v, w, mine, ports);
  }

  /** And so is every run of calls, from the start on, when the controller has been given nothing. */
  lemma {:induction false} CallsLead(w: World, calls: seq<Call>)
    ensures Led(w, {}, MadeAll(FRESH, w, calls))
  {
    if calls == [] {
      Stays(FRESH, w, {});
    } else {
      var before, x := MadeAll(FRESH, w, calls[..|calls| - 1]), MadeAll(FRESH, w, calls);
      CallsLead(w, calls[..|calls| - 1]);
      var ours :| Leads(w, {}, before.world, ours) && Owns(before.view, ours);
      CallLeads(before.view, before.world, ours, calls[|calls| - 1]);
      LedOn(w, {}, before.world, ours, x.view, x.world);
    }
  }

  // ---------------------------------------------------------------- one run of all parties

  /** The moves of all parties while a client acts: what `between` schedules when the client lets
      the others have their turn, and the client's own steps. */
  ghost function Joined(w: World, acts: seq<Act>, between: nat -> seq<Parties.Move>): seq<Parties.Move>
    decreases |acts|
  {
    if acts == [] then []
    else (match acts[0]
          case Waits(_) => between(w.turn)
          case Takes(step) => [Parties.ByClient(step)])
         + Joined(Acted(w, acts[0]), acts[1..], between)
  }

  /** The turns of the others are moves that other parties make in the system: recoveries,
      other clients and whoever shuts it down. */
  ghost predicate Scheduled(s: Parties.System, w: World, acts: seq<Act>, between: nat -> seq<Parties.Move>)
    decreases |acts|
  {
    acts == []
    || (match acts[0]
        case Waits(id) =>
          var moves := between(w.turn);
          && Parties.Runs(s, moves) && (forall move :: move in moves ==> !Parties.Its(s, move, id))
          && Parties.Trace(s, moves) == w.others(w.turn)
          && Scheduled(Parties.After(s, moves), Acted(w, acts[0]), acts[1..], between)
        case Takes(step) =>
          Parties.Enabled(s, Parties.ByClient(step)) ==>
            Scheduled(Parties.Next(s, Parties.ByClient(step)), Acted(w, acts[0]), acts[1..], between))
  }

  lemma {:induction false} RunsOn(s: Parties.System, moves: seq<Parties.Move>, more: seq<Parties.Move>)
    requires Parties.Runs(s, moves) && Parties.Runs(Parties.After(s, moves), more)
    ensures Parties.Runs(s, moves + more) && Parties.After(s, moves + more) == Parties.After(Parties.After(s, moves), more)
    decreases |moves|
  {
    if moves == [] {
      assert moves + more == more;
    } else {
      assert (moves + more)[1..] == moves[1..] + more;
      RunsOn(Parties.Next(s, moves[0]), moves[1..], more);
    }
  }

  lemma {:induction false} HeldGrows(s: Parties.System, moves: seq<Parties.Move>)
    requires Parties.Runs(s, moves)
    ensures s.held <= Parties.After(s, moves).held
    decreases |moves|
  {
    if moves != [] {
      HeldGrows(Parties.Next(s, moves[0]), moves[1..]);
    }
  }

  /** The moves of one act, and the system after it. */
  lemma ActIsARun(s: Parties.System, w: World, act: Act, mine: set<nat>, between: nat -> seq<Parties.Move>) returns (moves: seq<Parties.Move>)
    requires Parties.Agreed(s) && s.owner == w.owner && mine <= s.held && Allowed(act, mine)
    requires act.Waits? ==>
               && Parties.Runs(s, between(w.turn)) && (forall move :: move in between(w.turn) ==> !Parties.Its(s, move, act.id))
               && Parties.Trace(s, between(w.turn)) == w.others(w.turn)
    ensures moves == if act.Waits? then between(w.turn) else [Parties.ByClient(act.step)]
    ensures Parties.Runs(s, moves) && Parties.Agreed(Parties.After(s, moves))
    ensures Parties.After(s, moves).owner == Acted(w, act).owner && Given(w, act, mine) <= Parties.After(s, moves).held
    ensures act.Takes? ==> Parties.Enabled(s, Parties.ByClient(act.step)) && Parties.After(s, moves) == Parties.Next(s, Parties.ByClient(act.step))
  {
    match act
    case Waits(id) =>
      moves := between(w.turn);
      Parties.OthersAreSilent(s, moves, id);
      Parties.OthersDropNothing(s, moves, id);
      Parties.RunKeepsAgreed(s, moves);
      HeldGrows(s, moves);
    case Takes(step) =>
      moves := [Parties.ByClient(step)];
      assert moves[1..] == [];
      assert Parties.Runs(Parties.Next(s, moves[0]), []);
      assert Parties.After(s, moves) == Parties.After(Parties.Next(s, moves[0]), []);
      Parties.MoveKeepsAgreed(s, moves[0]);
  }

  /** A client's work, with the moves of the others in between, is a run of the system that leaves
      the owner just as the client sees it. */
  lemma {:induction false} PlayIsARun(s: Parties.System, w: World, acts: seq<Act>, mine: set<nat>, between: nat -> seq<Parties.Move>)
    requires Parties.Agreed(s) && s.owner == w.owner && mine <= s.held
    requires AllAllowed(w, acts, mine) && Scheduled(s, w, acts, between)
    ensures Parties.Runs(s, Joined(w, acts, between))
    ensures Parties.After(s, Joined(w, acts, between)).owner == Played(w, acts).owner
    decreases |acts|
  {
    if acts != [] {
      var moves := ActIsARun(s, w, acts[0], mine, between);
      var more := Joined(Acted(w, acts[0]), acts[1..], between);
      PlayIsARun(Parties.After(s, moves), Acted(w, acts[0]), acts[1..], Given(w, acts[0], mine), between);
      RunsOn(s, moves, more);
      assert Joined(w, acts, between) == moves + more;
    }
  }

  /** The acts of the controller's calls. */
  ghost predicate ActsOf(w: World, calls: seq<Call>, acts: seq<Act>) {
    AllAllowed(w, acts, {}) && Played(w, acts) == MadeAll(FRESH, w, calls).world
  }

  /** Every run of calls has them. */
  lemma CallsHaveActs(w: World, calls: seq<Call>) returns (acts: seq<Act>)
    ensures ActsOf(w, calls, acts)
  {
    CallsLead(w, calls);
    var x := MadeAll(FRESH, w, calls);
    var theirs :| Leads(w, {}, x.world, theirs) && Owns(x.view, theirs);
    acts :| AllAllowed(w, acts, {}) && Played(w, acts) == x.world && AllGiven(w, acts, {}) == theirs;
  }

  /** Both theorems speak of one run. Let the controller make any calls, and let the turns of the
      others be any moves of recoveries and other clients: together these are a run of all the
      parties, in its last state the owner is the one the controller sees, and what holds of all
      runs of the parties and of all runs of the controller holds there. */
  lemma OneRun(store: Option<Bytes>, w: World, calls: seq<Call>, acts: seq<Act>, between: nat -> seq<Parties.Move>)
    requires w.owner == Fresh(store) && ActsOf(w, calls, acts) && Scheduled(Parties.Opening(store), w, acts, between)
    ensures Parties.Runs(Parties.Opening(store), Joined(w, acts, between))
    ensures var s, x := Parties.After(Parties.Opening(store), Joined(w, acts, between)), MadeAll(FRESH, w, calls);
            && s.owner == x.world.owner && Parties.Agreed(s) && Disciplined(x.view, x.world, Latest(calls))
            && Orderly(s.owner.log) && (s.owner.active.Some? ==> Stored(s.owner.store, s.owner.active.value))
            && (x.view.transaction.Some? && !s.owner.stopping ==> Holds(s.owner, x.view.transaction.value))
  {
    PlayIsARun(Parties.Opening(store), w, acts, {}, between);
    Parties.RunKeepsAgreed(Parties.Opening(store), Joined(w, acts, between));
    Parties.OwnershipHolds(store, Joined(w, acts, between));
    RunsAreDisciplined(w, calls, Latest(calls));
  }
}
