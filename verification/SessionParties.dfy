/** The parties that share the session owner. Any number of chat recoveries are under way at once,
    each at its own place between two lock sections or inside an HTTP call; the clients, which are
    the checkouts and the controller, take any steps they like with the transaction ids that they
    were given, and anyone may shut the owner down. Nothing else restrains an interleaving. */
module SessionParties {
  import opened Outcomes
  import opened ByteStrings
  import opened TwitchSession
  import opened TwitchPorts
  import opened Spec = SessionOwnerSpec
  import opened SessionRecovery

  // ---------------------------------------------------------------- one recovery

  /** Where a recovery stands: what it does next, and what it carries there. */
  datatype Place =
    | AtFirstCheck
    | AtValidation
    | AtVerdict(answer: Answer<Identity>)
    | AtRefreshCheck
    | AtRefresh
    | AtGrant(grant: Grant)
    | AtPersist(rotated: Session)
    | AtRotationCheck(rotated: Session)
    | AtRevalidation(rotated: Session)
    | AtFinalVerdict(rotated: Session, answer: Answer<Identity>)
    | AtCommit(session: Session)
    | AtLease
    | AtGiveBack(refusal: Refusal)
    | AtDrop(refusal: Refusal, erase: bool)
    | AtAbandon(refusal: Refusal)
    | Ended(outcome: Outcome)

  /** A recovery: its transaction, the session it borrowed, and its place. */
  datatype Recovery = Recovery(id: nat, session: Session, place: Place)

  /** What the stop token, HTTP, the clock and the store answer in one move. */
  datatype Turn = Turn(stop: bool, identity: Answer<Identity>, grant: Answer<Grant>, clock: Option<int>, storage: StorageAnswer)

  /** The lock section of a move that changes the owner, or the note that a refresh was granted. */
  function StepOf(p: Recovery, t: Turn): Option<Step> {
    match p.place
    case AtRefresh => if t.grant.Answered? then Some(Step.Refreshing(p.id)) else None
    case AtPersist(rotated) => Some(PersistingPending(p.id, rotated, t.storage))
    case AtCommit(session) => Some(Committing(p.id, session, t.storage))
    case AtGiveBack(_) => Some(Restoring(p.id, p.session))
    case AtDrop(_, erase) => Some(Discarding(p.id, erase, t.storage))
    case AtAbandon(_) => Some(Discarding(p.id, false, t.storage))
    case _ => None
  }

  function RefusalAt(o: Spec.Owner, id: nat, stop: bool): Option<Refusal> {
    if stop then Some(Plain(Cancelled))
    else if Check(o, id).Some? then Some(OwnerRefusal(Check(o, id).value))
    else None
  }

  function AfterIdentity(applied: Applied): Place {
    match applied
    case Rejected => AtDrop(Plain(ReconnectRequired), true)
    case Panicking => AtAbandon(Plain(Failed))
    case Updated(session) => AtCommit(session)
  }

  function AfterVerdict(session: Session, answer: Answer<Identity>, clock: Option<int>): Place {
    match answer
    case Panicked => AtAbandon(Plain(Failed))
    case Answered(identity) => AfterIdentity(ApplyIdentity(session, identity, clock))
    case Failure(error) =>
      if error.disposition.DoReconnect? then AtRefreshCheck
      else if Transient(error) then AtGiveBack(ApiRefusal(error))
      else AtDrop(ApiRefusal(error), false)
  }

  function AfterRefresh(answer: Answer<Grant>): Place {
    match answer
    case Panicked => AtAbandon(Plain(Failed))
    case Failure(error) => if Transient(error) then AtGiveBack(ApiRefusal(error)) else AtDrop(ApiRefusal(error), true)
    case Answered(grant) => AtGrant(grant)
  }

  function AfterGrant(session: Session, grant: Grant, clock: Option<int>): Place {
    match ExpiryOf(grant.expiresIn, clock)
    case BadExpiry => AtDrop(Plain(ReconnectRequired), true)
    case ClockPanicked => AtAbandon(Plain(Failed))
    case Expires(at) => AtPersist(Rotated(session, grant, at))
  }

  function AfterFinalVerdict(rotated: Session, answer: Answer<Identity>, clock: Option<int>): Place {
    match answer
    case Panicked => AtAbandon(Plain(Failed))
    case Failure(error) => AtDrop(ApiRefusal(error), true)
    case Answered(identity) => AfterIdentity(ApplyIdentity(rotated, identity, clock))
  }

  /** How the lock section that closes the transaction ends the recovery. */
  function Closing(error: Option<OwnerError>, refusal: Refusal): Place {
    Ended(Refused(if error.Some? then OwnerRefusal(error.value) else refusal))
  }

  /** The place after a move, as the owner stands when it is made. */
  function PlaceAfter(o: Spec.Owner, p: Recovery, t: Turn): Place {
    var refusal := RefusalAt(o, p.id, t.stop);
    match p.place
    case AtFirstCheck => if refusal.Some? then AtGiveBack(refusal.value) else AtValidation
    case AtValidation => if t.identity.Panicked? then AtAbandon(Plain(Failed)) else AtVerdict(t.identity)
    case AtVerdict(answer) => if refusal.Some? then AtGiveBack(refusal.value) else AfterVerdict(p.session, answer, t.clock)
    case AtRefreshCheck => if refusal.Some? then AtGiveBack(refusal.value) else AtRefresh
    case AtRefresh => AfterRefresh(t.grant)
    case AtGrant(grant) => if refusal.Some? then AtDrop(refusal.value, true) else AfterGrant(p.session, grant, t.clock)
    case AtPersist(rotated) =>
      var error := PersistPending(o, p.id, rotated, t.storage).1;
      if error.Some? then AtDrop(OwnerRefusal(error.value), false) else AtRotationCheck(rotated)
    case AtRotationCheck(rotated) => if refusal.Some? then AtDrop(refusal.value, true) else AtRevalidation(rotated)
    case AtRevalidation(rotated) =>
      if t.identity.Panicked? then AtAbandon(Plain(Failed)) else AtFinalVerdict(rotated, t.identity)
    case AtFinalVerdict(rotated, answer) =>
      if refusal.Some? then AtDrop(refusal.value, true) else AfterFinalVerdict(rotated, answer, t.clock)
    case AtCommit(session) =>
      var committed := Commit(o, p.id, session, t.storage).1;
      if committed.Ok? then AtLease else AtAbandon(OwnerRefusal(committed.error))
    case AtLease => Ended(LeaseAt(o, t.stop))
    case AtGiveBack(given) => Closing(Restore(o, p.id, p.session).1, given)
    case AtDrop(given, erase) => Closing(Discard(o, p.id, erase, t.storage).1, given)
    case AtAbandon(given) => Ended(Refused(given))
    case Ended(_) => p.place
  }

  /** Moves left at most. */
  function Distance(place: Place): nat {
    match place
    case AtFirstCheck => 13
    case AtValidation => 12
    case AtVerdict(_) => 11
    case AtRefreshCheck => 10
    case AtRefresh => 9
    case AtGrant(_) => 8
    case AtPersist(_) => 7
    case AtRotationCheck(_) => 6
    case AtRevalidation(_) => 5
    case AtFinalVerdict(_, _) => 4
    case AtCommit(_) => 3
    case AtLease => 1
    case AtGiveBack(_) => 1
    case AtDrop(_, _) => 1
    case AtAbandon(_) => 1
    case Ended(_) => 0
  }

  function Stepped(o: Spec.Owner, step: Option<Step>): Spec.Owner {
    if step.Some? then Apply(o, step.value) else o
  }

  // ---------------------------------------------------------------- the system

  datatype System = System(owner: Spec.Owner, held: set<nat>, recoveries: seq<Recovery>)

  datatype Move =
    | ByClient(step: Step)
    | Rejecting(lease: Lease)
    | Advancing(k: nat, turn: Turn)

  /** The transaction a step speaks for, if it names one. */
  function Named(step: Step): Option<nat> {
    match step
    case Refreshing(id) => Some(id)
    case PersistingPending(id, _, _) => Some(id)
    case Committing(id, _, _) => Some(id)
    case Restoring(id, _) => Some(id)
    case Discarding(id, _, _) => Some(id)
    case _ => None
  }

  /** Clients name only ids they were given. They neither recover nor restore. */
  predicate Enabled(s: System, move: Move) {
    match move
    case ByClient(step) =>
      !step.Restoring? && !step.StartingRecovery? && (Named(step).Some? ==> Named(step).value in s.held)
    case Rejecting(_) => true
    case Advancing(k, _) => k < |s.recoveries| && !s.recoveries[k].place.Ended?
  }

  /** The owner's step in a move. */
  function StepIn(s: System, move: Move): Option<Step>
    requires Enabled(s, move)
  {
    match move
    case ByClient(step) => Some(step)
    case Rejecting(lease) => Some(StartingRecovery(lease))
    case Advancing(k, turn) => StepOf(s.recoveries[k], turn)
  }

  function Next(s: System, move: Move): System
    requires Enabled(s, move)
  {
    var after := Stepped(s.owner, StepIn(s, move));
    match move
    case ByClient(_) =>
      s.(owner := after, held := if after.nextTransaction > s.owner.nextTransaction then s.held + {s.owner.nextTransaction} else s.held)
    case Rejecting(lease) =>
      var start := StartRecovery(s.owner, lease).1;
      if start.Borrowed?
      then s.(owner := after, recoveries := s.recoveries + [Recovery(start.transaction.id, start.transaction.session, AtFirstCheck)])
      else s.(owner := after)
    case Advancing(k, turn) =>
      var p := s.recoveries[k];
      s.(owner := after, recoveries := s.recoveries[k := p.(place := PlaceAfter(s.owner, p, turn))])
  }

  predicate Runs(s: System, moves: seq<Move>)
    decreases |moves|
  {
    moves == [] || (Enabled(s, moves[0]) && Runs(Next(s, moves[0]), moves[1..]))
  }

  function After(s: System, moves: seq<Move>): System
    requires Runs(s, moves)
    decreases |moves|
  {
    if moves == [] then s else After(Next(s, moves[0]), moves[1..])
  }

  /** Nobody has a transaction yet, and the store holds whatever an earlier run left. */
  function Opening(store: Option<Bytes>): System {
    System(Fresh(store), {}, [])
  }

  // ---------------------------------------------------------------- the invariant

  /** A place from which the borrowed session may still go back. */
  predicate MayGiveBack(place: Place) {
    place.AtFirstCheck? || place.AtValidation? || place.AtVerdict? || place.AtRefreshCheck? || place.AtRefresh? || place.AtGiveBack?
  }

  predicate Closed(place: Place) {
    place.AtLease? || place.Ended?
  }

  /** What a recovery carries belongs to the user it borrowed from. */
  predicate SameUser(p: Recovery) {
    match p.place
    case AtPersist(rotated) => rotated.userId == p.session.userId
    case AtRotationCheck(rotated) => rotated.userId == p.session.userId
    case AtRevalidation(rotated) => rotated.userId == p.session.userId
    case AtFinalVerdict(rotated, _) => rotated.userId == p.session.userId
    case AtCommit(session) => session.userId == p.session.userId && Encoded(session).Ok?
    case _ => true
  }

  /** As long as it may give the session back, the transaction is as it was opened. */
  ghost predicate InPlace(o: Spec.Owner, p: Recovery) {
    && 1 <= p.id < o.nextTransaction && SameUser(p)
    && (if MayGiveBack(p.place) then Borrowing(o, p.id, p.session)
        else if Closed(p.place) then Valid(o) && !Holds(o, p.id)
        else Holding(o, p.id, p.session.userId))
  }

  /** Every party has ids of its own. */
  ghost predicate Separate(s: System) {
    && (forall id :: id in s.held ==> 1 <= id < s.owner.nextTransaction)
    && (forall k :: 0 <= k < |s.recoveries| ==> s.recoveries[k].id !in s.held)
    && (forall j, k :: 0 <= j < k < |s.recoveries| ==> s.recoveries[j].id != s.recoveries[k].id)
  }

  /** The open transaction is somebody's. */
  ghost predicate Claimed(s: System) {
    s.owner.pending.Some? ==>
      s.owner.pending.value.id in s.held
      || exists k :: 0 <= k < |s.recoveries| && s.recoveries[k].id == s.owner.pending.value.id
  }

  ghost predicate Agreed(s: System) {
    && Valid(s.owner) && Separate(s) && Claimed(s)
    && (forall k :: 0 <= k < |s.recoveries| ==> InPlace(s.owner, s.recoveries[k]))
  }

  // ---------------------------------------------------------------- one move of a recovery

  lemma AppliedIdentity(session: Session, identity: Identity, clock: Option<int>)
    ensures var applied := ApplyIdentity(session, identity, clock);
            applied.Updated? ==> applied.session.userId == session.userId && Encoded(applied.session).Ok?
  {
  }

  /** A move that leaves the owner alone leads to a place where the transaction may be as it is. */
  lemma CheckKeepsPlace(o: Spec.Owner, p: Recovery, t: Turn)
    requires Valid(o) && InPlace(o, p) && StepOf(p, t).None? && !p.place.Ended?
    ensures InPlace(o, p.(place := PlaceAfter(o, p, t)))
  {
    match p.place
    case AtVerdict(answer) =>
      if answer.Answered? {
        AppliedIdentity(p.session, answer.value, t.clock);
      }
    case AtFinalVerdict(rotated, answer) =>
      if answer.Answered? {
        AppliedIdentity(rotated, answer.value, t.clock);
      }
    case _ =>
  }

  lemma GrantKeepsPlace(o: Spec.Owner, p: Recovery, t: Turn)
    requires Valid(o) && InPlace(o, p) && p.place.AtRefresh? && t.grant.Answered?
    ensures InPlace(Stepped(o, StepOf(p, t)), p.(place := PlaceAfter(o, p, t)))
  {
    NoteRefreshKeepsValid(o, p.id);
  }

  lemma PersistKeepsPlace(o: Spec.Owner, p: Recovery, t: Turn)
    requires Valid(o) && InPlace(o, p) && p.place.AtPersist?
    ensures InPlace(Stepped(o, StepOf(p, t)), p.(place := PlaceAfter(o, p, t)))
  {
    PersistKeepsValid(o, p.id, p.place.rotated, t.storage);
  }

  lemma CommitKeepsPlace(o: Spec.Owner, p: Recovery, t: Turn)
    requires Valid(o) && InPlace(o, p) && p.place.AtCommit?
    ensures InPlace(Stepped(o, StepOf(p, t)), p.(place := PlaceAfter(o, p, t)))
  {
    CommitKeepsValid(o, p.id, p.place.session, t.storage);
  }

  /** Giving back is permitted, and so the session goes back. */
  lemma GiveBackKeepsPlace(o: Spec.Owner, p: Recovery, t: Turn)
    requires Valid(o) && InPlace(o, p) && p.place.AtGiveBack?
    ensures Permitted(o, Restoring(p.id, p.session))
    ensures InPlace(Stepped(o, StepOf(p, t)), p.(place := PlaceAfter(o, p, t)))
  {
    RestoreKeepsValid(o, p.id, p.session);
  }

  lemma DropKeepsPlace(o: Spec.Owner, p: Recovery, t: Turn, erase: bool)
    requires Valid(o) && InPlace(o, p)
    requires if erase then p.place.AtDrop? && p.place.erase else p.place.AtAbandon? || (p.place.AtDrop? && !p.place.erase)
    ensures InPlace(Stepped(o, StepOf(p, t)), p.(place := PlaceAfter(o, p, t)))
  {
    DiscardKeepsValid(o, p.id, erase, t.storage);
  }

  lemma AdvancingIsPermitted(o: Spec.Owner, p: Recovery, t: Turn)
    requires Valid(o) && InPlace(o, p)
    ensures StepOf(p, t).Some? ==> Permitted(o, StepOf(p, t).value)
  {
    if p.place.AtGiveBack? {
      GiveBackKeepsPlace(o, p, t);
    }
  }

  lemma AdvancingKeepsPlace(o: Spec.Owner, p: Recovery, t: Turn)
    requires Valid(o) && InPlace(o, p) && !p.place.Ended?
    ensures InPlace(Stepped(o, StepOf(p, t)), p.(place := PlaceAfter(o, p, t)))
  {
    if StepOf(p, t).None? {
      CheckKeepsPlace(o, p, t);
    } else {
      match p.place
      case AtRefresh => GrantKeepsPlace(o, p, t);
      case AtPersist(_) => PersistKeepsPlace(o, p, t);
      case AtCommit(_) => CommitKeepsPlace(o, p, t);
      case AtGiveBack(_) => GiveBackKeepsPlace(o, p, t);
      case AtDrop(_, erase) => DropKeepsPlace(o, p, t, erase);
      case AtAbandon(_) => DropKeepsPlace(o, p, t, false);
    }
  }

  /** A recovery takes a bounded number of moves. */
  lemma AdvancingLowersDistance(o: Spec.Owner, p: Recovery, t: Turn)
    requires !p.place.Ended?
    ensures Distance(PlaceAfter(o, p, t)) < Distance(p.place)
  {
  }

  // ---------------------------------------------------------------- one move of the system

  /** A party that others do not speak for stays in place, unless the owner is shut down. */
  lemma OthersKeepPlace(o: Spec.Owner, step: Step, p: Recovery)
    requires Valid(o) && Permitted(o, step) && Foreign(step, p.id) && InPlace(o, p)
    ensures InPlace(Apply(o, step), p)
  {
    StepKeepsValid(o, step);
    ForeignStepUndisturbed(o, step, p.id);
  }

  lemma NamingIsSpeaking(step: Step, id: nat)
    ensures Foreign(step, id) <==> Named(step) != Some(id)
  {
  }

  /** A step opens at most one transaction, under the next id. */
  lemma OpenedByStep(o: Spec.Owner, step: Step)
    ensures var after := Apply(o, step);
            && o.nextTransaction <= after.nextTransaction <= o.nextTransaction + 1
            && (after.pending.Some? && after.nextTransaction == o.nextTransaction ==>
                  o.pending.Some? && after.pending.value.id == o.pending.value.id)
            && (after.nextTransaction > o.nextTransaction ==> after.pending.Some? && after.pending.value.id == o.nextTransaction)
  {
  }

  lemma ClientKeepsAgreed(s: System, step: Step)
    requires Agreed(s) && Enabled(s, ByClient(step))
    ensures Permitted(s.owner, step) && Agreed(Next(s, ByClient(step)))
  {
    StepKeepsValid(s.owner, step);
    OpenedByStep(s.owner, step);
    forall k | 0 <= k < |s.recoveries|
      ensures InPlace(Apply(s.owner, step), s.recoveries[k])
    {
      NamingIsSpeaking(step, s.recoveries[k].id);
      OthersKeepPlace(s.owner, step, s.recoveries[k]);
    }
  }

  lemma RejectingKeepsAgreed(s: System, lease: Lease)
    requires Agreed(s)
    ensures Agreed(Next(s, Rejecting(lease)))
  {
    var step, t := StartingRecovery(lease), Next(s, Rejecting(lease));
    StepKeepsValid(s.owner, step);
    OpenedByStep(s.owner, step);
    forall k | 0 <= k < |s.recoveries|
      ensures InPlace(t.owner, s.recoveries[k])
    {
      OthersKeepPlace(s.owner, step, s.recoveries[k]);
    }
    if StartRecovery(s.owner, lease).1.Borrowed? {
      assert t.recoveries[|s.recoveries|].id == s.owner.nextTransaction;
    }
  }

  lemma AdvancingKeepsSeparate(s: System, k: nat, turn: Turn)
    requires Agreed(s) && Enabled(s, Advancing(k, turn))
    ensures Separate(Next(s, Advancing(k, turn))) && Claimed(Next(s, Advancing(k, turn)))
  {
    var p, t := s.recoveries[k], Next(s, Advancing(k, turn));
    if StepOf(p, turn).Some? {
      OpenedByStep(s.owner, StepOf(p, turn).value);
    }
    assert forall j :: 0 <= j < |s.recoveries| ==> t.recoveries[j].id == s.recoveries[j].id;
  }

  lemma AdvancingKeepsAgreed(s: System, k: nat, turn: Turn)
    requires Agreed(s) && Enabled(s, Advancing(k, turn))
    ensures StepOf(s.recoveries[k], turn).Some? ==> Permitted(s.owner, StepOf(s.recoveries[k], turn).value)
    ensures Agreed(Next(s, Advancing(k, turn)))
  {
    var p, t, step := s.recoveries[k], Next(s, Advancing(k, turn)), StepOf(s.recoveries[k], turn);
    AdvancingIsPermitted(s.owner, p, turn);
    AdvancingKeepsPlace(s.owner, p, turn);
    AdvancingKeepsSeparate(s, k, turn);
    forall j | 0 <= j < |s.recoveries|
      ensures InPlace(t.owner, t.recoveries[j])
    {
      if j != k && step.Some? {
        OthersKeepPlace(s.owner, step.value, s.recoveries[j]);
      }
    }
  }

  /** The step of any move of any party is permitted, and the move keeps the invariant. */
  lemma MoveKeepsAgreed(s: System, move: Move)
    requires Agreed(s) && Enabled(s, move)
    ensures StepIn(s, move).Some? ==> Permitted(s.owner, StepIn(s, move).value)
    ensures Agreed(Next(s, move))
  {
    match move
    case ByClient(step) => ClientKeepsAgreed(s, step);
    case Rejecting(lease) => RejectingKeepsAgreed(s, lease);
    case Advancing(k, turn) => AdvancingKeepsAgreed(s, k, turn);
  }

  // ---------------------------------------------------------------- runs

  lemma {:induction false} RunKeepsAgreed(s: System, moves: seq<Move>)
    requires Agreed(s) && Runs(s, moves)
    ensures Agreed(After(s, moves))
    decreases |moves|
  {
    if moves != [] {
      MoveKeepsAgreed(s, moves[0]);
      RunKeepsAgreed(Next(s, moves[0]), moves[1..]);
    }
  }

  /** Every restore that any run comes to is one of the session as it was lent, before its
      refresh was granted and before a write of its transaction failed. */
  lemma RestoresArePermitted(store: Option<Bytes>, moves: seq<Move>, move: Move)
    requires Runs(Opening(store), moves) && Enabled(After(Opening(store), moves), move)
    ensures var s := After(Opening(store), moves);
            StepIn(s, move).Some? && StepIn(s, move).value.Restoring? && Holds(s.owner, StepIn(s, move).value.id) ==>
              && s.owner.lent == Some(StepIn(s, move).value.session) && !s.owner.tainted && !s.owner.refreshed
              && Restore(s.owner, StepIn(s, move).value.id, StepIn(s, move).value.session).1.None?
  {
    RunKeepsAgreed(Opening(store), moves);
    MoveKeepsAgreed(After(Opening(store), moves), move);
    var s := After(Opening(store), moves);
    if StepIn(s, move).Some? && StepIn(s, move).value.Restoring? {
      assert move.Advancing? && s.recoveries[move.k].place.AtGiveBack?;
      RestoreKeepsValid(s.owner, s.recoveries[move.k].id, s.recoveries[move.k].session);
    }
  }

  /** In every reachable state, however the parties interleave: a session is active or lent to
      one open transaction, never both; an active session is what the store holds; nothing is
      held after shutdown; and the log is orderly: no transaction restores after its refresh was
      granted, none ends twice, and revisions only go up. */
  lemma OwnershipHolds(store: Option<Bytes>, moves: seq<Move>)
    requires Runs(Opening(store), moves)
    ensures var o := After(Opening(store), moves).owner;
            && !(o.active.Some? && o.pending.Some?)
            && (o.active.Some? ==> Stored(o.store, o.active.value))
            && (o.stopping ==> o.active.None? && o.pending.None?)
            && Orderly(o.log)
  {
    RunKeepsAgreed(Opening(store), moves);
  }

  /** No transaction is orphaned: an open one belongs to a client or to a recovery that has yet
      to close it. */
  lemma OpenTransactionHasAnOwner(store: Option<Bytes>, moves: seq<Move>)
    requires Runs(Opening(store), moves)
    ensures var s := After(Opening(store), moves);
            s.owner.pending.Some? ==>
              s.owner.pending.value.id in s.held
              || exists k :: 0 <= k < |s.recoveries| && s.recoveries[k].id == s.owner.pending.value.id && !Closed(s.recoveries[k].place)
  {
    RunKeepsAgreed(Opening(store), moves);
    var s := After(Opening(store), moves);
    if s.owner.pending.Some? && s.owner.pending.value.id !in s.held {
      var k :| 0 <= k < |s.recoveries| && s.recoveries[k].id == s.owner.pending.value.id;
      assert InPlace(s.owner, s.recoveries[k]);
    }
  }

  // ---------------------------------------------------------------- what one party sees of the others

  /** The owner's steps in a run. */
  function Trace(s: System, moves: seq<Move>): seq<Step>
    requires Runs(s, moves)
    decreases |moves|
  {
    if moves == [] then []
    else
      var step := StepIn(s, moves[0]);
      (if step.Some? then [step.value] else []) + Trace(Next(s, moves[0]), moves[1..])
  }

  /** Nobody speaks for the transaction. */
  ghost predicate Silent(s: System, moves: seq<Move>, id: nat)
    requires Runs(s, moves)
  {
    forall step :: step in Trace(s, moves) ==> Foreign(step, id)
  }

  /** Each step is admitted where it is taken. */
  ghost predicate Admitted(o: Spec.Owner, steps: seq<Step>, id: nat) {
    forall i :: 0 <= i < |steps| ==> Foreign(steps[i], id) && Permitted(Others(o, steps[..i], id), steps[i])
  }

  lemma {:induction false} OthersFromTheFront(o: Spec.Owner, step: Step, rest: seq<Step>, id: nat)
    requires Foreign(step, id) && Permitted(o, step)
    ensures Others(o, [step] + rest, id) == Others(Apply(o, step), rest, id)
    decreases |rest|
  {
    var steps := [step] + rest;
    if rest == [] {
      assert steps[..|steps| - 1] == [];
      assert Others(o, [], id) == o;
    } else {
      assert steps[..|steps| - 1] == [step] + rest[..|rest| - 1];
      OthersFromTheFront(o, step, rest[..|rest| - 1], id);
    }
  }

  lemma AdmittedFromTheFront(o: Spec.Owner, step: Step, rest: seq<Step>, id: nat)
    requires Foreign(step, id) && Permitted(o, step) && Admitted(Apply(o, step), rest, id)
    ensures Admitted(o, [step] + rest, id)
  {
    var steps := [step] + rest;
    forall i | 0 <= i < |steps|
      ensures Foreign(steps[i], id) && Permitted(Others(o, steps[..i], id), steps[i])
    {
      if i == 0 {
        assert steps[..0] == [];
      } else {
        assert steps[..i] == [step] + rest[..i - 1];
        OthersFromTheFront(o, step, rest[..i - 1], id);
      }
    }
  }

  /** While a party makes no move, what the others do to the owner is one turn of the others as
      the owner's calls assume it, and that turn leaves none of their steps out. */
  lemma {:induction false} OthersDropNothing(s: System, moves: seq<Move>, id: nat)
    requires Agreed(s) && Runs(s, moves) && Silent(s, moves, id)
    ensures Admitted(s.owner, Trace(s, moves), id)
    ensures After(s, moves).owner == Others(s.owner, Trace(s, moves), id)
    decreases |moves|
  {
    if moves != [] {
      var step, rest := StepIn(s, moves[0]), Trace(Next(s, moves[0]), moves[1..]);
      MoveKeepsAgreed(s, moves[0]);
      assert forall other :: other in rest ==> other in Trace(s, moves);
      OthersDropNothing(Next(s, moves[0]), moves[1..], id);
      if step.Some? {
        assert Trace(s, moves) == [step.value] + rest;
        assert step.value in Trace(s, moves);
        OthersFromTheFront(s.owner, step.value, rest, id);
        AdmittedFromTheFront(s.owner, step.value, rest, id);
      } else {
        assert Trace(s, moves) == rest;
      }
    }
  }

  /** The move is one of the party that was given the transaction. */
  predicate Its(s: System, move: Move, id: nat) {
    match move
    case ByClient(step) => Named(step) == Some(id)
    case Rejecting(_) => false
    case Advancing(k, _) => k < |s.recoveries| && s.recoveries[k].id == id
  }

  /** A move of another party does not speak for the transaction, and what was its stays its. */
  lemma OthersMoveIsSilent(s: System, move: Move, id: nat)
    requires Agreed(s) && Enabled(s, move) && !Its(s, move, id) && id < s.owner.nextTransaction
    ensures StepIn(s, move).Some? ==> Foreign(StepIn(s, move).value, id)
    ensures id < Next(s, move).owner.nextTransaction
    ensures forall later :: Its(Next(s, move), later, id) ==> Its(s, later, id)
  {
    if StepIn(s, move).Some? {
      NamingIsSpeaking(StepIn(s, move).value, id);
      OpenedByStep(s.owner, StepIn(s, move).value);
    }
  }

  /** Between two moves of the party that was given it, nobody speaks for a transaction; and
      nobody ever speaks for id zero. */
  lemma {:induction false} OthersAreSilent(s: System, moves: seq<Move>, id: nat)
    requires Agreed(s) && Runs(s, moves) && id < s.owner.nextTransaction
    requires forall move :: move in moves ==> !Its(s, move, id)
    ensures Silent(s, moves, id)
    decreases |moves|
  {
    if moves != [] {
      MoveKeepsAgreed(s, moves[0]);
      OthersMoveIsSilent(s, moves[0], id);
      OthersAreSilent(Next(s, moves[0]), moves[1..], id);
    }
  }

  // ---------------------------------------------------------------- one recovery from start to end

  /** What the script of a call answers at a place. */
  function TurnFor(script: Script, place: Place): Turn {
    var stop := match place
      case AtFirstCheck => script.stops(0)
      case AtVerdict(_) => script.stops(1)
      case AtRefreshCheck => script.stops(2)
      case AtGrant(_) => script.stops(3)
      case AtRotationCheck(_) => script.stops(4)
      case AtFinalVerdict(_, _) => script.stops(5)
      case _ => script.stops(6);
    var storage := match place
      case AtPersist(_) => script.persisted
      case AtCommit(_) => script.committed
      case _ => script.erased;
    Turn(stop, if place.AtValidation? then script.validated else script.revalidated, script.refreshed,
         script.clock(if place.AtFinalVerdict? then 1 else 0), storage)
  }

  /** Whether the move comes to the lock: a check does not if it is told to stop first. */
  predicate Locks(place: Place, stop: bool) {
    match place
    case AtValidation => false
    case AtRefresh => false
    case AtRevalidation(_) => false
    case AtPersist(_) => true
    case AtCommit(_) => true
    case AtLease => true
    case AtGiveBack(_) => true
    case AtDrop(_, _) => true
    case AtAbandon(_) => true
    case _ => !stop
  }

  /** The moves of one recovery to its end, the others taking their turns before each lock section. */
  function Driven(w: World, p: Recovery, script: Script): Return
    decreases Distance(p.place)
  {
    match p.place
    case Ended(outcome) => Return(w, outcome)
    case _ =>
      var turn := TurnFor(script, p.place);
      var seen := if Locks(p.place, turn.stop) then Yielded(w, p.id) else w;
      AdvancingLowersDistance(seen.owner, p, turn);
      Driven(seen.(owner := Stepped(seen.owner, StepOf(p, turn))), p.(place := PlaceAfter(seen.owner, p, turn)), script)
  }

  /** From this place on, the moves are what the call does. */
  ghost predicate Arrives(w: World, p: Recovery, script: Script, r: Return) {
    Driven(w, p, script) == Caught(r, p.id, script)
  }

  lemma DropArrives(w: World, p: Recovery, refusal: Refusal, erase: bool, script: Script)
    requires p.place == AtDrop(refusal, erase)
    ensures Arrives(w, p, script, Dropped(w, p.id, refusal, erase, script))
  {
  }

  lemma GiveBackArrives(w: World, p: Recovery, refusal: Refusal, script: Script)
    requires p.place == AtGiveBack(refusal)
    ensures Arrives(w, p, script, GivenBack(w, p.id, p.session, refusal))
  {
  }

  lemma AbandonArrives(w: World, p: Recovery, refusal: Refusal, script: Script)
    requires p.place == AtAbandon(refusal)
    ensures Driven(w, p, script) == Return(Abandoned(w, p.id, script), Refused(refusal))
  {
    assert Driven(w, p, script) == Driven(Abandoned(w, p.id, script), p.(place := Ended(Refused(refusal))), script);
  }

  lemma PanicArrives(w: World, p: Recovery, script: Script)
    requires p.place == AtAbandon(Plain(Failed))
    ensures Arrives(w, p, script, Return(w, Unwound))
  {
    AbandonArrives(w, p, Plain(Failed), script);
  }

  lemma LeaseArrives(w: World, p: Recovery, script: Script)
    requires p.place == AtLease
    ensures Driven(w, p, script) == Return(Yielded(w, p.id), LeaseAt(Yielded(w, p.id).owner, script.stops(6)))
  {
    var seen := Yielded(w, p.id);
    var outcome := LeaseAt(seen.owner, script.stops(6));
    assert Driven(w, p, script) == Driven(seen, p.(place := Ended(outcome)), script);
  }

  lemma CommitArrives(w: World, p: Recovery, session: Session, script: Script)
    requires p.place == AtCommit(session)
    ensures Arrives(w, p, script, Finished(w, p.id, session, script))
  {
    var seen := Yielded(w, p.id);
    var (after, committed) := Commit(seen.owner, p.id, session, script.committed);
    var next := p.(place := PlaceAfter(seen.owner, p, TurnFor(script, p.place)));
    assert Driven(w, p, script) == Driven(seen.(owner := after), next, script);
    if committed.Ok? {
      LeaseArrives(seen.(owner := after), next, script);
    } else {
      AbandonArrives(seen.(owner := after), next, OwnerRefusal(committed.error), script);
    }
  }

  lemma IdentityArrives(w: World, p: Recovery, applied: Applied, script: Script)
    requires p.place == AfterIdentity(applied)
    ensures Arrives(w, p, script, Adopting(w, p.id, applied, script))
  {
    match applied
    case Rejected => DropArrives(w, p, Plain(ReconnectRequired), true, script);
    case Panicking => PanicArrives(w, p, script);
    case Updated(session) => CommitArrives(w, p, session, script);
  }

  lemma FinalVerdictArrives(w: World, p: Recovery, rotated: Session, script: Script)
    requires p.place == AfterFinalVerdict(rotated, script.revalidated, script.clock(1)) && !script.revalidated.Panicked?
    ensures Arrives(w, p, script,
                    if script.revalidated.Failure? then Dropped(w, p.id, ApiRefusal(script.revalidated.error), true, script)
                    else Adopting(w, p.id, ApplyIdentity(rotated, script.revalidated.value, script.clock(1)), script))
  {
    match script.revalidated
    case Failure(error) => DropArrives(w, p, ApiRefusal(error), true, script);
    case Answered(identity) => IdentityArrives(w, p, ApplyIdentity(rotated, identity, script.clock(1)), script);
  }

  /** A check, and what the call does after it. */
  lemma CheckArrives(w: World, p: Recovery, stop: bool, script: Script)
    requires p.place.AtFirstCheck? || p.place.AtVerdict? || p.place.AtRefreshCheck? || p.place.AtGrant?
             || p.place.AtRotationCheck? || p.place.AtFinalVerdict?
    requires stop == TurnFor(script, p.place).stop
    ensures var checked := Checked(w, p.id, stop);
            && checked.refusal == RefusalAt(checked.world.owner, p.id, stop)
            && Driven(w, p, script)
               == Driven(checked.world, p.(place := PlaceAfter(checked.world.owner, p, TurnFor(script, p.place))), script)
  {
    var checked := Checked(w, p.id, stop);
    assert checked.world.(owner := checked.world.owner) == checked.world;
  }

  lemma RevalidationArrives(w: World, p: Recovery, rotated: Session, script: Script)
    requires p.place == AtRotationCheck(rotated)
    ensures Arrives(w, p, script, Revalidating(w, p.id, rotated, script))
  {
    var first := Checked(w, p.id, script.stops(4));
    CheckArrives(w, p, script.stops(4), script);
    if first.refusal.Some? {
      DropArrives(first.world, p.(place := AtDrop(first.refusal.value, true)), first.refusal.value, true, script);
    } else {
      var waiting := p.(place := AtRevalidation(rotated));
      assert first.world.(owner := first.world.owner) == first.world;
      if script.revalidated.Panicked? {
        PanicArrives(first.world, p.(place := AtAbandon(Plain(Failed))), script);
      } else {
        var judged := p.(place := AtFinalVerdict(rotated, script.revalidated));
        assert Driven(first.world, waiting, script) == Driven(first.world, judged, script);
        var second := Checked(first.world, p.id, script.stops(5));
        CheckArrives(first.world, judged, script.stops(5), script);
        if second.refusal.Some? {
          DropArrives(second.world, p.(place := AtDrop(second.refusal.value, true)), second.refusal.value, true, script);
        } else {
          FinalVerdictArrives(second.world, p.(place := AfterFinalVerdict(rotated, script.revalidated, script.clock(1))), rotated, script);
        }
      }
    }
  }

  lemma PersistArrives(w: World, p: Recovery, rotated: Session, script: Script)
    requires p.place == AtPersist(rotated)
    ensures Arrives(w, p, script, Persisting(w, p.id, rotated, script))
  {
    var seen := Yielded(w, p.id);
    var (after, error) := PersistPending(seen.owner, p.id, rotated, script.persisted);
    var left, next := seen.(owner := after), p.(place := PlaceAfter(seen.owner, p, TurnFor(script, p.place)));
    assert Driven(w, p, script) == Driven(left, next, script);
    if error.Some? {
      DropArrives(left, next, OwnerRefusal(error.value), false, script);
    } else {
      RevalidationArrives(left, next, rotated, script);
    }
  }

  lemma GrantArrives(w: World, p: Recovery, grant: Grant, script: Script)
    requires p.place == AtGrant(grant)
    ensures Arrives(w, p, script, Rotating(w, p.id, p.session, grant, script))
  {
    var checked := Checked(w, p.id, script.stops(3));
    CheckArrives(w, p, script.stops(3), script);
    if checked.refusal.Some? {
      DropArrives(checked.world, p.(place := AtDrop(checked.refusal.value, true)), checked.refusal.value, true, script);
    } else {
      var next := p.(place := AfterGrant(p.session, grant, script.clock(0)));
      match ExpiryOf(grant.expiresIn, script.clock(0))
      case BadExpiry => DropArrives(checked.world, next, Plain(ReconnectRequired), true, script);
      case ClockPanicked => PanicArrives(checked.world, next, script);
      case Expires(at) => PersistArrives(checked.world, next, Rotated(p.session, grant, at), script);
    }
  }

  /** The answer to the refresh request. */
  lemma RefreshArrives(w: World, p: Recovery, script: Script)
    requires p.place == AtRefresh
    ensures Arrives(w, p, script, RefreshAnswered(w, p.id, p.session, script))
  {
    var next := p.(place := AfterRefresh(script.refreshed));
    assert w.(owner := w.owner) == w;
    match script.refreshed
    case Panicked => PanicArrives(w, next, script);
    case Failure(error) =>
      if Transient(error) {
        GiveBackArrives(w, next, ApiRefusal(error), script);
      } else {
        DropArrives(w, next, ApiRefusal(error), true, script);
      }
    case Answered(grant) => GrantArrives(w.(owner := Spec.NoteRefresh(w.owner, p.id)), next, grant, script);
  }

  lemma RefreshCheckArrives(w: World, p: Recovery, script: Script)
    requires p.place == AtRefreshCheck
    ensures Arrives(w, p, script, RefreshingCurrent(w, p.id, p.session, script))
  {
    var checked := Checked(w, p.id, script.stops(2));
    CheckArrives(w, p, script.stops(2), script);
    if checked.refusal.Some? {
      GiveBackArrives(checked.world, p.(place := AtGiveBack(checked.refusal.value)), checked.refusal.value, script);
    } else {
      RefreshArrives(checked.world, p.(place := AtRefresh), script);
    }
  }

  lemma VerdictArrives(w: World, p: Recovery, script: Script)
    requires p.place == AfterVerdict(p.session, script.validated, script.clock(0))
    ensures Arrives(w, p, script, Concluding(w, p.id, p.session, script))
  {
    match script.validated
    case Panicked => PanicArrives(w, p, script);
    case Answered(identity) => IdentityArrives(w, p, ApplyIdentity(p.session, identity, script.clock(0)), script);
    case Failure(error) =>
      if error.disposition.DoReconnect? {
        RefreshCheckArrives(w, p, script);
      } else if Transient(error) {
        GiveBackArrives(w, p, ApiRefusal(error), script);
      } else {
        DropArrives(w, p, ApiRefusal(error), false, script);
      }
  }

  /** The moves of a recovery, one after the other with the others in between, are the call that
      chat delivery makes: same owner afterwards, same lease or refusal. */
  lemma MovesAreTheCall(w: World, id: nat, session: Session, script: Script)
    ensures Driven(w, Recovery(id, session, AtFirstCheck), script) == Caught(RecoveringCurrent(w, id, session, script), id, script)
  {
    var p, first := Recovery(id, session, AtFirstCheck), Checked(w, id, script.stops(0));
    CheckArrives(w, p, script.stops(0), script);
    if first.refusal.Some? {
      GiveBackArrives(first.world, p.(place := AtGiveBack(first.refusal.value)), first.refusal.value, script);
    } else {
      assert first.world.(owner := first.world.owner) == first.world;
      if script.validated.Panicked? {
        PanicArrives(first.world, p.(place := AtAbandon(Plain(Failed))), script);
      } else {
        var judged, second := p.(place := AtVerdict(script.validated)), Checked(first.world, id, script.stops(1));
        assert Driven(first.world, p.(place := AtValidation), script) == Driven(first.world, judged, script);
        CheckArrives(first.world, judged, script.stops(1), script);
        if second.refusal.Some? {
          GiveBackArrives(second.world, p.(place := AtGiveBack(second.refusal.value)), second.refusal.value, script);
        } else {
          VerdictArrives(second.world, p.(place := AfterVerdict(session, script.validated, script.clock(0))), script);
        }
      }
    }
  }
}
