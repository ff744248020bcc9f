/** Whose tokens a recovered session carries. However the parties interleave, what a chat recovery
    stores before it revalidates is the pair that Twitch granted, and what it publishes is that pair,
    or the one it borrowed, with the identity that Twitch confirmed. */
module RecoveredSessions {
  import opened Outcomes
  import opened Times
  import opened ByteStrings
  import opened TwitchSession
  import opened TwitchPorts
  import opened Spec = SessionOwnerSpec
  import opened SessionRecovery
  import opened SessionParties

  // ---------------------------------------------------------------- what a recovery has heard

  /** The answers that one recovery received, and the clock's readings when it took them in. */
  datatype Heard = Heard(validated: Option<Identity>, first: Option<int>, granted: Option<Grant>,
                         revalidated: Option<Identity>, second: Option<int>)

  const NOTHING: Heard := Heard(None, None, None, None, None)

  /** What it has heard after a move from this place. */
  function Hears(place: Place, t: Turn, h: Heard): Heard {
    match place
    case AtValidation => if t.identity.Answered? then h.(validated := Some(t.identity.value)) else h
    case AtVerdict(_) => h.(first := t.clock)
    case AtRefresh => if t.grant.Answered? then h.(granted := Some(t.grant.value)) else h
    case AtGrant(_) => h.(first := t.clock)
    case AtRevalidation(_) => if t.identity.Answered? then h.(revalidated := Some(t.identity.value)) else h
    case AtFinalVerdict(_, _) => h.(second := t.clock)
    case _ => h
  }

  /** What the k-th recovery has heard by the end of a run. */
  function HeardIn(s: System, moves: seq<Move>, k: nat, h: Heard): Heard
    requires Runs(s, moves)
    decreases |moves|
  {
    if moves == [] then h
    else
      var more := if moves[0].Advancing? && moves[0].k == k then Hears(s.recoveries[k].place, moves[0].turn, h) else h;
      HeardIn(Next(s, moves[0]), moves[1..], k, more)
  }

  /** The pair just granted, for the user of the session borrowed, until the grant runs out. */
  predicate IsGranted(lent: Session, grant: Grant, reading: int, rotated: Session) {
    && rotated.access == grant.access && rotated.refresh == grant.refresh && rotated.scopes == grant.scopes
    && rotated.expiresAt == reading + grant.expiresIn
    && rotated.userId == lent.userId && rotated.login == lent.login
  }

  /** This pair, with the confirmed identity of the same user, until that runs out. */
  predicate IsConfirmed(access: Bytes, refresh: Bytes, userId: Bytes, identity: Identity, reading: int, session: Session) {
    && session.access == access && session.refresh == refresh
    && session.userId == userId == identity.userId && session.login == identity.login && session.scopes == identity.scopes
    && session.expiresAt == reading + identity.expiresIn
  }

  /** The session renewed from what was heard: the granted pair if there was a grant, and otherwise
      the one that was borrowed. */
  predicate IsRenewed(lent: Session, h: Heard, session: Session) {
    if h.granted.Some?
    then h.revalidated.Some? && h.second.Some?
         && IsConfirmed(h.granted.value.access, h.granted.value.refresh, lent.userId, h.revalidated.value, h.second.value, session)
    else h.validated.Some? && h.first.Some?
         && IsConfirmed(lent.access, lent.refresh, lent.userId, h.validated.value, h.first.value, session)
  }

  predicate CarriesGrant(lent: Session, h: Heard, rotated: Session) {
    h.granted.Some? && h.first.Some? && IsGranted(lent, h.granted.value, h.first.value, rotated)
  }

  /** What a recovery carries at its place is what it has heard. */
  predicate Informed(p: Recovery, h: Heard) {
    match p.place
    case AtFirstCheck => h.granted.None?
    case AtValidation => h.granted.None?
    case AtVerdict(answer) => h.granted.None? && (answer.Answered? ==> h.validated == Some(answer.value))
    case AtRefreshCheck => h.granted.None?
    case AtRefresh => h.granted.None?
    case AtGrant(grant) => h.granted == Some(grant)
    case AtPersist(rotated) => CarriesGrant(p.session, h, rotated)
    case AtRotationCheck(rotated) => CarriesGrant(p.session, h, rotated)
    case AtRevalidation(rotated) => CarriesGrant(p.session, h, rotated)
    case AtFinalVerdict(rotated, answer) =>
      CarriesGrant(p.session, h, rotated) && (answer.Answered? ==> h.revalidated == Some(answer.value))
    case AtCommit(session) => IsRenewed(p.session, h, session)
    case _ => true
  }

  lemma MoveKeepsInformed(o: Spec.Owner, p: Recovery, t: Turn, h: Heard)
    requires Informed(p, h) && !p.place.Ended?
    ensures Informed(p.(place := PlaceAfter(o, p, t)), Hears(p.place, t, h))
  {
  }

  // ---------------------------------------------------------------- what is in the store meanwhile

  /** From the write on until the verdict, the store holds what the recovery carries. */
  ghost predicate Saved(o: Spec.Owner, p: Recovery) {
    match p.place
    case AtRotationCheck(rotated) => o.stopping || Stored(o.store, rotated)
    case AtRevalidation(rotated) => o.stopping || Stored(o.store, rotated)
    case AtFinalVerdict(rotated, _) => o.stopping || Stored(o.store, rotated)
    case _ => true
  }

  lemma MoveKeepsSaved(o: Spec.Owner, p: Recovery, t: Turn)
    requires Valid(o) && InPlace(o, p) && Saved(o, p) && !p.place.Ended?
    ensures Saved(Stepped(o, StepOf(p, t)), p.(place := PlaceAfter(o, p, t)))
  {
  }

  lemma OthersKeepSaved(o: Spec.Owner, step: Step, p: Recovery)
    requires Valid(o) && Foreign(step, p.id) && InPlace(o, p) && Saved(o, p)
    ensures Saved(Apply(o, step), p)
  {
    ForeignStepUndisturbed(o, step, p.id);
  }

  /** The k-th recovery, once it is there, carries what it has heard, and the store holds it. */
  ghost predicate Follows(s: System, k: nat, h: Heard) {
    if k < |s.recoveries| then Informed(s.recoveries[k], h) && Saved(s.owner, s.recoveries[k]) else h == NOTHING
  }

  lemma MoveFollows(s: System, move: Move, k: nat, h: Heard)
    requires Agreed(s) && Enabled(s, move) && Follows(s, k, h)
    ensures Follows(Next(s, move), k, if move.Advancing? && move.k == k then Hears(s.recoveries[k].place, move.turn, h) else h)
  {
    if k < |s.recoveries| {
      var p := s.recoveries[k];
      if move.Advancing? && move.k == k {
        MoveKeepsInformed(s.owner, p, move.turn, h);
        MoveKeepsSaved(s.owner, p, move.turn);
      } else if StepIn(s, move).Some? {
        NamingIsSpeaking(StepIn(s, move).value, p.id);
        OthersKeepSaved(s.owner, StepIn(s, move).value, p);
      }
    }
  }

  lemma {:induction false} RunFollows(s: System, moves: seq<Move>, k: nat, h: Heard)
    requires Agreed(s) && Runs(s, moves) && Follows(s, k, h)
    ensures Follows(After(s, moves), k, HeardIn(s, moves, k, h))
    decreases |moves|
  {
    if moves != [] {
      MoveKeepsAgreed(s, moves[0]);
      MoveFollows(s, moves[0], k, h);
      var more := if moves[0].Advancing? && moves[0].k == k then Hears(s.recoveries[k].place, moves[0].turn, h) else h;
      RunFollows(Next(s, moves[0]), moves[1..], k, more);
    }
  }

  /** In every interleaving of any parties: a recovery that goes out to revalidate carries exactly the
      pair it was granted, and that is what the store holds, unless the owner was shut down. */
  lemma GrantedPairIsStored(store: Option<Bytes>, moves: seq<Move>, k: nat)
    requires Runs(Opening(store), moves) && k < |After(Opening(store), moves).recoveries|
    requires After(Opening(store), moves).recoveries[k].place.AtRevalidation?
    ensures var s := After(Opening(store), moves);
            var p, h := s.recoveries[k], HeardIn(Opening(store), moves, k, NOTHING);
            && h.granted.Some? && h.first.Some? && IsGranted(p.session, h.granted.value, h.first.value, p.place.rotated)
            && (s.owner.stopping || Stored(s.owner.store, p.place.rotated))
  {
    RunFollows(Opening(store), moves, k, NOTHING);
  }

  /** A commit publishes and stores the session under the next revision, or changes nothing. */
  ghost predicate Publishes(o: Spec.Owner, after: Spec.Owner, id: nat, session: Session, answer: StorageAnswer) {
    if o.stopping || !answer.Done? then after.active.None? && after.log == o.log
    else after.active == Some(session) && Stored(after.store, session) && after.revision == o.revision + 1
         && after.log == o.log + [Committed(id, after.revision, session)]
  }

  lemma CommitPublishes(o: Spec.Owner, p: Recovery, turn: Turn)
    requires Valid(o) && InPlace(o, p) && p.place.AtCommit?
    ensures Publishes(o, Stepped(o, StepOf(p, turn)), p.id, p.place.session, turn.storage)
  {
    CommitOutcome(o, p.id, p.place.session, turn.storage);
  }

  /** And a recovery that commits publishes and stores a session with exactly the pair it was granted,
      or the one it borrowed if Twitch did not reject that, and with the identity confirmed last. */
  lemma RenewedSessionIsCommitted(store: Option<Bytes>, moves: seq<Move>, k: nat, turn: Turn)
    requires Runs(Opening(store), moves) && k < |After(Opening(store), moves).recoveries|
    requires After(Opening(store), moves).recoveries[k].place.AtCommit?
    ensures var s := After(Opening(store), moves);
            var p, t := s.recoveries[k], Next(s, Advancing(k, turn));
            && IsRenewed(p.session, HeardIn(Opening(store), moves, k, NOTHING), p.place.session)
            && Publishes(s.owner, t.owner, p.id, p.place.session, turn.storage)
  {
    RunFollows(Opening(store), moves, k, NOTHING);
    RunKeepsAgreed(Opening(store), moves);
    var s := After(Opening(store), moves);
    assert InPlace(s.owner, s.recoveries[k]);
    CommitPublishes(s.owner, s.recoveries[k], turn);
  }

  // ---------------------------------------------------------------- one call

  /** The session that a call renews from the answers of its script. */
  predicate Renews(lent: Session, script: Script, session: Session) {
    match script.validated
    case Panicked => false
    case Answered(identity) =>
      script.clock(0).Some? && IsConfirmed(lent.access, lent.refresh, lent.userId, identity, script.clock(0).value, session)
    case Failure(_) =>
      && script.refreshed.Answered? && script.revalidated.Answered? && script.clock(1).Some?
      && IsConfirmed(script.refreshed.value.access, script.refreshed.value.refresh, lent.userId,
                     script.revalidated.value, script.clock(1).value, session)
  }

  /** What was heard is what the script says, and a refresh is asked for only of a rejected token. */
  predicate Matches(h: Heard, script: Script, place: Place) {
    && (h.validated.Some? ==> script.validated == Answered(h.validated.value))
    && (h.granted.Some? ==> script.validated.Failure? && script.refreshed == Answered(h.granted.value))
    && (h.revalidated.Some? ==> script.revalidated == Answered(h.revalidated.value))
    && (h.granted.None? && h.first.Some? ==> script.clock(0) == h.first)
    && (h.second.Some? ==> script.clock(1) == h.second)
    && (place.AtVerdict? ==> place.answer == script.validated)
    && (place.AtRefreshCheck? || place.AtRefresh? || place.AtGrant? ==> script.validated.Failure?)
  }

  /** What the transaction committed is what the call was to renew, and so is a lease of that generation. */
  ghost predicate CommitsOnly(log: seq<Event>, id: nat, lent: Session, script: Script, outcome: Outcome) {
    forall e :: e in log && e.Committed? && e.id == id ==>
      Renews(lent, script, e.session)
      && (outcome.Leased? && outcome.lease.revision == e.revision ==> outcome.lease == Lease(e.session.access, lent.userId, e.revision))
  }

  /** The transaction has committed nothing yet, or just now and the session is still the one published. */
  ghost predicate HasCommitted(o: Spec.Owner, p: Recovery, script: Script) {
    forall e :: e in o.log && e.Committed? && e.id == p.id ==>
      && p.place.AtLease? && Renews(p.session, script, e.session) && e.revision <= o.revision
      && (o.revision == e.revision ==> o.published == Some(e.session))
  }

  lemma ForeignCommits(o: Spec.Owner, step: Step, id: nat)
    requires Foreign(step, id)
    ensures forall e :: e in Apply(o, step).log && e.Committed? && e.id == id ==> e in o.log
  {
  }

  lemma {:induction false} OthersCommit(o: Spec.Owner, steps: seq<Step>, id: nat)
    ensures forall e :: e in Others(o, steps, id).log && e.Committed? && e.id == id ==> e in o.log
  {
    if steps != [] {
      OthersCommit(o, steps[..|steps| - 1], id);
      var before, step := Others(o, steps[..|steps| - 1], id), steps[|steps| - 1];
      if Foreign(step, id) {
        ForeignCommits(before, step, id);
      }
    }
  }

  lemma WaitKeepsCommitted(w: World, p: Recovery, script: Script)
    requires InPlace(w.owner, p) && Valid(w.owner) && HasCommitted(w.owner, p, script)
    ensures var seen := Yielded(w, p.id);
            Valid(seen.owner) && InPlace(seen.owner, p) && HasCommitted(seen.owner, p, script)
  {
    OthersCommit(w.owner, w.others(w.turn), p.id);
    OthersUndisturbed(w.owner, w.others(w.turn), p.id);
  }

  lemma MoveKeepsMatching(o: Spec.Owner, p: Recovery, script: Script, h: Heard)
    requires !p.place.Ended? && Informed(p, h) && Matches(h, script, p.place)
    ensures var t := TurnFor(script, p.place);
            Matches(Hears(p.place, t, h), script, PlaceAfter(o, p, t))
  {
  }

  lemma RenewedRenews(lent: Session, h: Heard, script: Script, session: Session, place: Place)
    requires IsRenewed(lent, h, session) && Matches(h, script, place)
    ensures Renews(lent, script, session)
  {
  }

  /** Only a commit logs one. */
  lemma OtherMovesCommitNothing(o: Spec.Owner, p: Recovery, t: Turn)
    requires !p.place.AtCommit?
    ensures forall e :: e in Stepped(o, StepOf(p, t)).log && e.Committed? ==> e in o.log
  {
  }

  lemma CommitKeepsCommitted(o: Spec.Owner, p: Recovery, script: Script)
    requires Valid(o) && InPlace(o, p) && p.place.AtCommit? && Renews(p.session, script, p.place.session)
    requires HasCommitted(o, p, script)
    ensures var t := TurnFor(script, p.place);
            HasCommitted(Stepped(o, StepOf(p, t)), p.(place := PlaceAfter(o, p, t)), script)
  {
  }

  lemma MoveKeepsCommitted(o: Spec.Owner, p: Recovery, script: Script, h: Heard)
    requires Valid(o) && InPlace(o, p) && !p.place.Ended? && Informed(p, h) && Matches(h, script, p.place)
    requires HasCommitted(o, p, script) && !p.place.AtLease?
    ensures var t := TurnFor(script, p.place);
            HasCommitted(Stepped(o, StepOf(p, t)), p.(place := PlaceAfter(o, p, t)), script)
  {
    if p.place.AtCommit? {
      RenewedRenews(p.session, h, script, p.place.session, p.place);
      CommitKeepsCommitted(o, p, script);
    } else {
      OtherMovesCommitNothing(o, p, TurnFor(script, p.place));
    }
  }

  /** What one move of a call keeps. */
  lemma MoveKeepsAll(o: Spec.Owner, p: Recovery, script: Script, h: Heard)
    requires Valid(o) && InPlace(o, p) && !p.place.Ended? && Informed(p, h) && Matches(h, script, p.place)
    requires HasCommitted(o, p, script) && !p.place.AtLease?
    ensures var t := TurnFor(script, p.place);
            var after, next, more := Stepped(o, StepOf(p, t)), p.(place := PlaceAfter(o, p, t)), Hears(p.place, t, h);
            && Valid(after) && InPlace(after, next) && Informed(next, more) && Matches(more, script, next.place)
            && HasCommitted(after, next, script) && Distance(next.place) < Distance(p.place)
  {
    var t := TurnFor(script, p.place);
    AdvancingIsPermitted(o, p, t);
    if StepOf(p, t).Some? {
      StepKeepsValid(o, StepOf(p, t).value);
    }
    AdvancingKeepsPlace(o, p, t);
    AdvancingLowersDistance(o, p, t);
    MoveKeepsInformed(o, p, t, h);
    MoveKeepsMatching(o, p, script, h);
    MoveKeepsCommitted(o, p, script, h);
  }

  lemma {:induction false} DrivenCommits(w: World, p: Recovery, script: Script, h: Heard)
    requires Valid(w.owner) && InPlace(w.owner, p) && !p.place.Ended? && Informed(p, h) && Matches(h, script, p.place)
    requires HasCommitted(w.owner, p, script)
    ensures var r := Driven(w, p, script);
            CommitsOnly(r.world.owner.log, p.id, p.session, script, r.outcome)
    decreases Distance(p.place)
  {
    var t := TurnFor(script, p.place);
    var seen := if Locks(p.place, t.stop) then Yielded(w, p.id) else w;
    WaitKeepsCommitted(w, p, script);
    var next := p.(place := PlaceAfter(seen.owner, p, t));
    var left := seen.(owner := Stepped(seen.owner, StepOf(p, t)));
    assert Driven(w, p, script) == Driven(left, next, script) by {
      AdvancingLowersDistance(seen.owner, p, t);
    }
    if p.place.AtLease? {
      LeaseCarriesCommitted(seen.owner, p, script);
    } else {
      MoveKeepsAll(seen.owner, p, script, h);
      if !next.place.Ended? {
        DrivenCommits(left, next, script, Hears(p.place, t, h));
      }
    }
  }

  lemma LeaseCarriesCommitted(o: Spec.Owner, p: Recovery, script: Script)
    requires Valid(o) && p.place.AtLease? && HasCommitted(o, p, script)
    ensures CommitsOnly(o.log, p.id, p.session, script, LeaseAt(o, script.stops(6)))
  {
  }

  /** One recovery, others doing what they like in between: whatever it commits is the session renewed
      from the answers it was given, and a lease of that generation carries its access token. */
  lemma RecoveryCommitsRenewal(w: World, rejected: Lease, script: Script, stop: bool)
    requires Valid(w.owner) && Borrows(w.owner, rejected, stop)
    ensures var r := Recovering(w, rejected, script, stop);
            CommitsOnly(r.world.owner.log, w.owner.nextTransaction, w.owner.active.value, script, r.outcome)
  {
    var id, session := w.owner.nextTransaction, w.owner.active.value;
    var begun := w.(owner := Lend(w.owner));
    OpeningKeepsValid(w.owner, StartingRecovery(rejected));
    MovesAreTheCall(begun, id, session, script);
    DrivenCommits(begun, Recovery(id, session, AtFirstCheck), script, NOTHING);
  }

  // ---------------------------------------------------------------- a recovery left alone

  /** The identity is the user's, lasts a while and at most a week, and the clock can be read. */
  predicate Confirms(identity: Identity, userId: Bytes, clock: Option<int>) {
    && identity.userId == userId && 0 < identity.expiresIn <= 7 * DAY
    && clock.Some? && clock.value + identity.expiresIn <= TIME_LIMIT
  }

  /** Twitch confirms the token that was borrowed, or rejects it, grants a refresh and confirms that. */
  predicate Succeeds(lent: Session, script: Script) {
    if script.validated.Answered? then Confirms(script.validated.value, lent.userId, script.clock(0))
    else
      && script.validated.Failure? && script.validated.error.disposition.DoReconnect? && script.persisted.Done?
      && script.refreshed.Answered? && 0 < script.refreshed.value.expiresIn <= 7 * DAY
      && script.clock(0).Some? && script.clock(0).value + script.refreshed.value.expiresIn <= TIME_LIMIT
      && script.revalidated.Answered? && Confirms(script.revalidated.value, lent.userId, script.clock(1))
  }

  /** What is to be stored on the way can be. */
  ghost predicate Storable(lent: Session, script: Script) {
    && (forall session :: Renews(lent, script, session) ==> Encoded(session).Ok?)
    && (script.validated.Failure? && script.refreshed.Answered? && script.clock(0).Some? ==>
          forall rotated :: IsGranted(lent, script.refreshed.value, script.clock(0).value, rotated) ==> Encoded(rotated).Ok?)
  }

  lemma SuccessIsPlanned(lent: Session, script: Script)
    requires Succeeds(lent, script) && Storable(lent, script) && forall n :: !script.stops(n)
    ensures PlannedEnding(lent, script).Replace? && Renews(lent, script, PlannedEnding(lent, script).session)
  {
    if script.validated.Answered? {
      var identity := script.validated.value;
      assert Renews(lent, script, lent.(expiresAt := script.clock(0).value + identity.expiresIn, login := identity.login, scopes := identity.scopes));
    } else {
      var grant, identity := script.refreshed.value, script.revalidated.value;
      var rotated := Session(grant.access, grant.refresh, script.clock(0).value + grant.expiresIn, lent.userId, lent.login, grant.scopes);
      assert IsGranted(lent, grant, script.clock(0).value, rotated);
      assert Renews(lent, script, rotated.(expiresAt := script.clock(1).value + identity.expiresIn, login := identity.login, scopes := identity.scopes));
    }
  }

  /** Left alone, a recovery that Twitch and the store let succeed ends with the renewed session active,
      stored and of the next revision, and leases its access token. */
  lemma RecoveryRenews(w: World, rejected: Lease, script: Script) returns (session: Session)
    requires Alone(w) && Borrows(w.owner, rejected, false) && script.committed.Done? && forall n :: !script.stops(n)
    requires Succeeds(w.owner.active.value, script) && Storable(w.owner.active.value, script)
    ensures Renews(w.owner.active.value, script, session)
    ensures var r := Recovering(w, rejected, script, false);
            && r.outcome == Leased(Lease(session.access, session.userId, w.owner.revision + 1))
            && r.world.owner.active == Some(session) && Stored(r.world.owner.store, session)
  {
    session := PlannedEnding(w.owner.active.value, script).session;
    SuccessIsPlanned(w.owner.active.value, script);
    UndisturbedRecoveryRenews(w, rejected, script);
  }
}
