/** The round-robin result loop of the coordinator, turn by turn: what one call to it does, why
    every run of it is a run of result applications, and why no destination starves another. */
module ResultDraining {
  import opened Outcomes
  import opened UploadJobs
  import opened UploadEntries
  import Spec = CoordinatorSpec

  datatype DrainSummary = DrainSummary(consumed: nat, rejected: nat, providerErrors: nat)

  /** What one poll of a provider port yields, with the clock and adapter answers that go with
      applying it. */
  datatype Poll =
    | Took(result: UploadResult, now: nat, accepts: Spec.Accepts)
    | Nothing
    | PortError

  type Application = (Spec.State, UploadResult, nat, Spec.Accepts) -> (Spec.State, Option<CoordinatorError>)

  /** What a call of the loop starts with: the installed ports, the cursor kept from the call
      before, the answer each turn's port would give, and how a result is applied. */
  datatype Round = Round(installed: PerProvider<bool>, cursor: nat, polls: nat -> Poll, apply: Application) {
    /** The port of turn `k`. */
    function PortOf(k: nat): Provider {
      Spec.NthProvider(cursor + k)
    }

    /** Turn `k` takes a result from its port. */
    predicate Takes(k: nat) {
      installed.At(PortOf(k)) && polls(k).Took?
    }
  }

  datatype Drain = Drain(state: Spec.State, summary: DrainSummary, empty: nat, turns: nat)

  /** One turn of the loop, at the port the cursor stands on. A result counts only if it came
      from its own destination's port. */
  function Turn(at: Drain, round: Round): Drain {
    var p := round.PortOf(at.turns);
    var next := at.(turns := at.turns + 1);
    if !round.installed.At(p) then next.(empty := at.empty + 1)
    else
      match round.polls(at.turns)
      case Took(result, now, accepts) =>
        var took := at.summary.(consumed := at.summary.consumed + 1);
        var (after, error) := round.apply(at.state, result, now, accepts);
        if result.provider == p && error.None?
        then next.(state := after, summary := took, empty := 0)
        else next.(summary := took.(rejected := took.rejected + 1), empty := 0)
      case Nothing => next.(empty := at.empty + 1)
      case PortError =>
        next.(summary := at.summary.(providerErrors := at.summary.providerErrors + 1), empty := at.empty + 1)
  }

  function Turns(s: Spec.State, n: nat, round: Round): (r: Drain)
    ensures r.turns == n
  {
    if n == 0 then Drain(s, DrainSummary(0, 0, 0), 0, 0) else Turn(Turns(s, n - 1, round), round)
  }

  predicate Over(at: Drain, budget: nat) {
    at.summary.consumed >= budget || at.empty >= 4
  }

  /** The loop's guard holds for the first `n` turns. */
  ghost predicate Goes(s: Spec.State, n: nat, round: Round, budget: nat) {
    forall k :: 0 <= k < n ==> !Over(Turns(s, k, round), budget)
  }

  /** Where the loop stands when it comes to its guard. */
  ghost predicate Reaches(s: Spec.State, at: Drain, round: Round, budget: nat) {
    at == Turns(s, at.turns, round) && Goes(s, at.turns, round, budget)
  }

  lemma ReachesNext(s: Spec.State, at: Drain, round: Round, budget: nat)
    requires Reaches(s, at, round, budget) && !Over(at, budget)
    ensures Reaches(s, Turn(at, round), round, budget)
  {
    assert Turns(s, at.turns + 1, round) == Turn(at, round);
  }

  /** `n` is the first turn count at which the loop's guard fails. */
  ghost predicate Ends(s: Spec.State, n: nat, round: Round, budget: nat) {
    Over(Turns(s, n, round), budget) && Goes(s, n, round, budget)
  }

  // ---------------------------------------------------------------- a drain is a run

  /** The accepted result application that a turn makes, if any. */
  ghost function StepOf(at: Drain, round: Round): seq<Spec.Step> {
    match round.polls(at.turns)
    case Took(result, now, accepts) =>
      var p := round.PortOf(at.turns);
      if round.installed.At(p) && result.provider == p && round.apply(at.state, result, now, accepts).1.None?
      then [Spec.ApplyingResult(result, now, accepts)]
      else []
    case _ => []
  }

  ghost function Applied(s: Spec.State, n: nat, round: Round): seq<Spec.Step> {
    if n == 0 then [] else Applied(s, n - 1, round) + StepOf(Turns(s, n - 1, round), round)
  }

  ghost predicate AllResults(steps: seq<Spec.Step>) {
    forall k :: 0 <= k < |steps| ==> steps[k].ApplyingResult?
  }

  /** The state after applying the results of `steps` one by one. */
  ghost function Applying(s: Spec.State, steps: seq<Spec.Step>, apply: Application): Spec.State
    requires AllResults(steps)
  {
    if steps == [] then s
    else
      var last := steps[|steps| - 1];
      apply(Applying(s, steps[..|steps| - 1], apply), last.result, last.now, last.accepts).0
  }

  ghost predicate Follows(at: Drain, s: Spec.State, steps: seq<Spec.Step>, round: Round) {
    AllResults(steps) && at.state == Applying(s, steps, round.apply) && |steps| + at.summary.rejected == at.summary.consumed
  }

  lemma TurnFollows(at: Drain, round: Round, s: Spec.State, steps: seq<Spec.Step>)
    requires Follows(at, s, steps, round)
    ensures Follows(Turn(at, round), s, steps + StepOf(at, round), round)
  {
    var step := StepOf(at, round);
    if step == [] {
      assert steps + step == steps;
    } else {
      assert (steps + step)[..|steps + step| - 1] == steps;
    }
  }

  lemma {:induction false} TurnsFollow(s: Spec.State, n: nat, round: Round)
    ensures Follows(Turns(s, n, round), s, Applied(s, n, round), round)
  {
    if n > 0 {
      var at, steps := Turns(s, n - 1, round), Applied(s, n - 1, round);
      TurnsFollow(s, n - 1, round);
      TurnFollows(at, round, s, steps);
      assert Turns(s, n, round) == Turn(at, round) && Applied(s, n, round) == steps + StepOf(at, round);
    }
  }

  lemma {:induction false} ApplyingIsARun(s: Spec.State, steps: seq<Spec.Step>)
    requires AllResults(steps)
    ensures Applying(s, steps, Spec.ApplyResult) == Spec.After(s, steps)
  {
    if steps != [] {
      ApplyingIsARun(s, steps[..|steps| - 1]);
    }
  }

  /** Whatever the ports say, draining is a run of accepted result applications; every other
      result taken is counted as rejected and changes nothing. The invariant of the upload
      history therefore survives it. */
  lemma DrainIsARun(s: Spec.State, n: nat, round: Round)
    requires round.apply == Spec.ApplyResult
    ensures var steps := Applied(s, n, round);
            var d := Turns(s, n, round);
            AllResults(steps) && d.state == Spec.After(s, steps) && |steps| + d.summary.rejected == d.summary.consumed
    ensures Spec.Inv(s) ==> Spec.Inv(Turns(s, n, round).state)
  {
    TurnsFollow(s, n, round);
    ApplyingIsARun(s, Applied(s, n, round));
    if Spec.Inv(s) {
      Spec.RunKeepsInv(s, Applied(s, n, round));
    }
  }

  // ---------------------------------------------------------------- the loop ends

  lemma {:induction false} TurnsPerResult(s: Spec.State, n: nat, round: Round, budget: nat)
    requires forall k :: 0 <= k < n ==> !Over(Turns(s, k, round), budget)
    ensures var d := Turns(s, n, round); n <= 4 * d.summary.consumed + d.empty
  {
    if n > 0 {
      TurnsPerResult(s, n - 1, round, budget);
      assert !Over(Turns(s, n - 1, round), budget);
    }
  }

  /** Fewer than four empty turns lie between two results, so the loop makes at most
      4 * budget + 4 turns, and it never exceeds its budget. */
  lemma DrainIsBounded(s: Spec.State, n: nat, round: Round, budget: nat)
    requires Ends(s, n, round, budget)
    ensures n <= 4 * budget + 4
    ensures Turns(s, n, round).summary.consumed <= budget
  {
    if n > 0 {
      TurnsPerResult(s, n - 1, round, budget);
      assert !Over(Turns(s, n - 1, round), budget);
    }
  }

  // ---------------------------------------------------------------- nothing ready is left behind

  lemma {:induction false} EmptyTurnsTookNothing(s: Spec.State, n: nat, round: Round)
    ensures Turns(s, n, round).empty <= n
    ensures forall k :: n - Turns(s, n, round).empty <= k < n ==> !round.Takes(k)
  {
    if n > 0 {
      EmptyTurnsTookNothing(s, n - 1, round);
    }
  }

  /** Any four consecutive turns stand at each destination once. */
  lemma TurnAt(round: Round, from: nat, p: Provider) returns (k: nat)
    ensures from <= k < from + 4 && round.PortOf(k) == p
  {
    var place := match p case DpsReport => 0 case Wingman => 1 case DonBot => 2 case Twitch => 3;
    k := from + (place + 4 - (round.cursor + from) % 4) % 4;
    assert (round.cursor + k) % 4 == place;
  }

  /** A drain that stops before its budget has just asked every destination, and none had a
      result to give: no port is passed over. */
  lemma UnspentBudgetMeansNothingReady(s: Spec.State, n: nat, round: Round, budget: nat, p: Provider) returns (k: nat)
    requires Ends(s, n, round, budget) && Turns(s, n, round).summary.consumed < budget
    ensures n - 4 <= k < n && round.PortOf(k) == p && !round.Takes(k)
  {
    EmptyTurnsTookNothing(s, n, round);
    k := TurnAt(round, n - 4, p);
  }

  // ---------------------------------------------------------------- fair shares

  /** How many of the first `n` turns stand at destination `p`. */
  ghost function Asked(round: Round, n: nat, p: Provider): nat {
    if n == 0 then 0 else Asked(round, n - 1, p) + if round.PortOf(n - 1) == p then 1 else 0
  }

  /** How many results the first `n` turns took from destination `p`. */
  ghost function TakenFrom(round: Round, n: nat, p: Provider): nat {
    if n == 0 then 0 else TakenFrom(round, n - 1, p) + if round.PortOf(n - 1) == p && round.Takes(n - 1) then 1 else 0
  }

  lemma OneRound(round: Round, n: nat, p: Provider)
    ensures Asked(round, n + 4, p) == Asked(round, n, p) + 1
  {
    assert Asked(round, n + 4, p) == Asked(round, n + 2, p)
      + (if round.PortOf(n + 2) == p then 1 else 0) + (if round.PortOf(n + 3) == p then 1 else 0);
    assert Asked(round, n + 2, p) == Asked(round, n, p)
      + (if round.PortOf(n) == p then 1 else 0) + (if round.PortOf(n + 1) == p then 1 else 0);
  }

  lemma {:induction false} AskedGrows(round: Round, m: nat, n: nat, p: Provider)
    requires m <= n
    ensures Asked(round, m, p) <= Asked(round, n, p)
  {
    if m < n {
      AskedGrows(round, m, n - 1, p);
    }
  }

  lemma {:induction false} TurnsAreShared(round: Round, n: nat, p: Provider)
    ensures n / 4 <= Asked(round, n, p) <= (n + 3) / 4
  {
    if n >= 4 {
      TurnsAreShared(round, n - 4, p);
      OneRound(round, n - 4, p);
    } else if n > 0 {
      OneRound(round, 0, p);
      AskedGrows(round, n, 4, p);
    }
  }

  lemma {:induction false} ConsumedWithinTurns(s: Spec.State, n: nat, round: Round)
    ensures Turns(s, n, round).summary.consumed <= n
  {
    if n > 0 {
      ConsumedWithinTurns(s, n - 1, round);
    }
  }

  lemma {:induction false} TakenWhenAsked(round: Round, n: nat, p: Provider)
    ensures TakenFrom(round, n, p) <= Asked(round, n, p)
    ensures (forall k: nat :: k < n && round.PortOf(k) == p ==> round.Takes(k)) ==> TakenFrom(round, n, p) == Asked(round, n, p)
  {
    if n > 0 {
      TakenWhenAsked(round, n - 1, p);
    }
  }

  /** No destination starves another: one that always has a result ready gets at least a
      quarter, rounded down, of everything consumed, however busy the other three are, and
      no other destination gets more than one result above it. */
  lemma ReadyDestinationGetsItsShare(s: Spec.State, n: nat, round: Round, p: Provider, q: Provider)
    requires forall k: nat :: k < n && round.PortOf(k) == p ==> round.Takes(k)
    ensures TakenFrom(round, n, p) >= Turns(s, n, round).summary.consumed / 4
    ensures TakenFrom(round, n, q) <= TakenFrom(round, n, p) + 1
  {
    TakenWhenAsked(round, n, p);
    TakenWhenAsked(round, n, q);
    TurnsAreShared(round, n, p);
    TurnsAreShared(round, n, q);
    ConsumedWithinTurns(s, n, round);
  }
}
