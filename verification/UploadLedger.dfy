/** What the coordinator and its providers say to each other, as one log: a request was
    offered, or the active attempt was answered. The ledger replays the log of one job and
    says which events may come next; the safety properties follow from a legal log alone. */
module UploadLedger {
  import opened Outcomes
  import opened UploadJobs

  datatype Intent = Automatic | ManualRetry | Reupload | Rechat

  datatype Event =
    | Requested(job: nat, provider: Provider, attempt: nat, intent: Intent, report: Option<Report>)
    | Deferred(job: nat, provider: Provider, attempt: nat)
    | Settled(job: nat, provider: Provider, attempt: nat)
  {
    /** An answer that the coordinator accepted for an attempt. */
    predicate Answer() {
      Deferred? || Settled?
    }
  }

  /** One destination of one job: the last requested attempt, whether it is unanswered, and
      whether any attempt was ever requested or has settled. */
  datatype Channel = Channel(attempt: nat, open: bool, requested: bool, settled: bool)

  const SILENT: Channel := Channel(0, false, false, false)

  type Ledger = PerProvider<Channel>

  const EMPTY_LEDGER: Ledger := PerProvider(SILENT, SILENT, SILENT, SILENT)

  /** A request needs an answered channel and a new attempt number, and after a settled
      attempt an explicit intent; an answer needs exactly the open attempt. */
  predicate Legal(ledger: Ledger, event: Event) {
    var channel := ledger.At(event.provider);
    match event
    case Requested(_, p, attempt, intent, report) =>
      && !channel.open
      && attempt > channel.attempt
      && (channel.settled ==> !intent.Automatic?)
      && (p.Twitch? ==> report.Some?)
    case _ => channel.open && event.attempt == channel.attempt
  }

  function Feed(ledger: Ledger, event: Event): Ledger {
    var channel := ledger.At(event.provider);
    ledger.With(event.provider,
      match event
      case Requested(_, _, attempt, _, _) => Channel(attempt, true, true, channel.settled)
      case Deferred(_, _, _) => channel.(open := false)
      case Settled(_, _, _) => channel.(open := false, settled := true))
  }

  function FeedAll(ledger: Ledger, events: seq<Event>): Ledger
    decreases |events|
  {
    if events == [] then ledger else FeedAll(Feed(ledger, events[0]), events[1..])
  }

  predicate LegalAll(ledger: Ledger, events: seq<Event>)
    decreases |events|
  {
    events == [] || (Legal(ledger, events[0]) && LegalAll(Feed(ledger, events[0]), events[1..]))
  }

  lemma {:induction false} LegalAllAppend(ledger: Ledger, a: seq<Event>, b: seq<Event>)
    ensures FeedAll(ledger, a + b) == FeedAll(FeedAll(ledger, a), b)
    ensures LegalAll(ledger, a + b) <==> LegalAll(ledger, a) && LegalAll(FeedAll(ledger, a), b)
    decreases |a|
  {
    if a == [] {
      assert a + b == b;
    } else {
      assert (a + b)[0] == a[0] && (a + b)[1..] == a[1..] + b;
      LegalAllAppend(Feed(ledger, a[0]), a[1..], b);
    }
  }

  /** The ledger of one job after the whole log. */
  function LedgerOf(log: seq<Event>, job: nat): Ledger {
    if log == [] then EMPTY_LEDGER
    else
      var n := |log| - 1;
      var before := LedgerOf(log[..n], job);
      if log[n].job == job then Feed(before, log[n]) else before
  }

  ghost predicate LegalLog(log: seq<Event>) {
    forall k :: 0 <= k < |log| ==> Legal(LedgerOf(log[..k], log[k].job), log[k])
  }

  predicate About(events: seq<Event>, job: nat) {
    forall k :: 0 <= k < |events| ==> events[k].job == job
  }

  /** Appending events of one job feeds that job's ledger and leaves the others alone. */
  lemma {:induction false} AppendFeeds(log: seq<Event>, events: seq<Event>, job: nat, other: nat)
    requires About(events, job)
    ensures LedgerOf(log + events, job) == FeedAll(LedgerOf(log, job), events)
    ensures other != job ==> LedgerOf(log + events, other) == LedgerOf(log, other)
    decreases |events|
  {
    if events == [] {
      assert log + events == log;
    } else {
      var first, rest := events[0], events[1..];
      assert (log + [first])[..|log|] == log;
      AppendFeeds(log + [first], rest, job, other);
      assert log + events == (log + [first]) + rest;
    }
  }

  lemma {:induction false} AppendStaysLegal(log: seq<Event>, events: seq<Event>, job: nat)
    requires LegalLog(log) && About(events, job) && LegalAll(LedgerOf(log, job), events)
    ensures LegalLog(log + events)
    decreases |events|
  {
    if events == [] {
      assert log + events == log;
    } else {
      var first, rest := events[0], events[1..];
      var longer := log + [first];
      assert longer[..|log|] == log;
      forall k | 0 <= k < |longer| ensures Legal(LedgerOf(longer[..k], longer[k].job), longer[k]) {
        assert k < |log| ==> longer[..k] == log[..k];
      }
      AppendStaysLegal(longer, rest, job);
      assert log + events == longer + rest;
    }
  }

  lemma {:induction false} UnmentionedJobIsSilent(log: seq<Event>, job: nat)
    requires forall k :: 0 <= k < |log| ==> log[k].job != job
    ensures LedgerOf(log, job) == EMPTY_LEDGER
  {
    if log != [] {
      UnmentionedJobIsSilent(log[..|log| - 1], job);
    }
  }

  // ---------------------------------------------------------------- what a legal log rules out

  predicate SameChannel(a: Event, b: Event) {
    a.job == b.job && a.provider == b.provider
  }

  lemma PrefixLegal(log: seq<Event>, n: nat)
    requires LegalLog(log) && n <= |log|
    ensures LegalLog(log[..n])
  {
    forall k | 0 <= k < n ensures Legal(LedgerOf(log[..n][..k], log[..n][k].job), log[..n][k]) {
      assert log[..n][..k] == log[..k];
    }
  }

  /** The ledger bounds every attempt of its channel's past, strictly so for answered ones
      while an attempt is open. */
  lemma {:induction false} PastAttemptsAreBelow(log: seq<Event>, e: Event, k: nat)
    requires LegalLog(log) && k < |log| && SameChannel(log[k], e)
    ensures var channel := LedgerOf(log, e.job).At(e.provider);
            log[k].attempt <= channel.attempt && (log[k].Answer() && channel.open ==> log[k].attempt < channel.attempt)
  {
    var n := |log| - 1;
    PrefixLegal(log, n);
    LedgerAfter(log, n, e);
    assert log[..n + 1] == log;
    assert Legal(LedgerOf(log[..n], log[n].job), log[n]);
    if k < n {
      PastAttemptsAreBelow(log[..n], e, k);
    }
  }

  /** A settled attempt is never forgotten. */
  lemma {:induction false} SettlingIsRemembered(log: seq<Event>, e: Event, k: nat)
    requires k < |log| && SameChannel(log[k], e) && log[k].Settled?
    ensures LedgerOf(log, e.job).At(e.provider).settled
  {
    var n := |log| - 1;
    LedgerAfter(log, n, e);
    assert log[..n + 1] == log;
    if k < n {
      SettlingIsRemembered(log[..n], e, k);
    }
  }

  /** Replay safety: after an attempt has settled, whatever is requested again for that job
      and destination carries an explicit intent. */
  lemma SettledWorkIsNeverRepeatedAutomatically(log: seq<Event>, i: nat, j: nat)
    requires LegalLog(log) && i < j < |log| && SameChannel(log[i], log[j])
    requires log[i].Settled? && log[j].Requested?
    ensures !log[j].intent.Automatic?
  {
    SettlingIsRemembered(log[..j], log[j], i);
  }

  /** Results are applied once: no two accepted answers agree on job, destination and
      attempt, and attempts only grow. */
  lemma AnswersAreDistinct(log: seq<Event>, i: nat, j: nat)
    requires LegalLog(log) && i < j < |log| && SameChannel(log[i], log[j])
    requires log[i].Answer() && log[j].Answer()
    ensures log[i].attempt < log[j].attempt
  {
    PrefixLegal(log, j);
    PastAttemptsAreBelow(log[..j], log[j], i);
  }

  /** Between two requests of one channel the earlier attempt was answered. */
  lemma RequestsAreSeparated(log: seq<Event>, i: nat, j: nat) returns (k: nat)
    requires LegalLog(log) && i < j < |log| && SameChannel(log[i], log[j])
    requires log[i].Requested? && log[j].Requested?
    ensures log[i].attempt < log[j].attempt
    ensures i < k < j && SameChannel(log[k], log[i]) && log[k].Answer() && log[k].attempt == log[i].attempt
  {
    PrefixLegal(log, j);
    PastAttemptsAreBelow(log[..j], log[j], i);
    LedgerAfter(log, i, log[i]);
    k := FirstAnswer(log, i, i + 1, j);
  }

  /** The ledger right after position i, for the channel of log[i]. */
  lemma LedgerAfter(log: seq<Event>, i: nat, e: Event)
    requires i < |log|
    ensures var before, after := LedgerOf(log[..i], e.job).At(e.provider), LedgerOf(log[..i + 1], e.job).At(e.provider);
            after == if SameChannel(log[i], e) then Feed(LedgerOf(log[..i], e.job), log[i]).At(e.provider) else before
  {
    assert log[..i + 1][..i] == log[..i];
  }

  /** While no answer comes, the requested attempt stays open; so the first later event of the
      channel is its answer. */
  lemma FirstAnswer(log: seq<Event>, i: nat, from: nat, j: nat) returns (k: nat)
    requires LegalLog(log) && i < from <= j < |log| && SameChannel(log[i], log[j])
    requires log[j].Requested?
    requires var channel := LedgerOf(log[..from], log[i].job).At(log[i].provider);
             channel.open && channel.attempt == log[i].attempt
    ensures from <= k < j && SameChannel(log[k], log[i]) && log[k].Answer() && log[k].attempt == log[i].attempt
    decreases j - from
  {
    if SameChannel(log[from], log[i]) {
      k := from;
      assert Legal(LedgerOf(log[..from], log[from].job), log[from]);
    } else {
      LedgerAfter(log, from, log[i]);
      k := FirstAnswer(log, i, from + 1, j);
    }
  }

  /** Only a deferral lets a destination be requested again automatically. */
  lemma AutomaticRepeatsFollowDeferrals(log: seq<Event>, i: nat, j: nat) returns (k: nat)
    requires LegalLog(log) && i < j < |log| && SameChannel(log[i], log[j])
    requires log[i].Requested? && log[j].Requested? && log[j].intent.Automatic?
    ensures i < k < j && SameChannel(log[k], log[i]) && log[k].Deferred? && log[k].attempt == log[i].attempt
  {
    k := RequestsAreSeparated(log, i, j);
    if log[k].Settled? {
      SettledWorkIsNeverRepeatedAutomatically(log, k, j);
    }
  }
}
