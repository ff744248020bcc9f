/** Discovery of finished logs: a file is accepted once it looked the same several times in a
    row, and is not accepted again while it is remembered. */
module LogDiscovery {
  import opened Outcomes
  import opened LogFiles

  datatype DiscoveryError = InvalidConfiguration | InvalidCandidate | ResourceLimit

  const MAX_LIMIT: nat := 10_000

  datatype Sighting = Sighting(file: LogFile, count: nat)

  /** What happened: a candidate was looked at; one was accepted, after so many matches (none if
      it was seeded); one was released. */
  datatype Event = Seen(file: LogFile) | Accepted(file: LogFile, matches: nat) | Released(file: LogFile)

  // ---------------------------------------------------------------- what histories say

  /** The looks at one path, in order. */
  function Looks(history: seq<Event>, path: Path): seq<LogFile> {
    if history == [] then []
    else
      var before, last := Looks(history[..|history| - 1], path), history[|history| - 1];
      if last.Seen? && last.file.path == path then before + [last.file] else before
  }

  /** The last n looks at the file's path all showed this very file. */
  ghost predicate Confirmed(history: seq<Event>, file: LogFile, n: nat) {
    var looks := Looks(history, file.path);
    n <= |looks| && forall k :: |looks| - n <= k < |looks| ==> Key(looks[k]) == Key(file)
  }

  /** How many others were accepted since the identity was, unless it was released since. */
  function OthersSince(history: seq<Event>, key: LogFile): Option<nat> {
    if history == [] then None
    else
      var before, last := OthersSince(history[..|history| - 1], key), history[|history| - 1];
      match last
      case Seen(_) => before
      case Released(file) => if Key(file) == key then None else before
      case Accepted(file, _) =>
        if Key(file) == key then Some(0) else if before.Some? then Some(before.value + 1) else None
  }

  ghost predicate MayAccept(history: seq<Event>, key: LogFile, limit: nat) {
    OthersSince(history, key).None? || OthersSince(history, key).value >= limit
  }

  /** Every acceptance was confirmed or seeded, and none came too early after the last one. */
  ghost predicate Sound(history: seq<Event>, limit: nat) {
    forall j :: 0 <= j < |history| && history[j].Accepted? ==>
      Confirmed(history[..j], history[j].file, history[j].matches) && MayAccept(history[..j], Key(history[j].file), limit)
  }

  lemma OneMore(history: seq<Event>, event: Event, path: Path, key: LogFile)
    ensures Looks(history + [event], path)
         == if event.Seen? && event.file.path == path then Looks(history, path) + [event.file] else Looks(history, path)
    ensures OthersSince(history + [event], key) ==
              match event
              case Seen(_) => OthersSince(history, key)
              case Released(file) => if Key(file) == key then None else OthersSince(history, key)
              case Accepted(file, _) =>
                if Key(file) == key then Some(0)
                else if OthersSince(history, key).Some? then Some(OthersSince(history, key).value + 1) else None
  {
    assert (history + [event])[..|history|] == history;
  }

  lemma SoundOneMore(history: seq<Event>, event: Event, limit: nat)
    requires Sound(history, limit)
    requires event.Accepted? ==> Confirmed(history, event.file, event.matches) && MayAccept(history, Key(event.file), limit)
    ensures Sound(history + [event], limit)
  {
    var longer := history + [event];
    forall j | 0 <= j < |longer| && longer[j].Accepted?
      ensures Confirmed(longer[..j], longer[j].file, longer[j].matches) && MayAccept(longer[..j], Key(longer[j].file), limit)
    {
      assert longer[..j] == history[..j];
      assert j == |history| ==> history[..j] == history;
    }
  }

  function AcceptedBetween(history: seq<Event>, i: nat, j: nat): nat
    requires i <= j <= |history|
  {
    if i == j then 0 else AcceptedBetween(history, i, j - 1) + (if history[j - 1].Accepted? then 1 else 0)
  }

  lemma {:induction false} OthersSinceCounts(history: seq<Event>, i: nat, j: nat)
    requires i < j <= |history| && history[i].Accepted?
    requires forall k :: i < k < j && history[k].Released? ==> Key(history[k].file) != Key(history[i].file)
    ensures OthersSince(history[..j], Key(history[i].file)).Some?
            && OthersSince(history[..j], Key(history[i].file)).value <= AcceptedBetween(history, i + 1, j)
  {
    assert history[..j][..j - 1] == history[..j - 1];
    if i + 1 < j {
      OthersSinceCounts(history, i, j - 1);
    }
  }

  /** Between two acceptances of one identity it was released, or at least as many files were
      accepted as the history remembers. */
  lemma AcceptancesAreSpaced(history: seq<Event>, limit: nat, i: nat, j: nat)
    requires Sound(history, limit) && i < j < |history|
    requires history[i].Accepted? && history[j].Accepted? && Key(history[i].file) == Key(history[j].file)
    ensures (exists k :: i < k < j && history[k].Released? && Key(history[k].file) == Key(history[i].file))
            || AcceptedBetween(history, i + 1, j) >= limit
  {
    if forall k :: i < k < j && history[k].Released? ==> Key(history[k].file) != Key(history[i].file) {
      OthersSinceCounts(history, i, j);
    }
  }

  // ---------------------------------------------------------------- the queue and the sightings

  predicate Candidate(file: LogFile) {
    !EmptyPath(file.path) && IsZevtcCandidate(file.path)
  }

  ghost predicate SameKeys(accepted: seq<LogFile>, known: set<LogFile>) {
    && (forall j :: 0 <= j < |accepted| ==> Key(accepted[j]) in known)
    && (forall key :: key in known ==> exists j :: 0 <= j < |accepted| && Key(accepted[j]) == key)
  }

  ghost predicate Distinct(accepted: seq<LogFile>) {
    forall i, j :: 0 <= i < j < |accepted| ==> Key(accepted[i]) != Key(accepted[j])
  }

  /** Whatever is behind an entry of the queue was accepted after it. */
  ghost predicate Spread(accepted: seq<LogFile>, history: seq<Event>, behind: nat) {
    forall j :: 0 <= j < |accepted| ==>
      var since := OthersSince(history, Key(accepted[j])); since.Some? && since.value >= behind + |accepted| - 1 - j
  }

  ghost predicate Forgotten(known: set<LogFile>, history: seq<Event>, limit: nat) {
    forall key :: key !in known ==> MayAccept(history, key, limit)
  }

  ghost predicate Remembering(accepted: seq<LogFile>, known: set<LogFile>, history: seq<Event>, limit: nat) {
    |accepted| <= limit && SameKeys(accepted, known) && Distinct(accepted) && Spread(accepted, history, 0) && Forgotten(known, history, limit)
  }

  lemma PushKeys(accepted: seq<LogFile>, known: set<LogFile>, file: LogFile)
    requires SameKeys(accepted, known) && Distinct(accepted) && Key(file) !in known
    ensures SameKeys(accepted + [file], known + {Key(file)}) && Distinct(accepted + [file])
  {
    var longer := accepted + [file];
    forall key | key in known + {Key(file)} ensures exists j :: 0 <= j < |longer| && Key(longer[j]) == key {
      if key == Key(file) {
        assert longer[|accepted|] == file;
      } else {
        var j :| 0 <= j < |accepted| && Key(accepted[j]) == key;
        assert longer[j] == accepted[j];
      }
    }
  }

  lemma DropKeys(accepted: seq<LogFile>, known: set<LogFile>)
    requires SameKeys(accepted, known) && Distinct(accepted) && accepted != []
    ensures SameKeys(accepted[1..], known - {Key(accepted[0])}) && Distinct(accepted[1..])
  {
    forall key | key in known - {Key(accepted[0])} ensures exists j :: 0 <= j < |accepted[1..]| && Key(accepted[1..][j]) == key {
      var j :| 0 <= j < |accepted| && Key(accepted[j]) == key;
      assert accepted[1..][j - 1] == accepted[j];
    }
  }

  /** Accepting a file puts one more behind everything in the queue. */
  lemma AcceptSpreads(accepted: seq<LogFile>, history: seq<Event>, file: LogFile, matches: nat)
    requires Spread(accepted, history, 0) && forall j :: 0 <= j < |accepted| ==> Key(accepted[j]) != Key(file)
    ensures Spread(accepted + [file], history + [Accepted(file, matches)], 0)
  {
    var longer, event := accepted + [file], Accepted(file, matches);
    forall j | 0 <= j < |longer|
      ensures var since := OthersSince(history + [event], Key(longer[j])); since.Some? && since.value >= |longer| - 1 - j
    {
      OneMore(history, event, file.path, Key(longer[j]));
      assert j < |accepted| ==> longer[j] == accepted[j];
    }
  }

  lemma AcceptForgets(known: set<LogFile>, history: seq<Event>, limit: nat, file: LogFile, matches: nat)
    requires forall key :: key !in known && key != Key(file) ==>
               var since := OthersSince(history, key); since.None? || since.value + 1 >= limit
    requires Key(file) in known
    ensures Forgotten(known, history + [Accepted(file, matches)], limit)
  {
    forall key | key !in known ensures MayAccept(history + [Accepted(file, matches)], key, limit) {
      OneMore(history, Accepted(file, matches), file.path, key);
    }
  }

  function Room(accepted: seq<LogFile>, limit: nat): seq<LogFile>
    requires limit > 0
  {
    if |accepted| == limit then accepted[1..] else accepted
  }

  function RoomFor(accepted: seq<LogFile>, known: set<LogFile>, limit: nat): set<LogFile>
    requires limit > 0
  {
    if |accepted| == limit then known - {Key(accepted[0])} else known
  }

  lemma AcceptKeepsRemembering(accepted: seq<LogFile>, known: set<LogFile>, history: seq<Event>, limit: nat, file: LogFile, matches: nat)
    requires Remembering(accepted, known, history, limit) && limit >= 1 && Key(file) !in known
    ensures var rest := Room(accepted, limit);
            var left := RoomFor(accepted, known, limit);
            Remembering(rest + [file], left + {Key(file)}, history + [Accepted(file, matches)], limit)
  {
    var rest := Room(accepted, limit);
    var left := RoomFor(accepted, known, limit);
    if |accepted| == limit {
      DropKeys(accepted, known);
      assert forall j :: 0 <= j < |rest| ==> rest[j] == accepted[j + 1];
    }
    PushKeys(rest, left, file);
    AcceptSpreads(rest, history, file, matches);
    forall key | key !in left + {Key(file)} && key != Key(file)
      ensures OthersSince(history, key).None? || OthersSince(history, key).value + 1 >= limit
    {
      if key in known {
        assert key == Key(accepted[0]);
      }
    }
    AcceptForgets(left + {Key(file)}, history, limit, file, matches);
  }

  lemma LookKeepsRemembering(accepted: seq<LogFile>, known: set<LogFile>, history: seq<Event>, limit: nat, file: LogFile)
    requires Remembering(accepted, known, history, limit)
    ensures Remembering(accepted, known, history + [Seen(file)], limit)
  {
    forall key ensures OthersSince(history + [Seen(file)], key) == OthersSince(history, key) {
      OneMore(history, Seen(file), file.path, key);
    }
  }

  /** The queue without one identity. */
  function Without(accepted: seq<LogFile>, key: LogFile): (r: seq<LogFile>)
    ensures forall f :: f in r <==> f in accepted && Key(f) != key
    ensures |r| <= |accepted|
  {
    if accepted == [] then []
    else if Key(accepted[0]) == key then Without(accepted[1..], key)
    else [accepted[0]] + Without(accepted[1..], key)
  }

  lemma {:induction false} WithoutKeeps(accepted: seq<LogFile>, key: LogFile, history: seq<Event>)
    requires Distinct(accepted) && Spread(accepted, history, 0)
    ensures Distinct(Without(accepted, key)) && Spread(Without(accepted, key), history, 0)
  {
    if accepted != [] {
      assert forall j :: 0 <= j < |accepted[1..]| ==> accepted[1..][j] == accepted[j + 1];
      WithoutKeeps(accepted[1..], key, history);
      var rest := Without(accepted[1..], key);
      forall f | f in rest ensures Key(f) != Key(accepted[0]) {
        assert f in accepted[1..];
      }
    }
  }

  lemma ReleaseKeepsRemembering(accepted: seq<LogFile>, known: set<LogFile>, history: seq<Event>, limit: nat, file: LogFile)
    requires Remembering(accepted, known, history, limit)
    ensures Remembering(Without(accepted, Key(file)), known - {Key(file)}, history + [Released(file)], limit)
  {
    var left, after := Without(accepted, Key(file)), history + [Released(file)];
    WithoutKeeps(accepted, Key(file), history);
    forall key ensures OthersSince(after, key) == if key == Key(file) then None else OthersSince(history, key) {
      OneMore(history, Released(file), file.path, key);
    }
    forall j | 0 <= j < |left| ensures Key(left[j]) in known - {Key(file)} {
      assert left[j] in left;
    }
    forall key | key in known - {Key(file)} ensures exists j :: 0 <= j < |left| && Key(left[j]) == key {
      var j :| 0 <= j < |accepted| && Key(accepted[j]) == key;
      assert accepted[j] in left;
    }
  }

  ghost predicate Backed(pending: map<Path, Sighting>, history: seq<Event>, required: nat) {
    forall path :: path in pending ==>
      && pending[path].file.path == path && Candidate(pending[path].file)
      && 1 <= pending[path].count < required && Confirmed(history, pending[path].file, pending[path].count)
  }

  /** A look confirms what it shows once more, and says nothing about other paths. */
  lemma LookConfirms(pending: map<Path, Sighting>, history: seq<Event>, required: nat, file: LogFile)
    requires Backed(pending, history, required)
    ensures Backed(pending - {file.path}, history + [Seen(file)], required)
    ensures Confirmed(history + [Seen(file)], file, 1)
    ensures file.path in pending && Key(pending[file.path].file) == Key(file) ==>
              Confirmed(history + [Seen(file)], file, pending[file.path].count + 1)
  {
    forall path ensures Looks(history + [Seen(file)], path)
                     == if path == file.path then Looks(history, path) + [file] else Looks(history, path)
    {
      OneMore(history, Seen(file), path, file);
    }
  }

  lemma OtherEventsKeepLooks(pending: map<Path, Sighting>, history: seq<Event>, required: nat, event: Event)
    requires Backed(pending, history, required) && !event.Seen?
    ensures Backed(pending, history + [event], required)
  {
    forall path ensures Looks(history + [event], path) == Looks(history, path) {
      OneMore(history, event, path, event.file);
    }
  }

  // ---------------------------------------------------------------- the policy

  datatype Memory = Memory(pending: map<Path, Sighting>, accepted: seq<LogFile>, known: set<LogFile>)

  /** How often in a row the file looked like this, this look included; no answer if there is no
      room for another path. */
  function Matches(pending: map<Path, Sighting>, pendingLimit: nat, file: LogFile): Option<nat> {
    if file.path in pending then
      Some(if Key(pending[file.path].file) == Key(file) then pending[file.path].count + 1 else 1)
    else if |pending| == pendingLimit then None
    else Some(1)
  }

  function Judged(m: Memory, required: nat, pendingLimit: nat, historyLimit: nat, file: LogFile)
    : (Memory, Result<Option<LogFile>, DiscoveryError>)
    requires historyLimit > 0
  {
    if Key(file) in m.known then (m.(pending := m.pending - {file.path}), Ok(None))
    else
      var matches := Matches(m.pending, pendingLimit, file);
      if matches.None? then (m, Err(ResourceLimit))
      else if matches.value < required then (m.(pending := m.pending[file.path := Sighting(file, matches.value)]), Ok(None))
      else (Memory(m.pending - {file.path}, Room(m.accepted, historyLimit) + [file],
                   RoomFor(m.accepted, m.known, historyLimit) + {Key(file)}), Ok(Some(file)))
  }

  function Observed(m: Memory, required: nat, pendingLimit: nat, historyLimit: nat, file: LogFile)
    : (Memory, Result<Option<LogFile>, DiscoveryError>)
    requires historyLimit > 0
  {
    if !Candidate(file) then (m, Err(InvalidCandidate)) else Judged(m, required, pendingLimit, historyLimit, file)
  }

  /** A file is emitted exactly when it is a candidate that is not remembered, and this look
      completes the required number of equal looks in a row. */
  lemma EmittedIff(m: Memory, required: nat, pendingLimit: nat, historyLimit: nat, file: LogFile, history: seq<Event>)
    requires historyLimit > 0 && required >= 2 && Backed(m.pending, history, required)
    ensures var result := Observed(m, required, pendingLimit, historyLimit, file).1;
            && (result == Ok(Some(file)) <==>
                  Candidate(file) && Key(file) !in m.known && file.path in m.pending
                  && Key(m.pending[file.path].file) == Key(file) && m.pending[file.path].count == required - 1)
            && (result == Ok(Some(file)) ==> Confirmed(history + [Seen(file)], file, required))
  {
    LookConfirms(m.pending, history, required, file);
  }

  class Discovery {
    var requiredMatches: nat
    const pendingLimit: nat
    const historyLimit: nat
    var pending: map<Path, Sighting>
    var accepted: seq<LogFile>
    var known: set<LogFile>
    ghost var history: seq<Event>

    /** Both collections are bounded; `known` is the set of the duplicate-free queue; and every
        sighting is backed by that many equal looks. */
    ghost predicate Valid()
      reads this
    {
      && requiredMatches >= 2 && 1 <= pendingLimit <= MAX_LIMIT && 1 <= historyLimit <= MAX_LIMIT
      && |pending| <= pendingLimit && Backed(pending, history, requiredMatches)
      && Remembering(accepted, known, history, historyLimit) && Sound(history, historyLimit)
    }

    constructor (requiredMatches: nat, pendingLimit: nat, historyLimit: nat)
      requires requiredMatches >= 2 && 1 <= pendingLimit <= MAX_LIMIT && 1 <= historyLimit <= MAX_LIMIT
      ensures Valid() && history == [] && accepted == [] && pending == map[]
      ensures this.requiredMatches == requiredMatches && this.pendingLimit == pendingLimit && this.historyLimit == historyLimit
    {
      this.requiredMatches, this.pendingLimit, this.historyLimit := requiredMatches, pendingLimit, historyLimit;
      pending, accepted, known, history := map[], [], {}, [];
    }

    static method Create(requiredMatches: nat, pendingLimit: nat, historyLimit: nat) returns (result: Result<Discovery, DiscoveryError>)
      ensures result.Ok? <==> requiredMatches >= 2 && 1 <= pendingLimit <= MAX_LIMIT && 1 <= historyLimit <= MAX_LIMIT
      ensures result.Ok? ==> fresh(result.value) && result.value.Valid() && result.value.accepted == []
    {
      if requiredMatches < 2 || !(1 <= pendingLimit <= MAX_LIMIT) || !(1 <= historyLimit <= MAX_LIMIT) {
        return Err(InvalidConfiguration);
      }
      var discovery := new Discovery(requiredMatches, pendingLimit, historyLimit);
      return Ok(discovery);
    }

    /** Appends to the queue, dropping the oldest entry of a full one. */
    method Remember(file: LogFile, ghost matches: nat)
      requires Remembering(accepted, known, history, historyLimit) && Sound(history, historyLimit) && historyLimit >= 1
      requires Confirmed(history, file, matches)
      modifies this`accepted, this`known, this`history
      ensures Remembering(accepted, known, history, historyLimit) && Sound(history, historyLimit) && Key(file) in known
      ensures Key(file) in old(known) ==> accepted == old(accepted) && known == old(known) && history == old(history)
      ensures Key(file) !in old(known) ==>
                && accepted == Room(old(accepted), historyLimit) + [file] && history == old(history) + [Accepted(file, matches)]
                && known == RoomFor(old(accepted), old(known), historyLimit) + {Key(file)}
    {
      if Key(file) in known {
        return;
      }
      AcceptKeepsRemembering(accepted, known, history, historyLimit, file, matches);
      if |accepted| == historyLimit {
        known := known - {Key(accepted[0])};
        accepted := accepted[1..];
      }
      known := known + {Key(file)};
      accepted := accepted + [file];
      SoundOneMore(history, Accepted(file, matches), historyLimit);
      history := history + [Accepted(file, matches)];
    }

    /** Everything holds except that the path's own sightings are out of date. */
    ghost predicate Looking(file: LogFile)
      reads this
    {
      && requiredMatches >= 2 && 1 <= pendingLimit <= MAX_LIMIT && 1 <= historyLimit <= MAX_LIMIT
      && |pending| <= pendingLimit && Backed(pending - {file.path}, history, requiredMatches)
      && Remembering(accepted, known, history, historyLimit) && Sound(history, historyLimit)
    }

    method DropSightings(path: Path, file: LogFile)
      requires Looking(file) && path == file.path
      modifies this`pending
      ensures Valid() && pending == old(pending) - {path}
    {
      pending := pending - {path};
    }

    /** The look enters the history; what it says about its own path is decided next. */
    ghost method Look(file: LogFile)
      requires Valid()
      modifies this`history
      ensures history == old(history) + [Seen(file)] && Looking(file)
      ensures Matches(pending, pendingLimit, file).Some? ==> Confirmed(history, file, Matches(pending, pendingLimit, file).value)
    {
      LookConfirms(pending, history, requiredMatches, file);
      LookKeepsRemembering(accepted, known, history, historyLimit, file);
      SoundOneMore(history, Seen(file), historyLimit);
      history := history + [Seen(file)];
    }

    /** Enough equal looks: the file is accepted and its sightings are dropped. */
    method Accept(file: LogFile)
      requires Looking(file) && Key(file) !in known && Confirmed(history, file, requiredMatches)
      modifies this`pending, this`accepted, this`known, this`history
      ensures Valid() && pending == old(pending) - {file.path}
      ensures known == RoomFor(old(accepted), old(known), historyLimit) + {Key(file)}
      ensures history == old(history) + [Accepted(file, requiredMatches)] && accepted == Room(old(accepted), historyLimit) + [file]
    {
      OtherEventsKeepLooks(pending - {file.path}, history, requiredMatches, Accepted(file, requiredMatches));
      Remember(file, requiredMatches);
      pending := pending - {file.path};
    }

    /** Not often enough yet. */
    method Note(file: LogFile, matches: nat)
      requires Looking(file) && Confirmed(history, file, matches)
      requires 1 <= matches < requiredMatches && Candidate(file) && (file.path in pending || |pending| < pendingLimit)
      modifies this`pending
      ensures Valid() && pending == old(pending)[file.path := Sighting(file, matches)]
    {
      pending := pending[file.path := Sighting(file, matches)];
      assert forall path :: path in pending && path != file.path ==> path in old(pending) - {file.path};
    }

    function Now(): Memory
      reads this
    {
      Memory(pending, accepted, known)
    }

    /** The look is in the history; what follows from it? */
    method Decide(file: LogFile) returns (result: Result<Option<LogFile>, DiscoveryError>)
      requires Looking(file) && Candidate(file)
      requires Matches(pending, pendingLimit, file).Some? ==>
                 Confirmed(history, file, Matches(pending, pendingLimit, file).value) && Matches(pending, pendingLimit, file).value <= requiredMatches
      modifies this`pending, this`accepted, this`known, this`history
      ensures Valid()
      ensures (Now(), result) == Judged(old(Now()), requiredMatches, pendingLimit, historyLimit, file)
      ensures history == old(history) + (if result.Ok? && result.value.Some? then [Accepted(file, requiredMatches)] else [])
    {
      ghost var was, judged := Now(), Judged(Now(), requiredMatches, pendingLimit, historyLimit, file);
      if Key(file) in known {
        assert judged == (was.(pending := was.pending - {file.path}), Ok(None));
        DropSightings(file.path, file);
        return Ok(None);
      }
      var matches := Matches(pending, pendingLimit, file);
      if matches.None? {
        assert pending - {file.path} == pending;
        return Err(ResourceLimit);
      }
      if matches.value < requiredMatches {
        assert judged == (was.(pending := was.pending[file.path := Sighting(file, matches.value)]), Ok(None));
        Note(file, matches.value);
        return Ok(None);
      }
      assert judged.1 == Ok(Some(file));
      Accept(file);
      return Ok(Some(file));
    }

    /** One look at a candidate. */
    method Observe(file: LogFile) returns (result: Result<Option<LogFile>, DiscoveryError>)
      requires Valid()
      modifies this`pending, this`accepted, this`known, this`history
      ensures Valid()
      ensures (Now(), result) == Observed(old(Now()), requiredMatches, pendingLimit, historyLimit, file)
      ensures history == old(history) + (if Candidate(file) then [Seen(file)] else [])
                         + (if result.Ok? && result.value.Some? then [Accepted(file, requiredMatches)] else [])
    {
      if !Candidate(file) {
        return Err(InvalidCandidate);
      }
      Look(file);
      result := Decide(file);
    }

    method SeedOne(file: LogFile)
      requires Valid()
      modifies this`accepted, this`known, this`history
      ensures Valid()
      ensures accepted == if Queued(old(accepted), file) then old(accepted) else Room(old(accepted), historyLimit) + [file]
    {
      KnownIffQueued(accepted, known, file);
      OtherEventsKeepLooks(pending, history, requiredMatches, Accepted(file, 0));
      Remember(file, 0);
    }

    /** Checks the whole retained history before remembering any of it. */
    method Seed(files: seq<LogFile>) returns (error: Option<DiscoveryError>)
      requires Valid()
      modifies this`accepted, this`known, this`history
      ensures Valid()
      ensures error == Some(ResourceLimit) <==> |files| > historyLimit
      ensures error == Some(InvalidCandidate) <==> |files| <= historyLimit && exists k :: 0 <= k < |files| && !Candidate(files[k])
      ensures error.Some? ==> accepted == old(accepted) && known == old(known) && history == old(history)
      ensures error.None? ==> accepted == Seeded(old(accepted), files, historyLimit)
    {
      if |files| > historyLimit {
        return Some(ResourceLimit);
      }
      for k := 0 to |files|
        invariant forall j :: 0 <= j < k ==> Candidate(files[j])
      {
        if !Candidate(files[k]) {
          return Some(InvalidCandidate);
        }
      }
      for k := 0 to |files|
        invariant Valid() && accepted == Seeded(old(accepted), files[..k], historyLimit)
      {
        SeedOne(files[k]);
        assert files[..k + 1][..k] == files[..k];
      }
      assert files[..|files|] == files;
      return None;
    }

    method Release(file: LogFile)
      requires Valid()
      modifies this`accepted, this`known, this`history
      ensures Valid()
      ensures known == old(known) - {Key(file)} && accepted == Without(old(accepted), Key(file))
      ensures history == old(history) + [Released(file)]
    {
      ReleaseKeepsRemembering(accepted, known, history, historyLimit, file);
      SoundOneMore(history, Released(file), historyLimit);
      OtherEventsKeepLooks(pending, history, requiredMatches, Released(file));
      accepted := Without(accepted, Key(file));
      known := known - {Key(file)};
      history := history + [Released(file)];
    }

    method ForgetPending(path: Path)
      requires Valid()
      modifies this`pending
      ensures Valid() && pending == old(pending) - {path}
    {
      pending := pending - {path};
    }

    method ClearPending()
      modifies this`pending
      ensures pending == map[] && (old(Valid()) ==> Valid())
    {
      pending := map[];
    }

    method SetRequiredMatches(matches: nat) returns (error: Option<DiscoveryError>)
      requires Valid()
      modifies this`pending, this`requiredMatches
      ensures Valid()
      ensures error.Some? <==> matches < 2
      ensures error.Some? ==> pending == old(pending) && requiredMatches == old(requiredMatches)
      ensures error.None? ==> pending == map[] && requiredMatches == matches
    {
      if matches < 2 {
        return Some(InvalidConfiguration);
      }
      requiredMatches := matches;
      ClearPending();
      return None;
    }
  }

  predicate Queued(accepted: seq<LogFile>, file: LogFile) {
    exists j :: 0 <= j < |accepted| && Key(accepted[j]) == Key(file)
  }

  lemma KnownIffQueued(accepted: seq<LogFile>, known: set<LogFile>, file: LogFile)
    requires SameKeys(accepted, known)
    ensures Key(file) in known <==> Queued(accepted, file)
  {
  }

  /** The queue after seeding: files it holds already stay where they are. */
  function Seeded(accepted: seq<LogFile>, files: seq<LogFile>, limit: nat): seq<LogFile>
    requires limit > 0
  {
    if files == [] then accepted
    else
      var before, file := Seeded(accepted, files[..|files| - 1], limit), files[|files| - 1];
      if Queued(before, file) then before else Room(before, limit) + [file]
  }
}
