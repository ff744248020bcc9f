/** Which files discovery looks at, what each look counts for, and that a steady file is emitted. */
module DiscoveredFiles {
  import opened Outcomes
  import opened LogFiles
  import opened LogDiscovery

  /** What a look is good for if nothing is emitted: it counts once more if the file looked the same, and
      once if it did not; a remembered file is forgotten again, and only a new path can find no room. */
  lemma LookCounts(m: Memory, required: nat, pendingLimit: nat, historyLimit: nat, file: LogFile)
    requires historyLimit > 0 && required >= 2
    ensures var (after, result) := Observed(m, required, pendingLimit, historyLimit, file);
            var seen := file.path in m.pending;
            var count := if seen && Key(m.pending[file.path].file) == Key(file) then m.pending[file.path].count + 1 else 1;
            && (result == Err(InvalidCandidate) <==> !Candidate(file))
            && (result == Err(ResourceLimit) <==> Candidate(file) && Key(file) !in m.known && !seen && |m.pending| == pendingLimit)
            && (result.Err? ==> after == m)
            && (Candidate(file) && Key(file) in m.known ==> result == Ok(None) && after == m.(pending := m.pending - {file.path}))
            && (result.Ok? && Key(file) !in m.known && count < required ==>
                  result == Ok(None) && after == m.(pending := m.pending[file.path := Sighting(file, count)]))
            && (result.Ok? && Key(file) !in m.known && count >= required ==>
                  result == Ok(Some(file)) && file.path !in after.pending && Key(file) in after.known && file in after.accepted)
  {
  }

  /** What is remembered from look to look, all of them at one file. */
  ghost predicate Watched(memories: nat -> Memory, required: nat, pendingLimit: nat, historyLimit: nat, file: LogFile)
    requires historyLimit > 0
  {
    forall k: nat :: memories(k + 1) == Observed(memories(k), required, pendingLimit, historyLimit, file).0
  }

  /** Nothing but so many looks at the file has happened to it. */
  predicate Looked(m: Memory, now: Memory, file: LogFile, looks: nat) {
    now.known == m.known
    && if looks == 0 then now == m else file.path in now.pending && now.pending[file.path] == Sighting(file, looks)
  }

  lemma OneLookMore(m: Memory, now: Memory, after: Memory, required: nat, pendingLimit: nat, historyLimit: nat, file: LogFile, looks: nat)
    requires historyLimit > 0 && required >= 2 && Candidate(file) && Key(file) !in m.known
    requires file.path !in m.pending && |m.pending| < pendingLimit && looks < required && Looked(m, now, file, looks)
    requires after == Observed(now, required, pendingLimit, historyLimit, file).0
    ensures Observed(now, required, pendingLimit, historyLimit, file).1 == (if looks + 1 < required then Ok(None) else Ok(Some(file)))
    ensures looks + 1 < required ==> Looked(m, after, file, looks + 1)
  {
    LookCounts(now, required, pendingLimit, historyLimit, file);
  }

  lemma {:induction false} LooksCountUp(memories: nat -> Memory, required: nat, pendingLimit: nat, historyLimit: nat, file: LogFile, looks: nat)
    requires historyLimit > 0 && Watched(memories, required, pendingLimit, historyLimit, file)
    requires required >= 2 && Candidate(file) && Key(file) !in memories(0).known
    requires file.path !in memories(0).pending && |memories(0).pending| < pendingLimit && looks < required
    ensures Looked(memories(0), memories(looks), file, looks)
  {
    if looks > 0 {
      LooksCountUp(memories, required, pendingLimit, historyLimit, file, looks - 1);
      OneLookMore(memories(0), memories(looks - 1), memories(looks), required, pendingLimit, historyLimit, file, looks - 1);
    }
  }

  /** A file that does not change is emitted, and with exactly the look that makes the number required:
      a new candidate, if there is room for it. */
  lemma SteadyFileIsEmitted(memories: nat -> Memory, required: nat, pendingLimit: nat, historyLimit: nat, file: LogFile, looks: nat)
    requires historyLimit > 0 && Watched(memories, required, pendingLimit, historyLimit, file)
    requires required >= 2 && Candidate(file) && Key(file) !in memories(0).known
    requires file.path !in memories(0).pending && |memories(0).pending| < pendingLimit && looks < required
    ensures Observed(memories(looks), required, pendingLimit, historyLimit, file).1
            == (if looks + 1 < required then Ok(None) else Ok(Some(file)))
  {
    LooksCountUp(memories, required, pendingLimit, historyLimit, file, looks);
    OneLookMore(memories(0), memories(looks), memories(looks + 1), required, pendingLimit, historyLimit, file, looks);
  }

  // ---------------------------------------------------------------- seeding

  /** The last `limit` files. */
  function Last(files: seq<LogFile>, limit: nat): seq<LogFile> {
    files[if |files| > limit then |files| - limit else 0..]
  }

  /** One more new file goes behind them. */
  lemma OneMoreIsQueued(all: seq<LogFile>, file: LogFile, limit: nat)
    requires 0 < limit && !Queued(all, file)
    ensures !Queued(Last(all, limit), file) && Room(Last(all, limit), limit) + [file] == Last(all + [file], limit)
  {
    var skip := if |all| > limit then |all| - limit else 0;
    forall j | 0 <= j < |all| - skip ensures Key(all[skip..][j]) != Key(file) {
      assert all[skip..][j] == all[skip + j];
    }
  }

  /** New files go to the end of the queue, in order, and the oldest make room. */
  lemma {:induction false} NewFilesAreQueued(accepted: seq<LogFile>, files: seq<LogFile>, limit: nat)
    requires 0 < limit && |accepted| <= limit
    requires forall k :: 0 <= k < |files| ==> !Queued(accepted + files[..k], files[k])
    ensures Seeded(accepted, files, limit) == Last(accepted + files, limit)
  {
    if files == [] {
      assert accepted + files == accepted;
    } else {
      var n := |files| - 1;
      forall k | 0 <= k < n ensures !Queued(accepted + files[..n][..k], files[..n][k]) {
        assert files[..n][..k] == files[..k];
      }
      NewFilesAreQueued(accepted, files[..n], limit);
      assert !Queued(accepted + files[..n], files[n]);
      OneMoreIsQueued(accepted + files[..n], files[n], limit);
      assert accepted + files == accepted + files[..n] + [files[n]];
    }
  }

  /** A file that is remembered already does not move up. */
  lemma {:induction false} KnownFilesStayPut(accepted: seq<LogFile>, files: seq<LogFile>, limit: nat)
    requires 0 < limit && forall k :: 0 <= k < |files| ==> Queued(accepted, files[k])
    ensures Seeded(accepted, files, limit) == accepted
  {
    if files != [] {
      assert Queued(accepted, files[|files| - 1]);
      assert forall k :: 0 <= k < |files| - 1 ==> files[..|files| - 1][k] == files[k];
      KnownFilesStayPut(accepted, files[..|files| - 1], limit);
    }
  }

  /** A history seeded into a new queue is remembered whole, and nothing else is. */
  lemma {:induction false} SeededAreRemembered(files: seq<LogFile>, limit: nat, file: LogFile)
    requires 0 < limit && |files| <= limit
    ensures |Seeded([], files, limit)| <= |files|
    ensures Queued(Seeded([], files, limit), file) <==> Queued(files, file)
  {
    if files != [] {
      var n := |files| - 1;
      var earlier, last := files[..n], files[n];
      SeededAreRemembered(earlier, limit, file);
      SeededAreRemembered(earlier, limit, last);
      var before := Seeded([], earlier, limit);
      assert Queued(files, file) <==> Queued(earlier, file) || Key(file) == Key(last) by {
        QueuedBehind(earlier, last, file);
        assert files == earlier + [last];
      }
      QueuedBehind(before, last, file);
    }
  }

  lemma QueuedBehind(queue: seq<LogFile>, last: LogFile, file: LogFile)
    ensures Queued(queue + [last], file) <==> Queued(queue, file) || Key(file) == Key(last)
  {
    var longer := queue + [last];
    if Queued(queue, file) {
      var j :| 0 <= j < |queue| && Key(queue[j]) == Key(file);
      assert longer[j] == queue[j];
    }
    if Key(file) == Key(last) {
      assert longer[|queue|] == last;
    }
  }

  // ---------------------------------------------------------------- candidates

  /** A candidate is a file whose name has a stem and the extension zevtc, in any case. */
  lemma CandidateIff(file: LogFile)
    ensures Candidate(file) <==>
              && file.path.components != []
              && var name := file.path.components[|file.path.components| - 1];
                 && |name| > 6 && name[|name| - 6] == '.' && name[|name| - 5] in {'z', 'Z'} && name[|name| - 4] in {'e', 'E'}
                 && name[|name| - 3] in {'v', 'V'} && name[|name| - 2] in {'t', 'T'} && name[|name| - 1] in {'c', 'C'}
  {
  }
}
