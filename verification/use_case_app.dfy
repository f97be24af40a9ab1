/**
 * The last app loop: the configuration picks the backend, the machine is
 * fetched through the use cases, and every counted vote is written back
 * whole through the storage capability.
 */
module UseCaseApp {
  import opened Errors
  import opened Domain
  import opened Commands
  import opened FileStorage
  import opened Storage
  import UseCases

  datatype Configuration = Configuration(candidates: seq<string>, storageType: StorageType)

  /**
   * What every counted outcome does: fetch a fresh copy, record the voter
   * and the vote on it, and write the whole copy back, ignoring a failed
   * write.
   */
  method Record(store: Backend, outcome: VoteOutcome)
    requires Snapshot(store).Ok? && !outcome.HasAlreadyVoted?
    modifies Repr(store)
    ensures Reliable(store) == old(Reliable(store))
    ensures Reliable(store) ==> Snapshot(store) == Ok(Apply(old(Snapshot(store)).value, outcome))
    ensures !Reliable(store) ==> Snapshot(store) == old(Snapshot(store)) || Snapshot(store).Err?
    ensures store.OnDisk? && store.disk.file.health == ReadOnly ==> Snapshot(store) == old(Snapshot(store))
  {
    var copy := UseCases.GetVotingMachine(store);
    var next := copy.value;
    next := next.(voters := next.voters + {outcome.voter});
    match outcome {
      case AcceptedVote(_, candidate) =>
        next := next.(scoreboard := CountFor(next.scoreboard, candidate));
      case BlankVote(_) =>
        next := next.(scoreboard := next.scoreboard.(blank := next.scoreboard.blank + 1));
      case InvalidVote(_) =>
        next := next.(scoreboard := next.scoreboard.(invalid := next.scoreboard.invalid + 1));
      case HasAlreadyVoted(_) =>
    }
    assert next == Apply(copy.value, outcome);
    var _ := Put(store, next);
  }

  /**
   * One `voter` command with a name: decide against a fetched snapshot and,
   * unless the voter has already voted, record the vote. A failed fetch is
   * returned; a failed write is ignored.
   */
  method CastVote(store: Backend, args: Tokens) returns (r: Result<()>)
    requires args[0] == "voter" && |args| >= 2
    modifies Repr(store)
    ensures Reliable(store) == old(Reliable(store))
    ensures old(Snapshot(store)).Err? ==> r == Err(old(Snapshot(store)).error) && Snapshot(store) == old(Snapshot(store))
    ensures old(Snapshot(store)).Ok? ==> r == Ok(())
    ensures old(Snapshot(store)).Ok? && Reliable(store) ==>
      Snapshot(store) == Ok(Cast(old(Snapshot(store)).value, BallotFromTokens(args)))
    ensures !Reliable(store) ==> Snapshot(store) == old(Snapshot(store)) || Snapshot(store).Err?
    ensures store.OnDisk? && store.disk.file.health == ReadOnly ==> Snapshot(store) == old(Snapshot(store))
    ensures old(Snapshot(store)).Ok? && Voter(args[1]) in old(Snapshot(store)).value.voters ==> Snapshot(store) == old(Snapshot(store))
  {
    var ballot := BallotFromTokens(args);
    var fetched := UseCases.GetVotingMachine(store);
    if fetched.Err? {
      return Err(fetched.error);
    }
    r := Ok(());
    var outcome := Vote(fetched.value, ballot);
    if !outcome.HasAlreadyVoted? {
      Record(store, outcome);
    }
  }

  /**
   * One input line: a `voter` command with a name casts its ballot; a
   * listing command fetches the machine and returns a failed fetch; anything
   * else does nothing.
   */
  method HandleLine(store: Backend, input: Input) returns (r: Result<()>)
    modifies Repr(store)
    ensures Reliable(store) == old(Reliable(store))
    ensures old(Snapshot(store)).Ok? ==> r == Ok(())
    ensures old(Snapshot(store)).Err? ==> Snapshot(store) == old(Snapshot(store)) && (r == Ok(()) || r == Err(old(Snapshot(store)).error))
    ensures old(Snapshot(store)).Err? ==> (r.Err? <==> ReadsStore(input))
    ensures !old(Reliable(store)) ==> Snapshot(store) == old(Snapshot(store)) || Snapshot(store).Err?
    ensures old(Reliable(store)) && old(Snapshot(store)).Ok? ==> Snapshot(store) == Ok(Handle(old(Snapshot(store)).value, input))
    ensures old(Snapshot(store)).Ok? && Snapshot(store).Ok? ==>
      Snapshot(store).value == old(Snapshot(store)).value || Snapshot(store).value == Handle(old(Snapshot(store)).value, input)
    ensures store.OnDisk? && store.disk.file.health == ReadOnly ==> Snapshot(store) == old(Snapshot(store))
  {
    r := Ok(());
    match input {
      case Eof =>
      case Line(args) =>
        if args[0] == "voter" {
          if |args| != 1 {
            r := CastVote(store, args);
          }
        } else if args[0] == "votants" || args[0] == "scores" {
          var listed := UseCases.GetVotingMachine(store);
          if listed.Err? {
            r := Err(listed.error);
          }
        }
    }
  }

  /**
   * The loop of `run_app`. A fetch that fails ends the run with its error;
   * a failed write is ignored. Fetches in one iteration see the same
   * snapshot, since nothing else writes to the store between them.
   */
  method Serve(store: Backend, inputs: seq<Input>) returns (r: Result<()>)
    modifies Repr(store)
    ensures Reliable(store) == old(Reliable(store))
    ensures old(Reliable(store)) && old(Snapshot(store)).Ok? ==>
      r == Ok(()) && Snapshot(store) == Ok(Replay(Handle, old(Snapshot(store)).value, inputs))
    ensures old(Snapshot(store)).Ok? && Snapshot(store).Ok? ==> Grows(old(Snapshot(store)).value, Snapshot(store).value)
    ensures old(Snapshot(store)).Ok? && Consistent(old(Snapshot(store)).value) && Snapshot(store).Ok? ==>
      Consistent(Snapshot(store).value)
    ensures !old(Reliable(store)) ==> Snapshot(store) == old(Snapshot(store)) || Snapshot(store).Err?
    ensures store.OnDisk? && store.disk.file.health == ReadOnly ==> Snapshot(store) == old(Snapshot(store))
    ensures store.OnDisk? && store.disk.file.health == ReadOnly && old(Snapshot(store)).Ok? ==> r == Ok(())
    ensures Snapshot(store).Ok? ==> r == Ok(())
    ensures old(Snapshot(store)).Err? ==> Snapshot(store) == old(Snapshot(store))
    ensures old(Snapshot(store)).Err? ==> (r.Err? <==> exists i :: 0 <= i < |inputs| && ReadsStore(inputs[i]))
  {
    ghost var start := Snapshot(store);
    ghost var reliable := Reliable(store);
    ghost var readOnly := store.OnDisk? && store.disk.file.health == ReadOnly;
    ghost var snap := start;
    r := Ok(());
    var i := 0;
    while i < |inputs|
      invariant 0 <= i <= |inputs|
      invariant r == Ok(())
      invariant snap == Snapshot(store) && reliable == Reliable(store)
      invariant Progress(start, snap, reliable, readOnly, inputs[..i])
    {
      r := HandleLine(store, inputs[i]);
      ghost var after := Snapshot(store);
      assert LineEffect(snap, after, reliable, readOnly, inputs[i], r);
      if r.Err? {
        StopsOnError(start, snap, reliable, readOnly, inputs[..i], inputs[i], r);
        assert inputs[..i + 1] <= inputs;
        return;
      }
      ProgressStep(start, snap, after, reliable, readOnly, inputs[..i], inputs[i]);
      assert inputs[..i] + [inputs[i]] == inputs[..i + 1];
      snap := after;
      i := i + 1;
    }
    assert inputs[..|inputs|] == inputs;
  }

  /**
   * Where `run_app` stands after the inputs `done`, starting from the
   * snapshot `start`: with reliable writes the store holds their replay;
   * whatever the writes do, the machine only grows and keeps its tally
   * invariant; an unreliable store stays or turns unreadable, a read-only
   * one stays; an unreadable one stays and no input so far needed a fetch.
   */
  ghost predicate Progress(start: Result<VotingMachine>, snap: Result<VotingMachine>, reliable: bool, readOnly: bool, done: seq<Input>)
  {
    && (reliable && start.Ok? ==> snap == Ok(Replay(Handle, start.value, done)))
    && (start.Ok? && snap.Ok? ==> Grows(start.value, snap.value))
    && (start.Ok? && Consistent(start.value) && snap.Ok? ==> Consistent(snap.value))
    && (!reliable ==> snap == start || snap.Err?)
    && (readOnly ==> snap == start)
    && (start.Err? ==> snap == start && forall j :: 0 <= j < |done| ==> !ReadsStore(done[j]))
  }

  /** What one `HandleLine` call does to the snapshot, as its contract states it. */
  ghost predicate LineEffect(before: Result<VotingMachine>, after: Result<VotingMachine>, reliable: bool, readOnly: bool, input: Input, r: Result<()>)
  {
    && (before.Ok? ==> r == Ok(()))
    && (before.Err? ==> after == before && (r.Err? <==> ReadsStore(input)))
    && (!reliable ==> after == before || after.Err?)
    && (reliable && before.Ok? ==> after == Ok(Handle(before.value, input)))
    && (before.Ok? && after.Ok? ==> after.value == before.value || after.value == Handle(before.value, input))
    && (readOnly ==> after == before)
  }

  /** One more input line handled without error extends the progress of the run by that line. */
  lemma ProgressStep(start: Result<VotingMachine>, snap: Result<VotingMachine>, after: Result<VotingMachine>,
                     reliable: bool, readOnly: bool, done: seq<Input>, input: Input)
    requires Progress(start, snap, reliable, readOnly, done)
    requires LineEffect(snap, after, reliable, readOnly, input, Ok(()))
    ensures Progress(start, after, reliable, readOnly, done + [input])
  {
    if start.Ok? && after.Ok? {
      KeepsTally(start.value, snap.value, after.value, input);
    }
    assert (done + [input])[..|done|] == done;
    if start.Err? {
      assert !ReadsStore(input);
      forall j | 0 <= j < |done| + 1
        ensures !ReadsStore((done + [input])[j])
      {
        if j < |done| {
          assert (done + [input])[j] == done[j];
        }
      }
    }
  }

  /**
   * A line that ends the run with an error found the store unreadable, left
   * it so, and needed a fetch; the store had been reliable and readable
   * from the start only if it never was.
   */
  lemma StopsOnError(start: Result<VotingMachine>, snap: Result<VotingMachine>,
                     reliable: bool, readOnly: bool, done: seq<Input>, input: Input, r: Result<()>)
    requires Progress(start, snap, reliable, readOnly, done)
    requires LineEffect(snap, snap, reliable, readOnly, input, r) && r.Err?
    ensures snap.Err? && ReadsStore(input)
    ensures !(reliable && start.Ok?) && !(readOnly && start.Ok?)
    ensures start.Ok? ==> !reliable
    ensures start.Err? ==> snap == start
  {
  }

  /** A snapshot that stays or takes one input's effect keeps the tally invariant. */
  lemma KeepsTally(start: VotingMachine, before: VotingMachine, after: VotingMachine, input: Input)
    requires Grows(start, before) && (Consistent(start) ==> Consistent(before))
    requires after == before || after == Handle(before, input)
    ensures Grows(start, after) && (Consistent(start) ==> Consistent(after))
  {
    if after != before {
      HandleGrows(before, input);
      if Consistent(start) {
        HandleKeeps(before, input);
      }
      GrowsTransitive(start, before, after);
    }
  }

  /**
   * `run_app`: build the roster and the fresh machine, open the configured
   * backend with it (an existing record file wins over the fresh machine),
   * then serve the inputs.
   */
  method RunApp(config: Configuration, file: DiskFile, inputs: seq<Input>) returns (store: Result<Backend>, r: Result<()>)
    modifies file
    ensures config.storageType == Memory ==>
      && store.Ok? && store.value.InMemory? && r == Ok(())
      && Snapshot(store.value) == Ok(Replay(Handle, Initial(Roster(config.candidates)), inputs))
      && Consistent(Snapshot(store.value).value)
    ensures config.storageType == File && old(file.content) == Garbled ==> store == Err(Malformed) && r == Err(Malformed)
    ensures config.storageType == File && old(file.content) == Missing && file.health == Healthy ==>
      && store.Ok? && r == Ok(())
      && Snapshot(store.value) == Ok(Replay(Handle, Initial(Roster(config.candidates)), inputs))
    ensures config.storageType == File && old(file.content).Holds? && file.health == Healthy ==>
      && store.Ok? && r == Ok(())
      && Snapshot(store.value) == Ok(Replay(Handle, Load(old(file.content)).value, inputs))
  {
    var candidates := BuildRoster(config.candidates);
    var machine := NewVotingMachine(candidates);
    InitialConsistent(candidates);
    ReplayHandleKeeps(Initial(candidates), inputs);
    store := Open(config.storageType, machine, file);
    if store.Err? {
      return store, Err(store.error);
    }
    r := Serve(store.value, inputs);
  }
}
