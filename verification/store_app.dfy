/**
 * The app loop over a memory store: every decision is taken against a
 * fetched snapshot, and every counted vote is a fetch, an update of the
 * fetched copy and a put of the whole copy back.
 */
module StoreApp {
  import opened Errors
  import opened Domain
  import opened Commands
  import opened MemoryStorage

  /**
   * The loop of `run_app`. A fetch that fails ends the run with its error;
   * a failed put is ignored. Fetches in one iteration see the same machine,
   * since nothing else writes to the store between them.
   */
  method Serve(memory: MemoryStore, inputs: seq<Input>) returns (r: Result<()>)
    modifies memory
    ensures memory.poisoned == old(memory.poisoned)
    ensures !old(memory.poisoned) ==> r == Ok(()) && memory.machine == Replay(Handle, old(memory.machine), inputs)
    ensures old(memory.poisoned) ==> memory.machine == old(memory.machine)
    ensures old(memory.poisoned) ==> (r.Err? <==> exists i :: 0 <= i < |inputs| && ReadsStore(inputs[i]))
  {
    r := Ok(());
    var i := 0;
    while i < |inputs|
      invariant 0 <= i <= |inputs|
      invariant r == Ok(())
      invariant memory.poisoned == old(memory.poisoned)
      invariant !memory.poisoned ==> memory.machine == Replay(Handle, old(memory.machine), inputs[..i])
      invariant memory.poisoned ==> memory.machine == old(memory.machine)
      invariant memory.poisoned ==> forall j :: 0 <= j < i ==> !ReadsStore(inputs[j])
    {
      match inputs[i] {
        case Eof =>
        case Line(args) =>
          if args[0] == "voter" {
            if |args| != 1 {
              var ballot := BallotFromTokens(args);
              var fetched := memory.GetVotingMachine();
              if fetched.Err? {
                return Err(fetched.error);
              }
              var outcome := Vote(fetched.value, ballot);
              match outcome {
                case AcceptedVote(voter, candidate) =>
                  var copy := memory.GetVotingMachine();
                  var next := copy.value;
                  next := next.(voters := next.voters + {voter});
                  next := next.(scoreboard := CountFor(next.scoreboard, candidate));
                  var _ := memory.PutVotingMachine(next);
                case BlankVote(voter) =>
                  var copy := memory.GetVotingMachine();
                  var next := copy.value;
                  next := next.(voters := next.voters + {voter});
                  next := next.(scoreboard := next.scoreboard.(blank := next.scoreboard.blank + 1));
                  var _ := memory.PutVotingMachine(next);
                case InvalidVote(voter) =>
                  var copy := memory.GetVotingMachine();
                  var next := copy.value;
                  next := next.(voters := next.voters + {voter});
                  next := next.(scoreboard := next.scoreboard.(invalid := next.scoreboard.invalid + 1));
                  var _ := memory.PutVotingMachine(next);
                case HasAlreadyVoted(_) =>
              }
            }
          } else if args[0] == "votants" || args[0] == "scores" {
            var listed := memory.GetVotingMachine();
            if listed.Err? {
              return Err(listed.error);
            }
          }
      }
      ReplaySnoc(Handle, old(memory.machine), inputs, i);
      i := i + 1;
    }
    assert inputs[..|inputs|] == inputs;
  }

  /**
   * `run_app`: the store starts with a fresh machine for the configured
   * roster; after the run it holds every input's effect, over the same
   * roster, with one counted vote per voter.
   */
  method RunApp(config: seq<string>, inputs: seq<Input>) returns (memory: MemoryStore, r: Result<()>)
    ensures fresh(memory) && !memory.poisoned && r == Ok(())
    ensures memory.machine == Replay(Handle, Initial(Roster(config)), inputs)
    ensures memory.machine.scoreboard.scores.Keys == RosterSet(Roster(config))
    ensures Consistent(memory.machine)
  {
    var candidates := BuildRoster(config);
    var machine := NewVotingMachine(candidates);
    memory := new MemoryStore(machine);
    r := Serve(memory, inputs);
    InitialConsistent(candidates);
    ReplayHandleKeeps(Initial(candidates), inputs);
  }
}
