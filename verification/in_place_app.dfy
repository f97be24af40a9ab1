/**
 * The in-memory app loop: one machine, updated in place through its
 * attendance sheet and scoreboard after each decision.
 */
module InPlaceApp {
  import opened Domain
  import opened Commands

  /**
   * `run_app` over a finite run of inputs: build the roster, start a fresh
   * machine, then for each `voter` command decide the ballot and apply the
   * outcome to the machine.
   */
  method RunApp(config: seq<string>, inputs: seq<Input>) returns (machine: VotingMachine)
    ensures machine == Replay(Handle, Initial(Roster(config)), inputs)
    ensures machine.scoreboard.scores.Keys == RosterSet(Roster(config))
    ensures Consistent(machine)
  {
    var candidates := BuildRoster(config);
    machine := NewVotingMachine(candidates);
    var i := 0;
    while i < |inputs|
      invariant 0 <= i <= |inputs|
      invariant machine == Replay(Handle, Initial(candidates), inputs[..i])
    {
      ghost var before := machine;
      match inputs[i] {
        case Eof =>
        case Line(args) =>
          if args[0] == "voter" && |args| != 1 {
            var ballot := if |args| >= 3 then BallotPaper(Voter(args[1]), Some(Candidate(args[2])))
                          else BallotPaper(Voter(args[1]), None);
            var outcome := Vote(machine, ballot);
            match outcome {
              case AcceptedVote(voter, candidate) =>
                machine := machine.(voters := machine.voters + {voter});
                var scores := machine.scoreboard.scores;
                if candidate in scores {
                  machine := machine.(scoreboard := machine.scoreboard.(scores := scores[candidate := scores[candidate] + 1]));
                }
              case BlankVote(voter) =>
                machine := machine.(voters := machine.voters + {voter});
                machine := machine.(scoreboard := machine.scoreboard.(blank := machine.scoreboard.blank + 1));
              case InvalidVote(voter) =>
                machine := machine.(voters := machine.voters + {voter});
                machine := machine.(scoreboard := machine.scoreboard.(invalid := machine.scoreboard.invalid + 1));
              case HasAlreadyVoted(_) =>
            }
          }
      }
      assert machine == Handle(before, inputs[i]);
      ReplaySnoc(Handle, Initial(candidates), inputs, i);
      i := i + 1;
    }
    assert inputs[..|inputs|] == inputs;
    InitialConsistent(candidates);
    ReplayHandleKeeps(Initial(candidates), inputs);
  }
}
