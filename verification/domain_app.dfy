/**
 * The app loop of the first version with domain types: it tests attendance
 * and the roster itself instead of asking the machine for a decision, and
 * updates the attendance sheet and the counters in place.
 */
module DomainApp {
  import opened Tally
  import opened Domain
  import opened Commands

  /**
   * What one input does: a `voter` command from a new voter records the
   * voter first; then exactly three tokens count for a roster candidate, or
   * as invalid off the roster, and any other count is a blank vote.
   */
  function Step(machine: VotingMachine, input: Input): (next: VotingMachine)
    ensures next.scoreboard.scores.Keys == machine.scoreboard.scores.Keys
  {
    if IsVote(input) && Voter(input.args[1]) !in machine.voters then
      var args := input.args;
      var recorded := machine.(voters := machine.voters + {Voter(args[1])});
      var board := machine.scoreboard;
      if |args| == 3 then
        if Candidate(args[2]) in board.scores
        then recorded.(scoreboard := board.(scores := board.scores[Candidate(args[2]) := board.scores[Candidate(args[2])] + 1]))
        else recorded.(scoreboard := board.(invalid := board.invalid + 1))
      else recorded.(scoreboard := board.(blank := board.blank + 1))
    else machine
  }

  /** `run_app`'s loop over a finite run of inputs, starting from a fresh machine. */
  method RunApp(config: seq<string>, inputs: seq<Input>) returns (machine: VotingMachine)
    ensures machine == Replay(Step, Initial(Roster(config)), inputs)
    ensures machine.scoreboard.scores.Keys == RosterSet(Roster(config))
    ensures Consistent(machine)
  {
    var candidates := BuildRoster(config);
    machine := NewVotingMachine(candidates);
    var i := 0;
    while i < |inputs|
      invariant 0 <= i <= |inputs|
      invariant machine == Replay(Step, Initial(candidates), inputs[..i])
    {
      ghost var before := machine;
      match inputs[i] {
        case Eof =>
        case Line(args) =>
          if args[0] == "voter" && |args| != 1 {
            if Voter(args[1]) in machine.voters {
              // already voted: nothing changes
            } else {
              machine := machine.(voters := machine.voters + {Voter(args[1])});
              if |args| == 3 {
                var scores := machine.scoreboard.scores;
                if Candidate(args[2]) in scores {
                  machine := machine.(scoreboard := machine.scoreboard.(scores := scores[Candidate(args[2]) := scores[Candidate(args[2])] + 1]));
                } else {
                  machine := machine.(scoreboard := machine.scoreboard.(invalid := machine.scoreboard.invalid + 1));
                }
              } else {
                machine := machine.(scoreboard := machine.scoreboard.(blank := machine.scoreboard.blank + 1));
              }
            }
          }
      }
      assert machine == Step(before, inputs[i]);
      ReplaySnoc(Step, Initial(candidates), inputs, i);
      i := i + 1;
    }
    assert inputs[..|inputs|] == inputs;
    InitialConsistent(candidates);
    ReplayStepKeeps(Initial(candidates), inputs);
  }

  /** One input keeps one counted vote per voter, only adds voters and only raises counters. */
  lemma StepKeeps(machine: VotingMachine, input: Input)
    requires Consistent(machine)
    ensures Consistent(Step(machine, input))
    ensures Grows(machine, Step(machine, input))
  {
    if IsVote(input) && Voter(input.args[1]) !in machine.voters {
      var args := input.args;
      if |args| == 3 && Candidate(args[2]) in machine.scoreboard.scores {
        SumIncrement(machine.scoreboard.scores, Candidate(args[2]));
      }
    }
  }

  /** Every step keeps one counted vote per voter and the roster's key set. */
  lemma {:induction false} ReplayStepKeeps(machine: VotingMachine, inputs: seq<Input>)
    requires Consistent(machine)
    ensures Consistent(Replay(Step, machine, inputs))
    ensures Grows(machine, Replay(Step, machine, inputs))
    decreases |inputs|
  {
    if inputs != [] {
      var before := Replay(Step, machine, inputs[..|inputs| - 1]);
      ReplayStepKeeps(machine, inputs[..|inputs| - 1]);
      StepKeeps(before, inputs[|inputs| - 1]);
      GrowsTransitive(machine, before, Replay(Step, machine, inputs));
    }
  }

  /** With two or three tokens this loop and the later ones agree on every machine. */
  lemma AgreesWithHandle(machine: VotingMachine, input: Input)
    requires input.Line? && |input.args| <= 3
    ensures Step(machine, input) == Handle(machine, input)
  {
  }

  /**
   * A ballot of four tokens or more counts as blank in this loop, whatever
   * its third token: the same as a later ballot that names no candidate.
   */
  lemma ManyTokensBlank(machine: VotingMachine, input: Input)
    requires IsVote(input) && |input.args| >= 4
    ensures Step(machine, input) == Cast(machine, BallotPaper(Voter(input.args[1]), None))
  {
  }

  /**
   * With four tokens they part ways: this loop counts a blank vote, the
   * later ones count the third token as the candidate.
   */
  lemma FourTokensDiffer()
    ensures var machine := Initial([Candidate("E.Macron")]);
      var input := Line(["voter", "Jean", "E.Macron", "extra"]);
      && Step(machine, input).scoreboard.blank == 1
      && Handle(machine, input).scoreboard.scores[Candidate("E.Macron")] == 1
      && Handle(machine, input).scoreboard.blank == 0
  {
  }
}
