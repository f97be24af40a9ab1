/**
 * How the string-keyed tally of the early versions relates to the domain
 * tally that replaced it: as long as nobody names `Blanc` or `Nul` on a
 * ballot, both loops count the same votes for the same voters.
 */
module Versions {
  import opened Domain
  import opened Commands
  import LegacyTally
  import DomainApp

  /**
   * The ledger and the machine describe the same state: the same voter
   * names, the `Blanc` and `Nul` counters as the blank and invalid counts,
   * and one counter per roster candidate, none of them named like a
   * pseudo-candidate.
   */
  ghost predicate Mirrors(ledger: LegacyTally.Ledger, machine: VotingMachine)
  {
    var scores := machine.scoreboard.scores;
    && (forall n :: n in ledger.votants <==> Voter(n) in machine.voters)
    && Candidate(LegacyTally.Blank) !in scores && Candidate(LegacyTally.Invalid) !in scores
    && (forall k :: k in ledger.votes <==> k == LegacyTally.Blank || k == LegacyTally.Invalid || Candidate(k) in scores)
    && (forall c :: c in scores ==> c.name in ledger.votes && ledger.votes[c.name] == scores[c])
    && LegacyTally.Blank in ledger.votes && ledger.votes[LegacyTally.Blank] == machine.scoreboard.blank
    && LegacyTally.Invalid in ledger.votes && ledger.votes[LegacyTally.Invalid] == machine.scoreboard.invalid
  }

  /** A ballot with exactly three tokens that names a pseudo-candidate. */
  predicate NamesPseudo(input: Input)
  {
    IsVote(input) && |input.args| == 3 && (input.args[2] == LegacyTally.Blank || input.args[2] == LegacyTally.Invalid)
  }

  /** The two starting states agree when the configuration does not list a pseudo-candidate. */
  lemma InitialMirrors(config: seq<string>)
    requires LegacyTally.Blank !in config && LegacyTally.Invalid !in config
    ensures Mirrors(LegacyTally.Ledger([], LegacyTally.InitialVotes(config)), Initial(Roster(config)))
  {
    var roster := Roster(config);
    forall k
      ensures Candidate(k) in roster <==> k in config
    {
      if k in config {
        var i :| 0 <= i < |config| && config[i] == k;
        assert roster[i] == Candidate(k);
      }
    }
  }

  /** One input keeps the two states in agreement unless it names a pseudo-candidate. */
  lemma StepMirrors(ledger: LegacyTally.Ledger, machine: VotingMachine, input: Input)
    requires Mirrors(ledger, machine)
    requires !NamesPseudo(input)
    ensures Mirrors(LegacyTally.Step(ledger, input), DomainApp.Step(machine, input))
  {
    if IsVote(input) {
      var args := input.args;
      assert args[1] in ledger.votants <==> Voter(args[1]) in machine.voters;
      if |args| == 3 && args[2] in ledger.votes {
        assert Candidate(args[2]) in machine.scoreboard.scores;
        assert Candidate(args[2]).name == args[2];
      }
    }
  }

  /** Over a run of inputs none of which names a pseudo-candidate, both loops end in agreement. */
  lemma {:induction false} ReplayMirrors(ledger: LegacyTally.Ledger, machine: VotingMachine, inputs: seq<Input>)
    requires Mirrors(ledger, machine)
    requires forall i :: 0 <= i < |inputs| ==> !NamesPseudo(inputs[i])
    ensures Mirrors(Replay(LegacyTally.Step, ledger, inputs), Replay(DomainApp.Step, machine, inputs))
    decreases |inputs|
  {
    if inputs != [] {
      var prefix := inputs[..|inputs| - 1];
      ReplayMirrors(ledger, machine, prefix);
      StepMirrors(Replay(LegacyTally.Step, ledger, prefix), Replay(DomainApp.Step, machine, prefix), inputs[|inputs| - 1]);
    }
  }

  /**
   * Naming `Blanc` on a ballot is where they part: the early loop finds the
   * key and counts a blank vote, the domain loop finds no such candidate and
   * counts an invalid one.
   */
  lemma PseudoNameDiffers()
    ensures var input := Line(["voter", "Jean", "Blanc"]);
      var ledger := LegacyTally.Step(LegacyTally.Ledger([], LegacyTally.InitialVotes(["E.Macron"])), input);
      var machine := DomainApp.Step(Initial(Roster(["E.Macron"])), input);
      && ledger.votes[LegacyTally.Blank] == 1
      && machine.scoreboard.blank == 0 && machine.scoreboard.invalid == 1
  {
    var votes := LegacyTally.InitialVotes(["E.Macron"]);
    assert LegacyTally.Blank in LegacyTally.CounterNames(["E.Macron"]);
    assert LegacyTally.Blank in votes;
    assert Candidate("Blanc") !in Initial(Roster(["E.Macron"])).scoreboard.scores;
  }
}
