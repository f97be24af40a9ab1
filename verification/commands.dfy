/**
 * The command lines the app loops react to, already split into tokens, and
 * the steps they share from the in-memory version on: building the roster
 * from the configured names, turning a `voter` command into a ballot, and
 * casting it against the machine.
 */
module Commands {
  import opened Domain

  /** A non-empty token list: the loops index `args[0]` and panic on an empty one. */
  type Tokens = args: seq<string> | |args| > 0 witness ["voter"]

  /** One read from standard input: end of input, or a line holding at least one token. */
  datatype Input = Eof | Line(args: Tokens)

  /** The state reached from `start` once every input has been stepped through, in order. */
  function Replay<S>(step: (S, Input) -> S, start: S, inputs: seq<Input>): S
    decreases |inputs|
  {
    if inputs == [] then start
    else step(Replay(step, start, inputs[..|inputs| - 1]), inputs[|inputs| - 1])
  }

  /** Replaying one more input is one more step after the shorter replay. */
  lemma ReplaySnoc<S>(step: (S, Input) -> S, start: S, inputs: seq<Input>, i: nat)
    requires i < |inputs|
    ensures Replay(step, start, inputs[..i + 1]) == step(Replay(step, start, inputs[..i]), inputs[i])
  {
    assert inputs[..i + 1][..i] == inputs[..i];
  }

  /** The candidates built from the configured names, one per name and in order. */
  function Roster(config: seq<string>): seq<Candidate>
  {
    seq(|config|, i requires 0 <= i < |config| => Candidate(config[i]))
  }

  /** The pushing loop that builds the candidate list from the configuration. */
  method BuildRoster(config: seq<string>) returns (candidates: seq<Candidate>)
    ensures |candidates| == |config|
    ensures forall i :: 0 <= i < |config| ==> candidates[i] == Candidate(config[i])
    ensures candidates == Roster(config)
  {
    candidates := [];
    for i := 0 to |config|
      invariant |candidates| == i
      invariant forall j :: 0 <= j < i ==> candidates[j] == Candidate(config[j])
    {
      candidates := candidates + [Candidate(config[i])];
    }
  }

  /**
   * The ballot a `voter` command asks for: the second token names the voter;
   * a third token, when there is one, names the candidate and later tokens
   * are ignored.
   */
  function BallotFromTokens(args: seq<string>): (ballot: BallotPaper)
    requires |args| >= 2
    ensures ballot.voter == Voter(args[1])
    ensures ballot.candidate.None? <==> |args| == 2
    ensures |args| >= 3 ==> ballot.candidate == Some(Candidate(args[2]))
  {
    if |args| >= 3 then BallotPaper(Voter(args[1]), Some(Candidate(args[2])))
    else BallotPaper(Voter(args[1]), None)
  }

  /** A `voter` command that carries at least a voter name. */
  predicate IsVote(input: Input)
  {
    input.Line? && input.args[0] == "voter" && |input.args| >= 2
  }

  /** The inputs that make the loops read the stored machine. */
  predicate ReadsStore(input: Input)
  {
    IsVote(input) || (input.Line? && (input.args[0] == "votants" || input.args[0] == "scores"))
  }

  /**
   * What one input does to the machine from the in-memory version on: a
   * `voter` command with a name casts the ballot it describes; `voter` alone,
   * `votants`, `scores`, an unknown command and end of input change nothing.
   */
  function Handle(machine: VotingMachine, input: Input): (next: VotingMachine)
    ensures next.scoreboard.scores.Keys == machine.scoreboard.scores.Keys
    ensures IsVote(input) ==> next.voters == machine.voters + {Voter(input.args[1])}
    ensures !IsVote(input) ==> next == machine
  {
    if IsVote(input) then Cast(machine, BallotFromTokens(input.args)) else machine
  }

  /** One input line only adds voters and raises counters, over the same keys, whatever the machine. */
  lemma HandleGrows(machine: VotingMachine, input: Input)
    ensures Grows(machine, Handle(machine, input))
  {
    if IsVote(input) {
      CastGrows(machine, BallotFromTokens(input.args));
    }
  }

  /** Over any run of inputs, from any machine, voters are only added and counters only raised, over the same keys. */
  lemma {:induction false} ReplayHandleGrows(machine: VotingMachine, inputs: seq<Input>)
    ensures Grows(machine, Replay(Handle, machine, inputs))
    decreases |inputs|
  {
    if inputs != [] {
      var before := Replay(Handle, machine, inputs[..|inputs| - 1]);
      ReplayHandleGrows(machine, inputs[..|inputs| - 1]);
      HandleGrows(before, inputs[|inputs| - 1]);
      GrowsTransitive(machine, before, Replay(Handle, machine, inputs));
    }
  }

  /** One input line keeps the tally invariant in place and only lets the machine grow. */
  lemma HandleKeeps(machine: VotingMachine, input: Input)
    requires Consistent(machine)
    ensures Consistent(Handle(machine, input))
    ensures Grows(machine, Handle(machine, input))
  {
    if IsVote(input) {
      CastCountsOnce(machine, BallotFromTokens(input.args));
      CastGrows(machine, BallotFromTokens(input.args));
    }
  }

  /** Every input leaves the tally invariant in place and only lets the machine grow. */
  lemma {:induction false} ReplayHandleKeeps(machine: VotingMachine, inputs: seq<Input>)
    requires Consistent(machine)
    ensures Consistent(Replay(Handle, machine, inputs))
    ensures Grows(machine, Replay(Handle, machine, inputs))
    decreases |inputs|
  {
    if inputs != [] {
      var before := Replay(Handle, machine, inputs[..|inputs| - 1]);
      ReplayHandleKeeps(machine, inputs[..|inputs| - 1]);
      HandleKeeps(before, inputs[|inputs| - 1]);
      GrowsTransitive(machine, before, Replay(Handle, machine, inputs));
    }
  }

  /** Only `voter` commands with a name can change the machine. */
  lemma {:induction false} ReplayWithoutVotes(machine: VotingMachine, inputs: seq<Input>)
    requires forall i :: 0 <= i < |inputs| ==> !IsVote(inputs[i])
    ensures Replay(Handle, machine, inputs) == machine
    decreases |inputs|
  {
    if inputs != [] {
      ReplayWithoutVotes(machine, inputs[..|inputs| - 1]);
    }
  }
}
