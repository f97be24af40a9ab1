/**
 * The tally of the versions before the domain types: a list of voter names
 * and one map from name to count in which the pseudo-candidates `Blanc`
 * (blank) and `Nul` (invalid) sit beside the real candidates.
 */
module LegacyTally {
  import opened Tally
  import opened Commands

  /** The key counting blank votes. */
  const Blank := "Blanc"
  /** The key counting invalid votes (`Nul`, French for void). */
  const Invalid := "Nul"

  /** The voters in the order they voted, and every counter by name. */
  datatype Ledger = Ledger(votants: seq<string>, votes: map<string, nat>)

  /** No name appears twice in the list. */
  predicate Distinct(names: seq<string>)
  {
    forall i, j :: 0 <= i < j < |names| ==> names[i] != names[j]
  }

  /** The pseudo-candidates are present, nobody is listed twice, and one vote is counted per voter. */
  ghost predicate Sound(ledger: Ledger)
  {
    && Blank in ledger.votes && Invalid in ledger.votes
    && Distinct(ledger.votants)
    && Sum(ledger.votes) == |ledger.votants|
  }

  /**
   * What one input does: a `voter` command from a name not yet listed
   * appends the name; then exactly three tokens count for the named key if
   * the map has it (`Blanc` and `Nul` included) or for `Nul` if not, and any
   * other count is a vote for `Blanc`.
   */
  // The source reads the `Blanc` and `Nul` counters with `expect`, which
  // panics if one is missing. Every ledger `Run` builds holds both, so the
  // guard below only leaves a ledger without them, which no run reaches,
  // unchanged instead of modelling the panic.
  function Step(ledger: Ledger, input: Input): (next: Ledger)
    ensures Blank in ledger.votes && Invalid in ledger.votes ==> next.votes.Keys == ledger.votes.Keys
  {
    if IsVote(input) && input.args[1] !in ledger.votants && Blank in ledger.votes && Invalid in ledger.votes then
      var args := input.args;
      var key := if |args| == 3 then (if args[2] in ledger.votes then args[2] else Invalid) else Blank;
      Ledger(ledger.votants + [args[1]], ledger.votes[key := ledger.votes[key] + 1])
    else ledger
  }

  /**
   * The loop itself, from an empty voter list and the given counters: every
   * input is stepped through in place.
   */
  method Run(votes0: map<string, nat>, inputs: seq<Input>) returns (votants: seq<string>, votes: map<string, nat>)
    requires Blank in votes0 && Invalid in votes0
    requires forall k :: k in votes0 ==> votes0[k] == 0
    ensures Ledger(votants, votes) == Replay(Step, Ledger([], votes0), inputs)
    ensures votes.Keys == votes0.Keys
    ensures Sound(Ledger(votants, votes))
  {
    votants, votes := [], votes0;
    var i := 0;
    while i < |inputs|
      invariant 0 <= i <= |inputs|
      invariant Blank in votes && Invalid in votes
      invariant Ledger(votants, votes) == Replay(Step, Ledger([], votes0), inputs[..i])
    {
      ghost var before := Ledger(votants, votes);
      match inputs[i] {
        case Eof =>
        case Line(args) =>
          if args[0] == "voter" && |args| != 1 {
            if args[1] in votants {
              // already voted: nothing changes
            } else {
              votants := votants + [args[1]];
              if |args| == 3 {
                if args[2] in votes {
                  votes := votes[args[2] := votes[args[2]] + 1];
                } else {
                  votes := votes[Invalid := votes[Invalid] + 1];
                }
              } else {
                votes := votes[Blank := votes[Blank] + 1];
              }
            }
          }
      }
      assert Ledger(votants, votes) == Step(before, inputs[i]);
      ReplaySnoc(Step, Ledger([], votes0), inputs, i);
      i := i + 1;
    }
    assert inputs[..|inputs|] == inputs;
    SumZero(votes0);
    ReplayStepKeeps(Ledger([], votes0), inputs);
  }

  /** One input keeps the ledger sound: a new voter is listed once and counted once. */
  lemma StepKeeps(ledger: Ledger, input: Input)
    requires Sound(ledger)
    ensures Sound(Step(ledger, input))
  {
    if IsVote(input) && input.args[1] !in ledger.votants {
      var args := input.args;
      var key := if |args| == 3 then (if args[2] in ledger.votes then args[2] else Invalid) else Blank;
      SumIncrement(ledger.votes, key);
    }
  }

  /** Every step keeps the ledger sound and its key set fixed. */
  lemma {:induction false} ReplayStepKeeps(ledger: Ledger, inputs: seq<Input>)
    requires Sound(ledger)
    ensures Sound(Replay(Step, ledger, inputs))
    ensures Replay(Step, ledger, inputs).votes.Keys == ledger.votes.Keys
    decreases |inputs|
  {
    if inputs != [] {
      var before := Replay(Step, ledger, inputs[..|inputs| - 1]);
      ReplayStepKeeps(ledger, inputs[..|inputs| - 1]);
      StepKeeps(before, inputs[|inputs| - 1]);
    }
  }

  /** The names `run_app` keeps counters for: `Blanc`, `Nul` and every configured name. */
  function CounterNames(config: seq<string>): set<string>
  {
    {Blank, Invalid} + (set c | c in config)
  }

  /** The counters `run_app` starts from, all at zero. */
  function InitialVotes(config: seq<string>): map<string, nat>
  {
    map k | k in CounterNames(config) :: 0
  }

  /** The insertions that build the starting counters. */
  method NewVotes(config: seq<string>) returns (votes: map<string, nat>)
    ensures votes.Keys == CounterNames(config)
    ensures forall k :: k in votes ==> votes[k] == 0
    ensures votes == InitialVotes(config)
  {
    votes := map[];
    votes := votes[Blank := 0];
    votes := votes[Invalid := 0];
    for i := 0 to |config|
      invariant votes.Keys == {Blank, Invalid} + (set c | c in config[..i])
      invariant forall k :: k in votes ==> votes[k] == 0
    {
      votes := votes[config[i] := 0];
    }
    assert config[..|config|] == config;
  }

  /** `run_app`: the configured counters, then the loop over the inputs. */
  method RunApp(config: seq<string>, inputs: seq<Input>) returns (votants: seq<string>, votes: map<string, nat>)
    ensures Ledger(votants, votes) == Replay(Step, Ledger([], InitialVotes(config)), inputs)
    ensures votes.Keys == CounterNames(config)
    ensures Sound(Ledger(votants, votes))
  {
    var votes0 := NewVotes(config);
    votants, votes := Run(votes0, inputs);
  }
}
