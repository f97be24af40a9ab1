/** The very first program: the legacy tally over a roster written into the code. */
module Spaghetti {
  import opened Tally
  import opened Commands
  import opened LegacyTally

  /** The hard-coded counters: the two pseudo-candidates and three candidates, all at zero. */
  function StartingVotes(): (votes: map<string, nat>)
    ensures votes.Keys == {"Nul", "Blanc", "M. Lepen", "E. Macron", "J. Chirac"}
    ensures forall k :: k in votes ==> votes[k] == 0
  {
    map["Nul" := 0, "Blanc" := 0, "M. Lepen" := 0, "E. Macron" := 0, "J. Chirac" := 0]
  }

  /** `main`'s loop over a finite run of inputs. */
  method Run(inputs: seq<Input>) returns (votants: seq<string>, votes: map<string, nat>)
    ensures Ledger(votants, votes) == Replay(Step, Ledger([], StartingVotes()), inputs)
    ensures votes.Keys == {"Nul", "Blanc", "M. Lepen", "E. Macron", "J. Chirac"}
    ensures Sound(Ledger(votants, votes))
  {
    votants, votes := LegacyTally.Run(StartingVotes(), inputs);
  }
}
