/**
 * The voting-state engine: voters, candidates, the scoreboard, the voting
 * machine that aggregates an attendance sheet and a scoreboard, the
 * four-way admission decision, and the caller-side step that applies an
 * outcome to a machine.
 */
module Domain {
  import opened Tally

  datatype Option<T> = None | Some(value: T)

  datatype Voter = Voter(name: string)

  datatype Candidate = Candidate(name: string)

  /** A vote counter; the source keeps it in a `usize`. */
  type Score = nat

  /** The voters who have cast a ballot. */
  type AttendanceSheet = set<Voter>

  /** One counter per roster candidate, plus the blank and the invalid counters. */
  datatype Scoreboard = Scoreboard(scores: map<Candidate, Score>, blank: Score, invalid: Score)

  /** A request to vote: the voter and, unless the ballot is blank, a candidate. */
  datatype BallotPaper = BallotPaper(voter: Voter, candidate: Option<Candidate>)

  datatype VoteOutcome =
    | AcceptedVote(voter: Voter, candidate: Candidate)
    | BlankVote(voter: Voter)
    | InvalidVote(voter: Voter)
    | HasAlreadyVoted(voter: Voter)

  /** The unit of persistence: who has voted and how the votes are counted. */
  datatype VotingMachine = VotingMachine(voters: AttendanceSheet, scoreboard: Scoreboard)

  /** The candidate names of a roster, as a set. */
  function RosterSet(roster: seq<Candidate>): set<Candidate>
  {
    set c | c in roster
  }

  /** The machine a session starts from: nobody has voted and every counter is zero. */
  function Initial(roster: seq<Candidate>): VotingMachine
  {
    VotingMachine({}, Scoreboard(map c | c in roster :: 0, 0, 0))
  }

  /** `Scoreboard::new`: one zero counter per roster candidate; blank and invalid start at zero. */
  method NewScoreboard(candidates: seq<Candidate>) returns (board: Scoreboard)
    ensures board.scores.Keys == RosterSet(candidates)
    ensures forall c :: c in board.scores ==> board.scores[c] == 0
    ensures board.blank == 0 && board.invalid == 0
    ensures board == Initial(candidates).scoreboard
  {
    var scores: map<Candidate, Score> := map[];
    for i := 0 to |candidates|
      invariant scores.Keys == RosterSet(candidates[..i])
      invariant forall c :: c in scores ==> scores[c] == 0
    {
      scores := scores[candidates[i] := 0];
    }
    assert candidates[..|candidates|] == candidates;
    board := Scoreboard(scores, 0, 0);
  }

  /** `VotingMachine::new`: an empty attendance sheet and the zeroed scoreboard for the roster. */
  method NewVotingMachine(candidates: seq<Candidate>) returns (machine: VotingMachine)
    ensures machine.voters == {}
    ensures machine.scoreboard.scores.Keys == RosterSet(candidates)
    ensures forall c :: c in machine.scoreboard.scores ==> machine.scoreboard.scores[c] == 0
    ensures machine.scoreboard.blank == 0 && machine.scoreboard.invalid == 0
    ensures machine == Initial(candidates)
  {
    var scoreboard := NewScoreboard(candidates);
    machine := VotingMachine({}, scoreboard);
  }

  /**
   * `VotingMachine::vote`: the admission decision. Attendance is checked
   * first, then the absence of a candidate, then roster membership. It
   * reads the machine and changes nothing.
   */
  function Vote(machine: VotingMachine, ballot: BallotPaper): (outcome: VoteOutcome)
    ensures outcome.voter == ballot.voter
    ensures outcome.HasAlreadyVoted? <==> ballot.voter in machine.voters
    ensures outcome.BlankVote? <==> ballot.voter !in machine.voters && ballot.candidate.None?
    ensures outcome.AcceptedVote? <==>
      ballot.voter !in machine.voters && ballot.candidate.Some? && ballot.candidate.value in machine.scoreboard.scores
    ensures outcome.AcceptedVote? ==> outcome.candidate == ballot.candidate.value
    ensures outcome.InvalidVote? <==>
      ballot.voter !in machine.voters && ballot.candidate.Some? && ballot.candidate.value !in machine.scoreboard.scores
  {
    if ballot.voter in machine.voters then
      HasAlreadyVoted(ballot.voter)
    else
      match ballot.candidate
      case Some(candidate) =>
        if candidate in machine.scoreboard.scores then AcceptedVote(ballot.voter, candidate)
        else InvalidVote(ballot.voter)
      case None => BlankVote(ballot.voter)
  }

  /** Adds one vote to `candidate`'s counter if it has one (`entry(..).and_modify(..)`). */
  function CountFor(board: Scoreboard, candidate: Candidate): Scoreboard
  {
    if candidate in board.scores
    then board.(scores := board.scores[candidate := board.scores[candidate] + 1])
    else board
  }

  /**
   * The caller-side update each outcome triggers in the app loops: record the
   * voter and add one to exactly one counter; `HasAlreadyVoted` changes nothing.
   */
  function Apply(machine: VotingMachine, outcome: VoteOutcome): (next: VotingMachine)
    ensures next.scoreboard.scores.Keys == machine.scoreboard.scores.Keys
    ensures outcome.HasAlreadyVoted? ==> next == machine
    ensures !outcome.HasAlreadyVoted? ==> next.voters == machine.voters + {outcome.voter}
    ensures next.scoreboard.blank == machine.scoreboard.blank + (if outcome.BlankVote? then 1 else 0)
    ensures next.scoreboard.invalid == machine.scoreboard.invalid + (if outcome.InvalidVote? then 1 else 0)
    ensures forall c :: c in machine.scoreboard.scores ==>
      next.scoreboard.scores[c] == machine.scoreboard.scores[c] + (if outcome == AcceptedVote(outcome.voter, c) then 1 else 0)
  {
    match outcome
    case AcceptedVote(voter, candidate) =>
      VotingMachine(machine.voters + {voter}, CountFor(machine.scoreboard, candidate))
    case BlankVote(voter) =>
      VotingMachine(machine.voters + {voter}, machine.scoreboard.(blank := machine.scoreboard.blank + 1))
    case InvalidVote(voter) =>
      VotingMachine(machine.voters + {voter}, machine.scoreboard.(invalid := machine.scoreboard.invalid + 1))
    case HasAlreadyVoted(_) => machine
  }

  /** Decide a ballot against a machine and apply the outcome to that same machine. */
  function Cast(machine: VotingMachine, ballot: BallotPaper): (next: VotingMachine)
    ensures next.voters == machine.voters + {ballot.voter}
    ensures next.scoreboard.scores.Keys == machine.scoreboard.scores.Keys
    ensures next == machine <==> ballot.voter in machine.voters
  {
    Apply(machine, Vote(machine, ballot))
  }

  /** Every vote counted anywhere on the scoreboard. */
  ghost function Counted(board: Scoreboard): nat
  {
    Sum(board.scores) + board.blank + board.invalid
  }

  /** The tally invariant: one counted vote per voter in attendance. */
  ghost predicate Consistent(machine: VotingMachine)
  {
    Counted(machine.scoreboard) == |machine.voters|
  }

  /** `next` is `machine` with possibly more voters and larger counters, over the same roster. */
  ghost predicate Grows(machine: VotingMachine, next: VotingMachine)
  {
    && machine.voters <= next.voters
    && next.scoreboard.scores.Keys == machine.scoreboard.scores.Keys
    && (forall c :: c in machine.scoreboard.scores ==> machine.scoreboard.scores[c] <= next.scoreboard.scores[c])
    && machine.scoreboard.blank <= next.scoreboard.blank
    && machine.scoreboard.invalid <= next.scoreboard.invalid
  }

  /** A fresh machine satisfies the tally invariant. */
  lemma InitialConsistent(roster: seq<Candidate>)
    ensures Consistent(Initial(roster))
    ensures Initial(roster).scoreboard.scores.Keys == RosterSet(roster)
  {
    SumZero(Initial(roster).scoreboard.scores);
  }

  /**
   * Casting a ballot counts exactly one vote when it admits a new voter and
   * none when the voter has already voted; so it keeps the tally invariant.
   */
  lemma CastCountsOnce(machine: VotingMachine, ballot: BallotPaper)
    ensures Counted(Cast(machine, ballot).scoreboard) ==
      Counted(machine.scoreboard) + (if ballot.voter in machine.voters then 0 else 1)
    ensures |Cast(machine, ballot).voters| == |machine.voters| + (if ballot.voter in machine.voters then 0 else 1)
    ensures Consistent(machine) ==> Consistent(Cast(machine, ballot))
  {
    var board := machine.scoreboard;
    var next := Cast(machine, ballot);
    match Vote(machine, ballot)
    case AcceptedVote(voter, candidate) =>
      assert next.scoreboard == board.(scores := board.scores[candidate := board.scores[candidate] + 1]);
      SumIncrement(board.scores, candidate);
    case BlankVote(voter) =>
      assert next.scoreboard == board.(blank := board.blank + 1);
    case InvalidVote(voter) =>
      assert next.scoreboard == board.(invalid := board.invalid + 1);
    case HasAlreadyVoted(voter) =>
      assert next == machine;
  }

  /** Casting never removes a voter, never lowers a counter and never changes the roster. */
  lemma CastGrows(machine: VotingMachine, ballot: BallotPaper)
    ensures Grows(machine, Cast(machine, ballot))
  {
  }

  /** Once a ballot has been cast, any later ballot from the same voter is refused. */
  lemma CastRecordsVoter(machine: VotingMachine, ballot: BallotPaper, again: BallotPaper)
    requires again.voter == ballot.voter
    ensures Vote(Cast(machine, ballot), again) == HasAlreadyVoted(ballot.voter)
  {
  }

  /**
   * Applying is not idempotent: the same accepted outcome applied twice
   * counts twice; refusing repeat voters is the decision's job alone.
   */
  lemma ApplyTwiceCountsTwice(machine: VotingMachine, voter: Voter, candidate: Candidate)
    requires candidate in machine.scoreboard.scores
    ensures var twice := Apply(Apply(machine, AcceptedVote(voter, candidate)), AcceptedVote(voter, candidate));
      twice.scoreboard.scores[candidate] == machine.scoreboard.scores[candidate] + 2
  {
  }

  /** `Grows` is transitive, so it holds across any number of casts. */
  lemma GrowsTransitive(a: VotingMachine, b: VotingMachine, c: VotingMachine)
    requires Grows(a, b) && Grows(b, c)
    ensures Grows(a, c)
  {
  }
}
