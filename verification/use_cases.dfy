/** The use cases a front end calls: build a ballot from a form, vote, read the machine. */
module UseCases {
  import opened Errors
  import opened Domain
  import opened Storage

  /** The form a front end submits; an empty candidate stands for a blank ballot. */
  datatype VoteForm = VoteForm(voter: string, candidate: string)

  /** `From<VoteForm> for BallotPaper`. */
  function BallotFromForm(form: VoteForm): (ballot: BallotPaper)
    ensures ballot.voter == Voter(form.voter)
    ensures ballot.candidate.None? <==> form.candidate == ""
    ensures ballot.candidate.Some? ==> ballot.candidate.value == Candidate(form.candidate)
  {
    var candidate := if form.candidate == "" then None else Some(Candidate(form.candidate));
    BallotPaper(Voter(form.voter), candidate)
  }

  /** The form that describes a ballot: the reverse reading of `BallotFromForm`. */
  function FormFromBallot(ballot: BallotPaper): VoteForm
  {
    VoteForm(ballot.voter.name, match ballot.candidate case None => "" case Some(c) => c.name)
  }

  /** Every form survives the trip through a ballot. */
  lemma FormRoundTrip(form: VoteForm)
    ensures FormFromBallot(BallotFromForm(form)) == form
  {
  }

  /**
   * Every ballot survives the trip through a form except one naming a
   * candidate with an empty name, which a form cannot express.
   */
  lemma BallotRoundTrip(ballot: BallotPaper)
    ensures BallotFromForm(FormFromBallot(ballot)) == ballot <==> ballot.candidate != Some(Candidate(""))
  {
  }

  /** `vote`: decide the form's ballot against the fetched snapshot; nothing is written. */
  method Vote(store: Backend, form: VoteForm) returns (r: Result<VoteOutcome>)
    ensures Snapshot(store).Err? ==> r == Err(Snapshot(store).error)
    ensures Snapshot(store).Ok? ==> r == Ok(Domain.Vote(Snapshot(store).value, BallotFromForm(form)))
  {
    var fetched := Fetch(store);
    if fetched.Err? {
      return Err(fetched.error);
    }
    r := Ok(Domain.Vote(fetched.value, BallotFromForm(form)));
  }

  /** `get_voting_machine`: the store's snapshot as it is. */
  method GetVotingMachine(store: Backend) returns (r: Result<VotingMachine>)
    ensures r == Snapshot(store)
  {
    r := Fetch(store);
  }
}
