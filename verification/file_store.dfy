/**
 * The file backend: the data-access objects the record is serialised from,
 * the conversions between them and the domain types, and a store that reads
 * and rewrites one record file.
 *
 * The JSON encoding is abstracted away: a file either is missing, holds
 * content that does not decode, or holds exactly one encoded
 * `VotingMachineDao`.
 */
module FileStorage {
  import opened Errors
  import opened Domain

  datatype ScoreboardDao = ScoreboardDao(scores: map<string, nat>, blankScores: nat, invalidScore: nat)

  datatype VotingMachineDao = VotingMachineDao(voters: set<string>, scoreboard: ScoreboardDao)

  /** The voters' names. */
  function VoterNames(voters: set<Voter>): set<string>
  {
    set v | v in voters :: v.name
  }

  /** `From<Scoreboard> for ScoreboardDao`: every candidate by name with its count. */
  function ScoreboardToDao(board: Scoreboard): (dao: ScoreboardDao)
    ensures dao.scores.Keys == set c | c in board.scores :: c.name
    ensures forall c :: c in board.scores ==> dao.scores[c.name] == board.scores[c]
    ensures dao.blankScores == board.blank && dao.invalidScore == board.invalid
  {
    ScoreboardDao(map c | c in board.scores :: c.name := board.scores[c], board.blank, board.invalid)
  }

  /** `From<ScoreboardDao> for Scoreboard`: every name as a candidate with its count. */
  function ScoreboardFromDao(dao: ScoreboardDao): (board: Scoreboard)
    ensures board.scores.Keys == set n | n in dao.scores :: Candidate(n)
    ensures forall n :: n in dao.scores ==> board.scores[Candidate(n)] == dao.scores[n]
    ensures board.blank == dao.blankScores && board.invalid == dao.invalidScore
  {
    Scoreboard(map n | n in dao.scores :: Candidate(n) := dao.scores[n], dao.blankScores, dao.invalidScore)
  }

  /** `From<VotingMachine> for VotingMachineDao`. */
  function MachineToDao(machine: VotingMachine): (dao: VotingMachineDao)
    ensures forall n :: n in dao.voters <==> Voter(n) in machine.voters
    ensures dao.scoreboard == ScoreboardToDao(machine.scoreboard)
  {
    VotingMachineDao(VoterNames(machine.voters), ScoreboardToDao(machine.scoreboard))
  }

  /** `From<VotingMachineDao> for VotingMachine`. */
  function MachineFromDao(dao: VotingMachineDao): (machine: VotingMachine)
    ensures forall n :: n in dao.voters <==> Voter(n) in machine.voters
    ensures machine.scoreboard == ScoreboardFromDao(dao.scoreboard)
  {
    VotingMachine(set n | n in dao.voters :: Voter(n), ScoreboardFromDao(dao.scoreboard))
  }

  /** Distinct voters have distinct names, so naming them keeps the count. */
  lemma {:induction false} VoterNamesSize(voters: set<Voter>)
    ensures |VoterNames(voters)| == |voters|
    decreases voters
  {
    if voters != {} {
      var v :| v in voters;
      var rest := voters - {v};
      VoterNamesSize(rest);
      assert VoterNames(voters) == VoterNames(rest) + {v.name};
      assert v.name !in VoterNames(rest);
    }
  }

  /** The attendance sheet of a stored machine has as many names as the machine has voters. */
  lemma MachineToDaoKeepsVoters(machine: VotingMachine)
    ensures |MachineToDao(machine).voters| == |machine.voters|
    ensures forall v :: v in machine.voters <==> v.name in MachineToDao(machine).voters
  {
    VoterNamesSize(machine.voters);
  }

  /** Candidate counts to record and back give the same counts. */
  lemma ScoreboardRoundTrip(board: Scoreboard)
    ensures ScoreboardFromDao(ScoreboardToDao(board)) == board
  {
    var dao := ScoreboardToDao(board);
    var back := ScoreboardFromDao(dao);
    assert back.scores.Keys == board.scores.Keys by {
      forall c ensures c in back.scores <==> c in board.scores {
        assert c == Candidate(c.name);
      }
    }
    forall c | c in board.scores ensures back.scores[c] == board.scores[c] {
      assert c.name in dao.scores;
    }
  }

  /** Record counts to scoreboard and back give the same record counts. */
  lemma ScoreboardDaoRoundTrip(dao: ScoreboardDao)
    ensures ScoreboardToDao(ScoreboardFromDao(dao)) == dao
  {
    var board := ScoreboardFromDao(dao);
    var back := ScoreboardToDao(board);
    assert back.scores.Keys == dao.scores.Keys by {
      forall n ensures n in back.scores <==> n in dao.scores {
        assert Candidate(n).name == n;
      }
    }
    forall n | n in dao.scores ensures back.scores[n] == dao.scores[n] {
      assert Candidate(n) in board.scores;
    }
  }

  /** Machine to record and back gives the same machine. */
  lemma MachineRoundTrip(machine: VotingMachine)
    ensures MachineFromDao(MachineToDao(machine)) == machine
  {
    var back := MachineFromDao(MachineToDao(machine));
    assert back.voters == machine.voters by {
      forall v ensures v in back.voters <==> v in machine.voters {
        assert v == Voter(v.name);
      }
    }
    ScoreboardRoundTrip(machine.scoreboard);
  }

  /** Record to machine and back gives the same record. */
  lemma DaoRoundTrip(dao: VotingMachineDao)
    ensures MachineToDao(MachineFromDao(dao)) == dao
  {
    var back := MachineToDao(MachineFromDao(dao));
    assert back.voters == dao.voters by {
      forall n ensures n in back.voters <==> n in dao.voters {
        assert Voter(n).name == n;
      }
    }
    ScoreboardDaoRoundTrip(dao.scoreboard);
  }

  /** What the record file holds. */
  datatype FileContent = Missing | Garbled | Holds(dao: VotingMachineDao)

  /**
   * How the disk behaves when the record is written: `ReadOnly` refuses to
   * create the file; `Full` creates (truncates) it but the write fails part
   * way, leaving content that does not decode.
   */
  datatype DiskHealth = Healthy | ReadOnly | Full

  /** Open, read to the end and decode the record: missing and undecodable files are errors. */
  function Load(content: FileContent): (r: Result<VotingMachine>)
    ensures content.Missing? ==> r == Err(NotFound)
    ensures content.Garbled? ==> r == Err(Malformed)
    ensures content.Holds? ==> r.Ok? && MachineToDao(r.value) == content.dao
  {
    match content
    case Missing => Err(NotFound)
    case Garbled => Err(Malformed)
    case Holds(dao) =>
      DaoRoundTrip(dao);
      Ok(MachineFromDao(dao))
  }

  /** Writing a machine and loading it back gives that machine. */
  lemma LoadAfterWrite(machine: VotingMachine)
    ensures Load(Holds(MachineToDao(machine))) == Ok(machine)
  {
    MachineRoundTrip(machine);
  }

  /** The record file at the store's path. */
  class DiskFile {
    var content: FileContent
    const health: DiskHealth

    constructor (content: FileContent, health: DiskHealth)
      ensures this.content == content && this.health == health
    {
      this.content := content;
      this.health := health;
    }
  }

  /** A store that keeps the machine in a record file and rereads it on every fetch. */
  class FileStore {
    const file: DiskFile

    constructor (file: DiskFile)
      ensures this.file == file
    {
      this.file := file;
    }

    /** `get_voting_machine`: open, read and decode; every failure is returned. */
    method GetVotingMachine() returns (r: Result<VotingMachine>)
      ensures r == Load(file.content)
      ensures r.Ok? ==> file.content == Holds(MachineToDao(r.value))
    {
      r := Load(file.content);
    }

    /**
     * `put_voting_machine`: create (truncating) and write the whole record;
     * the file never keeps any part of the previous record.
     */
    method PutVotingMachine(machine: VotingMachine) returns (r: Result<()>)
      modifies file
      ensures file.health == Healthy ==> r == Ok(()) && file.content == Holds(MachineToDao(machine))
      ensures file.health == ReadOnly ==> r == Err(WriteFailed) && file.content == old(file.content)
      ensures file.health == Full ==> r == Err(WriteFailed) && file.content == Garbled
    {
      if file.health == ReadOnly {
        return Err(WriteFailed);
      }
      file.content := Garbled;
      if file.health == Full {
        return Err(WriteFailed);
      }
      file.content := Holds(MachineToDao(machine));
      r := Ok(());
    }
  }

  /**
   * `FileStore::new`: an existing record is kept and the given machine
   * ignored; otherwise the file is created and the given machine written.
   * Only a failure to read back an existing record is returned; write
   * failures are discarded.
   */
  method NewFileStore(machine: VotingMachine, file: DiskFile) returns (r: Result<FileStore>)
    modifies file
    ensures old(file.content) == Garbled ==> r == Err(Malformed) && file.content == Garbled
    ensures old(file.content) != Garbled ==> r.Ok? && r.value.file == file
    ensures old(file.content).Holds? && file.health == Healthy ==> file.content == old(file.content)
    ensures old(file.content) == Missing && file.health == Healthy ==> file.content == Holds(MachineToDao(machine))
    ensures file.health == ReadOnly ==> file.content == old(file.content)
    ensures old(file.content) != Garbled && file.health == Full ==> file.content == Garbled
  {
    var start: VotingMachine;
    var existed := file.content != Missing;
    if existed {
      var loaded := Load(file.content);
      if loaded.Err? {
        return Err(loaded.error);
      }
      start := loaded.value;
    } else {
      start := machine;
    }
    if file.content == Missing && file.health != ReadOnly {
      file.content := Garbled;  // `File::create` leaves an empty file, which does not decode
    }
    var store := new FileStore(file);
    var _ := store.PutVotingMachine(start);
    r := Ok(store);
  }
}
