/** The in-memory backend: one machine held behind a read/write lock. */
module MemoryStorage {
  import opened Errors
  import opened Domain

  /**
   * The held machine and the state of its lock. A lock is poisoned when a
   * thread panics while holding it; after that every acquisition fails.
   */
  class MemoryStore {
    var machine: VotingMachine
    var poisoned: bool

    /** `MemoryStore::new`: holds exactly the given machine. */
    constructor (newMachine: VotingMachine)
      ensures machine == newMachine && !poisoned
    {
      machine := newMachine;
      poisoned := false;
    }

    /**
     * `get_voting_machine`: a copy of the held machine, or an error when the
     * read lock cannot be taken. Machines are values, so changing the copy
     * leaves the held machine as it is until it is put back.
     */
    method GetVotingMachine() returns (r: Result<VotingMachine>)
      ensures poisoned ==> r == Err(LockFailed)
      ensures !poisoned ==> r == Ok(machine)
    {
      if poisoned {
        return Err(LockFailed);
      }
      r := Ok(machine);
    }

    /** `put_voting_machine`: replaces the held machine outright, or fails without a change. */
    method PutVotingMachine(newMachine: VotingMachine) returns (r: Result<()>)
      modifies this
      ensures poisoned == old(poisoned)
      ensures old(poisoned) ==> r == Err(LockFailed) && machine == old(machine)
      ensures !old(poisoned) ==> r == Ok(()) && machine == newMachine
    {
      if poisoned {
        return Err(LockFailed);
      }
      machine := newMachine;
      r := Ok(());
    }
  }
}
