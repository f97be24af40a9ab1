/**
 * The storage capability the use cases and the last app loop work against:
 * fetch the whole snapshot, or replace it. A backend is either store.
 */
module Storage {
  import opened Errors
  import opened Domain
  import opened MemoryStorage
  import opened FileStorage

  datatype StorageType = Memory | File

  datatype Backend = InMemory(memory: MemoryStore) | OnDisk(disk: FileStore)

  /** The objects a backend's state lives in. */
  function Repr(backend: Backend): set<object>
  {
    match backend
    case InMemory(memory) => {memory}
    case OnDisk(disk) => {disk.file}
  }

  /** What a fetch would return now. */
  function Snapshot(backend: Backend): Result<VotingMachine>
    reads Repr(backend)
  {
    match backend
    case InMemory(memory) => if memory.poisoned then Err(LockFailed) else Ok(memory.machine)
    case OnDisk(disk) => Load(disk.file.content)
  }

  /** Whether every write lands: the lock is sound, or the disk is healthy. */
  predicate Reliable(backend: Backend)
    reads Repr(backend)
  {
    match backend
    case InMemory(memory) => !memory.poisoned
    case OnDisk(disk) => disk.file.health == Healthy
  }

  /** `get_voting_machine` on whichever store the backend is. */
  method Fetch(backend: Backend) returns (r: Result<VotingMachine>)
    ensures r == Snapshot(backend)
  {
    match backend
    case InMemory(memory) =>
      r := memory.GetVotingMachine();
    case OnDisk(disk) =>
      r := disk.GetVotingMachine();
  }

  /**
   * `put_voting_machine` on whichever store the backend is: a reliable
   * backend holds exactly the given machine afterwards; an unreliable one
   * reports an error and is either unchanged or no longer readable.
   */
  method Put(backend: Backend, machine: VotingMachine) returns (r: Result<()>)
    modifies Repr(backend)
    ensures Reliable(backend) == old(Reliable(backend))
    ensures old(Reliable(backend)) ==> r == Ok(()) && Snapshot(backend) == Ok(machine)
    ensures !old(Reliable(backend)) ==> r.Err? && (Snapshot(backend) == old(Snapshot(backend)) || Snapshot(backend).Err?)
    ensures backend.OnDisk? && backend.disk.file.health == ReadOnly ==> Snapshot(backend) == old(Snapshot(backend))
  {
    match backend
    case InMemory(memory) =>
      r := memory.PutVotingMachine(machine);
    case OnDisk(disk) =>
      r := disk.PutVotingMachine(machine);
      LoadAfterWrite(machine);
  }

  /**
   * The store the configuration selects, initialised with `machine`: a
   * memory store holding it, or a file store on the record file (`data.txt`
   * in the app) that keeps an existing record.
   */
  method Open(storageType: StorageType, machine: VotingMachine, file: DiskFile) returns (r: Result<Backend>)
    modifies file
    ensures storageType == Memory ==>
      && r.Ok? && r.value.InMemory? && fresh(r.value.memory)
      && Snapshot(r.value) == Ok(machine) && Reliable(r.value) && file.content == old(file.content)
    ensures storageType == File && old(file.content) == Garbled ==> r == Err(Malformed)
    ensures storageType == File && old(file.content) != Garbled ==> r.Ok? && r.value.OnDisk? && r.value.disk.file == file
    ensures storageType == File && file.health == Healthy && old(file.content).Holds? ==> file.content == old(file.content)
    ensures storageType == File && file.health == Healthy && old(file.content) == Missing ==> r.Ok? && Snapshot(r.value) == Ok(machine)
  {
    match storageType
    case Memory =>
      var memory := new MemoryStore(machine);
      r := Ok(InMemory(memory));
    case File =>
      var created := NewFileStore(machine, file);
      if created.Err? {
        return Err(created.error);
      }
      r := Ok(OnDisk(created.value));
      if file.health == Healthy && old(file.content) == Missing {
        LoadAfterWrite(machine);
      }
  }
}
