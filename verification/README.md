# Voting machine — a Dafny model

A command-line voting machine, in the successive versions of its Rust
sources. Voters type `voter <name> [<candidate>]` to cast a ballot; `votants`
lists who has voted and `scores` lists the tally. A voter may vote only
once. A ballot without a candidate is a blank vote. A ballot naming someone
off the configured roster is an invalid vote.

- The early versions keep the tally in a name-to-count map. In that map the
  pseudo-candidates `Blanc` (blank) and `Nul` (invalid) sit beside the real
  candidates, and the voters are kept as a list of names.
- Later versions introduce domain types: a `VotingMachine` holding an
  attendance sheet and a `Scoreboard`, plus a pure `vote` decision.
- After that, the machine lives in a storage backend. There is an in-memory
  store behind a lock, and a file store that persists the machine as a JSON
  record through serialisable mirror types.
- The last version picks the backend from the configuration. It reads the
  machine through the `get_voting_machine` use case and asks that copy's
  `vote` for the decision; the `vote` use case is defined beside it but the
  loop does not call it.

The model's modules follow the program:

| module | file | models |
|---|---|---|
| `Tally` | tally.dfy | the sum of a count map, used to state "one counted vote per voter" |
| `Domain` | domain.dfy | `Voter`, `Candidate`, `Scoreboard`, `BallotPaper`, `VoteOutcome`, `VotingMachine`; construction, the `vote` decision, and the state change each outcome causes |
| `Errors` | errors.dfy | the storage errors the backends can report |
| `Commands` | commands.dfy | the parsed input lines, the roster built from the configuration, the ballot built from tokens, and the fold of the app loop over a run of inputs |
| `FileStorage` | file_store.dfy | the serialisable mirror types and their conversions; the record file; the file store (`get`, `put`, `new`) |
| `MemoryStorage` | memory_store.dfy | the locked in-memory store |
| `Storage` | storage.dfy | the storage capability over both backends, and backend selection |
| `UseCases` | use_cases.dfy | the vote form, `vote`, `get_voting_machine` |
| `Spaghetti`, `LegacyTally` | spaghetti.dfy, legacy_tally.dfy | the hard-coded and the configured string-keyed loops |
| `DomainApp` | domain_app.dfy | the first loop over domain types, which updates the machine in place |
| `InPlaceApp` | in_place_app.dfy | the loop that applies `vote`'s outcome to its own machine |
| `StoreApp` | store_app.dfy | the loop over a memory store: fetch, decide, fetch, update, put |
| `UseCaseApp` | use_case_app.dfy | the loop over the configured backend through the use cases |
| `Versions` | versions.dfy | how the string-keyed tally and the domain tally correspond |

The invariant behind most of the properties is `Domain.Consistent`: the
blank, invalid and per-candidate counts add up to the number of voters on
the attendance sheet. Every loop version is proved to keep it. Every loop
is also proved to keep the roster's key set unchanged, so no counter is ever
added or dropped. For the store-backed loops this holds for every readable
snapshot they leave, whether they started from a fresh machine or from a
stored record.

Every app loop is modelled over a finite sequence of already tokenised
input lines. The `Replay` fold gives the state after each prefix.

- The loops that keep the machine in a local variable (`Spaghetti`,
  `LegacyTally`, `DomainApp`, `InPlaceApp`) are proved to end in exactly the
  `Replay` state of their single-input step, for every run.
- `StoreApp.Serve` proves the same only while the lock is sound.
- `UseCaseApp.Serve` proves it only on a reliable backend whose snapshot is
  readable at the start.

On a poisoned lock, a read-only disk or a full disk, the end state is not
the `Replay` state. There the model proves what remains: the snapshot stays
or becomes unreadable, any readable snapshot only grows from the start and
keeps the tally invariant, and a run that starts unreadable leaves the
snapshot alone. The listed properties are then proved about
the single-input steps.

## Model

| member | source | states |
|---|---|---|
| Domain.NewScoreboard | v041_file/src/domain.rs:27-43 | the new scoreboard has one counter per roster candidate and no other, every counter is zero, and blank and invalid are zero |
| Domain.NewVotingMachine | v041_file/src/domain.rs:81-90 | a new machine has an empty attendance sheet and a zeroed scoreboard over exactly the roster |
| Domain.Vote | v041_file/src/domain.rs:96-113 | the four outcomes, each as an if-and-only-if. A voter on the sheet is refused. Otherwise: no candidate is blank; a roster candidate is accepted; anyone else is invalid. The outcome names the ballot's voter, and an accepted outcome names the ballot's candidate. |
| Domain.Apply | v040_memory/src/app_builder.rs:57-80 | applying an outcome adds the voter to the sheet and raises at most one counter by one: the accepted candidate's when it is on the roster (an accepted candidate off the roster raises nothing), the blank count, or the invalid count; a refused ballot changes nothing; the roster's keys never change |
| Domain.Cast | v040_memory/src/app_builder.rs:57-80 | deciding a ballot and applying the outcome to the same machine always leaves the voter on the sheet and keeps the key set; the machine is unchanged exactly when the voter had already voted |
| Domain.InitialConsistent | v030_domain/src/domain.rs:60-69 | a fresh machine counts zero votes for zero voters, over the roster's keys |
| Domain.CastCountsOnce | v040_memory/src/app_builder.rs:57-80 | deciding and applying one ballot raises the total count by one exactly when the sheet gains a voter, so one counted vote per voter is preserved |
| Domain.CastGrows | v040_memory/src/app_builder.rs:61-78 | a cast only adds voters and only raises counters, and keeps the key set |
| Domain.CastRecordsVoter | v041_file/src/domain.rs:196-209 | once a ballot is cast, any later ballot from the same voter is refused with `HasAlreadyVoted` |
| Domain.ApplyTwiceCountsTwice | v040_memory/src/app_builder.rs:61-66 | applying an accepted outcome twice raises that candidate's counter by two; the outcome is not idempotent, so only `vote`'s refusal prevents double counting |
| Commands.BuildRoster | v040_memory/src/app_builder.rs:8-12 | the roster holds one candidate per configured name, in configuration order |
| Commands.BallotFromTokens | v050_use_cases/src/app_builder.rs:55-71 | the second token is the voter; a third token, if present, is the candidate; with two tokens there is no candidate |
| Commands.Handle | v040_memory/src/app_builder.rs:31-104 | the step every `vote`-based loop folds: a `voter` line with a name puts that voter on the sheet; any other line leaves the machine unchanged; the key set never changes |
| Commands.HandleGrows | v040_memory/src/app_builder.rs:31-104 | from any machine, one input line only adds voters and only raises counters, and keeps the key set |
| Commands.ReplayHandleGrows | v040_memory/src/app_builder.rs:18-104 | from any machine, a stored record included, a run of inputs only adds voters and only raises counters, and never changes the key set |
| Commands.HandleKeeps | v040_memory/src/app_builder.rs:31-104 | one input line keeps one counted vote per voter, only adds voters, only raises counters and keeps the key set |
| Commands.ReplayHandleKeeps | v040_memory/src/app_builder.rs:18-104 | over any run of inputs the loop keeps one counted vote per voter, only adds voters, only raises counters and never changes the key set |
| Commands.ReplayWithoutVotes | v040_memory/src/app_builder.rs:83-104 | listing commands, unknown commands and help lines leave the machine unchanged |
| FileStorage.ScoreboardToDao | v041_file/src/storage/file.rs:25-38 | the stored scoreboard keys each counter by the candidate's name with the same count, and keeps blank and invalid |
| FileStorage.ScoreboardFromDao | v041_file/src/domain.rs:46-59 | the restored scoreboard has one candidate per stored name with the stored count, and keeps blank and invalid |
| FileStorage.MachineFromDao | v041_file/src/domain.rs:125-138 | a name is on the restored attendance sheet exactly when it is in the stored set, and the scoreboard is the restored form of the stored one |
| FileStorage.MachineToDao | v041_file/src/storage/file.rs:40-53 | a name is in the stored voter set exactly when its voter is on the sheet, and the stored scoreboard is the scoreboard's stored form |
| FileStorage.MachineToDaoKeepsVoters | v041_file/src/storage/file.rs:40-53 | storing the machine keeps every voter's name and loses none to collisions: the name set is as large as the sheet |
| FileStorage.ScoreboardRoundTrip | v041_file/src/storage/file.rs:25-38 | converting a scoreboard to its stored form and back gives the same scoreboard |
| FileStorage.ScoreboardDaoRoundTrip | v041_file/src/domain.rs:46-59 | converting a stored scoreboard to the domain and back gives the same record |
| FileStorage.MachineRoundTrip | v041_file/src/storage/file.rs:129-146 | converting a machine to its record and back gives the same machine, which is what the store's put-then-get test relies on |
| FileStorage.DaoRoundTrip | v041_file/src/domain.rs:125-138 | converting a record to a machine and back gives the same record |
| FileStorage.Load | v041_file/src/storage/file.rs:61-72 | a missing file is `NotFound`, an unreadable or undecodable one is `Malformed`, and a record is decoded to a machine whose record it is |
| FileStorage.LoadAfterWrite | v041_file/src/storage/file.rs:61-82 | reading back the record a put wrote gives the machine that was put |
| FileStorage.FileStore.GetVotingMachine | v041_file/src/storage/file.rs:61-72 | the store returns what the file's content decodes to, and a successful read means the file holds that machine's record |
| FileStorage.FileStore.PutVotingMachine | v041_file/src/storage/file.rs:74-82 | on a healthy disk the file then holds the machine's record and the put succeeds; on a read-only disk the file cannot be created, so nothing changes and the put fails; on a full disk the file is truncated but not written, so it is left unreadable and the put fails |
| FileStorage.NewFileStore | v041_file/src/storage/file.rs:87-107 | an existing record wins over the given machine and is written back unchanged; a missing file gets the given machine's record on a healthy disk; an undecodable file makes construction fail; write failures are ignored |
| MemoryStorage.MemoryStore.constructor | v041_file/src/storage/memory.rs:10-12 | a new store holds the given machine behind a sound lock |
| MemoryStorage.MemoryStore.GetVotingMachine | v041_file/src/storage/memory.rs:17-20 | the store returns a copy of the machine, or `LockFailed` when the lock is poisoned |
| MemoryStorage.MemoryStore.PutVotingMachine | v041_file/src/storage/memory.rs:22-26 | the store's machine is replaced by the given one, or, when the lock is poisoned, fails with `LockFailed` and keeps the old machine |
| Storage.Fetch | v040_memory/src/storage/mod.rs:9 | fetching returns whichever backend is in use's current snapshot |
| Storage.Put | v040_memory/src/storage/mod.rs:10 | on a reliable backend the put succeeds and a fetch then returns the machine put; on an unreliable one it fails, and the snapshot either stays or becomes unreadable (a read-only disk keeps it) |
| Storage.Open | v050_use_cases/src/app_builder.rs:19-30 | the memory choice opens a store holding the fresh machine; the file choice opens the file store on the record file, which fails on an undecodable record, keeps an existing record, and on a healthy disk starts a missing file with the fresh machine |
| UseCases.BallotFromForm | v050_use_cases/src/use_cases.rs:14-32 | the form's voter becomes the ballot's voter; an empty candidate field means no candidate, and any other value names that candidate |
| UseCases.FormRoundTrip | v050_use_cases/src/use_cases.rs:14-32 | every form is recovered from the ballot it becomes |
| UseCases.BallotRoundTrip | v050_use_cases/src/use_cases.rs:20-23 | a ballot survives the trip through a form exactly when it does not name a candidate with an empty name |
| UseCases.Vote | v050_use_cases/src/use_cases.rs:34-36 | the use case propagates a failed fetch and otherwise returns the machine's decision on the form's ballot |
| UseCases.GetVotingMachine | v050_use_cases/src/use_cases.rs:38-40 | the use case returns the backend's snapshot |
| InPlaceApp.RunApp | v040_memory/src/app_builder.rs:4-104 | the loop ends in the fold of the vote step over the inputs, over the configured roster's keys, with one counted vote per voter |
| StoreApp.Serve | v041_file/src/app_builder.rs:18-109 | with a sound lock the store ends with every input's effect and the run succeeds; with a poisoned lock the machine is untouched and the run fails exactly when some input reads the store |
| StoreApp.RunApp | v041_file/src/app_builder.rs:4-14 | a fresh store over the configured roster ends with every input's effect, the same key set and one counted vote per voter |
| UseCaseApp.Record | v050_use_cases/src/app_builder.rs:75-100 | the fetch-update-put of a counted outcome: on a reliable backend the snapshot becomes the outcome applied to it; otherwise it stays or becomes unreadable, and a read-only disk keeps it |
| UseCaseApp.CastVote | v050_use_cases/src/app_builder.rs:55-100 | one `voter` command: a failed fetch is returned untouched; otherwise the command succeeds. On a reliable backend the snapshot becomes the cast of the ballot; on an unreliable one it stays or becomes unreadable, and a read-only disk keeps it. A voter already on the sheet leaves the snapshot unchanged |
| UseCaseApp.HandleLine | v050_use_cases/src/app_builder.rs:40-126 | one input line fails only with the error of a failed fetch, leaving the snapshot alone. On an unreadable snapshot it fails exactly when it is a `voter` line with a name, `votants` or `scores`. From a readable snapshot it succeeds, and the snapshot either stays or takes the line's effect (always, on a reliable backend). On an unreliable backend the snapshot stays or becomes unreadable; a read-only disk keeps it. |
| UseCaseApp.Serve | v050_use_cases/src/app_builder.rs:34-127 | on a reliable backend the run succeeds and the snapshot ends as the fold of the vote step over the inputs. From any readable start, a readable end snapshot has only grown, with the same key set, and keeps one counted vote per voter if the start did. On an unreliable backend the snapshot stays or becomes unreadable. A read-only disk is never changed, and from a readable start the run then succeeds. A run that leaves the snapshot readable succeeds. From an unreadable snapshot the snapshot is left alone, and the run fails exactly when some line reads the store |
| UseCaseApp.RunApp | v050_use_cases/src/app_builder.rs:6-30 | the memory choice ends with every input's effect from a fresh machine and one counted vote per voter; an undecodable record file fails the run; a healthy disk continues from the stored record if one exists, otherwise from a fresh machine |
| DomainApp.Step | v030_domain/src/app_builder.rs:31-63 | one input never adds or drops a counter |
| DomainApp.RunApp | v030_domain/src/app_builder.rs:4-77 | the loop ends in the fold of its step over the inputs, over the configured roster's keys, with one counted vote per voter |
| DomainApp.StepKeeps | v030_domain/src/app_builder.rs:40-62 | one input line of this loop keeps one counted vote per voter, only adds voters and only raises counters |
| DomainApp.ReplayStepKeeps | v030_domain/src/app_builder.rs:40-62 | over any run of inputs this loop keeps one counted vote per voter, only adds voters and never changes the key set |
| DomainApp.AgreesWithHandle | v030_domain/src/app_builder.rs:49-61 | with two or three tokens, this loop and the later `vote`-based ones produce the same machine |
| DomainApp.ManyTokensBlank | v030_domain/src/app_builder.rs:49-61 | for every machine, a `voter` line of four tokens or more counts as the cast of a ballot without a candidate, whatever its third token |
| DomainApp.FourTokensDiffer | v030_domain/src/app_builder.rs:49-61 | with four tokens, this loop counts a blank vote while the later ones count the third token's candidate |
| LegacyTally.Step | v021_app_builder/src/app_builder.rs:32-69 | one input never adds or drops a counter once `Blanc` and `Nul` exist |
| LegacyTally.Run | v021_app_builder/src/app_builder.rs:19-83 | the loop ends in the fold of its step over the inputs, keeps the key set, lists nobody twice and counts one vote per listed voter |
| LegacyTally.StepKeeps | v021_app_builder/src/app_builder.rs:41-68 | one input line appends a voter only if not yet listed and then counts exactly one vote, so the ledger stays sound |
| LegacyTally.ReplayStepKeeps | v021_app_builder/src/app_builder.rs:41-68 | over any run of inputs the ledger stays sound (pseudo-candidates present, no repeated voter, one vote per voter), with the same keys |
| LegacyTally.NewVotes | v021_app_builder/src/app_builder.rs:11-17 | the starting counters are `Blanc`, `Nul` and every configured name, all at zero |
| LegacyTally.RunApp | v021_app_builder/src/app_builder.rs:4-83 | a run over the configured counters ends sound, over exactly those counters |
| Spaghetti.StartingVotes | v010_spaghetti/src/bin/main.rs:9-15 | the hard-coded counters are `Nul`, `Blanc` and the three named candidates, all at zero |
| Spaghetti.Run | v010_spaghetti/src/bin/main.rs:17-82 | the hard-coded loop keeps those five counters, lists nobody twice and counts one vote per listed voter |
| Versions.InitialMirrors | v021_app_builder/src/app_builder.rs:11-17 | when no configured name is `Blanc` or `Nul`, the string-keyed starting state and the fresh domain machine describe the same tally |
| Versions.StepMirrors | v030_domain/src/app_builder.rs:40-62 | one input keeps the string-keyed and the domain tallies in agreement, unless it is a three-token ballot naming `Blanc` or `Nul` |
| Versions.ReplayMirrors | v021_app_builder/src/app_builder.rs:41-68 | over a run of inputs naming no pseudo-candidate, the two loops end with the same voters and the same counts |
| Versions.PseudoNameDiffers | v021_app_builder/src/app_builder.rs:50-56 | a ballot naming `Blanc` counts as blank in the string-keyed loop, but as invalid in the domain loop |

## Left out

- Reading standard input, tokenising lines and printing are not modelled. Inputs are a finite sequence of already split lines (`Commands.Input`). The endless loop becomes a run over that sequence.
- A blank line that still contains whitespace tokenises to nothing, so the source's `args[0]` panics. `Commands.Tokens` excludes that input, so the model does not capture the panic.
- JSON encoding and decoding are not modelled. A file is missing, garbled, or holds a record (`FileStorage.FileContent`). Any read failure, I/O or decoding, counts as garbled.
- The disk is a health flag (`FileStorage.DiskHealth`): healthy, read-only, or full. A full disk leaves a truncated file.
- The record file's fixed path (`data.txt`) is a `DiskFile` parameter.
- Concurrency is not modelled: async execution, the `Arc`/`RwLock` sharing and the lost update between two clients. Consecutive fetches in one loop iteration see the same snapshot.
- A poisoned lock is a field of the memory store. Panics are what poison a lock in the source, and they are not modelled, so nothing in the model sets it.
- Counts are unbounded. The `i32` counters of the early versions and the `usize` scores of the later ones would overflow after 2^31 or 2^64 votes, which the model does not capture.
- `VotingMachine::recover_from` is the record constructor `Domain.VotingMachine`; it has no behaviour of its own.
- The `get_voters` / `get_scoreboard` accessors return mutable references. In the model they become record updates of the machine value.
- The `scores` command fetches the machine three times in both store-backed loops. The model fetches it once, in `StoreApp.Serve` and in `UseCaseApp.HandleLine`. All the fetches see the same snapshot, and only their failure matters.
- Command-line parsing of the configuration and the `main` functions are not modelled; the roster and the storage choice are parameters. Their fields are the `UseCaseApp.Configuration` datatype.
- The `Storage` trait is not a Dafny trait. Dispatch goes through the `Storage.Backend` datatype, over the two implementations.
- The model follows the code where it does not compile as written. The first domain loop mutates a machine declared without `mut`. The last loop passes the locked store where the use cases expect the shared trait object. A file store test compares machines that do not derive equality. The model takes the evident intent in each case.
- Store errors: the listed commands propagate failed fetches, but every failed put is discarded (`let _ =`), and so is the file creation in `FileStore::new`. The model does the same.
- `FileStorage.NewFileStore`: a read-only disk with no record file is created in no form. The model keeps the file missing and the put fails, and the store is still returned.
