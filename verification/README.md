# Verified model of the Windows file-system test harness

The harness drives scenarios from a shared matrix file against a host and a
Windows VM. What can go wrong in it is concurrency (several runs want one VM
workdir, several agents want one matrix file, many scenarios want few slots),
state kept across crashes (a VM whose disk must come back to a known point), and
text that passes through several languages (templates, PowerShell quoting). This
project models those six pieces in Dafny and proves what each of them is for.

**The VM-workdir lease** (`scripts/vm/matrix-run-lock.ps1`). `LeaseLedger` is the
lease seen from outside: a history of events and which event may come next.
Fencing, exclusivity and heartbeats are proved there about every legal history.
`LeaseProtocol` is the script as a transition system: any number of processes,
each with a program counter; a metadata gate and an operation gate; the lock
directory built up and torn down entry by entry; a clock that only advances; a
crash before any step; the VM's other files; and ships, which take the steps of
the dispatcher's plan and send their file to a path without any gate, however
stale they are. `LeaseSafety` proves an inductive invariant and that every run of
that system produces a legal history. `LeaseTheorems` states the promises about
runs, `LeaseShipping` those about the VM's files: who may change one, where an
upload can arrive, what a ship that reports success has done. `LeaseVoyage` shows
that a ship left alone succeeds, and that commands and heartbeats do not keep one
another out. `LeaseScript` has the actions as methods of one
lock-directory object and proves that the machine's steps, put back together, do
the same; `OwnerRecord` is owner.json itself, field by field, and how it is read.

**The matrix transaction** (`scripts/_matrix_txn.py`). `MatrixFile` has the three
transaction bodies as functions on tables and as in-place methods.
`MatrixTransactions` is the system of processes around one path: inodes, locks
held on inodes, descriptors, temporary files, freed inode numbers that come back,
crashes and exceptions. `MatrixSafety` and `MatrixTheorems` prove serializability,
the claim protocol, and how processes end and what they leave behind.

**The template expander** (`runner/src/substitution.rs`). `Template` says what a
template means without a scanner: pieces, references that unfold into a tree, and
text, missing references and faults read off that tree. `Expander` is the byte
scanner and the resolver that call each other, proved against that meaning.
`TemplateTheorems` characterises errors by walks in the reference graph and proves
the escape round trips; `TemplateValues` says by the data which value a reference
stands for and what it expands to. `Utf8` is the byte syntax of section 4 of
RFC 3629, tied to the encoding of its section 3.

**The runner's scheduler** (`runner/src/bin/run-matrix.rs`). `Scheduler` is the
two-layer acquisition as a transition system whose steps are the critical sections
of the semaphore; `SchedulerTheorems` proves conservation, no lost wakeup,
progress, and exactly which scenarios can run together; `Semaphore` has the semaphore and the group table as
objects. `Selection` has scenario selection and host resolution in both of their
implementations and says exactly when they agree.

**The guest lifecycle** (`scripts/local-vm.py`). `GuestLifecycle` is a transition
system over any number of state directories on one file system: paths name
inodes, a rename moves a name, and a running guest holds the inodes it opened.
Disks are the writes that made them; every operation is split into its file
changes, on the paths the script uses, and may be killed between any two.
`GuestSafety` proves the invariant, `GuestTheorems` states the promises,
`GuestScript` has the commands as methods and ties them to the steps, and
`GuestWitness` is one concrete run.

**Quoting and shipping** (`runner/src/dispatch.rs`). `Quoting` writes and reads
PowerShell literals one and two levels deep; `CommandReading` reads off a line's own
words which lock action it orders and which files it copies, moves and removes;
`Shipping` has the built-in ship steps as the sequence of remote calls they make,
and what a whole ship comes to; `Paths` resolves the paths they name.

`Prelude` and `Counting` hold an option type, a result type and facts about
finite sets. A transition system is a state type, a `Choice` type, `Enabled` and
`Next`; a run is a sequence of choices, each enabled where it is taken, and a
statement about every run is a statement about every interleaving.

Three properties one might expect do not hold of the code, and the model says so:

- `docs/vocabulary.md:42` lets a template index an array. A placeholder segment
  must start with a letter or underscore, so a template never does; only a `when`
  condition can (`ReferencesNeverIndexArrays`, `WhenIndexesArrays`).
- `docs/multi-agent-protocol.md:63` promises that a status is not overwritten by a
  session that is not in it. `set_status` refuses an unknown name and nothing else:
  `SessionsWritePastEachOther` is a write it lets pass, `SessionCheckExactly` says
  which writes meet the promise, and the claim theorems count a status write of
  `pending` by anyone as a reopening.
- The script and the runner do not read the same op from a step whose `op` is the
  empty string beside a truthy `type`. `EmptyOpEscapes` is such a step;
  `StepsAgreeExactly` says for which steps the two decide alike, and
  `NeverUnseenExactly` and `NeverInVainExactly` for which runs each direction holds.

A fourth, that an instance is isolated from its base, is decided at the instance's
cold start by whether some guest running at that moment has the base's disk open for
writing, as a base has that was left up after `provision`. `instance` and `up` never
look for one. `GuestSeesItsStart` is that condition, in both directions;
`ABaseLeftUpIsSeen` is a run the script admits, QEMU's own image locks aside, in which
the isolation fails. A save of the base, which `docs/qemu-vm.md:335` warns of, never
reaches a guest that is already running: it renames a new file over the name.

## Model

| member | source | states |
|---|---|---|
| LeaseLedger.Fencing | scripts/vm/matrix-run-lock.ps1:148-166 | once a token has lost the lock, by release or reclamation, no later event of any legal history is its own: no admission, renewal, acquisition or change on the VM |
| LeaseLedger.GoneForGood | scripts/vm/matrix-run-lock.ps1:134-167 | a token that owned the lock and does not own it now never owns it again |
| LeaseLedger.OneLiveOwner | scripts/vm/matrix-run-lock.ps1:111-145 | between two acquisitions the first owner was removed, and unless it released the lock itself the second came after the first lease had run out |
| LeaseLedger.OwnerKeepsLease | scripts/vm/matrix-run-lock.ps1:156-167 | until its removal an owner keeps token, run id and lease length, and its stamp never goes back behind the acquisition |
| LeaseLedger.OwnsUntilStamped | scripts/vm/matrix-run-lock.ps1:148-161 | a token that is stamped later has owned the lock without interruption since its acquisition |
| LeaseLedger.HeartbeatsKeepTheLease | scripts/vm/matrix-run-lock.ps1:152-162 | an owner whose successive stamps are at most three heartbeats apart, with three heartbeats within the lease, is neither found expired nor removed by reclamation at any time up to three heartbeats after its last stamp, over any number of renewals |
| LeaseLedger.KeptBetweenStamps | scripts/vm/matrix-run-lock.ps1:148-161 | before a later stamp of its own such an owner is not removed at all, by reclamation or otherwise |
| LeaseLedger.KeptAfterStamp | scripts/vm/matrix-run-lock.ps1:111-128 | whoever asks within three heartbeats of the owner's last stamp so far does not find its lease run out, whether or not another stamp follows |
| LeaseSafety.EveryRunIsLegal | scripts/vm/matrix-run-lock.ps1:96-201 | every run of any number of actions, crashes and clock advances yields a legal history whose replay agrees with owner.json |
| LeaseSafety.StepKeeps | scripts/vm/matrix-run-lock.ps1:106-196 | every step of every action keeps gates exclusive, stages apart, and every process's view of the lock directory true |
| LeaseSafety.GatesKept | scripts/vm/matrix-run-lock.ps1:91-104 | the metadata gate has at most one holder, and holders of the operation gate are all Invoke or just one process, after every step |
| LeaseTheorems.CommandsShareOneOwner | scripts/vm/matrix-run-lock.ps1:168-192 | all guarded commands in flight carry one token and run id, and owner.json holds that pair |
| LeaseTheorems.OwnershipSurvivesTheCommand | scripts/vm/matrix-run-lock.ps1:179-192 | the refusal "ownership changed during guarded command" cannot be reached in any run |
| LeaseTheorems.StaleProcessIsRefused | scripts/vm/matrix-run-lock.ps1:148-167 | after any continuation of any run no step of a process of a token that has lost the lock changes the owner record, the history or the VM, its owner check exits 74, and only a Release that removed owner.json itself may still clear the directory away |
| LeaseTheorems.LostStaysLost | scripts/vm/matrix-run-lock.ps1:134-144 | along every continuation of a run a lost token stays lost and the history only grows |
| LeaseShipping.UploadsStayInTheirStage | runner/src/dispatch.rs:673-743 | in every run, an upload to the path of its ship's plan, however stale its sender, changes one file of the sender's own stage if that is there, and no other stage, no part of the owner record and no other file of the VM |
| LeaseShipping.MutationsAreOwned | scripts/vm/matrix-run-lock.ps1:148-177 | every change of the VM in a history was made while its token and run id were the recorded owner's, after an owner check that this owner's Invoke passed with no removal since, and before any removal of that token |
| LeaseShipping.FilesChangeUnderTheLease | scripts/vm/matrix-run-lock.ps1:96-177 | in every run a file of the VM outside the lock directory changes only at a step of an Invoke inside its command, whose token and run id are the recorded owner's and whose passed owner check is in the history with no removal since |
| LeaseShipping.StaleUploadsReachNothing | scripts/vm/matrix-run-lock.ps1:134-143 | once the lock has been acquired again, an upload of a token that lost it fails and changes nothing at all |
| LeaseShipping.ReportedShipsHaveArrived | runner/src/dispatch.rs:664-781 | a ship that has reported exit 0, with a stage name of its own, put its own contents at its destination: the history has that change under its own token and run id after a passed owner check with no removal in between, and the VM holds those contents until a later guarded change of the same place |
| LeaseShipping.MoveCarriedOut | runner/src/dispatch.rs:749-764 | the guarded move of a ship puts the staged file at its destination and takes it out of the stage, or fails and changes nothing |
| LeaseShipping.LinesStartProcesses | runner/src/dispatch.rs:464-492 | a ship's guarded command, wrapped and read word by word, orders just the process the machine starts for it: an Invoke of its own token and run id, for that command |
| LeaseVoyage.ShipSucceedsAlone | runner/src/dispatch.rs:717-764 | a ship of an owner with a good lease, begun while no other lock process is under way, can be carried through: it reports exit 0 and the VM has its file at the destination and is otherwise unchanged |
| LeaseVoyage.SharedStageNamesMixUp | runner/src/dispatch.rs:669-676 | of any two ships of one owner under one stage name, both begun, the first can be carried through to exit 0 with the other's contents at its destination |
| LeaseVoyage.ABeginningOfTwo | runner/src/dispatch.rs:658-677 | such a pair is reached from any workdir whose lock a run holds by beginning both |
| LeaseVoyage.HeartbeatBesideCommands | scripts/vm/matrix-run-lock.ps1:84-104 | a Renew by the owner can be carried through to a new stamp beside any number of commands that never end |
| LeaseVoyage.CommandsRunTogether | scripts/vm/matrix-run-lock.ps1:84-98 | any number of the owner's commands can be brought to run at once, beside those that already do |
| LeaseTheorems.CompetingAcquires | scripts/vm/matrix-run-lock.ps1:111-146 | two Acquire processes that both exit 0 did not overlap, whatever the directory looked like at the start: strictly between their two acquisitions in the history the earlier owner was removed, and by reclamation only after its lease had run out |
| LeaseTheorems.SuccessesAreRecorded | scripts/vm/matrix-run-lock.ps1:136-145 | an Acquire that exits 0 is an acquisition of the history, with its own token, run id, stamp and lease length |
| LeaseTheorems.WaitsEndSoon | scripts/vm/matrix-run-lock.ps1:96-104 | in every run, from any process that waits for a gate at most two links, each to a holder of the gate waited for, lead to a process that waits for nothing and can move on |
| LeaseTheorems.SomeProcessMoves | scripts/vm/matrix-run-lock.ps1:77-104 | while any process is unfinished some process can take a step that is no crash, timeout or arrival |
| LeaseTheorems.HeartbeatsSuffice | scripts/run-tests.sh:474-483 | with the accepted timing, a run whose stamps are at most two heartbeats late is never told that its lease expired and never reclaimed, up to three heartbeats after its last stamp |
| LeaseScript.LeaseIsExactlyExclusive | scripts/vm/matrix-run-lock.ps1:111-167 | at every instant after an acquisition, the owner is accepted and a rival Acquire refused up to the exact end of the lease, and the reverse after it |
| OwnerRecord.NewRecordReads | scripts/vm/matrix-run-lock.ps1:5-19 | the record an acquisition writes reads back as its own lease exactly when no argument is empty and the lease length is in range, which is what the script checks of its arguments |
| OwnerRecord.SixFieldsNeeded | scripts/vm/matrix-run-lock.ps1:29-43 | a record is an owner only with all of six fields, none null or empty, a time stamp that is a time and a lease of one second to a day |
| OwnerRecord.RenewedReads | scripts/vm/matrix-run-lock.ps1:158-162 | a readable record with a new stamp is readable and is the same lease with that stamp; every other field is as it was |
| LeaseScript.LockWorkdir.ReadOwner | scripts/vm/matrix-run-lock.ps1:29-43 | the loop over the fields and the checks of date and range accept exactly the records that stand for a lease and return that record and its lease |
| LeaseScript.LockWorkdir.WriteOwner | scripts/vm/matrix-run-lock.ps1:45-63 | by way of a scratch file, replaced or moved and then cleaned up, owner.json becomes the new record and no other file changes; at every point in between it is the old document or the new one, complete |
| LeaseScript.LockWorkdir.RemoveTree | scripts/vm/matrix-run-lock.ps1:134 | removing entry by entry ends with no directory |
| LeaseScript.LockWorkdir.AcquireLock | scripts/vm/matrix-run-lock.ps1:111-146 | uninterrupted, Acquire exits 73 and changes nothing up to the end of the recorded owner's lease, or, when no owner can be read, until the directory has lain untouched for longer than the lease asked for; otherwise it exits 0 with only its stage and an owner.json of exactly the caller's fields |
| LeaseScript.LockWorkdir.OwnerAction | scripts/vm/matrix-run-lock.ps1:148-167 | Renew, Verify and Release succeed exactly for the recorded token and run id up to the end of the lease; a refusal exits 74 and changes nothing, a renewal changes the stamp in owner.json and no other field or file, a release leaves no directory |
| LeaseScript.LockWorkdir.AfterCommand | scripts/vm/matrix-run-lock.ps1:179-194 | after its command Invoke refreshes the stamp of its own record, expired or not, and passes the command's exit code on; under another token or run id it exits 74 and changes nothing |
| LeaseScript.RemovesEverything | scripts/vm/matrix-run-lock.ps1:134-164 | the machine's single removals lead from any directory contents to no directory |
| LeaseScript.TakesOver | scripts/vm/matrix-run-lock.ps1:136-143 | the machine's creation steps lead from no directory to the specified acquired one |
| LeaseScript.Alone | scripts/vm/matrix-run-lock.ps1:106-167 | a process taken through the machine without interruption produces exactly the directory and exit code of the script's specification |
| LeaseScript.AcquireDecides | scripts/vm/matrix-run-lock.ps1:106-133 | in the machine, the check of an Acquire is busy in just those two cases, by the recorded owner's lease or by the directory's age, and changes nothing either way |
| LeaseScript.AcquireEnds | scripts/vm/matrix-run-lock.ps1:111-146 | an Acquire taken through the machine without interruption ends with 73 and everything as it was, or with 0 and a directory of only its own stage and its own record |
| LeaseScript.OwnerDecides | scripts/vm/matrix-run-lock.ps1:148-169 | in the machine, any other action gets past its check exactly as the recorded token and run id within the lease, and is refused with 74 otherwise |
| LeaseScript.InvokeChecksAlone | scripts/vm/matrix-run-lock.ps1:148-169 | an Invoke runs a command that is not blank exactly when Verify would succeed, and otherwise exits with the directory as it was |
| LeaseScript.RefreshesAlone | scripts/vm/matrix-run-lock.ps1:179-194 | an Invoke back from its command, taken through the machine without interruption, leaves the specified directory and keeps the command's exit code unless it is refused |
| MatrixFile.ScenarioTable.Claim | scripts/_matrix_txn.py:94-107 | in place, the first entry with status "pending" and no other gets "claimed-" and the session, and its name is returned; with no such entry nothing changes |
| MatrixFile.ScenarioTable.SetStatus | scripts/_matrix_txn.py:110-123 | in place, only the named entry changes: its status is the one given, its evidence the one given if any; an unknown name changes nothing and exits 2 |
| MatrixFile.ScenarioTable.Reset | scripts/_matrix_txn.py:126-138 | in place, an entry stays as it is exactly if its status is "passed-" with some text or "pending" already; every other becomes "pending" and is otherwise as it was; the two reported counts are those of the entries without and with "passed-" |
| MatrixFile.ClaimTakesTheFirst | scripts/_matrix_txn.py:94-107 | a claim removes exactly the head of the pending list and finds nothing only when that list is empty |
| MatrixFile.ShapePreserved | scripts/_matrix_txn.py:94-138 | no transaction adds, drops, renames or reorders scenarios or touches their other fields |
| MatrixFile.ShapeAlways | scripts/_matrix_txn.py:94-138 | the same over any sequence of transactions |
| MatrixFile.ResetIsIdempotent | scripts/_matrix_txn.py:126-133 | a second reset changes nothing; after one every entry has "passed-" or "pending", and those with "passed-" are those that had it, kept whole |
| MatrixFile.AReset | scripts/_matrix_txn.py:126-133 | the same of the transaction on tables: exactly the entries with "passed-" and some text, and pending ones, are kept |
| MatrixFile.AClaim | scripts/_matrix_txn.py:94-107 | a claim hands out the first pending scenario, marked with the session, and none only when no status is "pending" |
| MatrixFile.AStatus | scripts/_matrix_txn.py:110-118 | a status write records its arguments in the named scenario alone and is refused only for an unknown name |
| MatrixFile.ReportedThenReset | scripts/_matrix_txn.py:110-133 | a scenario reported as passed is as it was after a reset; one reported as failed, claimed or blocked is pending |
| MatrixFile.SessionCheckExactly | scripts/_matrix_txn.py:110-118 | a session's status write meets the documented refusal if and only if the name is unknown, the scenario's present status has the session in it, or the new status marks it blocked |
| MatrixFile.SessionsWritePastEachOther | scripts/_matrix_txn.py:110-118 | a table on which session y passes the scenario session x has claimed, which the documented protocol refuses |
| MatrixFile.HandedOutOnce | scripts/_matrix_txn.py:94-138 | if two claims of a history pick one name, a transaction between them reopened it |
| MatrixFile.ClaimsPickInOrder | scripts/_matrix_txn.py:94-107 | successive successful claims pick the pending scenarios in file order and leave the rest of that list |
| MatrixFile.PendingIsDistinct | scripts/_matrix_txn.py:97-101 | the pending list names no scenario twice |
| MatrixFile.PendingCharacter | scripts/_matrix_txn.py:97-98 | a scenario is in the pending list exactly when its own status is pending |
| MatrixSafety.StepKeeps | scripts/_matrix_txn.py:48-87 | every step of every process, crash and reuse of an inode number keeps the storage, locking and serial-contents invariant |
| MatrixSafety.StorageKept | scripts/_matrix_txn.py:48-87 | every open descriptor keeps its inode allocated, locks belong to their holders, and temporary files stay private |
| MatrixSafety.OneCritical | scripts/_matrix_txn.py:60-79 | two processes past a passed inode comparison are one and the same |
| MatrixTheorems.Serializable | scripts/_matrix_txn.py:48-87 | in every interleaving the path names one complete file holding the committed bodies applied in rename order, each to what the previous one left, so no update is lost; a transaction without a write decided on one of those tables |
| MatrixTheorems.MutualExclusion | scripts/_matrix_txn.py:60-79 | at most one process of any run is between a passed inode comparison and its rename |
| MatrixTheorems.NamesSurvive | scripts/_matrix_txn.py:94-138 | after any run the file holds the same names in the same order with their untouched fields |
| MatrixTheorems.PathNeverMissing | scripts/_matrix_txn.py:49-56 | without outside deletion the path always names a file, so open and stat cannot miss it, and whoever loads it finds it complete |
| MatrixTheorems.RetriesAreBounded | scripts/_matrix_txn.py:48-63 | a process's retries are charged to distinct renames by other processes, so there are at most as many as commits and fewer than processes |
| MatrixTheorems.SomeProcessMoves | scripts/_matrix_txn.py:48-87 | while any process is unfinished some process can take an ordinary step |
| MatrixTheorems.SucceedsAlone | scripts/_matrix_txn.py:48-87 | after any run, a process that finds the matrix unlocked and is left alone ends without a retry, with the file holding its body applied to the table that was there, or that table when the body abandons |
| MatrixTheorems.EveryoneIsServed | scripts/_matrix_txn.py:48-91 | in every run without an exception or a kill, however many race, a process that has ended has either committed its own body exactly once or read a committed table on which its body has nothing to do |
| MatrixTheorems.NothingLeftBehind | scripts/_matrix_txn.py:65-87 | when every process of a run has ended and none was killed, the directory holds what it held besides the matrix and one file at the matrix's path: no temporary file, no dead inode |
| MatrixTheorems.ClaimExactness | scripts/_matrix_txn.py:94-107 | n claimers alone over k pending scenarios commit exactly min(n, k) claims, which hand out the first min(n, k) pending names, all different, one to each successful claimer |
| MatrixTheorems.ClaimedOncePerReopening | scripts/_matrix_txn.py:94-138 | in any run two commits hand out one scenario only if a commit between them sent it back to pending |
| Utf8.CutAtAscii | runner/src/substitution.rs:159-164 | well-formed text may be cut before any ASCII byte, so every index the scanner stops at is a character boundary |
| Utf8.Joined | runner/src/substitution.rs:163 | well-formed texts joined are well-formed |
| Utf8.EncodingsAreChars | runner/src/substitution.rs:159-164 | every encoding of a Unicode scalar value, by section 3 of RFC 3629, is read as one character of its own length and decodes to that value, whatever follows |
| Utf8.CharsAreEncodings | runner/src/substitution.rs:159-164 | whatever is read as a character is the encoding of a scalar value: no surrogates, no overlong forms |
| Template.FindClose | runner/src/substitution.rs:127 | the first closing brace from an index on |
| Template.ParseIsLossless | runner/src/substitution.rs:119-165 | the pieces of a template, put together, are the template |
| Expander.FindFrom | runner/src/substitution.rs:127 | the loop finds the specified closing brace |
| Expander.ParsePlaceholder | runner/src/substitution.rs:341-372 | the loop accepts exactly dotted identifiers with an optional question mark |
| Expander.LookUp | runner/src/substitution.rs:304-328 | the loop over segments walks into the same value as the recursive lookup, which `TemplateValues.PathReads` says by the data |
| Expander.Expansion.ExpandIn | runner/src/substitution.rs:110-167 | one level of expansion yields the text of the unfolded tree and adds its missing references, or stops with the tree's first fault; the chain comes back as it was |
| Expander.Expansion.ReadPiece | runner/src/substitution.rs:119-165 | one turn of the scanner moves over exactly one piece, appends its text and stops on a character boundary |
| Expander.Expansion.Replace | runner/src/substitution.rs:133-151 | a placeholder becomes what its piece unfolds to, and a required reference without a value is noted once |
| Expander.Expansion.Resolve | runner/src/substitution.rs:171-206 | a reference yields what its meaning says, with cycle and depth checked only for strings, and the chain restored |
| Expander.ExpandChecked | runner/src/substitution.rs:98-106 | the scanner and resolver together compute exactly the denotation of the template, of which the rows below speak |
| TemplateTheorems.FaultExactly | runner/src/substitution.rs:194-201 | expansion stops with a cycle or excess depth exactly when some walk along string references repeats one or is longer than the limit |
| TemplateTheorems.FaultlessWalk | runner/src/substitution.rs:194-205 | in a faultless expansion no chain of references repeats a path or exceeds the limit |
| TemplateTheorems.FaultIsAWalk | runner/src/substitution.rs:194-201 | behind every fault at any depth there is a walk that continues the current chain to the reported one |
| TemplateTheorems.ReportedChainIsGenuine | runner/src/substitution.rs:194-201 | a reported chain is a walk from the template; a cycle closes on its last reference and repeats nothing before it, excess depth is one reference too long without a repetition |
| TemplateTheorems.MissingExactly | runner/src/substitution.rs:143-151 | without a fault the references found missing are exactly those required somewhere along a walk and standing for nothing |
| TemplateTheorems.UnresolvedExactly | runner/src/substitution.rs:98-106 | an Unresolved error lists, without duplicates, exactly those references, and there is a command exactly when there are none |
| TemplateTheorems.CollectKeepsOrder | runner/src/substitution.rs:146-150 | a reference listed before another was first reached before it |
| TemplateTheorems.EscapeParses | runner/src/substitution.rs:120-125 | a text with every brace doubled parses into literals that spell the text |
| TemplateTheorems.EscapeRoundTrip | runner/src/substitution.rs:116-166 | doubling every brace of any text gives a template that expands back to exactly that text in every context |
| TemplateTheorems.EscapeRoundTripNested | runner/src/substitution.rs:202-205 | in any template, a reference to a string whose braces are doubled comes to the same outcome as that string written out in its place, whatever else the template holds |
| TemplateTheorems.EscapedReference | runner/src/substitution.rs:164-205 | the same at any depth of the expansion: text, missing references and first fault are those of the string written out |
| TemplateTheorems.EscapeRoundTripAlone | runner/src/substitution.rs:202-205 | so a template that is such a reference and nothing else expands to the string itself |
| TemplateTheorems.ReferencesNeverIndexArrays | runner/src/substitution.rs:353-365 | no segment after the first of an accepted placeholder selects from any array |
| TemplateTheorems.WhenIndexesArrays | runner/src/substitution.rs:277-288 | for every scenario with an array under some field and every decimal index, `scenario.<field>.<index>` is no placeholder, and as a condition it is the truth of that element, false past the end |
| TemplateTheorems.PlusChangesNothing | runner/src/substitution.rs:318-322 | a plus sign before a decimal index selects the same element |
| TemplateValues.PathsAreSegments | runner/src/substitution.rs:335-372 | a reference is exactly a text whose every stretch between dots is a letter or underscore followed by letters, digits, underscores and hyphens |
| TemplateValues.PathReads | runner/src/substitution.rs:304-328 | a dotted path from `scenario` or `step` stands for the value its fields lead to, object by object, from that root, and for nothing if they lead nowhere |
| TemplateValues.OtherRootHasNoSay | runner/src/substitution.rs:306-309 | what a path from one root stands for does not depend on the other root |
| TemplateValues.FlatTokenWins | runner/src/substitution.rs:177-179 | a flat token expands to its own value, whatever the two roots hold |
| TemplateValues.PlainStringExpands | runner/src/substitution.rs:171-206 | a reference from either root whose fields lead to a string without braces expands to exactly that string |
| TemplateValues.StringExpands | runner/src/substitution.rs:171-206 | in general, to the text whose braces, doubled, the string spells |
| TemplateValues.OtherValuesExpand | runner/src/substitution.rs:183-193 | null expands to nothing, a boolean to true or false, a number to its display form, a `literal` object to its string as it stands, anything else to its JSON text |
| TemplateValues.NowhereExpands | runner/src/substitution.rs:143-151 | a reference whose fields lead nowhere makes the template unresolved in just that reference, or is nothing when it is optional |
| TemplateValues.UnknownNameExpands | runner/src/substitution.rs:310-313 | so does a name that is no flat token |
| TemplateValues.MarkersStay | runner/src/substitution.rs:133-139 | inside a value a name in braces that is no flat token stays as it is |
| TemplateValues.NamespacesAreOurs | runner/src/substitution.rs:133-139 | but one under `tools` or `vm` is a reference there too, and without such a token unresolved |
| TemplateValues.TwoStepsExpand | runner/src/substitution.rs:194-205 | a reference inside a value to another value without braces expands to that value |
| TemplateValues.WhenReads | runner/src/substitution.rs:277-288 | a condition is false where its fields lead nowhere or to null, false, zero or something empty, and true otherwise; a question mark changes nothing |
| Scheduler.StepKeeps | runner/src/bin/run-matrix.rs:46-69 | every critical section keeps free permits plus holders equal to capacity, and woken waiters at least the free permits while anyone sleeps |
| SchedulerTheorems.PermitsConserved | runner/src/bin/run-matrix.rs:62-69 | in every run free permits and live guards add up to the capacity, so the clamp never discards a permit |
| SchedulerTheorems.NoLostWakeup | runner/src/bin/run-matrix.rs:46-69 | while a thread sleeps, woken waiters are at least the free permits; if all waiters sleep no permit is free |
| SchedulerTheorems.AtMostPermitsRun | runner/src/bin/run-matrix.rs:163-170 | never more scenarios run than there are permits |
| SchedulerTheorems.GroupsExclude | runner/src/bin/run-matrix.rs:366-369 | two running scenarios never share an exclusive group |
| SchedulerTheorems.RunTogetherExactly | runner/src/bin/run-matrix.rs:347-369 | scenarios can be running at one moment if and only if they are no more than the permits and no two of them share an exclusive group |
| SchedulerTheorems.SlotsGoToRunners | runner/src/bin/run-matrix.rs:347-358 | the slots that are not free are just as many as the scenarios that run or have just run; one that waits for its group takes none |
| SchedulerTheorems.BehindASleeper | runner/src/bin/run-matrix.rs:46-69 | behind every sleeping thread there is one that can move |
| SchedulerTheorems.SomeThreadMoves | runner/src/bin/run-matrix.rs:361-369 | while any scenario is unfinished some thread can take a productive step |
| SchedulerTheorems.StepsShorten | runner/src/bin/run-matrix.rs:46-69 | every productive step, even one that wakes a sleeper, brings the run closer to its end; a spontaneous wakeup costs one |
| SchedulerTheorems.EveryScenarioFinishes | runner/src/bin/run-matrix.rs:347-369 | a run is no longer than twenty steps per scenario and two per spontaneous wakeup, and one that cannot go on has finished every scenario |
| Semaphore.CountingSemaphore.Turn | runner/src/bin/run-matrix.rs:46-56 | one turn of the wait loop takes a permit if one is free and otherwise goes to sleep on the condition variable |
| Semaphore.LookIsTurn | runner/src/bin/run-matrix.rs:46-56 | the scheduler machine's step by which a thread looks at a semaphore is that turn, on permits, sleepers and woken threads alike |
| Semaphore.CountingSemaphore.Release | runner/src/bin/run-matrix.rs:62-69 | a dropped guard gives one permit back, never beyond the capacity, and notifies one sleeper if there is one |
| Semaphore.DropIsRelease | runner/src/bin/run-matrix.rs:62-69 | the machine's step by which a guard is dropped is that release, with the same sleepers to choose from |
| Semaphore.ExclusiveGroups.constructor | runner/src/bin/run-matrix.rs:83-100 | one single-permit semaphore for every named group and none for the empty name, all different objects, with the right number of scenarios counted for each |
| Semaphore.ExclusiveGroups.Note | runner/src/bin/run-matrix.rs:86-98 | one scenario more: its group's count rises by one and a group named for the first time gets a semaphore of its own |
| Semaphore.ExclusiveGroups.SemaphoreFor | runner/src/bin/run-matrix.rs:102-111 | a scenario gets the semaphore of the group it names, or none |
| Semaphore.CountedAreNamed | runner/src/bin/run-matrix.rs:85-98 | a group counts scenarios exactly when some scenario names it |
| Semaphore.RunnerStarts | runner/src/bin/run-matrix.rs:163-170 | what the runner builds is a start of the scheduler's machine, with semaphores for exactly the groups of its table |
| Selection.MatrixSelection | scripts/run-tests.sh:203-231 | the script selects exactly the scenarios the runner selects, and asks for the VM exactly when one of their steps does |
| Selection.FilterSelects | runner/src/bin/run-matrix.rs:188-236 | an empty filter selects every scenario; another the one of that name when exact, else those whose name has it in it; and if there is none, the scenarios of the group of that name |
| Selection.RunnerGoes | runner/src/dispatch.rs:270-308 | a ship goes to the VM; a declared op to the host the step names, else to its table's, else to the VM; an undeclared op nowhere |
| Selection.RunnerRefuses | runner/src/dispatch.rs:270-278 | a step that is no object, or names its op by no string, goes nowhere |
| Selection.ScriptAsks | scripts/run-tests.sh:216-231 | the script asks for the VM for a ship, for a step bound to it, and for one not bound to the host whose op is not declared to run there |
| Selection.MatchingNames | scripts/run-tests.sh:203 | exactly the scenarios whose name contains the filter |
| Selection.GroupNames | scripts/run-tests.sh:205 | exactly the members of the group that are scenarios |
| Selection.AnyNeedsVm | scripts/run-tests.sh:216-231 | the loop with its two early exits finds a step that needs the VM exactly when there is one |
| Selection.OpsAgreeExactly | runner/src/dispatch.rs:270-278 | script and runner read the same op from a schema-valid step unless `op` is empty beside a truthy `type`, and only then differ |
| Selection.EmptyOpEscapes | scripts/run-tests.sh:221-229 | a step and an op table for which the runner goes to the VM and the script has not asked for it |
| Selection.StepsAgree | runner/src/dispatch.rs:285-305 | for steps of which both read the same op, or which name their host and no ship, the script asks for the VM exactly when the runner ships, resolves to the VM, or refuses an undeclared op on a step not bound to the host |
| Selection.StepsAgreeExactly | scripts/run-tests.sh:221-229 | the two decide alike for every op table if and only if the step is one of those |
| Selection.DecideNeedsVm | scripts/run-tests.sh:185-231 | for a whole run, the script answers 1 exactly when one of the steps the runner selects makes it ask for the VM |
| Selection.NeverUnseenExactly | runner/src/bin/run-matrix.rs:188-236 | for every schema-valid matrix, filter and group table: whatever ops are declared, a run the runner can take to the VM has NEEDS_VM=1, if and only if no selected step escapes by an empty op or some other selected step makes the script ask anyway |
| Selection.NeverInVainExactly | scripts/run-tests.sh:216-231 | conversely: whatever ops are declared for the selected steps, NEEDS_VM=1 means that the runner can take the run to the VM, if and only if some selected step is bound there or none makes the script ask by a type the runner does not read |
| GuestSafety.StepKeeps | scripts/local-vm.py:328-895 | every file change, kill, guest write and power-off in any directory keeps the invariant of the file system and of all directories |
| GuestSafety.EditEffect | scripts/local-vm.py:547-606 | a write, unlink or rename changes what the paths it names hold and nothing else, and of the files that were there only the one it overwrites in place |
| GuestSafety.BackingKept | scripts/local-vm.py:461-470 | whatever anyone renames, removes or overwrites, a file open as a backing disk keeps its inode and is never given another name |
| GuestTheorems.ColdStartSeesTheResetPoint | scripts/local-vm.py:719-746 | every cold start of a provisioned guest boots an empty overlay, finds exactly the reset point's disk and opens that file as its backing, with the reset point's variables where it owns them |
| GuestTheorems.CopiedVarsReachTheBoot | scripts/local-vm.py:572 | from the copy of the variables to the boot nothing changes the copy, whatever other directories do |
| GuestTheorems.ResetPointChanges | scripts/local-vm.py:575-606 | disk or variables of a prepared guest change only by writes of its own base-mode boot or by the renames of its own save with no guest running |
| GuestTheorems.SaveKeepsThisBoot | scripts/local-vm.py:575-606 | when a save renames the disk, disk and variables are exactly what the stopped guest had |
| GuestTheorems.FailedSaveChangesNothing | scripts/local-vm.py:846-895 | a save that ends before its first rename, by failed retrim, timeout, failed conversion or kill, changes no file itself; meanwhile the guest's own writes go to the overlay and its variables, by exactly which they grow while the reset point stays, or in base mode to the reset point |
| GuestTheorems.OthersLeaveTheBaseAlone | scripts/local-vm.py:420-458 | over any run in which others act, instances of this base and their guests among them, every file the base names keeps its inode and its contents |
| GuestTheorems.InstancesWriteTheirRunFiles | scripts/local-vm.py:461-572 | in any reachable state a step of an instance, or of its guest, creates, removes or renames nothing but its own run.qcow2 and run-vars.fd, and of all files there are only theirs change their contents; never the backing file it has open |
| GuestTheorems.InstancesOnlyOverlay | scripts/local-vm.py:430-458 | an instance references an original and never another instance, has no base files, boots only its overlay and never saves or provisions |
| GuestTheorems.GuestSeesExactly | scripts/local-vm.py:461-470 | from its cold start until it is powered off a provisioned guest sees the disk it started from, then whatever a base-mode boot has since written into that same file, then its own writes; a save of the base does not reach it |
| GuestTheorems.GuestSeesItsStart | scripts/local-vm.py:694-746 | decided at the cold start: in every continuation in which it stays up the guest sees its start plus its own writes, if and only if no guest then running has the reset point's disk open for writing |
| GuestWitness.ABaseLeftUpIsSeen | scripts/local-vm.py:420-458 | a run from nothing in which that fails: prepare, install and provision a base, leave it up, make and start an instance; what the base's guest then writes, the instance sees |
| GuestTheorems.GuestKeepsItsVars | scripts/local-vm.py:552-572 | in any run a running guest's variables are what it found plus what it set |
| GuestTheorems.InstallsAtMostOnce | scripts/local-vm.py:713-731 | over any run with kills and retries the disk-wiping installer is attached at most once per directory |
| GuestTheorems.OperationsCanProceed | scripts/local-vm.py:547-606 | an operation in progress finds every file its next change needs |
| GuestScript.StateDir.Discard | scripts/local-vm.py:547-549 | overlay and its variables are gone and nothing else changes |
| GuestScript.StateDir.Reset | scripts/local-vm.py:552-572 | an empty overlay on the base's disk and a copy of the base's variables replace the last boot's |
| GuestScript.StateDir.Save | scripts/local-vm.py:575-606 | succeeds exactly when there is a disk to flatten; then this boot is the reset point, otherwise only the leftover is gone |
| GuestScript.StateDir.BootUp | scripts/local-vm.py:694-746 | an instance that would install or was never provisioned, a second installation and a first boot without one are refused and change nothing; a guest that is up stays as it is; otherwise a provisioned guest starts on an empty overlay with its base's disk and variables, any other on its own |
| GuestScript.StateDir.ShutDown | scripts/local-vm.py:832-895 | for each way it can end, just these files: after a failed retrim or a timeout everything as it was and the guest running; after a failed conversion reset point and overlay as they were; discarded; or saved, with this boot's disk and variables as the reset point |
| GuestScript.UpStepByStep | scripts/local-vm.py:694-746 | the steps of an uninterrupted `up`, whether an installation boot, a boot before provisioning or a cold start, lead to what the specification of the command says |
| GuestScript.SaveStepByStep | scripts/local-vm.py:832-895 | the steps of an uninterrupted `down --save`, in base mode or on an overlay, lead to what the specification of the command says |
| GuestScript.DownStepByStep | scripts/local-vm.py:832-895 | the same for a `down` that saves nothing, of a running or a stopped guest |
| GuestScript.GivesUpStepByStep | scripts/local-vm.py:846-895 | the steps of a `down` that gives up, because the retrim fails or the guest does not stop, leave the whole world as it was |
| GuestScript.ConvertFailsStepByStep | scripts/local-vm.py:575-599 | the steps of one whose conversion fails leave the guest stopped, reset point and overlay as they were, and no flattened disk |
| GuestScript.PrepareStepByStep | scripts/local-vm.py:328-408 | the steps of `prepare` leave the firmware's variables and an empty disk as the reset point of a guest neither installed nor provisioned |
| GuestScript.InstanceStepByStep | scripts/local-vm.py:420-451 | the steps of `instance` leave no file of its own but the record of its provisioned base |
| GuestScript.ProvisionStepByStep | scripts/local-vm.py:801-829 | the step of `provision` marks the guest as provisioned and changes no other file |
| GuestScript.BeginsExactly | scripts/local-vm.py:694-846 | the machine lets `up`, `down` and `provision` begin exactly when the commands do not refuse |
| GuestScript.MakesExactly | scripts/local-vm.py:328-447 | a directory can be prepared exactly when it has neither record nor disk, and made an instance exactly when it is empty and the base is a provisioned original |
| GuestScript.LookStep | scripts/local-vm.py:547-746 | each step of the machine, on names and inodes, does to what the files hold exactly what the step on values does |
| Quoting.LiteralRoundTrip | runner/src/dispatch.rs:458-460 | reading a literal followed by anything that starts with no apostrophe returns exactly the value and the rest |
| Quoting.LiteralsDiffer | runner/src/dispatch.rs:458-460 | two values have the same literal only if they are equal |
| Quoting.CommandRoundTrip | runner/src/dispatch.rs:477-491 | a command composed of bare words and literals reads back part by part |
| Quoting.NestedRoundTrip | runner/src/dispatch.rs:464-492 | whatever command is wrapped, with any quotes of its own, the line reads back part by part and its last value is that very command |
| CommandReading.LockCommandOrders | runner/src/dispatch.rs:464-492 | read word by word, the wrapped line calls the lock script with an Invoke, each of six options followed by the value it is named for; without a lease the command goes as it is |
| Quoting.SharedShipDecodes | runner/src/dispatch.rs:836-863 | a ship through the share, wrapped and read back at both levels, names exactly its paths: share to stage to destination under a lease, directly otherwise |
| CommandReading.SharedShipDoes | runner/src/dispatch.rs:836-863 | read off its rendered line, a ship through the share copies the shared file to the stage and moves that stage into place, or copies straight from one end to the other in its own direction |
| CommandReading.CommandsDo | runner/src/dispatch.rs:721-770 | read off their rendered lines, the other commands of a ship copy, move and remove just the paths they are given, with the switches that take directories whole and replace what is there |
| Shipping.RunShip | runner/src/dispatch.rs:717-781 | exit 0 is reported exactly when the whole plan was carried out with every call exiting 0; otherwise a call follows only successful ones, except that an outgoing stage is removed whenever its guard could be asked; an error of the guard call ends the step with no further call |
| Shipping.RunSharedShip | runner/src/dispatch.rs:685-711 | a ship through the share is one guarded command and reports its answer |
| Shipping.PlansAreShipSteps | runner/src/dispatch.rs:728-764 | the dispatcher's plan for an incoming ship and the script's, each command line read back to what it does, are the three steps the lease machine takes: check or probe the lease, send to the owner's stage, move that stage to the destination inside an Invoke |
| Shipping.PlanDelivers | runner/src/dispatch.rs:717-781 | carried out call by call, as the rendered lines say, a ship in either direction puts exactly the source's contents at the destination on the other side and leaves both sides otherwise as they were, the stage included |
| Shipping.ScriptDelivers | scripts/run-tests.sh:559-570 | the same for the script's way of shipping a file |
| Shipping.SharedDelivers | runner/src/dispatch.rs:685-711 | the same for a ship through the share |
| Paths.StageIsLocated | runner/src/dispatch.rs:673-676 | a stage path, resolved segment by segment under any workdir, leads to the file of that plain name in its own token's directory |
| Paths.StagesAreApart | runner/src/dispatch.rs:673-676 | two stage paths lead to one place, and a stage path into another token's directory, only if token and name are the same |
| Paths.ClimbingNamesEscape | runner/src/dispatch.rs:673-676 | that needs plain names: one that climbs leads into another token's directory |
| Shipping.ShipFile | scripts/run-tests.sh:559-570 | verify, copy to the stage and guarded move happen in this order, each only after the one before it succeeded, and success means all three |

## Left out

- LeaseLedger.HeartbeatsKeepTheLease: whether a further stamp comes in time is up to the environment.
- LeaseTheorems.SomeProcessMoves: says some step is possible, not that the operating system takes it; the fifteen-second limit of a gate wait is folded into a process that dies.
- LeaseProtocol.Next: `File.Replace` is one atomic step, as its comment intends; a command that outlives its crashed Invoke is not followed; outside tampering with the lock directory is not modelled, and a guarded command other than a ship's move changes files outside that directory only, so the staging of an outgoing ship is in `Shipping.RunShip` alone.
- LeaseProtocol.Enabled: every Acquire brings a token never used before, as `scripts/run-tests.sh:473` generates them, and a ship's destination lies outside the lock directory.
- LeaseShipping.ReportedShipsHaveArrived: asks for a stage name no other ship of the token uses; the process id and time stamp it is made of do not guarantee that, and `SharedStageNamesMixUp` is what happens without it. A destination is always taken as a file, where a move into an existing directory lands inside it.
- OwnerRecord.Casts: PowerShell's casts of a JSON value to a time, a whole number and a string are parameters, taken to give back what the script wrote; a token in owner.json is taken to be one the script accepts, since nobody else writes the file.
- LeaseScript.LockWorkdir.WriteOwner: a failure of the replacement itself, for want of space or permission, is not modelled.
- LeaseScript.LockWorkdir.AcquireLock: creation of the workdir, and the refusal of other actions when it is missing, are not part of the model.
- Paths.Resolve: letter case, trailing dots and short names, by which Windows may take two spellings for one file, are not modelled; tokens are generated in one case.
- MatrixTheorems.SomeProcessMoves: claims no fairness of `flock`; deletion of the matrix from outside is not modelled.
- MatrixFile.Apply: entries are a status, an evidence link and opaque other fields; JSON parsing and printing, file modes and the top level beside `scenarios` are left out.
- TemplateTheorems.WhenIndexesArrays: surrounding white space of a condition is taken as removed already.
- Expander.ExpandChecked: the JSON text of arrays and objects and the display form of numbers are parameters of the context; plain `expand`, which pushes bytes of non-ASCII text as characters, is not modelled.
- Scheduler.Next: spontaneous wakeups are unlimited, the test library's thread pool is only "at most as many trials as permits", and a poisoned mutex is left out.
- Selection.RunnerSelects: steps skipped at run time by `when` and stopping at the first failed step are left out, so the runner's side says which steps it could dispatch; the exact-match flag is modelled for the runner only, and agreement is for runs without it.
- Selection.AnyNeedsVm: a selected name is looked up in the scenario table as in a dictionary, so names are taken to be unique.
- Selection.ScriptOp: a list or object as `type`, which is unhashable in the script's dictionary lookup and raises there, is read as naming no op, so that the script asks for the VM.
- GuestTheorems.ColdStartSeesTheResetPoint: for an instance the variables are its base's at the moment they were copied, not at the boot.
- GuestTheorems.SaveKeepsThisBoot: speaks of the completed pair of renames; a kill between the two leaves new variables beside the old disk.
- GuestLifecycle.Next: each file copy, conversion and creation is one step, inode numbers are not reused, and the locks QEMU itself takes on disk images are left out; QEMU, its monitor, ssh into the guest and their timeouts appear only as outcomes.
- Quoting.LiteralRoundTrip: the typographic quotation marks PowerShell also accepts as delimiters are not modelled; values holding them are read here as ordinary text.
- Shipping.RunShip: ssh and scp are answers of a remote side; recognition of shared paths, creation of local directories and reports beyond the exit code are left out.
- Not modelled at all: configuration files and prompts, media download, firmware and ports, the shared directory's daemon, Windows provisioning scripts, diagnostics and progress output, reaping of orphaned image directories, child-process timeouts, `run_recipe`'s fail-fast loop.
