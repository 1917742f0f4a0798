# Verified models of the production operations

This project models the parts of the repository that change production or judge what happened
there, and proves what they promise. Six groups of modules, each with its own vocabulary:

- **Rollout** (`RolloutWorld`, `RolloutHost`, `RolloutCommands`, `RolloutHistory`, `RolloutProtocol`,
  `RolloutFaults`, `RolloutTheorems`):
  the 0052 to 0054 schema rollout. A `Host` holds the world (checkout, image tags, schema revision,
  role tables with their rows, the two application containers, the identity of database and
  environment file). Every external command is an effect on that world under a fault: it may fail
  before, during or after its work, the upgrade may stop at any revision, and running release code
  may insert rows between two commands. A fault schedule that runs out is a killed process; any
  number of runs may follow one another. The host records every command with the world it met, from
  the world the record begins in to the last, and a command may only be issued when the schema-safety
  rule `Permitted` allows it. `Advanced(n)` says that the record stays honest and obedient and that at
  most `n` commands were issued; `Able(n)` that the coming `n` commands simply work, `Ready(n)` that all
  but one at most do, command number `odd` of the record, which may go in any way that leaves database
  and environment file alone; `Struck` that this one was issued, `Met` the world right after it;
  `SafeBetween` what was done between two moments: no role row was lost and every command was safe.
- **Transcript** (`Transcript*`): the two-page probe. The grammar of its transcript is an automaton;
  the strict parser (a reader that peeks and rewinds) and the emitter (a report that counts calls and
  messages while the provider answers) are separate code, each proved against it; what the one
  accepts is what the other can print.
- **Elf** (`Elf*`): the in-place run-path patcher over ELF-64 program headers, dynamic section and
  string table (System V gABI, chapters 4 and 5). Run-path strings may share a tail, as linkers let
  them; that they keep clear of the dynamic table is assumed where a lemma says so.
- **Publisher** (`Publisher*`): the transactional publisher of the branding pages over a small file
  system. What each operation does is decided by the answer the system has for it, so a reader can tell
  from the answers and the tree whether a publication goes through.
- **Bot** (`Bot*`): the Bot-environment rewrite, its independent validator, the staged retirement
  protocol and the parser of its transcript.
- **Topology** (`Topology*`), **Audit** (`Audit*`) and **MailBackfill**: the census loop and its three
  printing and reading hops; the AI-audit sanitizer, running budget, list and summary; the batched
  keyset backfill of migration 0016.

`Options`, `Sequences` and `PythonText` are shared, the last with line splitting as `str.splitlines` does
it, `key=value` lines and decimal numbers.

Where code and comments or names of the repository differ, the model follows the code. Some of these
places are results of their own, each with its exact condition:

- A library is reported as patched although a run path of it does not read `$ORIGIN`, exactly when one
  run-path string is a proper tail of another; patching it again then fails
  (`ElfSharing.ReadsOriginExactly`, `ElfSharing.PatchAgain`; `ElfExample` has such a file).
  One whose run paths read `$ORIGIN` already is left untouched, DT_RPATH tags included
  (`ElfVerdict.PatchVerdict`).
- The running budget counts whole floats and ignores booleans, the recomputed totals do the opposite:
  they agree exactly when the floats add up to the number of true booleans
  (`AuditTheorems.RowIsBudget`).
- A failed retirement is rejected by its own parser exactly when the class of the exception it met, but
  for a carriage return at its end, is no ASCII word (`BotRetirement.Machine.RemoteMain`; `BotExample`
  has such a run).
- The undoing of a failed publication gives the old tree back exactly when no owned file had set-id or
  sticky bits (`Publisher.PublishBrandingFiles`; `PublisherExample` has a tree that loses one).
- The sanitizer is idempotent exactly on values without bytes at depth twelve
  (`AuditSanitizer.SecondPass`; `AuditSanitizer.NestedTwice` has such values).

To check the project: `dafny verify dfyconfig.toml`.

## Model

| member | source | states |
|---|---|---|
| RolloutProtocol.RunRollout | ops/production/remote_migrate_person_roles_0054.py:559-677 | under every fault schedule, killed anywhere or not, a run loses no role row, issues at most 128 commands, each of them safe, and records exactly them from the world it met on; exit 0, also through the recovery, leaves checkout, schema and both started containers at (release, 0054) or (rollback, 0052) with database container, volume and environment hash unchanged; over a host that can be migrated a run without a fault takes exactly 49 commands, the changing ones in their places, to (release, 0054), and with one fault anywhere it ends as `OneFailure` says; over a migrated host exit 0, 1 or 2 follows the command that fails, and a working host with any other pair of checkout and revision is exit 2 |
| RolloutFaults.RunWithOneFault | ops/production/remote_migrate_person_roles_0054.py:559-677 | for every schedule that works but for command k: the process is not killed; if k is never reached the run goes through in 49 commands; if it fails and nothing was stopped, exit 1 or 2 with the old checkout and the old containers still started, and unchanged unless the applications acted; if the applications were stopped, the run goes through although k was a read or reported success, or the schema that k left decides: untouched or above 0052 with both tables empty means exit 0 at (rollback, 0052) with both containers running, anything else exit 2 with nothing running and that schema left as it is |
| RolloutFaults.FailedUpgrade | ops/production/remote_migrate_person_roles_0054.py:496-530 | an upgrade that fails without changing anything ends with exit 0, the old code running again over 0052 |
| RolloutProtocol.RunAll | ops/production/remote_migrate_person_roles_0054.py:559-677 | any number of runs, each killed or failing anywhere, together lose no role row that was there before the first and issue only safe commands; the last exit 0 means a coherent pair |
| RolloutProtocol.Rollout | ops/production/remote_migrate_person_roles_0054.py:559-668 | the run itself, from the preflight to success, recovery or the way back to the old checkout: the same exits for no fault, one fault and any faults, and nothing but reads when head or revision is not the one to start from |
| RolloutProtocol.MigrateHost | ops/production/remote_migrate_person_roles_0054.py:602-668 | the guarded part and the recovery: with one fault at most it goes through, leaves the applications alone, or ends as the schema after the fault demands |
| RolloutProtocol.RolloutAction | ops/production/remote_migrate_person_roles_0054.py:324-329 | exactly two pairs of checkout and revision lead on, everything else is refused |
| RolloutProtocol.Preflight | ops/production/remote_migrate_person_roles_0054.py:568-600 | changes nothing, and what it recorded is what the host holds; on a working host it takes 17 reads, one of which, failing, ends it with its own error |
| RolloutProtocol.Attempt | ops/production/remote_migrate_person_roles_0054.py:602-640 | the flags tell the truth: not stopped means that nothing was stopped and the containers are those recorded, stopped without a started migration revision 0052, a started migration that is not live that no application runs; with one fault at most it takes 32 commands in the order of the source, or ends with the schema the fault left |
| RolloutProtocol.UpgradeSchema | ops/production/remote_migrate_person_roles_0054.py:618-623 | runs beside no application; success means 0054, complete and empty |
| RolloutProtocol.ProveRollbackSafe | ops/production/remote_migrate_person_roles_0054.py:415-427 | succeeds on a working host if and only if the schema is at 0054 with both tables empty, and then no application runs |
| RolloutProtocol.ClassifyFailedMigration | ops/production/remote_migrate_person_roles_0054.py:400-412 | succeeds on a working host if and only if the schema is untouched or above 0052 with both tables present and empty |
| RolloutProtocol.DowngradeSchema | ops/production/remote_migrate_person_roles_0054.py:461-465 | is only reached with no application running and both tables empty |
| RolloutProtocol.RestoreOld | ops/production/remote_migrate_person_roles_0054.py:430-458 | starts rollback code only over 0052; true means new rollback containers over 0052 with the recorded identity; on a working host it takes eleven commands and both run |
| RolloutProtocol.RecoverFailedRollout | ops/production/remote_migrate_person_roles_0054.py:474-530 | on a working host it exits 0 exactly from the states `Recoverable` names, in 11, 13, 17 or 20 commands, and 0 always means (rollback, 0052); exit 2 there leaves nothing running and the schema as it was |
| RolloutHost.Host.Issue | ops/production/remote_migrate_person_roles_0054.py:135-151 | a command changes the world by its effect under its fault and is appended to the record with the world it met, unless the process was killed, and then nothing changed; a permitted one keeps the host sound |
| RolloutHost.StopsCounted | ops/production/remote_migrate_person_roles_0054.py:611-617 | the counter of stops grows exactly when a stop is among the further commands |
| RolloutHistory.AlwaysMatched | ops/production/remote_migrate_person_roles_0054.py:559-668 | at every point of every history each started container faces the revision its code is written for |
| RolloutHistory.RowsSurvive | ops/production/remote_migrate_person_roles_0054.py:400-420 | no role row that exists at one point of a history is missing later |
| RolloutHistory.MigrationsRunAlone | ops/production/remote_migrate_person_roles_0054.py:593-660 | every recorded command loses no row and leaves matched containers; Alembic never runs beside an application, and a downgrade meets only empty tables |
| RolloutHistory.CodeMeetsItsSchema | ops/production/remote_migrate_person_roles_0054.py:430-458 | started rollback code always faces 0052, started release code 0054 |
| RolloutHistory.RecordGoesOn | ops/production/remote_migrate_person_roles_0054.py:559-668 | a record that goes on from an earlier moment of the same host means: no row lost since, every new command safe |
| RolloutTheorems.RecoverFailedLayoutRollout | ops/production/remote_migrate_task_layout_0052.py:405-451 | the older recovery on the same host: exits 0 exactly from the states `LayoutRecoverable` names |
| RolloutTheorems.RecoveriesCompared | ops/production/remote_migrate_task_layout_0052.py:420-451 | where tables follow the revision, the 0054 recovery undoes what the older shape undoes and besides exactly the untouched schema, where the older one blocks |
| RolloutTheorems.CompareRecoveries | ops/production/remote_migrate_task_layout_0052.py:405-451 | both recoveries on equal working hosts, by exit status: the newer restores what the older does and exactly the untouched schema besides |
| TranscriptParser.ParseOutput | ops/production/manual_mtproto_history_two_page.py:124-202 | the reader with its peeks and its rewind computes the judgement of the protocol automaton on every text |
| TranscriptParser.Reader.Take | ops/production/manual_mtproto_history_two_page.py:105-115 | one step of the automaton: short, wrong, or the value the line gives its key |
| TranscriptParser.ParsePages | ops/production/manual_mtproto_history_two_page.py:157-202 | the page loop judges as the automaton does, page two included |
| TranscriptParser.FinishFailedPage | ops/production/manual_mtproto_history_two_page.py:164-189 | the stage that was peeked at and rewound decides counts, ordinal and closing lines |
| TranscriptProtocol.TruncationIsIncomplete | ops/production/manual_mtproto_history_two_page.py:100-121 | every proper prefix of an accepted transcript, cut at any character, is incomplete: never accepted, never invalid |
| TranscriptCompletion.IncompleteBegins | ops/production/manual_mtproto_history_two_page.py:100-202 | unless it breaks off right behind a count of a page, a text is judged incomplete if and only if its finished lines are the beginning, and not the whole, of the lines of a well-formed run |
| TranscriptCompletion.IncompleteChildBegins | ops/production/manual_mtproto_history_two_page.py:154-202 | the same for the transcript of the child alone |
| TranscriptCompletion.Finishes | ops/production/manual_mtproto_history_two_page.py:157-202 | from every state of the protocol whose counts fit there are lines that end in acceptance |
| TranscriptTheorems.AcceptedAreRuns | ops/production/manual_mtproto_history_two_page.py:124-202 | a text is accepted with a verdict if and only if it is the transcript of a well-formed run with that verdict |
| TranscriptTheorems.AcceptedAreChildRuns | ops/production/manual_mtproto_history_two_page.py:154-202 | the same for the transcript of the child alone |
| TranscriptTheorems.RelayedTextAccepted | ops/production/manual_mtproto_history_two_page.py:551-566 | an accepted child transcript printed behind the remote opening is accepted with the same verdict |
| TranscriptTheorems.CountsBounded | ops/production/manual_mtproto_history_two_page.py:130-141 | an accepted run makes at most two calls of a kind and six in all, in order, and converts all it sees but at most one message |
| TranscriptLanguage.RemoteRead | ops/production/manual_mtproto_history_two_page.py:143-155 | accepted lines are the lines of a run of the remote process |
| TranscriptBehaviour.RunOfWellFormed | ops/production/manual_mtproto_history_two_page.py:356-454 | every behaviour of database and provider leads to a well-formed run |
| TranscriptBehaviour.Realizable | ops/production/manual_mtproto_history_two_page.py:251-314 | exactly the well-formed runs that report a missing entry as InvalidHistoryEntry are runs of some behaviour |
| TranscriptEmitter.ReadMessages | ops/production/manual_mtproto_history_two_page.py:284-301 | at most a hundred messages; stage, ordinal and counts at the end are those of the scan |
| TranscriptEmitter.ProbePage | ops/production/manual_mtproto_history_two_page.py:251-314 | messages are asked for if and only if client and connection did not raise and the session answered that it is authorized; each other reply ends the page with its own stage and class, a raising iteration with the ordinal of the message asked for; the lines show what was counted |
| TranscriptBehaviour.PageMeaning | ops/production/manual_mtproto_history_two_page.py:251-314 | which calls a page makes, where it stops and what it has converted, in terms of the replies |
| TranscriptEmitter.Report.Check | ops/production/manual_mtproto_history_two_page.py:216-225 | the line and, unless the answer is the expected one, the failure with stage and class: its own class if it raised, RuntimeError otherwise |
| TranscriptEmitter.Report.Finish | ops/production/manual_mtproto_history_two_page.py:227-238 | the failure lines, the six counters under their names and the terminal line, literally |
| TranscriptEmitter.ChildProbe | ops/production/manual_mtproto_history_two_page.py:356-454 | what was printed and counted is the run of the behaviour |
| TranscriptEmitter.ChildMain | ops/production/manual_mtproto_history_two_page.py:457-471 | the second page is asked for if and only if all checks passed, the first page passed with 100 messages, the history is not complete and the cursor is a positive integer; the terminal line says success exactly when everything asked for succeeded, a state that cannot be derived is reported as such, and the first wrong check under its key and stage |
| TranscriptBehaviour.RunMeaning | ops/production/manual_mtproto_history_two_page.py:356-454 | when a second page is asked for, when the run succeeds and how often it connects, in terms of checks, pages and derivation |
| TranscriptEmitter.RemoteMain | ops/production/manual_mtproto_history_two_page.py:474-566 | prints the remote transcript for any guards and any child output, exit status and error text |
| TranscriptEmitter.RemoteTranscriptAccepted | ops/production/manual_mtproto_history_two_page.py:545-566 | whatever the child did, the remote transcript is accepted with the verdict that happened |
| TranscriptEmitter.ProbeTranscript | ops/production/manual_mtproto_history_two_page.py:457-566 | with an honest child the transcript is that of its run, and so is the verdict |
| TranscriptRealization.AcceptedIsPossible | ops/production/manual_mtproto_history_two_page.py:124-566 | a text is accepted with a verdict if and only if some guards and some honest child lead to that verdict and print that text, up to the known exception class it shows |
| TranscriptRealization.RemoteRealized | ops/production/manual_mtproto_history_two_page.py:474-566 | every well-formed remote run that reports a missing entry as InvalidHistoryEntry is printed in some world, with its verdict |
| TranscriptRealization.JudgeAgrees | ops/production/manual_mtproto_history_two_page.py:130-141 | which known class a transcript shows makes no difference to how it is judged |
| ElfFile.ReadDynamicTable | client/linux/set_bundle_runpath.py:57-69 | the cursor loop reads the entries up to the null entry and the last string-table address |
| ElfFile.ReadLayout | client/linux/set_bundle_runpath.py:26-74 | headers, dynamic table and string-table offset, or the reason the file is left alone, as `ElfLayout.LayoutRead` says |
| ElfLayout.LayoutRead | client/linux/set_bundle_runpath.py:26-74 | a header outside the file is an error, no dynamic header a reason to skip; otherwise the table of the last dynamic header decides: its last string-table entry, found through the first loadable segment that holds its address |
| ElfLayout.Identified | client/linux/set_bundle_runpath.py:26-30 | what the first six bytes decide, and a file too short for them |
| ElfLayout.TableRead | client/linux/set_bundle_runpath.py:57-69 | the table is the entries up to the null entry or the end of the segment, and an error exactly when one of them lies outside the file |
| ElfLayout.MappedRead | client/linux/set_bundle_runpath.py:51-55 | an address is found through the first loadable segment that holds it, and not at all when none does |
| ElfWords.WordDigit | client/linux/set_bundle_runpath.py:31-43 | a number of n bytes is below 256^n, and its digit k to base 256 is byte k |
| ElfWords.DigitsRead | client/linux/set_bundle_runpath.py:31-43 | the n bytes of a number below 256^n are read back as that number |
| ElfPatch.PatchBuffer | client/linux/set_bundle_runpath.py:76-94 | the in-place loop over the byte buffer computes the entry-by-entry rewriting, or stops where it fails |
| ElfPatch.Patch | client/linux/set_bundle_runpath.py:25-98 | status and bytes written for every file; what they mean is said by `ElfVerdict.PatchVerdict`, `ElfSharing.ReadsOriginExactly` and `ElfSharing.PatchChanges` |
| ElfTheorems.PatchProgress | client/linux/set_bundle_runpath.py:76-94 | with separated strings, after n entries exactly the first n run paths are rewritten and every other byte is old |
| ElfResults.PatchedBuffer | client/linux/set_bundle_runpath.py:76-94 | a patched buffer has every run path tagged DT_RUNPATH and reading exactly `$ORIGIN` |
| ElfResults.PatchedFile | client/linux/set_bundle_runpath.py:57-98 | the same for a patched file; its length stays and it differs only in those tag words and string spans |
| ElfResults.SameString | client/linux/set_bundle_runpath.py:76-97 | a string that shares no byte with what was written reads as before |
| ElfResults.OtherStringsKept | client/linux/set_bundle_runpath.py:76-97 | the same for a patched file |
| ElfResults.NothingLeft | client/linux/set_bundle_runpath.py:87-96 | a patched buffer gives every entry nothing to change |
| ElfResults.PatchTwice | client/linux/set_bundle_runpath.py:57-98 | patching a patched file again is skip-no-rpath with unchanged bytes |
| ElfFamilies.FamilyProgress | client/linux/set_bundle_runpath.py:76-94 | of run-path strings with a common end, after n entries only the last one patched is written, over the old bytes before it, and every string still ends where it did or before |
| ElfVerdict.VerdictProgress | client/linux/set_bundle_runpath.py:77-96 | for strings clear of the dynamic table: patching goes through exactly when every run-path string is terminated, has room and is no proper tail of one before it, and changes something exactly when one is not `$ORIGIN` |
| ElfVerdict.PatchVerdict | client/linux/set_bundle_runpath.py:82-98 | when a file is patched, skipped or refused, exactly, whatever tails its strings share |
| ElfVerdict.SeparatedVerdict | client/linux/set_bundle_runpath.py:82-98 | for strings that are kept apart only their room and their content decide |
| ElfSharing.TailsRead | client/linux/set_bundle_runpath.py:87-96 | after a reported patch the run path that starts first of those with one end reads `$ORIGIN`, and each other one what is left of it at its own start |
| ElfSharing.ReadsOriginExactly | client/linux/set_bundle_runpath.py:87-98 | after a reported patch every run path reads `$ORIGIN` if and only if no two of them shared a part of their strings without being the same string |
| ElfSharing.PatchChanges | client/linux/set_bundle_runpath.py:76-98 | whatever tails are shared, a patched file differs only in tag words and string spans of its run paths, all tagged DT_RUNPATH, and no string ends later than before |
| ElfSharing.PatchAgain | client/linux/set_bundle_runpath.py:57-98 | a second patch is skip-no-rpath with unchanged bytes if and only if the strings were apart before the first; otherwise it fails for want of room |
| ElfExample.TailSharingBreaks | client/linux/set_bundle_runpath.py:57-98 | a library of 257 bytes whose DT_RPATH is a tail of its DT_RUNPATH is reported as patched, and its DT_RPATH then reads as the empty string |
| ElfExample.SecondPatchFails | client/linux/set_bundle_runpath.py:87-96 | patching that library once more fails because a run path is too short |
| ElfOrdinary.OrdinaryPatched | client/linux/set_bundle_runpath.py:25-98 | a library of 650 bytes with three headers, offsets of two bytes and strings at different offset and address is patched: its DT_RPATH is tagged 29 and its string spells `$ORIGIN` |
| Publisher.PublishBrandingFiles | ops/production/remote_public_web.py:277-320 | published exactly when the tree is acceptable, both callbacks agree and the answers of the system let each step of the way through (`Smoothly`); then exactly the owned paths hold the pages; a refusal touches nothing; a failing callback is rolled back, and without any fault restored; a failed operation is restored whenever it was the only fault; restored means every owned file is back, and for a privileged process the old tree is, if and only if no owned file had set-id or sticky bits; in no case is anything else changed, and nothing else but half-made dot files added |
| Publisher.Install | ops/production/remote_public_web.py:246-259 | the target holds the data exactly when its five steps are let through; else nothing changed, or one half-made file is left because removing it failed |
| Publisher.Restore | ops/production/remote_public_web.py:262-274 | presence, bytes, permission bits and time of the snapshot are back |
| Publisher.TakeSnapshots | ops/production/remote_public_web.py:222-235 | the snapshots are what the owned files held, and stop only at a file that is not regular or cannot be read |
| Publisher.MakeDirectories | ops/production/remote_public_web.py:301-309 | exactly the missing directories are created, one operation each, and remembered |
| Publisher.InstallPages | ops/production/remote_public_web.py:310-311 | all pages are in place exactly when each can be installed; else the tree differs at owned paths and created directories only |
| Publisher.RestoreFiles | ops/production/remote_public_web.py:315-316 | after the undo loop every owned path is restored; wherever it fails, nothing else is changed |
| Publisher.RemoveDirectories | ops/production/remote_public_web.py:317-319 | created directories are empty again and removed, so the whole tree is restored |
| Publisher.RequirePageManifest | ops/production/remote_public_web.py:172-181 | accepts exactly the owned paths with the listed hashes |
| Publisher.CreatedIsEmpty | ops/production/remote_public_web.py:317-319 | with every owned path restored nothing stands in a created directory |
| PublisherExample.PublishOver | ops/production/remote_public_web.py:277-320 | a home page with mode 4644 and answers without a fault: verified, the pages are published; not verified, everything is restored but the set-id bit |
| PublisherAnswers.FewTroubles | ops/production/remote_public_web.py:238-259 | failures can be blamed on answers: none on faultless ones, at most one where at most one is a fault |
| BotEnvironment.NeutralizeBotEnv | ops/production/retire_telegram_bot.py:117-138 | the line loop with its counters clears each Bot line when all four are assigned once and none is malformed |
| BotEnvironment.ValidatePlannedTransform | ops/production/retire_telegram_bot.py:145-160 | accepts exactly line-for-line transforms that clear four Bot lines |
| BotEnvironment.EnvAssignments | ops/production/retire_telegram_bot.py:163-171 | the assignments of a text, later ones winning |
| BotTheorems.AssignmentsRead | ops/production/retire_telegram_bot.py:163-171 | a setting has a value if and only if the last line that assigns it gives that value |
| BotTheorems.AssignmentLine | ops/production/retire_telegram_bot.py:163-171 | a name of capitals, digits and underscores, an equals sign and any value is an assignment |
| BotEnvironment.PlanBotEnvironment | ops/production/retire_telegram_bot.py:209-214 | plans exactly when clearing and validation both succeed |
| BotPieces.PiecesForm | ops/production/retire_telegram_bot.py:119-138 | pieces put together form at most as many lines, and as many exactly when no two run into one another |
| BotTheorems.PlanExact | ops/production/retire_telegram_bot.py:209-214 | a plan exists exactly when each Bot setting is assigned once, on a nonempty line ending in LF or CRLF or on a last line without a lone CR |
| BotTheorems.PlanMeaning | ops/production/retire_telegram_bot.py:117-171 | for any mix of separators a plan changes exactly four lines, empties exactly the four Bot settings in the assignment map, is a fixed point of clearing, and leaves nothing to plan |
| BotTheorems.IdempotentOnOrdinary | ops/production/retire_telegram_bot.py:141-142 | on LF and CRLF texts clearing is idempotent |
| BotRetirement.Machine.RemoteMain | ops/production/retire_telegram_bot.py:364-544 | at most two provider calls; the file is written only after both are confirmed, with the plan of a text of usable settings, and over another text only when someone wrote that meanwhile; without other edits it exits 0 if and only if there is a plan, the settings are usable and each of the 24 steps passes, and otherwise stage, class, number of lines, calls, trace and file are those of the first step that does not (`BotSteps.StepAt`); a successful run whose file is left alone from step 19 on leaves empty Bot settings and nothing else changed; the class met on exit 2 is the one the last step raised, or one of the program's own, and the printed transcript is read as a failure exactly when that class is a word |
| BotExample.OtherHeadRun | ops/production/retire_telegram_bot.py:377-378 | a checkout at another revision is exit 2 at STAGE_0_REMOTE_HEAD after three lines, without a provider call and with the file as it was |
| BotRetirement.Machine.Run | ops/production/retire_telegram_bot.py:366-386 | a command succeeds if and only if it does not raise and sees what it wants; otherwise it stops with the stage, class and number of lines of its step |
| BotExample.RejectedRun | ops/production/retire_telegram_bot.py:364-588 | a run whose first step raises an exception of class `No-Word` exits 2 with a transcript that its parser rejects |
| BotRetirement.Machine.PlanEnvironment | ops/production/retire_telegram_bot.py:404-417 | goes on only with the plan of the text the snapshot saw, and only when its settings are all filled in, the API number positive and the AI flag off |
| BotRetirement.Machine.AskProvider | ops/production/retire_telegram_bot.py:418-430 | each call is made once, the second only after the first is confirmed |
| BotRetirement.Machine.WritePlanned | ops/production/retire_telegram_bot.py:217-222 | writes the plan only after the file was read as the text it was made from; what is overwritten is that text, or one written between the reading and the replacing |
| BotRetirement.Machine.WriteEnvironment | ops/production/retire_telegram_bot.py:431-438 | the same, and then goes on only when what is read back differs from the text before in Bot lines alone |
| BotRetirement.Machine.CheckEnvironment | ops/production/retire_telegram_bot.py:462-514 | the checks after the write pass whenever the file holds the plan and the looks do; when they pass and nobody edits the file after its second reading, it differs in nothing but empty Bot settings |
| BotRetirement.Machine.CheckFile | ops/production/retire_telegram_bot.py:462-475 | two readings of the file: the first differs in Bot lines alone, the second has no Bot setting left |
| BotRetirement.Machine.CheckContainers | ops/production/retire_telegram_bot.py:476-515 | goes on only when the protected settings are the old ones |
| BotRetirement.Machine.Conclude | ops/production/retire_telegram_bot.py:528-544 | the closing lines of a success or a failure, and how the whole transcript is judged |
| BotRetirement.Planned | ops/production/retire_telegram_bot.py:462-510 | the plan empties the Bot settings and keeps the protected ones |
| BotTranscript.SuccessTranscript | ops/production/retire_telegram_bot.py:547-565 | the printed transcript of a complete run is read as a success |
| BotTranscript.FailureJudged | ops/production/retire_telegram_bot.py:566-588 | a failure transcript is accepted if and only if its exception class is an ASCII word |
| BotTranscript.FailureTranscript | ops/production/retire_telegram_bot.py:540-588 | the printed transcript of a failure, whatever class it shows, is accepted if and only if that class, but for a carriage return at its end, is an ASCII word; it is never read as a success |
| BotTranscript.BrokenClassRejected | ops/production/retire_telegram_bot.py:566-577 | a class that breaks its line pushes the failure stage into the prefix, which is then out of order |
| PythonText.PrintedLine | ops/production/retire_telegram_bot.py:536-548 | a printed line is read back as one line exactly when the only break in it is a carriage return at its end |
| TopologyCensus.BuildFacts | ops/production/remote_hg5a_topology_audit.py:117-242 | blocked for the first of the five input reasons and never by its own two output guards; counted exactly when there is one user, the counts given agree, and no task or person is there twice; then under the text of each of the 23 kinds of key stands the size of its own set: tasks, windows, people, pages, categories, relevance, memberships, span, anchors, alignment |
| TopologyCensus.MapTasks | ops/production/remote_hg5a_topology_audit.py:139-148 | succeeds exactly without a repeated task, and then maps each task to its window |
| TopologyCensus.MappedWindows | ops/production/remote_hg5a_topology_audit.py:105-114 | the set of windows that hold an anchor, and whether one is in none |
| TopologyCensus.Counters.Count | ops/production/remote_hg5a_topology_audit.py:170-198 | one person moves the counters as its category, span and page demand |
| TopologyCensus.CountPeople | ops/production/remote_hg5a_topology_audit.py:163-198 | the nested loop counts the sets of people it visited |
| TopologyCensus.UnionSize | ops/production/remote_hg5a_topology_audit.py:212-217 | the task total is the size of the union of the windows |
| TopologyMeaning.CategoriesPartition | ops/production/remote_hg5a_topology_audit.py:200-210 | the five categories partition the people, aligned and mismatched the single-window ones |
| TopologyMeaning.AfterDescribes | ops/production/remote_hg5a_topology_audit.py:170-198 | counting one more person keeps every counter the size of its set |
| TopologyMeaning.MembershipSum | ops/production/remote_hg5a_topology_audit.py:227 | the memberships are the pairs of a complete person and a window it has to do with |
| TopologyTheorems.CensusInequalities | ops/production/remote_hg5a_topology_audit.py:200-234 | single + 2 multi is at most the memberships, and these at most the largest span times the complete people |
| TopologyKeys.OrderDistinct | ops/production/remote_hg5a_topology_audit.py:93-102 | the generated keys are pairwise distinct for any number of windows |
| TopologyKeys.KeyTextInjective | ops/production/remote_hg5a_topology_audit.py:48-74 | different keys have different texts |
| TopologyNumbers.DecimalNumber | ops/production/remote_hg5a_topology_audit.py:423-426 | a printed number is read back |
| TopologyOutput.ReadFacts | ops/production/remote_hg5a_topology_audit.py:442-449 | the dictionary loop reads exactly lines of numbers under new, allowed keys |
| TopologyOutput.FactsRead | ops/production/hg5a_topology_audit.py:85-93 | facts under distinct keys are read back as they were printed |
| TopologyTheorems.ChildHop | ops/production/remote_hg5a_topology_audit.py:429-455 | the remote process reads back the facts the child printed, unchanged |
| TopologyTheorems.RemoteHop | ops/production/hg5a_topology_audit.py:126-141 | the client accepts the facts the remote process printed, unchanged |
| TopologyClient.LinesAccepted | ops/production/hg5a_topology_audit.py:85-141 | lines are accepted with a table if and only if they name nobody, have the fixed first and last lines, and between them the facts of that table, in order and with sums that agree, under the texts of their keys |
| TopologyBlocked.BlockedRemoteHop | ops/production/hg5a_topology_audit.py:144-162 | a printed blocked audit is rejected with exactly its stage, with or without the marker before it |
| TopologyBlocked.BlockedChildHop | ops/production/remote_hg5a_topology_audit.py:429-439 | the printed block of a census is read as its stage |
| TopologyBlocked.CensusBlockRead | ops/production/remote_hg5a_topology_audit.py:117-242 | every reason the census may be blocked for is a stage both readers know |
| TopologyTheorems.CensusSurvives | ops/production/hg5a_topology_audit.py:85-141 | every facts map the census returns survives child print, remote reading, remote print and client reading unchanged |
| TopologyTheorems.CensusConsistent | ops/production/hg5a_topology_audit.py:102-122 | every census passes all cross-checks of the client |
| AuditSanitizer.SanitizedBounded | backend/app/ai_audit/sanitizer.py:29-53 | the result is at most thirteen levels deep, with lists of 200 and texts of 32001 at most and no bytes |
| AuditSanitizer.SanitizedHarmless | backend/app/ai_audit/sanitizer.py:24-39 | no text in the result carries a marker |
| AuditSanitizer.SanitizedSelf | backend/app/ai_audit/sanitizer.py:29-53 | a value is kept as it is if and only if nothing in it is marked, too long, too deep, bytes or a foreign object, and secret entries are redacted already |
| AuditSanitizer.TextKept | backend/app/ai_audit/sanitizer.py:34-39 | a text is kept exactly when it is unmarked and short, or was cut before; a marked one is redacted, a long one keeps its first 32000 characters |
| AuditSanitizer.MarkedRedacted | backend/app/ai_audit/sanitizer.py:24-36 | a marker anywhere in a text, in any case, redacts the text |
| AuditSanitizer.SecondPass | backend/app/ai_audit/sanitizer.py:29-53 | a second pass changes nothing if and only if no bytes sit at depth twelve |
| AuditSanitizer.NestedTwice | backend/app/ai_audit/sanitizer.py:29-53 | bytes inside n lists change in a second pass if and only if n is twelve |
| AuditBudget.BudgetTokensFromMetadata | backend/app/ai_audit/context.py:42-54 | the loop charges input and output tokens of model rounds, failed ones too, that are numbers, and nothing of any other event |
| AuditBudget.ActiveTrace.RecordEvent | backend/app/ai_audit/context.py:75-93 | sequence numbers run 1 to n, each stored event keeps the tokens of the recorded one, the budget is what was charged for all of them; captured payloads are sanitized, null ones dropped |
| AuditBudget.TokensSurvive | backend/app/ai_audit/sanitizer.py:42-50 | sanitizing keeps what the token fields report |
| AuditBudget.FieldDifference | backend/app/ai_audit/context.py:31-39 | a field is charged as it is tallied if and only if it is neither true nor a whole float other than zero |
| AuditBudget.AgreeThroughout | backend/app/ai_audit/context.py:42-93 | running and recomputed budget agree after every event if and only if in every event the whole floats add up to the number of true booleans; otherwise they part at the first event where they do not |
| AuditBudget.BooleanTokens | backend/app/ai_audit/context.py:31-35 | one event with a true boolean: charged nothing, recomputed as one |
| AuditBudget.FloatTokens | backend/app/ai_audit/context.py:37-38 | one event with 5.0 tokens: charged five, recomputed as nothing |
| AuditSummary.ListTraces | backend/app/ai_audit/trace_service.py:164-208 | each row has the calls and usage of its own events |
| AuditExample.OneRound | backend/app/ai_audit/trace_service.py:164-208 | a model round, failed or not, counts as one call with each number under its own field, and its input and output are charged |
| AuditExample.OneToolCall | backend/app/ai_audit/trace_service.py:308-310 | a tool call counts as one, whatever its metadata say |
| AuditSummary.BuildSummary | backend/app/ai_audit/trace_service.py:243-348 | traces, failures, model and tool calls, calls by workload and by model, token totals in all and by workload, background counts: each the count or sum over the traces or their events; the assistant means are the calls of all assistant traces over their number, the maxima the largest of one |
| AuditSummary.SumOfTraces | backend/app/ai_audit/trace_service.py:262-315 | counted trace by trace, rounds and tools add up to those of all assistant traces |
| AuditTheorems.ListMatchesSummary | backend/app/ai_audit/trace_service.py:127-348 | within the list limit the rows are as many as the summary counts and add up to its totals, and so do those of each workload, in any order of the answers |
| AuditTheorems.RowsShowMean | backend/app/ai_audit/trace_service.py:127-348 | the rows of the assistant traces show the mean number of rounds of the summary |
| AuditTheorems.RowIsBudget | backend/app/ai_audit/context.py:42-93 | in whatever order its events come back, the row of a trace shows the budget its run had counted if and only if the whole floats it recorded add up to the number of its true booleans; with clean fields it always does |
| AuditTheorems.AnyOrder | backend/app/ai_audit/trace_service.py:167-184 | the sums do not depend on the order of the events |
| MailBackfill.BackfillEmailOccurredAt | backend/alembic/versions/0016_object_occurred_at_retrieval_indexes.py:41-82 | for any page size (the migration uses 500) it ends, visits each eligible row once in order, and leaves the table of one pass: exactly the mail rows of the two providers without a time and with metadata that parse have got that time |
| MailBackfill.FillPage | backend/alembic/versions/0016_object_occurred_at_retrieval_indexes.py:73-80 | after a page, rows up to its last key are done and the others untouched |
| MailBackfill.NextRow | backend/alembic/versions/0016_object_occurred_at_retrieval_indexes.py:73-80 | no eligible row is skipped between two keys, although updated rows leave the filter |
| MailBackfill.BackfilledAgain | backend/alembic/versions/0016_object_occurred_at_retrieval_indexes.py:41-82 | backfilling a backfilled table changes nothing |

## Left out

- Command lines, quoting, ssh, Git, Docker Compose, psql, curl, Telethon and environment parsing: each command is an effect with a fault, each reply of the outside world a parameter.
- Two rollouts at once, and a command that goes on working after its process was killed: the rollout takes no lock.
- Exceptions outside the recoverable set during the guarded part of a rollout behave like a kill.
- RolloutFaults.RunWithOneFault: the one command that may go wrong leaves database container, volume and environment file alone; a run that finds them changed is only bounded by what RolloutProtocol.RunRollout says of every schedule.
- RolloutProtocol.Rollout: a look that the source makes with several commands in a row is one command of the model, so 49 counts looks and changes, not processes.
- Release code that deletes role rows: running applications only insert.
- A change of the database volume or environment file is seen in the identity, not in the role rows.
- The other remote rollouts (0046, 0047, 0050, 0051), deploy and rollback scripts: weaker forms of the 0054 machine.
- ElfSharing.ReadsOriginExactly: run-path strings that overlap the dynamic table, which the tag words written there would change.
- Publisher.PublishBrandingFiles: directory times, access times, extended attributes and inode identity are not part of the tree, and nobody else changes it meanwhile.
- Publisher.Restore: ownership is restored only for a privileged process, because an unprivileged one shrugs off a denied change of owner.
- The check that the static root resolves to its authorized path, and the fetching and comparing of the public pages: the two callbacks are parameters.
- BotRetirement.Machine.RemoteMain: the resolved environments of api and worker, those of their containers and the shape of the provider's answers are one good-or-bad reply each; the environment file and the settings in it are modelled as text.
- BotTranscript.FailureJudged: how a number is read is a parameter that reads back the numbers of calls that occur, zero to two.
- TopologyOutput.ReadFacts: only ASCII digits are digits; `str.isdecimal` accepts other decimal digits too.
- The relaying of a blocked census: the child then exits with status 1, so the remote process reports `command` before it reads the child's stage.
- AuditSanitizer.Sanitize: floats are reals; infinities and not-a-number, which pass the sanitizer unchanged and are charged nothing, are not values of the model.
- AuditSanitizer.SanitizedHarmless: lower-casing works character by character, dictionaries have text keys, and the pattern for secret keys is a parameter that leaves `byte_size` alone.
- AuditSummary.BuildSummary: the text of a model name that is not a text is a parameter; means are exact fractions, not floats.
- AuditSummary.ListTraces: the filter by user and window is the given answer of a query, limited as `Answers` says.
- MailBackfill.BackfillEmailOccurredAt: the parser of timestamps is a parameter; row ids are integers.
- The other human-only probes, the HG2 and HG4A censuses, routers, schemas, the Flutter client and the end-to-end harnesses.
