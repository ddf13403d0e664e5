# A verified model of Lobbyboy's server lifecycle

Lobbyboy hands out throw-away servers over SSH. Connection threads let a visitor create a server or
enter an existing one; a patrol thread, the *server killer*, destroys servers that are idle and about
to cost more. All threads share a JSON file of servers, a table of active sessions and the providers.

This project models that lifecycle in Dafny and proves what it guarantees and where it does not.

## How the model is organised

| files | what they model |
|---|---|
| `Durations`, `Decimal` | durations such as `10m`, and their rendering for the user |
| `Billing`, `Schedule`, `Arith` | the verdict on one server, and what it means under a patrol schedule |
| `Json`, `JsonProofs`, `ServerFile`, `Database` | the server file: JSON text, ordered map, the two functions that read and rewrite it |
| `Sessions`, `Killer`, `SocketHandle` | the session table, one patrol pass, and one connection thread, each on its own |
| `Lifecycle`, `LifecycleFile`, `LifecycleSessions`, `LifecycleSafety`, `LifecycleServers`, `LifecycleDeadline`, `LifecycleVisits` | all threads together, as a state machine over their steps, and what every run keeps |
| `LifecycleRuns` | concrete runs: a whole visit, and what can go wrong |
| `Names`, `Menu`, `Handshake` | name allocation, the numbered menu, the pty and shell requests |
| `Wrappers`, `Seqs` | small helpers |

Code that changes things in place is a class whose methods are proved against specification
functions (`ServerDb`, `OrderedDict`, `SessionTable`, `ServerKiller`, `SocketHandler`, `Channel`,
`NameSource`, `Server`). The state machine uses the same functions (`Load`, `Save`, `Update`,
`Attached`, `Detached`, `NeedDestroy`), with every lock operation, truncation, partial write, look at
the sessions, clock reading and provider call as a step of its own.

## Main results

* **Patrol every g seconds.** With a minimum life, billing unit b and safe time s, a server first
  checked at age p ever gets a destroy verdict if and only if `p mod d + s >= d`, where
  `d = gcd(g, b)`; the verdict then comes within `b / d` checks after the minimum life. So every phase
  is safe if and only if `gcd(g, b) <= s`, and no check has to show a time too long to be shown.
* **Irregular patrols.** For a safe time and a boot lag below one unit, every server gets a destroy
  verdict before the provider's next cycle boundary if and only if consecutive checks are at most
  `s - lag` seconds apart, where `lag` is the delay between the start of billing and the recorded
  creation. For a positive lag the bound s alone is not enough, and once the lag reaches s no gap is.
* **The deadline in whole runs.** In every interleaving, when each round of the patrol ends at most
  `s - lag` seconds after the one before it has begun, `destroy_server` is called for an idle server
  before that boundary. It takes rounds that read the file while nobody rewrites it.
* **The file.** In every interleaving, whenever the lock is free the file is the fold of all changes in
  lock order; an unlocked read gives the empty map while the file is being rewritten and the current
  records at any other moment, never half a list. This rests on a JSON reader and writer for which
  reading undoes writing and no proper prefix of a written array can be read.
* **Destroying.** Every call of `destroy_server` is preceded, in its own thread, by a look that found
  no session and by a verdict on the age. Living servers are exactly the recorded ones, with open
  additions, without open removals, and with those for which a call has reported a failure and no
  later call has succeeded.
* **Sessions.** Each list holds exactly one entry per thread between registration and removal, in
  attach order.
* **Visits.** The server a visitor uses is the one he picked, by its number in the records he read, or
  one created for him. When he leaves it empty his thread weighs its age before it ends, and calls
  the provider if the server is due.
* **Progress.** No deadlock: a thread that has not ended can take a step, unless it waits for the lock
  and the holder can. What ends a thread, by an exception or without one, is listed exactly; no thread
  ever fails on the server file.

## What is not true of the code

These are proved as lemmas with a concrete run or input, next to the exact condition.

* With `destroy_safe_time` unset and a minimum life, no server is ever destroyed. This is how the
  shipped configuration sets up vagrant, linode and vultr (`lobbyboy/conf/lobbyboy_config.toml:89-90`,
  `:108-109`, `:156-157`) and what the readme recommends for new providers (`readme.md:302-311`).
  The comment at `lobbyboy/conf/lobbyboy_config.toml:33-34` promises a margin of the destroy interval
  plus five minutes; the code uses the safe time alone, and the model follows the code.
* The verdict and the destroy are not atomic: a session may be registered when the provider is called.
  It is, exactly when somebody entered after the look and stayed (`SessionAtCallExactly`,
  `SessionCanBeKilled`).
* One record of a provider that is not configured, and the patrol never completes another round: it
  crashes at that record, and nothing starts it again (`UnknownProviderStopsPatrol`).
* An exception in a session leaves it registered for ever, and the server is then never destroyed
  (`StuckServerIsNeverDestroyed`, `SessionCanGetStuck`).
* The value that `destroy_server` returns is ignored: a reported failure leaves a living server that
  the file has forgotten (`ServerCanLeak`). With no change open, the file is complete if and only if
  every call that reported a failure for a living server was followed by one that destroyed it
  (`FileIsCompleteExactly`).
* An unlocked read does not always give the current records: while another thread rewrites the file,
  and only then, it gives the empty map (`ReadsAreWhole`). A patrol that reads at that moment passes
  over every server for a whole round (`RoundCanSkip`).
* `need_destroy` also raises when the time it is about to show is 1000000000 days or more
  (`RaisesExactly`), as for a minimum life of that many days at age zero (`TooLongMinimumLife`). With
  readable settings it never raises if and only if there is no minimum life, or the unit is positive
  and both the minimum life and the unit less the safe time are shorter than that (`TotalExactly`).
* A second pty request between the spawn of the process and the pump gives the two different
  terminals; they are sure to share one if and only if there is at most one request (`PairedExactly`).

## Assumptions

* The clock does not run backwards, a write of the file is not interrupted by a crash, and what has
  been written of it is a prefix of the new text.
* Server names are distinct. `Names` proves this for one provider; two providers that produce the same
  name are outside the model, as the file is keyed by the name only (`lobbyboy/config.py:180`).
* `create_server` either raises without effect or creates a server; `destroy_server` destroys it,
  returns False without effect, or raises without effect.
* A peer name is not reused while a session under it is still registered.
* An exception may end a thread while it chooses, uses or judges a server. One source of them is the
  removal of a session (`lobbyboy/socket_handle.py:231-235`): it asks every listed transport for its
  peer name, which raises for the closed transport of a stuck session, so that later visitors of that
  server get stuck as well. The model has this as one of the exceptions that may end a session.

## Model

| member | source | states |
|---|---|---|
| Durations.ToSecondsRoundTrip | lobbyboy/utils.py:95-110 | a printed number of units reads back as that many seconds, for every number and unit |
| Durations.ToSecondsOfNumeral | lobbyboy/utils.py:105-109 | the same for every digit string, leading zeros included |
| Durations.SecondsOfUnits | lobbyboy/utils.py:33-38 | n followed by s, m, h or d is n, 60 n, 3600 n or 86400 n seconds |
| Durations.ScanOrderIsIrrelevant | lobbyboy/utils.py:33-38 | no string matches two units, so any order of the unit table gives the same result |
| Durations.ToSecondsAccepts | lobbyboy/utils.py:103-110 | accepted are exactly "0" and digits with one unit, with at most one newline after them; all else raises |
| Durations.DehumanizeOfHumanize | lobbyboy/utils.py:113-115 | the rendering "D days, H:MM:SS" of any number of seconds can be read back |
| Durations.HumanizeText | lobbyboy/utils.py:113-115 | the text: days, if any, with the word day or days, hours without and minutes and seconds with two places |
| Durations.HumanizeExample | lobbyboy/utils.py:114 | 364121 seconds are shown as "4 days, 5:08:41" |
| Durations.HumanizeInjective | lobbyboy/utils.py:113-115 | different durations within the limit of `timedelta` are shown differently |
| Billing.DestroyVerdictExactly | lobbyboy/server_killer.py:63-89 | closed form of the verdict: no session, managed, and either no minimum life or past it and in the last safe seconds of some paid cycle |
| Billing.DestroysExactly | lobbyboy/server_killer.py:63-89 | the same for any settings, also when one that is not reached is unreadable |
| Billing.ShownTimeExactly | lobbyboy/server_killer.py:63-87 | the reason shown for a kept server; its time leads exactly to the end of the minimum life or to the next safe seconds |
| Billing.TermsAsWritten | lobbyboy/server_killer.py:74-83 | the three settings are read as printed durations; an absent or empty safe time is zero |
| Billing.AbsentSettingRaises | lobbyboy/server_killer.py:74-81 | without a minimum life, or past it without a billing unit, the check raises |
| Billing.UnusedPaidTime | lobbyboy/server_killer.py:81-89 | a destroyed server has between 1 and min(safe time, unit) seconds of paid time left |
| Billing.RaisesExactly | lobbyboy/server_killer.py:74-87 | the check raises exactly when it reaches a setting that is unreadable, a unit of zero, or a time too long to be shown |
| Billing.TotalExactly | lobbyboy/server_killer.py:75-87 | with readable settings it raises at no age if and only if the minimum life is zero, or the unit is positive and all times can be shown |
| Billing.TooLongMinimumLife | lobbyboy/server_killer.py:75-78 | a minimum life of 1000000000 days or more raises at age zero although both settings are readable |
| Billing.NoSafeTimeNeverDestroys | lobbyboy/server_killer.py:83-87 | without a safe time and with a minimum life the verdict is never to destroy, at any age |
| Billing.ShippedConfiguration | lobbyboy/conf/lobbyboy_config.toml:49-109 | the shipped hourly sections keep every server for ever, the others destroy an idle one at once |
| Schedule.PhaseExactly | lobbyboy/server_killer.py:30-34 | from one phase some check decides to destroy iff phase mod gcd(gap, unit) + safe time reaches the gcd |
| Schedule.DestroyedWithinOneRound | lobbyboy/server_killer.py:30-34 | and then within unit / gcd consecutive checks after the minimum life |
| Schedule.PeriodicPatrolExactly | lobbyboy/server_killer.py:30-34 | a periodic patrol destroys from every phase, no check before raising, iff gcd(gap, unit) is at most the safe time and all times can be shown |
| Schedule.NeverDestroyedPhase | lobbyboy/server_killer.py:74-87 | otherwise a server first seen at a multiple of the gcd is never destroyed |
| Schedule.DeadlineExactly | lobbyboy/server_killer.py:82-87 | for a safe time and a lag below the unit, gaps of at most safe time minus lag are necessary and sufficient for a verdict before the provider's boundary |
| Schedule.DeadlineMet | lobbyboy/server_killer.py:36-49 | the sufficient half for any safe time, also above the unit |
| Schedule.LatePatrol | lobbyboy/config.py:62-78 | for any larger gap, and for any gap when the lag reaches the safe time, a patrol without a destroy verdict before the boundary |
| Arith.GcdIsGreatest | lobbyboy/server_killer.py:83 | the gcd of the theorems is the greatest common divisor |
| JsonProofs.LoadsOfRender | lobbyboy/config.py:198-200 | reading a written JSON value gives it back |
| JsonProofs.LoadsOfPadded | lobbyboy/config.py:172-173 | also with white space around it |
| JsonProofs.NoPrefixLoads | lobbyboy/config.py:169-175 | no proper prefix of a written array or object is a JSON text (sections 2 and 5 of RFC 8259) |
| ServerFile.FindUpdate | lobbyboy/config.py:189-196 | effect of one update on each name: deleted names are absent, the last addition counts, others keep their record |
| ServerFile.UpdatesCommute | lobbyboy/config.py:184-196 | updates that touch different names commute as maps |
| ServerFile.NamesPut | lobbyboy/config.py:192 | replaced names keep their place, new names go last |
| ServerFile.NamesPop | lobbyboy/config.py:194-196 | deletion keeps the order of the other names and ignores unknown ones |
| ServerFile.IsMapUpdate | lobbyboy/config.py:184-201 | no name occurs twice after an update |
| ServerFile.LoadOfSave | lobbyboy/config.py:163-200 | loading what an update wrote gives the same records in the same order |
| ServerFile.LoadOfTornWrite | lobbyboy/config.py:167-175 | loading while the file is being rewritten gives the empty map |
| ServerFile.LoadOfMissing | lobbyboy/config.py:167-175 | without a file, or with an empty one, there are no servers |
| ServerFile.LoadOfNonArray | lobbyboy/config.py:176-178 | of all other JSON values the empty object and the empty string count as no servers and the rest raise |
| ServerFile.LoadOfRecords | lobbyboy/config.py:177-180 | of several records with one name the last one counts, in the place of the first |
| ServerFile.KeysOfRecord | lobbyboy/config.py:54-68 | the keys under which a record is written, in order |
| ServerFile.LoadOfBareRecord | lobbyboy/config.py:54-68 | a record of provider, workspace and name only gets the defaults, and the clock as its creation |
| ServerFile.LoadOfUnknownKey | lobbyboy/config.py:179 | a record with an unknown key raises |
| ServerFile.LoadOfIncomplete | lobbyboy/config.py:179 | a record without provider, workspace or name raises |
| ServerFile.LoadOfUpdated | lobbyboy/config.py:189-200 | what an update of any readable file writes loads as the updated map |
| Database.PutAllOfCollected | lobbyboy/config.py:191-192 | collecting additions in a dictionary first gives the same map and order as adding them one by one |
| Database.OrderedDict.SetItem | lobbyboy/config.py:177-180 | keys stay distinct and equal to the names of their records; the values become the specified sequence |
| Database.OrderedDict.PopItem | lobbyboy/config.py:195-196 | removes the record of the name, or nothing |
| Database.ServerDb.LoadLocalServers | lobbyboy/config.py:163-181 | the loop computes Load; a missing or empty file gives the empty map |
| Database.ServerDb.UpdateLocalServers | lobbyboy/config.py:184-201 | the file loads as the updated map at every later reading, also when there was no file; if the load raises nothing is written |
| Sessions.SessionTable.Register | lobbyboy/socket_handle.py:129-130 | the peer is appended to the list of that server only |
| Sessions.SessionTable.RemoveServerSession | lobbyboy/socket_handle.py:229-235 | the table without that peer's entries for that server |
| Sessions.OthersRemovesOne | lobbyboy/socket_handle.py:231-235 | among distinct peers exactly the caller's entry goes and the order stays |
| Sessions.DetachUndoesAttach | lobbyboy/socket_handle.py:204-206 | leaving undoes entering for every server, whatever others did in between |
| Killer.PassIsFilter | lobbyboy/server_killer.py:36-49 | a pass that stops at the i-th server leaves the checked servers that are not due, in order, and all unchecked ones |
| Killer.JudgedExactly | lobbyboy/server_killer.py:46-89 | at the clock of the pass the check decides to destroy exactly the managed servers without sessions whose time is up |
| Killer.DueExactly | lobbyboy/server_killer.py:46-89 | the same in terms of minimum life, unit and safe time, for the age since the recorded creation |
| Killer.GoesOnExactly | lobbyboy/server_killer.py:39-49 | a check does not raise exactly for a known provider whose settings can be used and who does not raise |
| Killer.AnswerDecides | lobbyboy/server_killer.py:98-102 | what each answer of the provider does to a server that is due |
| Killer.CompletePass | lobbyboy/server_killer.py:36-49 | a pass without exception leaves exactly the servers that are used, unmanaged or not yet at the end of their time, and destroys the others unless the provider reports a failure |
| Killer.SecondPassChangesNothing | lobbyboy/server_killer.py:36-49 | a second pass changes nothing |
| Killer.ServerKiller.Destroy | lobbyboy/server_killer.py:91-102 | order of provider call and removal; only an exception keeps the record, the returned bool does not |
| Killer.ServerKiller.CheckServer | lobbyboy/server_killer.py:39-49 | the loop body for one server: exception, or record and server gone, or nothing |
| Killer.ServerKiller.CheckAllLiveServers | lobbyboy/server_killer.py:36-49 | the loop over the snapshot, rewriting the file per server, computes Pass |
| SocketHandle.SocketHandler.ChooseProvider | lobbyboy/socket_handle.py:54-71 | the provider whose number was typed, and on an empty first line the only one; a cancel key and having no provider raise; at the end of the stream the failure stands for a thread that reads for ever |
| SocketHandle.SocketHandler.AskUserToCreateServer | lobbyboy/socket_handle.py:97-103 | the server of the selected provider lives and is recorded, or nothing changes; if the file cannot be loaded it lives unrecorded |
| SocketHandle.SocketHandler.ChooseServer | lobbyboy/socket_handle.py:73-95 | an existing server is returned exactly when its number was selected, and is the one shown at that number; number 0, or an empty file, gives a new one; a cancel key raises; at the end of the stream the failure stands for a thread that reads for ever |
| SocketHandle.SocketHandler.GivenByNumber | lobbyboy/socket_handle.py:84-95 | what the menu gives for a typed number k: the k-th server, or a new one for 0 |
| SocketHandle.SocketHandler.DestroyServerIfNeeded | lobbyboy/socket_handle.py:215-227 | the check on leaving has the effect of one patrol check |
| SocketHandle.SocketHandler.Run | lobbyboy/socket_handle.py:237-267 | the visitor gets what the menu gives unless its provider is unknown; a normal visit removes its session and checks the server, a broken one leaves the session registered and checks nothing |
| SocketHandle.DestroyUndoesCreate | lobbyboy/socket_handle.py:97-103 | creating and destroying a server leaves file and provider as they were |
| SocketHandle.VisitLeavesNoTrace | lobbyboy/socket_handle.py:204-227 | a lone visitor's server without minimum life leaves no trace in file, provider or sessions |
| LifecycleFile.NoLostUpdates | lobbyboy/config.py:184-201 | whenever the lock is free the file loads as the fold of all changes in lock order, whatever text it started with |
| LifecycleFile.LogIsCompleted | lobbyboy/server_killer.py:101-102 | that history consists of the writes the steps of the run completed, in order |
| LifecycleFile.FoldByName | lobbyboy/socket_handle.py:101-102 | the record of a name is that of the last change concerning it |
| LifecycleFile.ReadsAreWhole | lobbyboy/config.py:167-175 | an unlocked read in any state never raises; it gives the empty map if the file is being rewritten and otherwise the current records |
| LifecycleSessions.SessionAccounting | lobbyboy/socket_handle.py:229-235 | each list holds exactly one entry per thread between registration and removal, in attach order |
| LifecycleSafety.DestroyIsJustified | lobbyboy/server_killer.py:46-100 | each provider call is for a managed server, after a look without sessions and a destroy verdict in the same thread |
| LifecycleSafety.DestroyIsInWindow | lobbyboy/server_killer.py:72-89 | in terms of the settings: no minimum life, or the age was in the billing window |
| LifecycleSafety.SessionAtCallExactly | lobbyboy/server_killer.py:46-49 | a session is registered at the call iff somebody entered after the look and stayed |
| LifecycleSafety.StuckServerIsNeverDestroyed | lobbyboy/socket_handle.py:265-267 | after an exception in a session nobody who has not yet looked ever destroys that server |
| LifecycleServers.Conservation | lobbyboy/socket_handle.py:97-103 | living servers are the recorded ones, plus open additions, minus open removals, plus failed destructions |
| LifecycleServers.LeakedExactly | lobbyboy/server_killer.py:98-102 | a failed destruction is one whose call reported a failure for a living server, with no successful call since |
| LifecycleServers.ConservationWithoutFailures | lobbyboy/server_killer.py:98-102 | without reported failures the living servers are the recorded ones, plus open additions, minus open removals |
| LifecycleServers.FileIsCompleteExactly | lobbyboy/server_killer.py:98-102 | with no change open, file and living servers agree iff every reported failure for a living server was followed by a successful call |
| LifecycleDeadline.RoundWeighs | lobbyboy/server_killer.py:36-46 | every round that reads a whole file weighs each recorded server that stays idle |
| LifecycleDeadline.PatrolMeetsDeadline | lobbyboy/server_killer.py:30-49 | rounds that each end within safe time minus lag of the start of the one before call the provider for an idle server before its billing boundary |
| LifecycleVisits.EntersWhatWasChosen | lobbyboy/socket_handle.py:73-110 | the server in use is the one picked by its number in the records read, or the one created |
| LifecycleVisits.LeaverWeighs | lobbyboy/socket_handle.py:204-218 | a visitor who leaves a server empty weighs its age before his thread ends |
| LifecycleVisits.LeaverCalls | lobbyboy/socket_handle.py:215-227 | and calls the provider when the server is due |
| LifecycleVisits.CrashesExactly | lobbyboy/server_killer.py:39-100 | the steps at which an exception ends a thread; the server file is never among them |
| LifecycleVisits.EndsExactly | lobbyboy/socket_handle.py:215-267 | the steps at which a connection thread ends without an exception |
| LifecycleVisits.NoDeadlock | lobbyboy/server_killer.py:101-102 | every thread that has not ended can move, or waits for a lock whose holder can |
| LifecycleVisits.UnknownProviderStopsPatrol | lobbyboy/server_killer.py:39-44 | after reading a record of an unknown provider the patrol never completes a round |
| LifecycleRuns.FirstServer | lobbyboy/socket_handle.py:73-103 | a run from a missing file in which the first server is created, recorded and entered |
| LifecycleRuns.WholeVisit | lobbyboy/socket_handle.py:237-263 | a run in which it is also left and destroyed, with file, providers and sessions empty in the end |
| LifecycleRuns.SessionCanBeKilled | lobbyboy/socket_handle.py:120-130 | a run in which a registered session's server is destroyed |
| LifecycleRuns.SessionCanGetStuck | lobbyboy/socket_handle.py:265-267 | for every server of a configured provider, a run in which an exception leaves a session registered |
| LifecycleRuns.ServerCanLeak | lobbyboy/server_killer.py:100-102 | a run in which a reported failure leaves a living server out of the file |
| LifecycleRuns.RoundCanSkip | lobbyboy/server_killer.py:37-49 | for every length of the part already written, a run in which a round of the patrol passes over a living recorded server because it read the file during a rewrite |
| Names.NameSource.GenerateDefaultServerName | lobbyboy/provider.py:29-40 | claims the first free name in suffix order, or raises and claims nothing |
| Names.StampText | lobbyboy/provider.py:30 | the stamp: year, month and day, hours and minutes, with dashes and two places |
| Names.NameText | lobbyboy/provider.py:31-35 | the prefix with a dash, if there is one, the stamp, and nothing or a small letter |
| Names.NameInjective | lobbyboy/provider.py:30-35 | for one prefix a name determines its minute and suffix |
| Names.FreshMinute | lobbyboy/provider.py:34-40 | in a fresh minute exactly 27 calls succeed, in suffix order |
| Names.NamesAreDistinct | lobbyboy/provider.py:34-39 | however calls overlap, the returned names are pairwise distinct and new |
| Names.FirstMakerWins | lobbyboy/provider.py:37-38 | of all callers that found a name free, however they overlap, exactly the first one to make the directory gets it and the others raise |
| Menu.SelectedExactly | lobbyboy/utils.py:159-191 | option k is returned iff the dialogue is rejected lines, fewer than the recursion limit allows, and then the number k, or the default on an empty first line |
| Menu.NumberIsSelected | lobbyboy/utils.py:180-186 | typing k selects option k, with any default |
| Menu.EmptyLine | lobbyboy/utils.py:177-186 | an empty first line selects a default in range and is asked again otherwise |
| Menu.AskedAgain | lobbyboy/utils.py:180-191 | a number out of range, a negative one and a line without digits are asked again, without the default |
| Menu.ParseIntOfPadded | lobbyboy/utils.py:180-181 | a numeral with a sign and blanks around it is its number |
| Menu.CancelKeys | lobbyboy/utils.py:201-202 | the characters 3 and 4 leave the menu wherever they are typed |
| Menu.DeleteIsIgnored | lobbyboy/utils.py:206-208 | the delete key leaves no trace in the line |
| Menu.CancelledExactly | lobbyboy/utils.py:201-202 | the menu is left iff a cancel key follows rejected lines |
| Menu.ReadLineOf | lobbyboy/utils.py:194-212 | a line is its characters without the delete key, up to carriage return or cancel key |
| Menu.Channel.ReadUserInputLine | lobbyboy/utils.py:194-212 | the loop over single characters computes ReadLine; its result at the end of the stream stands for reading for ever |
| Menu.Channel.ChooseOption | lobbyboy/utils.py:159-191 | the recursion around the reader computes Choose and consumes exactly the dialogue; its result at the end of the stream stands for reading for ever |
| Handshake.Server.CheckChannelPtyRequest | lobbyboy/server.py:130-141 | both ends are stored before the event is set |
| Handshake.Server.CheckChannelShellRequest | lobbyboy/server.py:121-128 | the shell event is set only when a terminal is there |
| Handshake.PtyBeforeShell | lobbyboy/socket_handle.py:160-173 | past its wait the thread has both ends, the process gets a slave end, the no-shell branch is unreachable |
| Handshake.EventsExactly | lobbyboy/server.py:121-141 | the events are set exactly by successful requests, not by failing or timed-out ones |
| Handshake.TimedOutIsOver | lobbyboy/server.py:121-126 | a shell request that has timed out never sets its event later |
| Handshake.PairedExactly | lobbyboy/socket_handle.py:194-202 | process and pump are sure to share a terminal iff there is at most one pty request |
| Handshake.SecondPtySplitsThePair | lobbyboy/server.py:135 | a run with two requests in which they do not |

## Left out

- SSH transport, key exchange, authentication and key files: foreign libraries.
- Provider bodies: `create_server` and `destroy_server` are steps with the outcomes listed above.
- The byte pump, window resizing and signals: decided by the operating system.
- Configuration loading and reflection; provider settings are given as optional strings.
- The endless loop of `patrol`: `Schedule` speaks about its sequence of checks, `Killer` about one pass.
- Prompts, echo and logging. The options of a menu are modelled, other texts are not.
- Durations.ToSecondsAccepts: digits are ASCII; the regular expression also accepts other Unicode digits, and newer Python versions refuse numerals of more than 4300 digits.
- Durations.DehumanizeOfHumanize: negative durations are not rendered; the decision never shows one.
- Menu.SelectedExactly: characters are single ASCII bytes; a byte that is not valid UTF-8 would raise. The recursion limit of Python, reached after roughly a thousand rejected lines, depends on the interpreter and is not modelled.
- Menu.Channel.ReadUserInputLine: at the end of the stream the source reads empty strings for ever; the model ends with `Starved`.
- Menu.Channel.ChooseOption: likewise, the model ends with `NoMoreInput`.
- SocketHandle.SocketHandler.ChooseProvider: likewise, the model ends with `NoInput`.
- SocketHandle.SocketHandler.ChooseServer: likewise, the model ends with `NoInput`.
- JsonProofs.LoadsOfRender: numbers are whole and strings hold no lone surrogates; server records contain nothing else.
- Database.ServerDb.LoadLocalServers: numbers with a fraction or an exponent, and the words NaN and Infinity, are not read; a file that holds one, which no update writes, loads as the empty map where the source would carry the number on.
- ServerFile.LoadOfSave: values of the wrong JSON type raise in the model, the source would carry them on.
- SocketHandle.SocketHandler.Run: the use of the server is one step that ends normally or with an exception; all readings of the clock in one visit agree. The state machine lets the clock move.
- Names.NameInjective: years have four digits.
