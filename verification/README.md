# Certforge, verified

Certforge keeps TLS certificates and their DANE (TLSA) records in step. Its hard part is a key
rotation that spans several runs and may be interrupted anywhere: generate a key, publish its
TLSA record early, remember the rotation on disk, wait until resolvers have forgotten the old
RRset, issue a certificate for that key, and then shrink the RRset to the new record.

This project models that protocol and the code around it, and proves what operators and clients
rely on: which answers clients can hold at any instant, what a crash leaves behind, how long a
rotation takes, and when the configuration checks, the challenge handling, the order polling and
the encoders do what they promise. `dafny verify dfyconfig.toml` checks all of it.

## How the model is built

- `Protocol` is a state machine. A step is one effect of a `renew` run, of `dane-publish`, of
  the clock, or the end of the process. An end of the process is always possible, so every
  reachable state is also a crash point. DNS RRsets keep all their versions with instants, and
  `History.Usable` says which versions a client may still act on.
- `World` is the same state as an object. Every outside effect is a method that may fail, before
  or after the effect took place, and records its step. `World.Valid()` says that the recorded
  steps are a run of the state machine, so the imperative code (`PrePublish`, `Publish`, `Renew`,
  `RenewCertificate`, `Run`, `DaneCommands`) is proved to be an instance of the protocol. Every
  method also says which certificates keep the promise to their clients (`Safety.Guarded`,
  `World.KeptExcept`), so that a whole run inherits it, certificate by certificate, from what held
  before. With `reliable` set, no outside call fails except where the name server must refuse it.
- The main promises are stated once more in the words of the configuration, the command line and
  DNS (`Promise`, `PlainRun`, `RenewCertificate.PlainOutcome`, `Tlsa.OnTheWire`,
  `ChallengeAnswers`), without the definitions that the model shares between code and claims.
- `Reports`, `Progress` and `Continuity` state what one run does to files, entries and clients, on
  values, and carry it through the loop over the certificates; `Series` chains whole runs.
- The server's treatment of the add's prerequisite is the flag `exclusiveAdd`. The program sends
  "RRset does not exist" (section 2.4.3 of RFC 2136); `exclusiveAdd == true` is a server that
  honours it. Safety is proved for both values.
- Digests, keys and the IP-address test are parameters: every statement holds for all of them.
  Instants are nanoseconds, strings are sequences of bytes, and names are compared lower-cased
  without trailing dots.

## Assumptions

- The configuration does not change, the clock is not set back, and files are written whole or
  not at all. (The TTL test alone is also analysed for a clock set back: `Expiry.TtlExpiredExactly`.)
- One certforge process runs at a time. Certificates have their own names and files, and no two
  DANE blocks share a TLSA name (`Safety.Separate`), because a replacement removes the whole RRset.
- The issued leaf carries the key of the request. The served RRsets are the updated ones, with
  the TTL of the block.
- Continuity is proved for each certificate on its own: what is done about one never touches the
  promise for another. Of a rotating certificate all that is asked is that no `dane-publish` was
  started for it while its rotation was pending (`Safety.RotatingRunIsCareful`);
  `Safety.PublishWhilePending` says exactly what goes wrong otherwise. Of one with
  `rotate_key = false` it is asked in addition that it is only issued for a key whose records have
  been published for a TTL (`Safety.InstallHeld`), that is, for the key it has:
  `KeptKeys.ContinuityExactly` proves that continuity fails exactly where this does, and `Run.Run`
  which certificates of a run that concerns.
- The program is first started in a state where the installed certificate's record has been
  published for a TTL and its saved entry is true (`Safety.GoodStart`); an empty installation
  is one for every certificate (`Safety.FreshInstallIsGood`).

## What the proofs found

- **The prerequisite defeats rotation.** README.md line 12 promises that new records are
  published alongside the old ones, but the add is sent with "RRset does not exist"
  (`src/dns/update.rs` line 189). Against a server that honours it, an installed rotating
  certificate with a pre-published block is never renewed again
  (`Prerequisite.InstalledNeverRotates`). The same holds after an interrupted pre-publication,
  once any of its names has a record (`Prerequisite.StuckForever`).
- **Pre-publication does nothing for certificates that keep their key.** With `rotate_key = false`,
  as in the sample configuration (`examples/config.toml` lines 92 and 104), the stored key is
  reused, but whenever it does not load, for whatever reason, a fresh key is generated and its
  certificate installed at once (`src/renew.rs` lines 387-401). Clients then hold answers without
  the new record until the old TTL has passed (`KeptKeys.FreshKeyBreaks`). The same is true of the
  first certificate, for which nothing has been published (`KeptKeys.FirstIssuanceBreaks`). On a
  reliable network a run that acts on such a certificate breaks its clients exactly when the stored
  key has other records than the installed certificate (`Continuity.StoredKeyDecides`).
- **A dry run can end a rotation.** `determine_key` drops the entry from memory first
  (`src/renew.rs` line 337), and a dry run that answers "would renew" makes the run save that
  loss; so does a completion that fails in a run that renews another certificate, or starts
  another rotation later (`Reports.DryRunKeepsStateExactly`, `Reports.FailedCompletionLostExactly`).
  With the prerequisite in force the rotation can then never be resumed
  (`Interrupted.RehearseOnce`, `Interrupted.LostRotationNeverResumes`).
- **A crash between the two files lasts.** If the process ends after the certificate is written
  and before the key is, unforced runs leave the mismatch alone until the new certificate is
  itself due; that renewal repairs it (`Interrupted.CrashBetweenFiles`,
  `Interrupted.UnfinishedUntilDue`, `Interrupted.FinishedWhenDue`).
- **Zone matching** agrees with DNS for every zone but the root, which matches only itself
  (`Names.ZoneMatchesExactly`). The answer is always the most specific zone if and only if each
  zone that holds another is shorter as written, or equally long and earlier in the list
  (`Names.FindZoneExactly`); zones written with several trailing dots can break that
  (`Names.TrailingDotsDefeatFindZone`).
- **Challenges are matched by position.** `src/acme.rs` line 131 relies on the server listing
  authorizations in the order of the request; `Challenges.MatchedExactly` says for every order
  whether each solver can present what it is handed
  (and `Challenges.SwappedAuthorizationsMismatch` is the smallest order that goes wrong).
- **DER lengths wrap** from 65536 on, so the SPKI encoder is correct up to 65509 key bytes on
  P-256 and 65512 on P-384 (`SpkiDer.SpkiRoundTrip`).
- **`dane-check` passes over unreadable certificates**: a missing certificate file is not counted
  as a failure (`DaneCommands.DaneCheck`, `DaneCommands.InOrder`).

## Model

| member | source | states |
|---|---|---|
| `Promise.RenewFromScratch` | src/renew.rs:69-402 | from a machine on which nothing has been done, after any calls of the program, forced, filtered or dry, on any network and whatever fails: at every name of every block with `pre_publish` and the SPKI selector of every certificate with `rotate_key`, whatever its usage, matching and TTL, every answer that is fresh or younger than the TTL holds a record that reads on the wire as the installed certificate's |
| `Promise.FromScratch` | src/renew.rs:137-402 | the same after every sequence of steps, so at every crash point and with `dane-publish` and time in between, if no `dane-publish` was started for the certificate while its rotation was saved |
| `Promise.BlockContinuity` | src/renew.rs:436-450 | in every reached state, for every block with `pre_publish` and the SPKI selector of any certificate, each usable answer holds a record with the block's usage, selector and matching octets and the installed certificate's public key or its digest |
| `Promise.EntryIsTrue` | src/renew.rs:352-372 | a saved entry names the file `pending/<name>.key`, which exists, has a publication time in the past and waits at least the TTL of each such block, and the server shows the record of the key in that file at each of the block's names |
| `Safety.DaneContinuity` | src/renew.rs:137-319 | for every pre-published block of a certificate, rotating or not: in every state reached by an interleaving of runs, failures, crashes, `dane-publish` and time that was careful about this certificate, whatever was done for others, every answer a client may still act on (fresh or cached for less than the block's TTL) holds the installed certificate's record; and its saved entry is true: the key file holds a key whose records have been present since `published_at` and the waiting time covers every such block |
| `Safety.RotatingRunIsCareful` | src/main.rs:162-199 | a run is careful about a rotating certificate if and only if none of its `dane-publish` steps was for that certificate while its rotation was pending |
| `Safety.StepKeeps` | src/renew.rs:330-402 | each single step keeps the invariant of a certificate if it is careful about that certificate; steps for other certificates always are |
| `Safety.ExpiredEntryIsHeld` | src/state.rs:28-34 | an entry whose TTL has passed has had its records visible for the TTL of each block it covers |
| `Safety.NoFreshKeyWhilePending` | src/renew.rs:337-350 | while an entry is saved no step generates a key for that certificate, and no step of any kind, of this or another certificate, changes the file its key is in; asks nothing about other certificates |
| `Safety.CompletionShrinks` | src/renew.rs:286-300 | replacing the RRset at completion leaves exactly the record already pre-published there, in a single new version, so clients see no new and no empty RRset; asks nothing about other certificates |
| `Safety.PublishWhilePending` | src/main.rs:162-199 | publishing the installed certificate while a rotation is pending keeps the entry true if and only if both keys give the same record |
| `Safety.PublishWhilePendingBreaks` | src/main.rs:162-199 | if the keys give different records, the rotation then completes after its waiting time and leaves clients with an answer that lacks the installed certificate's record |
| `KeptKeys.ContinuityExactly` | src/renew.rs:384-401 | in any run whose `dane-publish` steps for a certificate keep out of its rotations, its clients validate after every step if and only if it was not installed, while it is to keep its key, for a key whose records were not held for a TTL |
| `KeptKeys.RotatingValidates` | src/renew.rs:137-319 | the clients of a rotating certificate validate after every step of every run in which no `dane-publish` came into its rotation, whatever fails and whatever is done for other certificates |
| `KeptKeys.InstallKeepsExactly` | src/renew.rs:384-401 | installing a certificate that is to keep its key keeps clients validating if and only if the key's records have been held for a TTL, and where just the installed certificate's records are published, if and only if the key has those same records |
| `KeptKeys.FreshKeyBreaks` | src/renew.rs:396-400 | the run in which the stored key does not load, so that a fresh one is installed: clients validate after it exactly when the fresh key has the old records |
| `KeptKeys.FirstIssuanceBreaks` | src/renew.rs:396-400 | from an empty zone the first issuance of a certificate that is to keep its key is always possible, and its clients validate after it only if no pre-published block names a host |
| `Safety.MaxTtlCovers` | src/renew.rs:433-440 | the stored waiting time is at least the TTL of every pre-published block |
| `Safety.MaxTtlIsLongestWait` | src/renew.rs:433-440 | the stored waiting time is the largest TTL of the blocks with `pre_publish` and the SPKI selector, and of no others |
| `Safety.StopsAreGoodStarts` | src/renew.rs:69-135 | wherever a careful run has stopped or crashed, what is on disk is a good start again |
| `Protocol.CrashAnywhere` | src/renew.rs:69-402 | the process may end after any step, leaving the disk as it is |
| `History.PresentMeansUsable` | README.md:12 | a record has been present for a whole TTL if and only if every answer usable now holds it |
| `Prerequisite.InstalledNeverRotates` | src/dns/update.rs:176-196 | with the prerequisite honoured, no run of any kind changes the file of an installed rotating certificate with a pre-published block, or saves an entry for it |
| `Prerequisite.StuckForever` | src/dns/update.rs:187-192 | once a pre-published name has an RRset and no rotation is under way, that stays so through every run |
| `Interrupted.LostRotationNeverResumes` | src/renew.rs:337 | once an entry is no longer saved though its records are published, with the prerequisite honoured, no later run of any kind changes the certificate or saves an entry; what was done for other certificates before the loss does not matter |
| `Interrupted.RehearseOnce` | src/renew.rs:194-197 | a dry run on a reliable network loses the entry of a certificate if and only if it acts on that certificate and reports some certificate as renewed; with the prerequisite honoured the rotation is then stuck |
| `Interrupted.CrashBetweenFiles` | src/renew.rs:268-281 | a crash after the certificate is written leaves the old key file and the saved entry; certificate and key belong together exactly when the old key file already held the pending key |
| `Interrupted.UnfinishedUntilDue` | src/renew.rs:147-165 | unforced runs on a reliable network, dry or not, leave the certificate file, the key file and the entry alone until the installed certificate is itself due, so a mismatch lasts as long |
| `Interrupted.FinishedWhenDue` | src/renew.rs:337-342 | the first run that finds it due, with the TTL passed, issues again for the pending key, after which the entry is gone and certificate and key file belong together |
| `Liveness.RotationCompletesInTime` | src/renew.rs:147-165 | over any series of undisturbed runs at most a gap apart that goes on long enough, a certificate with no rotation under way, not due yet, due already or never issued, is pre-published and then issued with exactly that key, no later than the publication time, the waiting time and a gap after it was found due; one first seen not due then has the renewal margin (days, plus half a day) less two gaps, the waiting time and the publication time left |
| `Liveness.PrePublishedInTime` | src/renew.rs:156-165 | the first due run pre-publishes: the first run for a certificate due already or never issued, else one no more than a gap into the margin; nothing happens before it |
| `Liveness.MarginExactly` | src/certs.rs:57-73 | a certificate is due exactly while less than the renewal margin is left |
| `Liveness.EntryFinishedInTime` | src/renew.rs:147-165 | a saved entry is finished by the first run that finds its TTL passed and the certificate due, which comes within one gap of both, with the key in its file; nothing happens to certificate, key file and entry until then |
| `Series.RunMany` | src/renew.rs:69-135 | starting the program again and again, each time with any options and on any network, yields a chain of runs, each with the full contract of `Run.Run` (or failed before it began) and beginning with the files the one before left; the clients of a certificate guarded before validate after every step of the whole chain if it rotates, or else is never rekeyed |
| `Series.RotationOverRuns` | src/renew.rs:69-165 | the bound for such a chain of calm runs, on the files themselves, from any start without an entry: some run m leaves a key file and an entry, a later run n leaves a certificate for that key and no entry, by the stated instant, and the certificate file stays as it was until then |
| `Progress.RotatesExactly` | src/renew.rs:344-350 | that bound is for every certificate with `rotate_key`, a P-256 or P-384 key, and a block with `pre_publish` and the SPKI selector |
| `Series.EntryFinishedOverRuns` | src/renew.rs:69-165 | the same from a saved entry: some run leaves a certificate for the key in the entry's file and no entry, within one gap of the TTL having passed and the certificate being due, and certificate and entry stay as they were until then |
| `Series.FilesStay` | src/renew.rs:268-281 | the certificate and key files of a certificate, and whether they belong together, stay as they are until a run acts on it, through forced, dry, disturbed and aborted runs alike |
| `Series.RenewalRepairs` | src/renew.rs:268-281 | after a run that reports a certificate as renewed its certificate and key file belong together, whatever they were before |
| `Series.FailedCompletionRetries` | src/renew.rs:268-281 | after any number of runs in which only completions were attempted and all failed, or which failed before they began, a run that renews the certificate, forced or not and on any network, installs it for the key in the file of the entry that was saved at the beginning |
| `Series.RenewedFromEntry` | src/renew.rs:337-342 | as long as its entry is saved before each of a chain of runs of any kind, the entry and the key in its file stay as they are, and a run that renews the certificate installs it for that key |
| `World.World.AddTlsaRecord` | src/dns/update.rs:176-196 | an add extends the RRset by the record or changes nothing; a reported success happened; on a reliable network it succeeds exactly when the server accepts it |
| `World.World.ReplaceTlsaRecords` | src/dns/update.rs:198-242 | a replacement is one new version holding just the record, or nothing happened |
| `World.World.QueryTlsa` | src/dns/update.rs:244-265 | what is read back from the answer of the server is exactly the set of records it holds |
| `DaneCommands.PublishAndAnswer` | src/dane.rs:57-78 | after a successful publication every client that asks for one of the block's names is sent at least one record, and all it is sent have the octets the block's usage, selector and matching stand for, read as such by a resolver library, and carry the certificate or its public key, or the digest that the matching names |
| `PrePublish.AddTlsa` | src/dane.rs:80-100 | success confirms an add at every name of the block; nothing is withdrawn and no name but the certificate's own changes; when the network is reliable it succeeds exactly when the server accepts every add, given those before |
| `PrePublish.PrePublishDane` | src/renew.rs:427-458 | success confirms every pre-published name of every block and yields the largest TTL among them; when the network is reliable it succeeds if and only if no prerequisite is honoured or all names are distinct and without records |
| `Publish.PublishTlsa` | src/dane.rs:57-78 | success leaves each name with just the record; a failure leaves the names before the failing one with just the record and touches none after it; other names are untouched |
| `Publish.PublishAll` | src/renew.rs:286-306 | every block has its outcome: those that succeeded show just the leaf's record at each of their names whatever became of the others (if blocks share no names), RRsets change only to such records, and on a reliable network all succeed |
| `Renew.Decide` | src/renew.rs:146-165 | the program acts if and only if the certificate does not wait for a TTL and is forced, due or was not read; the TTL test comes first and is not overridden by `force`; on a reliable network a certificate that has to be looked at is read |
| `Renew.TakePendingKey` | src/renew.rs:337-342 | the entry leaves memory whether or not its key can be read; the key used is the one in its file; no file changes |
| `Renew.StartRotation` | src/renew.rs:344-382 | success means key file, confirmed adds, an entry stamped no earlier than the adds with the largest TTL, and a saved state; an entry is recorded only once every add was confirmed and nothing else is ever saved; a dry run changes nothing; no record is withdrawn and only the certificate's own names change |
| `Renew.LoadOrGenerateKey` | src/renew.rs:384-401 | a stored key that can be read is the one used, and is not saved again; every other key is to be saved |
| `Renew.IssueAndStore` | src/renew.rs:199-284 | at most the certificate's own file and its own key file change; the certificate then carries the determined key, and a new key is stored where configured |
| `Renew.SaveKey` | src/renew.rs:404-425 | the key goes to the credential if there is one, else to the path, and no other file changes, private key files included |
| `Renew.Complete` | src/renew.rs:199-318 | success installs a leaf for the determined key and starts the inline hooks, all in order, each of which finds certificate, key and records as the renewal leaves them; TLSA records change only after the file and only to that leaf's; on a reliable network the names show exactly them |
| `Renew.DisplayedIsSettled` | src/renew.rs:286-306 | what a successful publication leaves at every pre-published name is the record of the installed certificate's key and nothing else |
| `Renew.FinishRotation` | src/renew.rs:187-319 | whatever fails, the saved entry and its key file stay, only that key is ever installed, and no certificate loses the promise to its clients; a dry run drops the entry from memory and changes nothing else |
| `Renew.RenewDirectly` | src/renew.rs:384-401 | a certificate without pre-publication is renewed in the same run exactly when its key type is supported, on a reliable network, for its stored key if it has one; a renewal leaves certificate and key file belonging together; on any network only a certificate that is to keep its key and gets one of other records may lose the promise to its clients |
| `RenewCertificate.RenewCertificate` | src/renew.rs:137-319 | every outcome for one certificate: not acting means nothing happened; a rehearsal changes no file and drops exactly the entry acted on; a pending entry keeps its files, and a renewal from it is for its key; only this certificate's certificate, key, pending key, TLSA names and entry may differ; no certificate loses the promise to its clients but this one, and only by getting a key of other records while it is to keep its key and has no entry; and what must happen when all calls succeed, for each kind of certificate. In the words of the configuration: a certificate with `rotate_key`, a block with `pre_publish` and the SPKI selector, and no entry keeps its file, and success means a saved entry for `pending/<name>.key` with the longest TTL; what is renewed has a P-256 or P-384 key, in the credential if one is configured and else in the path; its inline hooks are started in order and find the new files and records; and when all calls succeed it is renewed exactly if its key type is one of the two and its entry's file is there, or it has no entry and needs none |
| `Run.ProcessAll` | src/renew.rs:93-113 | the loop processes exactly the selected certificates; every decision was right about the state the run began in; nothing changes but what belongs to a certificate acted on; an entry not acted on is kept in memory and on disk; and on a reliable network an entry is lost on disk exactly when it was acted on before a rotation was started |
| `Run.Run` | src/renew.rs:69-135 | whatever fails, the clients of every certificate guarded before validate after each step of the run, unless it is to keep its key, has no entry and is now installed for a key of other records, and then they do not if those records were not there before; a certificate with an entry keeps its key file and has its old certificate or one for that key, for sure if renewed; one that needs an entry and has none keeps its certificate; a dry run changes only the state file, which either stays or loses exactly the entries acted on; an entry is lost on a reliable network if and only if it was acted on and something made the run save; certificates not acted on keep their files, renewed ones have matching files; and undisturbed, every rotating certificate takes exactly one step of its schedule, as seen in the files; with `--name` exactly the certificates of another name are passed over, and nothing changes but the named certificate's own files, entry and TLSA RRsets; without it none is passed over; the named hooks come last and find all files and records as the run leaves them; and success means that a due save has left out every entry acted on |
| `PlainRun.NamedRun` | src/renew.rs:94-97 | with `--name n` each certificate is skipped exactly if its name is not n; certificate files, private key files, pending key files, entries and RRsets that do not belong to a certificate called n stay as they were; without the option none is skipped |
| `PlainRun.RunAnnouncesFirst` | src/renew.rs:344-382 | a certificate with `rotate_key`, a block with `pre_publish` and the SPKI selector, and no entry keeps its certificate file through every run, whatever fails, forced or not |
| `Continuity.StoredKeyDecides` | src/renew.rs:387-401 | on a reliable network a run that acts on a certificate that is to keep its key and has one stored keeps its clients validating throughout if the stored key has the installed certificate's records, and where just these were published, only if it has |
| `Continuity.NotActedNotRekeyed` | src/renew.rs:146-165 | a certificate that a run does not act on gets no key of other records, whatever fails, so that by `Run.Run` its clients go on validating |
| `Reports.DryRunKeepsStateExactly` | src/renew.rs:131-133 | a dry run on a reliable network leaves the state file unchanged if and only if no certificate would be renewed or no certificate acted on has an entry |
| `Reports.ActedOnExactly` | src/renew.rs:146-165 | in a dry run on a reliable network a processed certificate is acted on if and only if its entry does not wait and it is forced, due or without a file, and it is reported renewed if and only if moreover its key type is supported and its pending key is there, or it needs no pre-publication |
| `Reports.FailedCompletionLostExactly` | src/renew.rs:337 | a completion that failed on a reliable network keeps its saved entry for the next run if and only if no certificate was renewed and no rotation was started after it |
| `Run.StartedHooksExactly` | src/renew.rs:93-129 | the named hooks started are exactly those named by some renewed certificate, each once |
| `Hooks.RunHooks` | src/hooks.rs:8-20 | every hook is started once in order whatever the others returned, and none in a dry run |
| `Hooks.RunNamedHooks` | src/renew.rs:115-129 | the wanted hooks run in definition order |
| `Hooks.NamedRunsFollowDefinitions` | src/renew.rs:117-122 | the t-th started hook is the definition at the t-th wanted position, positions increasing and none passed over |
| `Hooks.NamedHooksExactly` | src/renew.rs:115-129 | over a validated configuration the started named hooks are exactly the wanted ones, distinct, and independent of the order and repetition in which they were wanted |
| `Expiry.RoundDaysIsNearest` | src/certs.rs:64-73 | the day count is never more than half a day from the true remainder |
| `Expiry.RoundDaysIsOdd` | src/certs.rs:66-72 | remaining and elapsed time round alike |
| `Expiry.RoundDaysIsMonotone` | src/certs.rs:64-73 | more time left never means fewer days |
| `Expiry.DueExactly` | src/certs.rs:57-73 | due if and only if less than the given days and a half remain, to the nanosecond, for both signs and any number of days |
| `Expiry.DueStays` | src/certs.rs:57-59 | once due, always due |
| `Expiry.TtlExpiredExactly` | src/state.rs:30-33 | expired if and only if a full TTL has passed, except that a TTL of zero also passes when the clock was set back by less than a second |
| `Expiry.TtlExpiredStays` | src/state.rs:30-33 | once expired, always expired |
| `Validation.Validate` | src/config.rs:423-645 | accepts exactly the valid configurations whatever order the hash maps are walked in, and the reported error is true of the rejected configuration |
| `Validation.ExplainedIsInvalid` | src/config.rs:423-645 | no error can truthfully be reported about a valid configuration |
| `Validation.CheckHooks` | src/config.rs:456-475 | the single pass with a set of seen names accepts exactly distinct, runnable hooks |
| `Validation.CheckDomains` | src/config.rs:559-596 | accepts exactly when every domain has a defined solver, DNS-01 is not used on addresses, and each challenge name is in a zone |
| `Validation.CheckDane` | src/config.rs:598-623 | accepts exactly when every block has names, a known client, and all names in its zones |
| `Validation.CheckCertificates` | src/config.rs:503-645 | accepts exactly distinct names and valid certificates |
| `Pipeline.ValidConfigResolves` | src/renew.rs:23-67 | after validation no lookup of solver, DNS client, zone, key location, mode, first record or hook can fail for any certificate and domain |
| `Pipeline.ResolveSolverNames` | src/renew.rs:167-182 | fails exactly when some domain has no solver: a list that is too short, or neither a list nor a single solver nor a default; names are by position, from the certificate's own list, else its own single solver, else the default |
| `Pipeline.BuildSolvers` | src/renew.rs:23-58 | fails exactly when some name cannot be built; otherwise one instance for each distinct name |
| `Pipeline.PrepareSolvers` | src/renew.rs:167-185 | over a validated configuration every `solvers[solver_name]` is present and is the one configured; the names are the certificate's own list if it has one, else its single solver for every domain whatever the default, else the default |
| `Names.SuffixTestOnLabels` | src/config.rs:94-98 | equality or a dotted string suffix means a suffix of labels |
| `Names.CanonicalExactly` | src/config.rs:88-96 | two names compare as equal exactly when, without their final dots, they are equally long and differ only in the case of ASCII letters |
| `Names.ZoneMatchesExactly` | src/config.rs:88-98 | the filter holds exactly when the zone's lower-cased labels are a suffix of the name's, for every zone but the root, which matches only itself |
| `Names.DeeperIsLonger` | src/config.rs:99 | of two well-formed zones holding a name, the one with more labels is the longer text, trimmed or not |
| `Names.FindZoneMostSpecific` | src/config.rs:88-100 | the answer holds the name and has the most labels of all that do; there is none exactly when no zone holds it |
| `Names.FindZoneExactly` | src/config.rs:88-100 | over non-root zones with different labels, the answer is the most specific zone for every name if and only if each zone that holds another is shorter as written, or equally long and earlier in the list |
| `Names.TrailingDotsDefeatFindZone` | src/config.rs:99 | a list of zones that is not ordered by depth: with several trailing dots the less specific of two zones wins |
| `Config.ZoneOfClient` | src/config.rs:73-100 | over well-formed zones a client's answer is the most specific of its listed zones and its single zone that hold the name, and there is none exactly when none holds it |
| `Config.SingleZoneLast` | src/config.rs:73-100 | whatever the zones look like, a single zone that is not in the list is the answer exactly when it matches and no matching zone of the list is longer as written; else the list decides |
| `Config.ChallengeNames` | src/solver/dns01.rs:20-27 | the challenge for a domain and for its wildcard is under `_acme-challenge.` and the domain |
| `Config.ParseModeExactly` | src/config.rs:378-381 | a mode is accepted exactly if it is an octal numeral below 2^32 with any number of leading zeros and at most one plus sign, and it means that number |
| `Tlsa.KeyRecordIsCertificateRecord` | src/dns/tlsa.rs:17-78 | the record from the key equals the record from the certificate, for every usage, matching type and digest, if and only if the block selects the public key |
| `Tlsa.RecordRoundTrip` | src/dns/update.rs:244-296 | a record survives conversion, the wire and reading back for all byte values of its fields |
| `Tlsa.CertificateOnTheWire` | src/dns/tlsa.rs:17-52 | for every certificate and block, the record published has usage 0 to 3, selector 0 or 1 and matching 0 to 2 as section 2.1 of RFC 6698 assigns them, is read as such by a resolver library, and carries the certificate or the public key, as it is or under the named digest |
| `Tlsa.KeyOnTheWire` | src/dns/tlsa.rs:54-78 | the same of the record published for a key before its certificate exists |
| `SpkiDer.EncodeAsn1Length` | src/keys.rs:177-188 | a strict reader of what was appended gets the length and whatever follows it back, if and only if the length is below 65536, and what was in the buffer stays |
| `SpkiDer.WrapEcSpki` | src/keys.rs:151-175 | the bytes built push by push are read back as the key and curve they wrap, exactly up to the bound |
| `SpkiDer.LengthRoundTrip` | src/keys.rs:177-188 | a strict reader recovers a length if and only if it is below 65536 |
| `SpkiDer.LengthIsCanonical` | src/keys.rs:177-188 | the lengths written are the minimal ones of section 10.1 of X.690 |
| `SpkiDer.SpkiRoundTrip` | src/keys.rs:136-175 | a strict reader recovers both identifiers and the key exactly up to 65509 bytes (P-256) or 65512 (P-384), and nothing beyond |
| `SpkiDer.WrappedIsInjective` | src/keys.rs:151-175 | different keys or curves never share an encoding within the bound |
| `SpkiDer.P256Octets` | src/keys.rs:136-175 | the SubjectPublicKeyInfo of a P-256 point is the 26 octets of section 2 of RFC 5480 and the point |
| `SpkiDer.P384Octets` | src/keys.rs:136-175 | the same for P-384 |
| `Challenges.CollectChallenges` | src/acme.rs:132-170 | one challenge for each authorization, of the type wanted for its identifier, or a failure exactly when one is not offered |
| `Challenges.Stores.PresentAll` | src/renew.rs:233-237 | success presents all, so that each HTTP task's token has its key authorization in the solver's token map or below the webroot, each TLS-ALPN identifier its own, and each DNS-01 value is under its challenge name, if no later task contests the place; the first failure leaves exactly a prefix presented |
| `Challenges.Stores.CleanupAll` | src/renew.rs:258-264 | each cleanup is attempted exactly once in order; nothing but presented slots is ever removed, and all of them if no cleanup fails |
| `Challenges.Stores.RunOrder` | src/renew.rs:233-266 | a failed present leaves exactly a prefix presented and no order run; otherwise the order is run with everything in place, a certificate comes back exactly when its flow succeeds, and whatever it returns every cleanup is attempted once in order, nothing but presented entries is gone, and all of them if no cleanup failed |
| `Challenges.PresentThenCleanup` | src/renew.rs:233-264 | presenting and cleaning up loses only what was presented, stale leftovers included |
| `Challenges.AllInPlace` | src/renew.rs:239-255 | while the order runs every TXT value, token, file and certificate entry is in place at the same time, each with its own value unless a later challenge stored another one in the same slot |
| `ChallengeAnswers.ServeChallenges` | src/renew.rs:210-237 | with authorizations in the order of the domains, once all is presented the authority finds for every domain what its own offer asks for: the offer's key authorization in answer to a request for `/.well-known/acme-challenge/` and the token, or in the file below the webroot, or in the certificate for the domain; or the offer's TXT value under the domain's challenge name |
| `Challenges.UnlistedIsDns01` | src/acme.rs:141-146 | an identifier for which no type was asked is proved by DNS-01 |
| `Challenges.WildcardAndBaseTogether` | src/solver/dns01.rs:22-64 | a wildcard and its base share a name and both values are in its RRset together |
| `Challenges.OrderedAuthorizationsMatch` | src/renew.rs:217-237 | with authorizations in the order of the domains, each solver gets the challenge of its own domain, of the type it presents |
| `Challenges.MatchedExactly` | src/renew.rs:217-237 | for any number of domains and any order in which the server lists them, every solver can present the challenge it is handed if and only if the solvers of domains i and at[i] are of one kind for every i, and each gets its own domain's challenge if and only if the order is kept |
| `Challenges.SwappedAuthorizationsMismatch` | src/renew.rs:234-237 | with two domains on different kinds of solver and the authorizations swapped, each solver gets the challenge of the other domain, of a type it cannot present |
| `HttpResponder.MapIsHistory` | src/solver/http01.rs:133-157 | the map holds exactly the authorizations presented last and not cleaned up since |
| `HttpResponder.TokenPaths` | src/solver/http01.rs:107-116 | the path of a token is `/.well-known/acme-challenge/` and the token, and no other path has one |
| `HttpResponder.HandlerHistory` | src/solver/http01.rs:107-129 | every decision was made by the map of one moment after the request arrived |
| `HttpResponder.RepliesAreCurrent` | src/solver/http01.rs:107-129 | in every interleaving of handlers with present and cleanup, a 200 carries exactly the authorization live at one moment between arrival and reply, and everything else is a 404 |
| `HttpResponder.TokenServer.HandleRequest` | src/solver/http01.rs:107-129 | the handler's answer is faithful to what was presented and not cleaned up |
| `Polling.Order.Finalize` | src/acme.rs:195-221 | for any answers: at most 21 refreshes, one finalization after the first answer that is not Pending, none after a failure, Invalid or 21 times Pending |
| `Polling.Order.Download` | src/acme.rs:223-252 | for any answers: at most 21 refreshes, a certificate only after Valid, an error on any other answer but Processing |
| `Polling.Order.Complete` | src/renew.rs:250-254 | a certificate comes back if and only if both phases go well; the request is sent at most once |
| `Polling.ConformingServerSucceeds` | src/acme.rs:195-252 | against a server that follows section 7.1.6 of RFC 8555, accepts the request, never goes Invalid and leaves Pending and Processing within 20 polls each, the flow succeeds |
| `DaneCommands.DanePublish` | src/main.rs:162-199 | the certificates asked for, those called as the option says or all, are gone through in order: names of the others are never touched; those gone through show exactly their certificate's records; the first failure ends it and no later certificate's name is touched; a dry run changes nothing; on a reliable network it succeeds if and only if every certificate asked for is readable; and only those with a rotation pending may lose the promise to their clients |
| `DaneCommands.CheckName` | src/main.rs:235-261 | OK, MISSING and MISMATCH are each true of the RRset, and an error is reported only when the query failed |
| `DaneCommands.DaneCheck` | src/main.rs:201-273 | one true line for every name of every certificate that was read, only of certificates asked for, and on a reliable network of all of these that have a file; the verdict is that all are fine, and if no query failed it is positive if and only if every such name holds the expected record |
| `DaneCommands.PublishThenCheck` | src/main.rs:162-273 | after a successful publication over separate names a finished check has a line for every name of every certificate it read, none of them Missing or Mismatch, and is positive unless a query failed |

## Left out

- Renew.IssueAndStore: takes the order flow as one call that yields a leaf for the requested key or fails; the challenges and the polling inside it are modelled on their own in `Challenges` and `Polling`, and the wait for DNS propagation is not modelled.
- World.World.WriteState: writes the state file whole; a torn write, and the JSON text itself, are not modelled.
- Renew.SaveKey: the encryption of credentials, directory creation and file permissions are not modelled; a failing permission call after the files are written is one more way for `IssueAndStore` to fail.
- PrePublish.PrePublishDane: its own dry-run branch is never reached from `determine_key` and has no counterpart.
- Account creation happens before the loop even in a dry run; it is one call that may fail. Setting permissions before the loop is left out.
- Challenges.Stores: the start of the standalone servers and the certificate built for TLS-ALPN-01 are not modelled; the entry stands for them. Different HTTP-01 solvers may share a webroot, standalone ones share nothing.
- Series.RotationOverRuns: needs runs that do not fail, unforced, against a server that does not honour the prerequisite; no bound can hold without these. The gap between runs and the time a publication takes are premises, since the clock is not the program's.
- Safety.DaneContinuity: covers blocks with `pre_publish` and the SPKI selector only. Other blocks change key and record in one run and may show clients an old record for a TTL.
- `name` values that make two pending key paths denote one file, such as "a" and "x/../a", are not distinguished from separate files.
- Negative caching of a missing RRset is bounded by the block's TTL; the SOA minimum (section 5 of RFC 2308) is not modelled.
- TSIG signing, DNS transport, name syntax errors, D-Bus, process spawning, TLS and hashing: calls that succeed or fail, or parameters.
- TOML and JSON parsing, the command line, logging, `status` output, warnings about unused definitions, and the subject-alternative-name printer: they decide nothing modelled here.
