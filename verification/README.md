# Proofs of ccrc's credential protocol, installer and smaller cores

This project models nine parts of the repository in Dafny and proves what they promise. `dafny verify dfyconfig.toml`
verifies all of it.

## What is modelled

**The Codex credential protocol** (`ccd/ccgpt-auth.py`; `Credential`, `Auth*`). One lane: the credential file, the
checkpoint beside it, the status file, every process's unsaved record, and the token requests the endpoint has seen. Each
locked section (`ensure_fresh`, `refresh_rejected`, `record_upstream`, `_commit_signin`, a bare settle) is a function of
the lane and of what each of its file operations does: it succeeds, raises `OSError`, or the process dies there, with or
without losing what was written and not yet fsynced. A run is any sequence of such sections by any number of processes,
deaths between them, writers that ignore the lock, and the clock. `AuthLibrary.Lane` is the same code as the program it
is: mutable fields changed operation by operation, each method proved to leave exactly what the function answers.
`flock(2)` excludes, so sections do not overlap; a writer outside the library takes its turns between sections and during
the token round trip. A file created gets an inode no file had; mtimes are the clock's, which never runs backwards.

**The publisher of the direct entry** (`ccd/ccd-entry-install.py`; `Publisher`, `Reinstall`, `Stamp`, `Pins`,
`EntryChain`). Seven files staged and renamed in a fixed order, each call succeeding, raising (`OSError` or `Refused`,
which the run catches, or anything else, which it does not) or ending in death, with the
variables the source keeps (`moved`, `lib_moved`, `body_proved`, `entry_proved`) and a ghost record of what was really
renamed. Then the digest chain: the stamp and the pins written into the body, and what the launcher and the body check of
whatever stands when `ccd` starts. SHA-256 is a parameter, any function to hex digits: no theorem assumes that it never
collides, and those that a collision would break name the very texts that would have to collide.

**The chunked-body decoder and the effort cache** (`ccd/ccgpt-proxy.py`; `ChunkedBody`, `EffortCache`), **the killed-spawn
verdict and the epoch document** (`shared/agent-protocol.ts`; `KilledSpawn`, `EpochDoc`, `EpochNumber`), **the usage sweep**
(`ccd/ccd-usage-sweep.py`; `UsageSweep`, `UuidLedger`), **version order** (`shared/claudeVersion.ts`; `ClaudeVersion`) and
**the argv builder** (`shared/account-argv.ts`; `AccountArgv`). Loops are loops and state that is updated is updated, each
method proved against a function or a property the lemmas are about.

## Where the code does other than it says

The code is modelled as it is. Each of these is stated exactly, for all inputs.

- `retry_unsaved` says a record is dropped when the credential file has changed. Over an unchanged file it is also dropped
  when the `lstat` that compares the two fails: `AuthPairs.UnmeasuredRecordIsDroppedIff`.
- "A crash after the checkpoint's fsync keeps it recoverable": not a crash in the status write of a commit whose rename had
  failed and whose handler had removed the checkpoint: `AuthPairs.DeathLosesPairIff`.
- A commit that can unlink the old checkpoint neither at its start nor in its handler leaves it to be promoted over the
  newer record: `AuthWitnesses.StaleCheckpointWinsIff`.
- "A refresh token the endpoint has rotated is never sent again" needs commits that reach the disk: a second process
  resends it exactly when the first one's record is in its memory alone: `AuthWitnesses.SecondCallerResendsIff`.
- A dead refresh token is sent once more when the status that bars it cannot be read: `AuthDead.DeadTokenIsSentIff`.
- One process alone resends a spent token too, where it loses the record in its memory over a file it could not write: when
  an `lstat` of that file fails (`AuthWitnesses.UnmeasuredResendsIff`), when it dies (`AuthWitnesses.CrashResendsIff`), and
  when the record's own token is refused and the needs-signin that should bar the file cannot be written, or cannot be read
  at the next gate (`AuthWitnesses.RefusedResendsIff`); each unless a status that bars stands and is read.
- A current limit-paused or ineligible state is lost, with no status written for the new file, when a retry's rename lands
  and the directory fsync or anything up to its status write fails or dies, when a refresh dies or fails between its rename
  and its status write, and when a checkpoint is promoted: `AuthUpstream.RetryLosesPausedIff`,
  `AuthUpstream.GrantedLosesPausedIff`, `AuthUpstream.PromotionLosesPausedIff`. So is one that cannot be read before a status
  is written over it: `AuthUpstream.GrantedLosesPausedIff`, `AuthUpstream.RefusedLosesPausedIff`.
- `_commit_signin` says LoginFailed leaves the old file unchanged: not when the first rename that landed was followed by a
  failing directory fsync and a later reading of the file fails before a try lands whole: `AuthSignin.SigninAllOrNothingIff`. A sign-in with the two tokens the file already holds is taken for landed:
  `AuthSignin.SameTokensSignInIff`.
- A status is written to bar the file it was measured on. One whose file could not be measured is written like an absent
  file's, so it is current once the file is gone: `AuthStatus.WrittenIsCurrentIff`.
- A door that refuses by a barring status refuses a caller whose rejected token is no longer the file's, which the section
  would have answered: `AuthDoors.DoorAgreesIff`.
- `install` says 1 means nothing was renamed: not when, after a rename, a call raises what the run does not catch (a report
  whose path stdout cannot encode), or the sentence of an exit 2 cannot be written to stderr. Where nothing at all could be
  said and the interpreter's flush of stdout at shutdown fails too, the status is 120: `Publisher.Installer.Install`,
  `Publisher.OneIsFalseIff`.
- A redactor pin counts its placeholder lines only, so a body with a pin already rendered keeps two:
  `Pins.RedactorPinnedOnceIff`.
- `stamp_body` is byte for byte `markGenerated` on a body without the placeholder, except where dropping a first-line marker
  brings a shebang to the first line or leaves no line: `Stamp.WritersAgreeIff`.
- The effort cache is keyed on an mtime read before the file is opened, so the slot can hold levels read from a file of
  another mtime; a call answers what no direct reading could exactly when it hits a slot filled from an mtime that was not in
  place while the call ran: `EffortCache.StaleIff`, `EffortCache.StaleIffNeverInPlace`, and a run that does it,
  `EffortCache.StraddleSpoils`.
- The scan says no odd line aborts a run: one whose message id cannot key a dict does, and one whose count is infinite or too
  large for a float, where no earlier good line recorded its id: `UsageSweep.ScanAbortsIff`, `UsageSweep.InfiniteCountAborts`,
  `UsageSweep.HugeCountAborts`.
  It also counts as carried an id seen under another account, where the comment says another directory:
  `UsageSweep.CarriedCounts`.
- The uuid ledger remembers every uuid a sweep ever saw for thirty days: a written sweep that could not read it forgets all
  the others at once: `UuidLedger.FailedReadForgetsIff`.
- A document cut right after the first three letters of a line that begins with `end` passes for terminated:
  `EpochDoc.CutPassesAt`, `EpochDoc.CutIsRefused`.
- The epoch document says digits a double cannot hold are refused. Those above 2^53 are answered, rounded or not, exactly
  where they are their double's shortest: 2^53, no safe integer, is; 1152921504606847000 answers 1152921504606846976, whose own
  digits are refused: `EpochNumber.DocumentAnswersIff`, `EpochNumber.EpochIs`, `EpochNumber.RoundedIsAnswered`.
- The ending of a killed spawn's detail is kept whole within the bound exactly up to a ninety-character tag:
  `KilledSpawn.LongTagOverflowsIff`.

## Model

| member | source | states |
|---|---|---|
| AuthRuns.FileIsWhole | ccd/ccgpt-auth.py:739-786 | over any run of the library's sections, the file is as it was or holds one whole record that was signed in, answered by the endpoint or carried by the lane before, only where it could be written over, and is never followed by an older file |
| AuthOrigins.RecordsComeFrom | ccd/ccgpt-auth.py:739-920 | over any run, every record in the file, the checkpoint or a memory was there at the start, signed in, written from outside, or is an answer merged over a whole record the lane carried |
| AuthRuns.StaleRecordNeverServed | ccd/ccgpt-auth.py:481-494 | an unsaved record bound to a file that has changed is never served again, in any later state of any run |
| AuthFacts.StepMoves | ccd/ccgpt-auth.py:739-920 | every step of every function keeps the identity discipline: nothing but a fresh file or the checkpoint ever becomes the credential, and no process touches another's record |
| AuthPairs.AnsweredPairIsKept | ccd/ccgpt-auth.py:1434-1467 | once the endpoint answered with an access token, the new pair is the file's, or the process's unsaved record bound to the file it was to replace or to the one the refresh read; only a death ends otherwise |
| AuthPairs.CommitKeeps | ccd/ccgpt-auth.py:739-786 | a commit keeps its record in the file or in memory, and a death in it after the checkpoint's fsync leaves the record on disk |
| AuthPairs.DeathLosesPairIff | ccd/ccgpt-auth.py:760-786 | of the deaths after the checkpoint's fsync, exactly which lose the pair |
| AuthPairs.AnswerIsKept | ccd/ccgpt-auth.py:1371-1407 | whatever reading a refresh answers with, its pair is in the file or is the process's unsaved record |
| AuthPairs.PairIsNotLost | ccd/ccgpt-auth.py:739-920 | through any run of any processes a pair once kept stays the credential, a checkpoint that will be promoted, or the unsaved record; if it stops being kept, the very step where it does is one where its own token was spent (answered, or refused for a record in memory), another record went into the file, an outside writer had a turn, the process whose memory alone held it died, or the lstat comparing that memory with its file failed |
| AuthPairs.UnansweredKeepsPair | ccd/ccgpt-auth.py:1434-1465 | a refresh that timed out, was refused for its client or brought no access token takes no pair away, wherever it is kept |
| AuthPairs.CheckpointStays | ccd/ccgpt-auth.py:835-920 | a whole checkpoint survives every step until its own token is answered or a sign-in replaces the file, but for a record in memory whose comparing lstats fail both times |
| AuthPairs.FileStays | ccd/ccgpt-auth.py:1410-1479 | a pair in the file stays there, refused and unanswered requests included, until its own token is answered or another record goes over it |
| AuthPairs.RecordStays | ccd/ccgpt-auth.py:789-832 | an unsaved record stays over its unchanged file, or lands in it, through every step of its own process's until its token is answered or refused, its process dies, its lstat fails or another record goes over the file |
| AuthPairs.SettlePublishes | ccd/ccgpt-auth.py:789-920 | settling asks the endpoint nothing and changes the file only to the checkpoint's record or the process's own unsaved one |
| AuthPairs.UnmeasuredRecordIsDroppedIff | ccd/ccgpt-auth.py:814-820 | over its own unchanged file, a record is dropped if and only if the comparing lstat fails |
| AuthRotation.NeverSentTwice | ccd/ccgpt-auth.py:1410-1479 | any number of processes, every interleaving of refreshes, retries, upstream answers, sign-ins and deaths between sections: where commits land and answers rotate both tokens, no request repeats a rotated refresh token or a refreshed access token |
| AuthRotation.OneProcessNeverSendsTwice | ccd/ccgpt-auth.py:1434-1479 | one process alone never does either, though its commits fail time after time and its tokens are refused: it refreshes the record it holds, and once that is refused and dropped the file under it is barred |
| AuthWitnesses.RefusedResendsIff | ccd/ccgpt-auth.py:1437-1450 | after a record in memory is refused and dropped, the file's spent token is sent again if and only if the next gate cannot read the status, or it could not be written and none that bars was there |
| AuthWitnesses.UnmeasuredResendsIff | ccd/ccgpt-auth.py:814-823 | a process whose record cannot be written sends the file's spent token if and only if the settle's lstat or the section's own fails and no status that bars is read |
| AuthWitnesses.CrashResendsIff | ccd/ccgpt-auth.py:739-786 | after a process dies with the record in its memory alone, the next refresh by anyone sends the file's spent token if and only if no status that bars is read |
| AuthWitnesses.SecondCallerResendsIff | ccd/ccgpt-auth.py:1509-1531 | of two processes rejected on one token, the second resends the spent refresh token if and only if the first one's commit left its record on no disk |
| AuthWitnesses.StaleCheckpointWinsIff | ccd/ccgpt-auth.py:761-785 | an earlier checkpoint overtakes a later record if and only if the commit could unlink it neither first nor in its handler |
| AuthDead.DeadStaysDead | ccd/ccgpt-auth.py:1323-1338 | while the file a needs-signin was measured on stays in place, no run writes another status over it or makes a request from it |
| AuthDead.DeadTokenIsSentIff | ccd/ccgpt-auth.py:1420-1422 | a dead file's own token is sent if and only if the status that bars it cannot be read at the gate |
| AuthUpstream.UpstreamStateIsCarried | ccd/ccgpt-auth.py:1352-1368 | a current upstream state keeps its state, code and request id, bound to each file in turn, through any run of committed refreshes, failed commits, transient failures, retries and deaths, while each status written was put together from the one it replaces and of the file in place, no whole checkpoint is left and no replaced file without its status |
| AuthUpstream.RetryLosesPausedIff | ccd/ccgpt-auth.py:821-832 | over every failure and death in it, a retry loses it if and only if its rename lands and its directory fsync, status read, re-measurement or status write then does not succeed |
| AuthUpstream.GrantedLosesPausedIff | ccd/ccgpt-auth.py:1466-1472 | likewise a granted refresh: where its rename lands, if and only if it dies or fails before its status is written for a measured file, or could not read the one before; where it does not, if and only if it writes a status without having read one |
| AuthUpstream.RefusedLosesPausedIff | ccd/ccgpt-auth.py:1436-1465 | likewise a refresh that commits nothing: if and only if it writes a status that is a refusal, that it put together unread, or that is not bound to the file in place |
| AuthUpstream.PromotionLosesPausedIff | ccd/ccgpt-auth.py:894-920 | settling a checkpoint loses it if and only if the checkpoint is whole, no older than the file, and all that its promotion needs succeeds |
| AuthFacts.PromotedIff | ccd/ccgpt-auth.py:894-920 | with a file in place or none, settling replaces it, with the checkpoint, under exactly that guard, and otherwise leaves it |
| AuthUpstream.UpstreamAnswerMoves | ccd/ccgpt-auth.py:1596-1614 | whatever it reads, an upstream answer that changes a current status moves the state only among ok and the two it may set and touches no refresher field, and leaves a state it may not move as it is; `AuthStatus.UpstreamIsRecorded` says when it is written and what |
| AuthUpstream.ClientRefusalHolds | ccd/ccgpt-auth.py:990-998 | a refused client stays refused under its configuration: no run of refreshes makes a request, and landed retries keep the refusal bound to each file in turn |
| AuthStatus.RefusedTokenIsNeverSentAgain | ccd/ccgpt-auth.py:1437-1450 | a file token the endpoint refuses puts needs-signin with the answer's code and request id on record and raises it; while that file stands no run of any processes asks of it again or says otherwise |
| AuthStatus.RefusedClientIsNotAskedAgain | ccd/ccgpt-auth.py:1436-1450 | a refused client puts config-error with its code on record and raises it, and no run of refreshes under that configuration asks again |
| AuthStatus.FailureIsRecorded | ccd/ccgpt-auth.py:1434-1457 | a request that brings no pair changes nothing but the status and drops nothing but a record whose own token was refused; what it writes and what it raises say which failure it was, of which file, with whose code and request id, and it writes nothing over a needs-signin about a file's other token or where the write fails |
| AuthStatus.SuccessIsRecorded | ccd/ccgpt-auth.py:1458-1479 | a granted refresh answers with the new pair, of the file that holds it or is to, and its status says ok with its own request id, time and expiry, or the upstream state that stood, and whether the pair is still unsaved |
| AuthStatus.RefusedCommitIsKept | ccd/ccgpt-auth.py:1457-1468 | an answered refresh whose commit refuses the file, unreadable or another family's, raises that and keeps the new pair in memory bound to the file it read, changing nothing else |
| AuthStatus.MergeTells | ccd/ccgpt-auth.py:1264-1290 | of an answer and the stored record, which tokens, expiry and account the new pair has, and in what precedence |
| AuthStatus.RetryIsRecorded | ccd/ccgpt-auth.py:821-832 | a landed retry says of the new file what the refresh that obtained its record would have said, a needs-signin about the old file's token dropped, a config-error that bars and an upstream state kept |
| AuthStatus.UpstreamIsRecorded | ccd/ccgpt-auth.py:1596-1614 | an upstream answer is put on record if and only if the state may be moved, ok is not said over ok and the write lands, with its code and request id and every other field as it stood or as the file tells; its caller is told the request id either way |
| AuthStatus.PausedIff | ccd/ccgpt-auth.py:1608-1614 | so a limit-paused or ineligible state is on record if and only if its write landed |
| AuthStatus.AnswersUnaskedIff | ccd/ccgpt-auth.py:573-582 | a section answers without a request if and only if the pair outlasts the margin, or is another than the one rejected, and then with that very pair, changing nothing after its settle |
| AuthStatus.AskedIff | ccd/ccgpt-auth.py:1418-1434 | under the lock a request is made unless the client is refused under this configuration, a needs-signin about the file stands and the pair is the file's, or the endpoint is not one to send to; the first two are raised and change nothing |
| AuthStatus.SettleRefusalIsRaised | ccd/ccgpt-auth.py:1400-1403 | a settle that raises says unreadable, or another family's where the file is, and the section raises the same and does nothing more |
| AuthStatus.WrittenIsCurrentIff | ccd/ccgpt-auth.py:931-946 | a status that lands is current exactly for the very file it was measured on, or over an absent one where it was measured on none or could not be measured |
| AuthSignin.SigninEnds | ccd/ccgpt-auth.py:1844-1882 | over every pattern of failures in the tries, when a sign-in raises, what the file holds, and that the unsaved map is back as it was |
| AuthSignin.SigninAllOrNothingIff | ccd/ccgpt-auth.py:1853-1877 | a sign-in is not all or nothing if and only if the first try whose rename lands fails its directory fsync and a later reading of the file fails before any try lands whole |
| AuthSignin.RefusedReplacesNothing | ccd/ccgpt-auth.py:1855-1877 | every reading succeeding, a sign-in that raises leaves the file and the unsaved map as they were |
| AuthSignin.SameTokensSignInIff | ccd/ccgpt-auth.py:1862-1882 | a sign-in that carries the file's own two tokens replaces nothing and returns if and only if the last reading succeeds |
| AuthStatus.SigninIsRecorded | ccd/ccgpt-auth.py:1862-1882 | a sign-in that returns leaves its tokens in the file and a status of that file that says ok with its own request id, time and expiry and nothing unsaved, and no status bars the next refresh |
| AuthDoors.DoorAgreesIff | ccd/ccgpt-auth.py:1393-1407 | what a call is told before the lock is what the section would have told it, changing nothing, with the one exact exception |
| AuthDoors.UnsavedGoesToTheLock | ccd/ccgpt-auth.py:1396-1399 | a process that holds an unsaved record is never answered before the lock, nor barred while the record is bound to what stands |
| AuthLibrary.Lane.CommitRecord | ccd/ccgpt-auth.py:756-786 | the commit, operation by operation, leaves the lane and the answer the theorems are about |
| AuthLibrary.Lane.RecoverPending | ccd/ccgpt-auth.py:854-920 | likewise the settling of a checkpoint |
| AuthLibrary.Lane.RetryUnsaved | ccd/ccgpt-auth.py:809-832 | likewise the retry of an unsaved record |
| AuthLibrary.Lane.RefreshLocked | ccd/ccgpt-auth.py:1418-1479 | likewise the refresh under the lock |
| AuthLibrary.Lane.RefreshSection | ccd/ccgpt-auth.py:1400-1407 | likewise a whole section of either door |
| AuthLibrary.Lane.RecordUpstream | ccd/ccgpt-auth.py:1596-1614 | likewise an upstream answer recorded |
| AuthLibrary.Lane.Tries | ccd/ccgpt-auth.py:1856-1861 | likewise the loop of a sign-in's tries |
| AuthLibrary.Lane.CommitSignin | ccd/ccgpt-auth.py:1847-1882 | likewise a sign-in's commit |
| Publisher.Installer.Install | ccd/ccd-entry-install.py:565-760 | the status is given by the first call of the run that does not succeed: killed where the process dies in it; a call that raises what the run catches is 1 with nothing renamed and 2 with something, where the sentence gets out; 120 only where nothing at all is said and the flush at shutdown fails; 0 where every call succeeds, and then all seven hold the rendered bytes and modes; exactly the destinations whose rename is reached are renamed in; the chosen sentence is true; wherever it stops, a body renamed in stands beside its five libraries and a launcher beside its body |
| Publisher.OneIsFalseIff | ccd/ccd-entry-install.py:735-760 | exactly when a status of 1 leaves something renamed |
| Publisher.CourseFollows | ccd/ccd-entry-install.py:590-699 | how a run ends is how the first of its calls, listed in order, that does not succeed ends |
| Publisher.Installer.Publish | ccd/ccd-entry-install.py:625-699 | the three halves in order stop at the first destination whose calls do not all succeed, having renamed exactly those whose rename was reached; the run's record of what moved is that, and where they raise the sentence it makes is true |
| Publisher.Installer.Conclude | ccd/ccd-entry-install.py:700-734 | how the run is left, and the sentence made of that record, are true of the disk |
| Publisher.WordsChoose | ccd/ccd-entry-install.py:701-731 | the chain of tests on the words chooses by what was really renamed |
| Publisher.NamesExactly | ccd/ccd-entry-install.py:633-635 | the files an exit 2 names are exactly those renamed, each once, in order |
| Reinstall.Converges | ccd/ccd-entry-install.py:565-699 | stopped anywhere, then run without failure, then run however: the second reaches the rendered set, the third leaves it as it is, killed or not, renaming in again only what it could not read |
| Stamp.Run | ccd/ccd-entry-install.py:189-195 | the stamp, editing its list of lines, is the function the lemmas are about |
| Stamp.StampIsIdempotent | ccd/ccd-entry-install.py:189-195 | stamping a stamped body changes nothing |
| Stamp.StampVerifies | shared/mark.mjs:160-168 | the marker's reader takes every stamped body for unmodified: its digest is of the text without that line |
| Stamp.StampKeepsLines | ccd/ccd-entry-install.py:170-183 | where a placeholder or an older marker stands every other line keeps its number and the count stays |
| Stamp.WritersAgreeIff | shared/mark.mjs:108-114 | exactly when the two writers agree byte for byte |
| Pins.LibPinRendersIff | ccd/ccd-entry-install.py:525-544 | a library's pin renders if and only if the body has one line of it in all, its placeholder or that very pin |
| Pins.BodyIsPinned | ccd/ccd-entry-install.py:520-545 | the published body has one pin line per library naming that library, one redactor pin more than its source, and a marker that verifies |
| Pins.RedactorPinnedOnceIff | ccd/ccd-entry-install.py:214-226 | each redactor file is pinned by exactly one line if and only if the source had no pin of it rendered |
| Pins.RenderRedactPins | ccd/ccd-entry-install.py:214-226 | the loop refuses unless each pin has exactly one placeholder line, and renders each |
| EntryChain.ReadsBackIff | ccd/ccd-entry-install.py:204-211 | the digest the body takes of a library is of its raw bytes if and only if the file has no NUL and ends in one newline |
| EntryChain.BodyHoldsTo | ccd/ccd-entry-install.py:58-77 | the pins a published body holds its libraries to are the digests of the very files published with it |
| EntryChain.RunsIff | ccd/ccd-entry.py:211-241 | through a launcher rendered for a body, a start runs where that body stands and bash reads each library as the one shipped, and nowhere else but by a collision with one of those four texts |
| EntryChain.AfterTheBody | ccd/ccd-entry-install.py:679-699 | wherever an install stops after its body, the launcher that carries its digest starts it and every other refuses by digest |
| EntryChain.BeforeTheBodyIff | ccd/ccd-entry-install.py:703-710 | wherever it stops before, a standing pair starts where bash reads each library as it did, and otherwise refuses (lib-digest), but for a library that collides with the one it replaced |
| ChunkedBody.ReadChunkedBody | ccd/ccgpt-proxy.py:733-768 | the loop over the stream answers the decoded body and leaves unread exactly what follows it, or raises where there is none |
| ChunkedBody.Reader.ReadLine | ccd/ccgpt-proxy.py:735-736 | a bounded readline takes through the first newline, the bound or the end |
| ChunkedBody.RestIsUnread | ccd/ccgpt-proxy.py:733-768 | any body that decodes is used up to where it ends and no further, whatever follows |
| ChunkedBody.TruncatedIsRefused | ccd/ccgpt-proxy.py:733-768 | no strict prefix of any body that decodes is ever returned |
| ChunkedBody.EncodingRoundTrips | ccd/ccgpt-proxy.py:680-768 | for any chunks, extensions and trailers within the line bound, and any rest, decoding gives the data and the rest, and every cut raises |
| ChunkedBody.SizeIsRead | ccd/ccgpt-proxy.py:740-748 | a size line gives the number its hexadecimal digits write, whatever extensions follow |
| ChunkedBody.HeadGivesIff | ccd/ccgpt-proxy.py:735-748 | a size line gives a size if and only if it is blanks about a hexadecimal number, with a sign, a `0x` and single underscores or without, that is not below 0, and then extensions; any other is refused and the whole body with it |
| EffortCache.FreshNeverStale | ccd/ccgpt-proxy.py:501-521 | over every interleaving of replacements, removals, failures and calls, stat, slot, parse and store apart, each answer is one a direct reading within the call could have given while every replacement brings a new mtime |
| EffortCache.QuietNeverStale | ccd/ccgpt-proxy.py:501-521 | mtimes may come back, each with its own content, as long as no call straddles a replacement |
| EffortCache.StaleIff | ccd/ccgpt-proxy.py:501-521 | where no two contents share an mtime, over every interleaving, some answer is one no direct reading within its call could give if and only if some call hits a slot filled from the file of an mtime whose levels nothing that stood during the call carries |
| EffortCache.StaleIffNeverInPlace | ccd/ccgpt-proxy.py:501-521 | where mtimes tell contents apart, if and only if some call hits a slot filled from an mtime that was never in place while the call ran |
| EffortCache.StraddleSpoils | ccd/ccgpt-proxy.py:503-521 | an input for which it is: a call straddles a replacement and the first file comes back |
| EffortCache.Cache.Consult | ccd/ccgpt-proxy.py:507-510 | the slot looked up for a measured mtime, as the step of the interleavings |
| EffortCache.Cache.OpenAndParse | ccd/ccgpt-proxy.py:511-519 | the open and parse, answering no default at once where either fails and leaving the slot to the next call, as that step does |
| EffortCache.Cache.Store | ccd/ccgpt-proxy.py:520-521 | the one assignment to the slot, as the step that stores |
| KilledSpawn.ReleasedOnlyIfNotStarted | shared/agent-protocol.ts:667-674 | killed anywhere, arm A is chosen only if the unit never started, while nobody puts the earlier bytes back |
| KilledSpawn.ReleasedOverARunIff | shared/agent-protocol.ts:667-674 | over a unit that started, arm A is chosen if and only if nothing was warned or printed, the output was read to its end, and the last of the writes put back what was there |
| KilledSpawn.QueuedIsAttributed | shared/agent-protocol.ts:675-678 | stopped after its queued report and before anybody else's write, the parent is named: arm B |
| KilledSpawn.AttributedIff | shared/agent-protocol.ts:675-678 | where the last write left something else than stood, arm B is chosen if and only if what was read is a report with the parent's pid and the lease's tag both, and otherwise arm D: by another process, for another target, with no pid, unparseable, removed or unread |
| KilledSpawn.Decide | shared/agent-protocol.ts:662-716 | the arm, and in arm D a detail that holds, in order, as many of the reasons that stand as fit and the count of the rest, within the bound for a tag of ninety characters, its ending whole |
| KilledSpawn.Reasons | shared/agent-protocol.ts:679-695 | the list holds every reason that stands, nothing else, each once and in order |
| KilledSpawn.NoReasonIff | shared/agent-protocol.ts:667-674 | it is empty exactly where nothing stands in arm A's way |
| KilledSpawn.Fit | shared/agent-protocol.ts:703-714 | reasons are taken whole and in order while they fit, the first that does not ends it, and the rest are counted |
| KilledSpawn.LongTagOverflowsIff | shared/agent-protocol.ts:700-715 | where several reasons stand and none fits, the detail is within the bound if and only if the tag is no longer than ninety |
| EpochDoc.AnswersIff | shared/agent-protocol.ts:321-338 | a number is answered if and only if the document is terminated, one line alone is keyed epoch, and that line is the key and the very digits the number prints as |
| EpochDoc.EpochsAreTold | shared/agent-protocol.ts:330-338 | two documents that answer one number hold the same epoch line: rounding never makes one epoch pass for another |
| EpochNumber.DocumentAnswersIff | shared/agent-protocol.ts:330-338 | with JavaScript's own rounding and printing, a document answers exactly where its one epoch line writes digits that come back, and then the double they round to |
| EpochNumber.EpochIs | shared/agent-protocol.ts:303-312 | every epoch up to 2^53 is answered as itself and 2^53 + 1 is refused; an answer is a safe integer if and only if what is written is below 2^53 |
| EpochNumber.RoundedIsAnswered | shared/agent-protocol.ts:303-312 | the input for which a rounded number is answered, and its exact digits refused |
| EpochDoc.CutIsRefused | shared/agent-protocol.ts:326-329 | where no other line begins with `end`, every strict prefix but the one that lacks the final newline is unterminated |
| EpochDoc.CutPassesAt | shared/agent-protocol.ts:326-329 | where one does, the document cut after those letters passes |
| EpochDoc.FragmentIsRefused | shared/agent-protocol.ts:321-338 | so such a fragment is never read as an epoch |
| UsageSweep.Scan | ccd/ccd-usage-sweep.py:115-226 | the nested loops compute the fold the lemmas are about, over the directories in sorted order |
| UsageSweep.LinesReconcile | ccd/ccd-usage-sweep.py:148-222 | unless a line aborts the scan, each assistant line falls in exactly one of out-of-window, unreadable, unusable, duplicate or recorded, and the tallies say how many in each |
| UsageSweep.CarriedCounts | ccd/ccd-usage-sweep.py:194-200 | unless a line aborts the scan, an account's carried count is the number of distinct ids it owns that were seen again under another account |
| UsageSweep.RecordsAre | ccd/ccd-usage-sweep.py:201-222 | unless a line aborts the scan, the records are the first good line of each id, in order, each with that line's account, model, effort, session and four counts, and the class of the first token its model contains |
| UsageSweep.OneRecordEach | ccd/ccd-usage-sweep.py:194-222 | no id has two records, and each record's account is that of the first good line with its id |
| UsageSweep.ScanAbortsIff | ccd/ccd-usage-sweep.py:186-222 | the scan ends in an uncaught exception if and only if some line in the window, with a usage, carries an id that cannot key a dict, or counts that overflow under an id no earlier good line recorded |
| UsageSweep.InfiniteCountAborts | ccd/ccd-usage-sweep.py:201-211 | one infinite count under a fresh id ends the run, and under a recorded one is one more duplicate |
| UsageSweep.HugeCountAborts | ccd/ccd-usage-sweep.py:84-97 | a count no float can hold ends the run under a fresh id exactly where the model's class has a price that divides it |
| UsageSweep.ScanIgnoresOrder | ccd/ccd-usage-sweep.py:125-126 | the answer does not depend on the order of the directory mapping |
| UsageSweep.Group | ccd/ccd-usage-sweep.py:372-413 | each grouping's buckets sum to the records' own sum and each bucket to its own key's records; per-ccd-session plus unmapped is every record |
| UsageSweep.TotalAdd | ccd/ccd-usage-sweep.py:100-112 | adding a record to one bucket adds it once to the total |
| UsageSweep.SumCounts | ccd/ccd-usage-sweep.py:100-112 | a bucket's five numbers are how many records it has and each of their four counts added up under its own name |
| UsageSweep.BucketsAreNamed | ccd/ccd-usage-sweep.py:372-399 | each grouping has a bucket for a name exactly where some record carries it as its model, class, effort, account or session |
| UsageSweep.CcdBucketsAreNamed | ccd/ccd-usage-sweep.py:400-413 | a registry session has a bucket exactly where the history maps some record's session to it, and nothing is unmapped exactly where it maps every record's |
| UuidLedger.Remembers | ccd/ccd-usage-sweep.py:261-281 | through any number of sweeps, failed reads and writes included, the ledger holds of each uuid the last row a written sweep saw name it, back to the last sweep that wrote without having read, forgotten exactly thirty days unseen |
| UuidLedger.LiveRowWins | ccd/ccd-usage-sweep.py:271-282 | a uuid a live row names is that row's, any other the remembered one where the ledger could be read |
| UuidLedger.FailedReadForgetsIff | ccd/ccd-usage-sweep.py:261-270 | a written sweep forgets a fresh uuid no live row names if and only if it could not read the ledger |
| ClaudeVersion.Compare | shared/claudeVersion.ts:30-42 | the loop answers the order of the three natural numbers, 0 only for identical strings, and refuses exactly the non-versions |
| ClaudeVersion.PartsCompareAsNumbers | shared/claudeVersion.ts:36-39 | length first, then lexical, is numeric order for components of any length |
| ClaudeVersion.OrderIsTotal | shared/claudeVersion.ts:24-42 | the order is antisymmetric, transitive and total |
| AccountArgv.Build | shared/account-argv.ts:189-215 | the loop over the table pushes exactly the words the lemmas are about, or refuses with the first refusal |
| AccountArgv.RefusedIff | shared/account-argv.ts:189-215 | which refusal is given: of the sub, of the lane, or of the fields exactly where a key is not the sub's, a required field is missing, a value is outside its grammar or stdin rides where it may not or not where it must |
| AccountArgv.DollarsAreBounded | shared/account-argv.ts:36-38 | dollars are exactly the figures from 1 to 100000 with no zero in front |
| AccountArgv.DotDotIsASegment | shared/account-argv.ts:34-35 | the pattern finds exactly the values with a segment that is `..` |
| AccountArgv.ArgvReadsBack | shared/account-argv.ts:189-215 | from any accepted argv the sub, lane, every field's value and the stdin flag can be read back |
| AccountArgv.ArgvIsInjective | shared/account-argv.ts:189-215 | two accepted inputs with the same argv are the same input |
| AccountArgv.NoFreeFlag | shared/account-argv.ts:5-11 | every word a field writes opens with that field's own flag, or is the one word the table spells for it |
| AccountArgv.CliIsPrefixFree | shared/account-argv.ts:90-142 | no sub's words begin another's |
| AccountArgv.OneHead | shared/account-argv.ts:90-142 | a word opens with one flag of the table |

## Left out

- UpstreamStateIsCarried: assumes that a status written was put together from the one it replaces, read at that moment, by a section whose own `lstat` of the file succeeded; no whole checkpoint left by a failed or dying commit; and no file replaced without its status. `RetryLosesPausedIff`, `GrantedLosesPausedIff`, `RefusedLosesPausedIff` and `PromotionLosesPausedIff` say exactly what each costs.
- OneProcessNeverSendsTwice: assumes that the process lives (`CrashResendsIff`), that every `lstat` of the file measures (`UnmeasuredResendsIff`), that a needs-signin can be read where it stands and be written where a record in memory is refused (`RefusedResendsIff`), and that where a retry could not remove its own checkpoint an answered commit after it can (`StaleCheckpointWinsIff`).
- NeverSentTwice: assumes an answered request whose process lives and whose commit lands (`SecondCallerResendsIff` says exactly when a failed one is resent), and sign-ins that nobody dies in, whose checkpoint can be removed and whose pair the endpoint has not rotated.
- DeadStaysDead: assumes status reads that succeed in the section (`DeadTokenIsSentIff`) and no sign-in that carries the file's own two tokens (`SameTokensSignInIff`).
- SigninEnds: assumes no process dies in the tries or the status write, since a dead sign-in neither returns nor raises; `PairIsNotLost` and `FileIsWhole` cover deaths.
- FileIsWhole: a torn write of the credential itself is not modelled, since every write of it is a rename; nor is a power loss that undoes a rename whose directory was not yet fsynced.
- Lock waiting, polling, re-entry and timeouts: exclusion is assumed, and a section that cannot take the lock changes nothing.
- The token endpoint, HTTP, device codes and `classify_error`: an answer is granted, refused or transient, with its code and request id already bounded.
- errno wording, remedies, file modes of the credential, and an `ENOENT` or `ELOOP` between a checkpoint's `lstat` and its open.
- A second authDir in one process: records are keyed by folder and one folder is modelled.
- A credential file's size: a file's identity is its inode and mtime, both fresh on every new file.
- `install_signin`, `read` beyond the reading it answers, `tier_access_token`, `half_life_s`: callers of what is modelled.
- Install: the checks before staging are one call; an exception other than `OSError` and `Refused` may come from any call, though only reports are known to raise one; a stdout that was pointed away, or holds nothing unsaid, flushes at shutdown.
- Converges: an outside writer between the self-test and the renames is not modelled, so a failed re-measurement is a failed read; staged leftovers of a dead run are swept by the next and not followed here.
- The interpreter and shebang checks, the kernel self-test, the layout check and directory creation: each either lets the run go on or refuses it before anything moves.
- The launcher's own rendering: a launcher is told by the body digest it carries, and the placeholder census of its template is not modelled.
- RunsIff: a name's value in the body is its last assigning line, every file can be read and hashed, and the redactor's two files, which no start reads, are not part of it.
- `is_protected`, `body_path` and the launcher's bash probe.
- `_is_chunked`, `_read_request_body`, the Content-Length arm, encodings, the retry through a refused upstream and the message rewriting.
- A stalled or timed-out stream: the end of the stream is the end of the bytes.
- FreshNeverStale: `json.loads` is a parse that answers levels or fails, and the lane's path is one path, so a key is an mtime.
- AnswersIff: holds for any number reading and printing; `EpochNumber` takes JavaScript's, on whole numbers, where one from 10^21 on, infinity included, is printed otherwise than by its digits.
- KilledSpawn: `JSON.parse` and the two field tests of `reportWriter` are a parameter; a character is one code point.
- LinesReconcile: a directory is the lines read of it in the window, after the mtime filter and up to the first read error; a timestamp is whether it is in the window.
- Group: dollar costs and the subagent, models and efforts maps inside a session's row are not modelled; each is one more sum of the same shape. Models and sessions are strings: a value of either that cannot key a dict would abort `main`.
- Remembers: the ledger reads whole or not at all, since every row in it was written by a sweep: a row somebody else malformed, which the source drops alone, and a nesting so deep that parsing it raises, which ends the sweep, are not modelled.
- Reaping orphans and reading the registry and the limits.
- The installer's lexicon beside the version grammar in `shared/claudeVersion.ts`, and its node-file reader.
- ArgvReadsBack: a key the table does not name is one of its own constructor, and a value that is no string is one value; `isAccountStdin` is a byte test.
- `deploy/measure-*.py`, `ccd/ccgpt-usage.py` and the field-by-field readers in `shared/`: they would add only easy members.
