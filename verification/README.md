# What a run stores, streams and tears down

A Dafny model of the parts of `django_ag_ui` that have to be right on every input and every schedule, and
proofs that they are. `dafny verify dfyconfig.toml` checks all of it.

## The parts

**Ids and persistence.** A run's stored row is put together from the event stream the client saw, the
framework's dump with freshly minted ids, and the row stored last time.

- `Messages` -- messages, tool calls, JSON; `LendStoredIds` -- the loops that give a dump the stored ids, each
  proved against the fold `Lent`; `LendingLaws` -- what `Lent` promises; `LendingByPartners` -- what it is, said of the
  messages and the row alone; `Redumping` -- a dump of some of what a row holds, and exactly when it comes back under
  its own ids.
- `RunTranscript` -- the observer's state as a value, `TranscriptObserver` -- the class that keeps it in place.
  `TranscriptLog` and `TranscriptSideLog` relate it to the event log read as a whole, `TranscriptIds`,
  `TranscriptRoundTrip` and `TranscriptWholeDump` to the ids that were streamed; `StreamedFromTheLog` says of the log
  and the dump alone which id each message is stored under.
- `ContinuedHistory` -- the cut of a resumed history; `StripBinaryContent`; `AgentSession` -- the three exits
  that store a row; `IdStability` -- ids over any number of resumes and forks; `ResumedSaves` -- that what a session
  stores, cut or not, is such a save; `NextRows` -- that what it stores is a row the next session can resume from.

**Streams.** A pump task, a queue of one, pending getters and generators suspended at their yields.

- `SubagentRace` -- the two-queue race as labelled steps under any scheduler; `OutsideAnnouncements` -- exactly when
  another task may announce; `Lockstep` -- any stack of list-sink, sub-agent and heartbeat stages, with errors;
  `OneStage` and `RaceRefinesStage` -- that the race is one of its stages; `SinkInjectors` -- the list sinks emptied
  in place.
- `NestedStages` -- the two refinements wherever the stages stand in a stack, and of both in one.
- `HeartbeatRace` -- the heartbeat's pump, queue, getter and timed wait as labelled steps, that they are one of the
  stack's stages, and that they send what the loop over the waits sends.
- `GuardedTeardown` -- any chain of plain and racing stages, and the guard that closes it on a disconnect.
- `HeartbeatStream` -- the beats, and a client that reads them as section 9.2.6 of the WHATWG HTML standard says.
- `SubAgentObserver` -- delegations over tasks that copy their context; `SubAgentCalls` -- the hook on one task,
  and that it is a run of the former.

**The rest.** `ThreadActivities` -- the batch merge against the client's upsert; `RestoredActivities` -- against the list
of activities; `RenderUntrustedContext`, `ContextFence` and `ContextSpelledOut` -- the fenced block, its budget, its
marker and its text, place by place; `ScopedStepStore` -- two views of one ledger;
`FixedWindowThrottle` -- atomic counters under interleaving.

What the source updates in place is a class or a loop here, and its contract names a function of the old state;
the laws are proved about that function. Protocols are step systems: a theorem about every sequence of enabled
steps is one about every schedule.

## What was found

Where a property the source relies on does not hold on every input, the model keeps the code as it is, says when
it holds -- exactly, where the entry says so -- and gives an input on which it does not.

- An empty `parent_message_id` is not a missing one: the draft is kept under the call id, and the dump is lent
  the empty id (`EmptyParentLendsTheEmptyId`). The streamed round trip holds exactly when every call that ended
  was started under a message (`CompleteStreamsRoundTrip`).
- Lending twice is lending once exactly when whoever carries an id the row offers keeps it
  (`LendingTwiceIsLendingOnce`, and `LendingTwiceByTheOffers` for a caller to check), and can lend more otherwise
  (`LendingTwiceMayLendMore`). An ordinary resume is such a dump (`RedumpsAreLentOnce`).
- A dump comes back under its own ids exactly when, in each group, nothing with a message's key was left out between
  the one before it and it -- and, of an activity type, nothing at all (`StableExactlyWhereFollowed`). Keys that do
  not repeat are always followed, and so is a dump without gaps; after a gap a repeated text takes the skipped one's
  id (`ARepeatedTextMisleads`). Prompts and other messages no row is searched for play no part: the row may hold an
  image the dump was stripped of.
- Progress announced by a task other than the one inside upstream, by any number of them, is safe exactly between two
  items (`SafeExactlyBetweenItems`, `CarefulRunsAreOrdered`): while an item is on its way or held it can be overtaken
  (`OutsideAnnouncementsOvertake`). The comment at `inject_subagent_events.py:59-63` relies on there being none.
- A beat can go out with a chunk already queued, when the interval ends between the pump's put and the getter's
  waking (`ABeatCanFindOneQueued`); `heartbeat_stream.py:63-64` says it cannot. `ABeatFindsNothingQueued` says
  exactly when; order is never affected.
- The batch merge draws what the client draws exactly when no activity has the id of a message of the thread
  (`BatchEqualsTheClient`): the client would replace the message, the batch draws the activity beside it.
- A beat is invisible exactly between two events (`InvisibleExactlyBetweenEvents`), so upstream has to send
  complete frames.
- Two scopes are separate exactly when neither begins with the other and a colon (`SeparateNames`): the
  view of `a` lists the runs of `a:b`.
- A counter that is evicted inside its window takes the limit with it, whatever the limit
  (`ALostEntryBreaksTheLimit`): every loss lets the limit in again (`EveryLossLetsTheLimitInAgain`) and no more than
  that (`AdmissionsAreBounded`).

## What is assumed

- The framework's adapter is seen through functions: what a message loads into, which calls are pending, the id
  a stored request is dumped under, and a dump that may mint different ids each time it is asked.
- What a session keeps of a history is dumped message by message, and the tool results of the request it is cut at
  are stored alone as they are within it (`DumpsBy`). The first source row of a chain of sessions can be followed to
  what the snapshot is stored as, and of a type's activities it holds all or none (`RowHolds`); what a run adds to the
  snapshot can be followed to its turn and output (`AddsWhatItStores`). All three speak only of messages a row is
  searched for, but for the first, which is of the dump.
- Ids that are new are taken to be new, and one's own one's own: `IdsAreNew` in `IdStability`, `IdsAreTheirOwn` in
  `ResumedSaves`, `FreshCore` and `Apart` in `TranscriptWholeDump` say which.
- Announcements come from inside upstream (`FromInside`), and when the race's wait comes back every getter whose
  queue was not empty has settled (the guard of `Wake`). Of the heartbeat's wait nothing is assumed but that it
  expires only while its getter has not settled.
- A call of a tool waits for the tasks spawned inside it, and tool call ids are not reused (`Enabled` in
  `SubAgentObserver`).
- A cache's `add` and `incr` are atomic. It may lose an entry at any time.

## Model

| member | source | states |
|---|---|---|
| `LendStoredIds.LendStoredIds` | django_ag_ui/agent/lend_stored_ids.py:78-99 | the loop over rows, cursors, activity pairs and the taken set stores exactly the fold `Lent`, which `LendingByPartners.LendingIsByPartners` says of the messages and the row alone |
| `LendStoredIds.NextMatch` | django_ag_ui/agent/lend_stored_ids.py:144-153 | the id of the first row entry at or after the cursor with the key, and a cursor that moves past it, or stays when nothing is found |
| `LendStoredIds.GroupRows` | django_ag_ui/agent/lend_stored_ids.py:78-82 | every group's keys and ids, in row order |
| `LendStoredIds.PairActivities` | django_ag_ui/agent/lend_stored_ids.py:119-141 | an activity is paired with the row's id at its own rank when the row begins with all the contents its type dumps, and no activity of a type is paired otherwise |
| `LendingLaws.LendingIsSound` | django_ag_ui/agent/lend_stored_ids.py:85-99 | for every dump, row and reserved set: only ids change, and a changed id is that of a row message alike (of one kind, and what its kind is compared by the same), is not reserved and is carried by no dumped message |
| `LendingLaws.MatchesExactlyAlike` | django_ag_ui/agent/lend_stored_ids.py:102-116 | a row message can lend to a dumped one if and only if both are results of one call, answers with the same list of call ids, answers without calls or reasonings of one text but for newlines, or activities of one type and content |
| `LendingLaws.FlatDropsOnlyNewlines` | django_ag_ui/agent/lend_stored_ids.py:156-157 | the text compared is run together from its characters, each but a newline kept |
| `LendingByPartners.LendingIsByPartners` | django_ag_ui/agent/lend_stored_ids.py:78-99 | for every dump, row and reserved set: a message keeps all but its id, and takes its partner's -- the first row message alike past the partners of its kind, or the activity at its own place when its whole type agrees -- exactly when that id is not reserved, on no dumped message and lent to none before |
| `LendingByPartners.PartnersAreThere` | django_ag_ui/agent/lend_stored_ids.py:119-153 | every dump and row have such partners, those the walk and the pairing find |
| `LendingLaws.LentToOneOnly` | django_ag_ui/agent/lend_stored_ids.py:94-98 | no row id is lent to two messages |
| `LendingLaws.NoIdIsStoredTwice` | django_ag_ui/agent/lend_stored_ids.py:68-77 | distinct dumped ids apart from the reserved ones stay distinct and apart from them |
| `LendingLaws.CandidateIgnoresIds` | django_ag_ui/agent/lend_stored_ids.py:102-153 | what the row offers a message depends on no dumped id |
| `LendingLaws.LendingTwiceIsLendingOnce` | django_ag_ui/agent/lend_stored_ids.py:83-99 | for every dump, row and reserved set: lending a second time changes nothing if and only if every id offered while a dumped message carried it stays with a message that carried it |
| `LendingLaws.LendingTwiceByTheOffers` | django_ag_ui/agent/lend_stored_ids.py:83-99 | for a row with distinct ids the same condition, read off the offers before anything is lent: whoever carries an offered id is itself offered nothing, or an id that is reserved or carried |
| `LendingLaws.FreshDumpsAreLentOnce` | django_ag_ui/agent/lend_stored_ids.py:68-77 | a dump that carries none of the row's ids is lent once |
| `LendingLaws.LendingTwiceMayLendMore` | django_ag_ui/agent/lend_stored_ids.py:94-96 | a row and a dump on which the second lending lends an id the first one found carried |
| `LendingLaws.GreedyWalkIsLeast` | django_ag_ui/agent/lend_stored_ids.py:83-93 | if the dumped keys of a group embed in the row at all, each of them is found, at or before its place in any embedding |
| `LendingLaws.MatchesIncrease` | django_ag_ui/agent/lend_stored_ids.py:144-153 | two messages of one group are matched in order and never to one row message |
| `Redumping.IdsAreStable` | django_ag_ui/agent/lend_stored_ids.py:35-43 | for every dump and row with distinct ids: an answer, result, reasoning or activity the row holds is stored as exactly the row's message when its group can be followed, its id is not reserved and no other dumped message carries it; the rest of the dump, other groups and prompts included, may be anything |
| `Redumping.UnheldKeepItsId` | django_ag_ui/agent/lend_stored_ids.py:41-43 | a dumped message the row does not hold keeps its dumped id, when its group can be followed |
| `Redumping.StableExactlyWhereFollowed` | django_ag_ui/agent/lend_stored_ids.py:78-99 | where no reserved or carried id is in the way, a dump comes back as what the row holds, and what the row lacks as it was dumped, if and only if every group of it can be followed |
| `Redumping.WalksExactlyWhereTight` | django_ag_ui/agent/lend_stored_ids.py:144-153 | the greedy walk stops at every dumped message's own place in the row, and nowhere for one the row lacks, if and only if nothing with its key stands between where the walk goes on from and there |
| `Redumping.DistinctKeysAreFollowed` | django_ag_ui/agent/lend_stored_ids.py:108-115 | a group whose row holds no key twice, and nothing like what it lacks, can be followed over any gaps |
| `Redumping.NoGapsAreFollowed` | django_ag_ui/agent/lend_stored_ids.py:78-99 | a group the row holds all of, without gaps up to where it reaches, can be followed, whatever repeats |
| `Redumping.LackedAreFollowed` | django_ag_ui/agent/lend_stored_ids.py:35-43 | so can a group the row holds nothing of and nothing like |
| `Redumping.PartIsFollowed` | django_ag_ui/agent/lend_stored_ids.py:119-141 | where a whole dump is followed so is every beginning of it; of a type's activities where the row holds all or none |
| `Redumping.ARepeatedTextMisleads` | django_ag_ui/agent/lend_stored_ids.py:35-43 | for every text: dumped without the first of two answers alike, the second comes back under the first one's id |
| `Redumping.RedumpsAreLentOnce` | django_ag_ui/agent/lend_stored_ids.py:68-71 | a followed dump is lent once, though it may already carry its stored ids |
| `IdStability.SavingKeepsIdsDistinct` | django_ag_ui/agent/agent_session.py:361-376 | a resume or fork save under new ids stores a row with distinct ids, whatever row it read and whatever it took from it |
| `IdStability.IdsStayDistinct` | django_ag_ui/agent/agent_session.py:361-376 | the same over any number of saves, each reading the row the one before it stored |
| `IdStability.KeptByOneSave` | django_ag_ui/agent/agent_session.py:365-375 | a row message whose group a save's dump can be followed to is stored as the very message it was, whatever becomes of other groups |
| `IdStability.KeptMessagesKeepTheirIds` | django_ag_ui/agent/agent_session.py:361-376 | over any sequence of saves an answer, result, reasoning or activity each of them kept is the message it was, id and all; nothing is asked of the other messages |
| `ResumedSaves.KeptBeginsAlike` | django_ag_ui/agent/continued_history.py:72-84 | what a history cut anywhere is stored as begins, as far as a row is searched, like what the whole one is stored as; only the request it is cut at is asked about |
| `ResumedSaves.AlignIsPart` | django_ag_ui/agent/lend_stored_ids.py:102-116 | a list that begins so is a part of the other with no matched message left out, whatever stands between |
| `ResumedSaves.ACutDumpIsFollowed` | django_ag_ui/agent/agent_session.py:365-374 | wherever the posted turn cuts the history, the stripped dump can be followed to the source row's own messages; a prompt may be stripped in the dump and whole in the row |
| `ResumedSaves.AStoredRowIsASoundSave` | django_ag_ui/agent/agent_session.py:365-375 | what a resumed session stores, with or without a cut, is a sound save of its source row, so the theorems over any number of saves hold of sessions |
| `NextRows.TheStoredRowHolds` | django_ag_ui/agent/agent_session.py:361-376 | whatever row a session resumed from, the row it stores holds the snapshot its run leaves, and can be followed to it |
| `NextRows.EverySourceRowHolds` | django_ag_ui/agent/agent_session.py:361-376 | so of a chain of sessions, each reading the row the last one stored, only the first row has to be asked about |
| `NextRows.EverySessionSavesSoundly` | django_ag_ui/agent/agent_session.py:361-376 | each of them saves its source row soundly and stores what the next one reads |
| `NextRows.SessionsKeepIds` | django_ag_ui/agent/agent_session.py:361-376 | however many sessions resume one another, and wherever the client cuts them, an answer, result, reasoning or activity of the first row that was never cut is the same message, id and all, in the last |
| `TranscriptObserver.Observer.Add` | django_ag_ui/agent/run_transcript.py:101-142 | one event's whole effect on the observer's fields, and that arguments or an end for a call that is not open are refused and change nothing |
| `TranscriptObserver.Observer.DraftFor` | django_ag_ui/agent/run_transcript.py:321-327 | the place of the last draft with the id, made at the end when there is none |
| `TranscriptObserver.Observer.Snapshot` | django_ag_ui/agent/run_transcript.py:280-293 | a second snapshot keeps place and type and takes the content unless it says to keep the old one |
| `TranscriptObserver.Observer.Observe` | django_ag_ui/agent/run_transcript.py:95-99 | recording a stream ends in the run's transcript, or at the first refused event |
| `TranscriptObserver.Observer.Rebuilt` | django_ag_ui/agent/run_transcript.py:144-168 | the stored messages in stream order, without drafts nothing was said in |
| `TranscriptObserver.Observer.Lend` | django_ag_ui/agent/run_transcript.py:234-278 | consuming the queues and positions in place lends each message the id that its rank, its use count or its parents determine, each id once |
| `TranscriptObserver.Observer.SharedParent` | django_ag_ui/agent/run_transcript.py:437-446 | the one parent all calls of a message streamed under, with each call's queue advanced by one |
| `TranscriptObserver.TakeFrom` | django_ag_ui/agent/run_transcript.py:407-412 | the head of one queue, and every other queue as it was |
| `TranscriptLog.RecordingRefinesTheLog` | django_ag_ui/agent/run_transcript.py:101-142 | on every well-bracketed log recording succeeds, and item by item the transcript says what the log says: texts are the run of their deltas, calls hold the arguments between their start and end |
| `TranscriptSideLog.SideRecordsRefineTheLog` | django_ag_ui/agent/run_transcript.py:129-142 | and so do its reasoning and activities: each id once, in the order first named; thoughts are the run of their deltas; an activity keeps its first type and shows the last snapshot not told to keep what was there, or nothing after a delta |
| `TranscriptSideLog.NamedInFirstOrder` | django_ag_ui/agent/run_transcript.py:280-293 | each reasoning or activity id has one place, given by the first event about it |
| `TranscriptLog.RecordingNeedsBrackets` | django_ag_ui/agent/run_transcript.py:113-116 | recording succeeds if and only if arguments and ends come only for open calls |
| `TranscriptLog.DraftsInFirstMentionOrder` | django_ag_ui/agent/run_transcript.py:321-327 | each draft has one place, given by the first event that names it |
| `TranscriptLog.StoredIsFinished` | django_ag_ui/agent/run_transcript.py:151-168 | every stored message is a whole item that is not blank |
| `TranscriptLog.StoredIsReadOffTheLog` | django_ag_ui/agent/run_transcript.py:144-168 | what is stored of any stream is, place by place: each result with its call id, content and outcome, and each draft with text or calls, under its id, with its whole text or none and the calls that ended for it |
| `TranscriptLog.StoredCallsEnded` | django_ag_ui/agent/run_transcript.py:115-126 | every stored call was started and ended in the log, for the draft it stands in |
| `TranscriptLog.StoredOnlyGrows` | django_ag_ui/agent/run_transcript.py:144-168 | what is stored after a prefix embeds in order into what is stored after any extension: same ids and results, texts and call lists extended |
| `TranscriptIds.NoMessageIsLentAnothersId` | django_ag_ui/agent/run_transcript.py:199-226 | for every stream and dump: only ids change, each streamed id is lent once, and only to a message that holds what was streamed under it |
| `StreamedFromTheLog.NamedFromTheLog` | django_ag_ui/agent/run_transcript.py:234-278 | for every stream and dump a message takes exactly the id it is the first the log announced it for: of the result event at its place among its call's, of the parent all its calls' starts named and whose text is the message's, or of its place in a kind that pairs whole |
| `TranscriptIds.StreamedIdsRoundTrip` | django_ag_ui/agent/run_transcript.py:234-278 | renaming every stored message to a fresh id and lending the streamed ids restores the stored messages, if and only if every call names the message it streamed in |
| `TranscriptIds.EmptyParentLendsTheEmptyId` | django_ag_ui/agent/run_transcript.py:112-126 | a call whose parent id is the empty string is kept under its call id and lent the empty id |
| `TranscriptRoundTrip.CompleteStreamsRoundTrip` | django_ag_ui/agent/run_transcript.py:170-278 | the round trip said of the event log alone, with its exact condition: every call that ended was started under a message |
| `TranscriptWholeDump.WholeDumpsRoundTrip` | django_ag_ui/agent/run_transcript.py:170-278 | the same of a whole dump, with the same exact condition, whatever reasoning, activities and prompts stand between the answers and results |
| `TranscriptWholeDump.SidesComeBack` | django_ag_ui/agent/run_transcript.py:193-278 | every reasoning, and every activity of a type, comes back under the id announced at its place when as many are dumped as were announced, each as it was streamed |
| `TranscriptWholeDump.CoreIsUndisturbed` | django_ag_ui/agent/run_transcript.py:234-278 | what the stream announced for an answer or result does not turn on what else is dumped |
| `ContinuedHistory.NewTurnIsTheLongestResponseFreeEnd` | django_ag_ui/agent/continued_history.py:93-105 | an end of what was posted is free of responses exactly when it lies within the new turn |
| `ContinuedHistory.TurnIsNamedByItsLastContributor` | django_ag_ui/agent/continued_history.py:126-139 | the turn's id is its last contributor's, and none when nothing contributes |
| `ContinuedHistory.ResubmittedIsASublist` | django_ag_ui/agent/continued_history.py:85-89 | the stored turn is the posted one in order, less exactly the results already answered |
| `ContinuedHistory.ResultsAreASublist` | django_ag_ui/agent/continued_history.py:74-76 | the results kept of a cut request are its tool results, all of them, in order |
| `ContinuedHistory.KeptAnswersWhatTheCutDid` | django_ag_ui/agent/continued_history.py:72-84 | what is kept is the history before the cut and at most one request of results only, and answers exactly the calls answered up to and including the cut |
| `ContinuedHistory.NothingKeptIsNamed` | django_ag_ui/agent/continued_history.py:68-77 | no kept message is a user turn under the resubmitted id |
| `ContinuedHistory.NoCallIsAnsweredTwice` | django_ag_ui/agent/continued_history.py:78-90 | no result in the stored turn answers a call the kept history answers |
| `ContinuedHistory.OnlyAResubmissionCuts` | django_ag_ui/agent/continued_history.py:66-77 | the history is kept whole if and only if the turn names nothing in it |
| `ContinuedHistory.TheCutIsAtTheTurnPostedAgain` | django_ag_ui/agent/continued_history.py:66-72 | the history is cut at the first request with a user prompt that is held under the id of the last posted message to load, or to answer a call that was posted or is pending; nowhere when there is none |
| `ContinuedHistory.ContinuedSpelledOut` | django_ag_ui/agent/continued_history.py:65-90 | the whole continuation in terms of what loads, what is pending, what is posted and what is held: where the turn starts, where the history is cut, which results are kept of the cut request, and which posted messages are stored |
| `StripBinaryContent.Strip` | django_ag_ui/agent/strip_binary_content.py:44-57 | the loop over messages and parts computes the stripped row |
| `StripBinaryContent.StrippingAMessage` | django_ag_ui/agent/strip_binary_content.py:44-69 | a message is dropped exactly when it was nothing but inline bytes; any other keeps its id and every part that is not inline bytes, in order, and loses the rest |
| `StripBinaryContent.KeptPartsAreASublist` | django_ag_ui/agent/strip_binary_content.py:50-56 | the parts kept are the parts that are not inline bytes, each of them, in order |
| `StripBinaryContent.StrippingIsASublist` | django_ag_ui/agent/strip_binary_content.py:44-57 | the stored messages are the given ones in order, none missing but the dropped |
| `StripBinaryContent.StrippingTwiceIsStrippingOnce` | django_ag_ui/agent/strip_binary_content.py:44-57 | stripping a stripped row changes nothing |
| `AgentSession.Session.PriorMessages` | django_ag_ui/agent/agent_session.py:361-376 | without a history it is what was posted; with one, a stripped dump of what is kept, under the source row's ids where there is a row, and then the new turn; a later exit gets the same list and dumps nothing |
| `AgentSession.Session.RowsBeginWithThePost` | django_ag_ui/agent/agent_session.py:361-363 | every row a session without a history stores, at any exit, begins with the conversation as posted |
| `AgentSession.Session.RowsBeginWithTheHistory` | django_ag_ui/agent/agent_session.py:364-376 | every row a resumed or forked session stores begins with one and the same dump, stripped and named, and the new turn |
| `AgentSession.Session.OnComplete` | django_ag_ui/agent/agent_session.py:411-420 | a completed run stores the prior conversation, then its own messages under their streamed ids, stripped |
| `AgentSession.Session.Finalize` | django_ag_ui/agent/agent_session.py:525-537 | a failed or cancelled run stores the prior conversation, then what the transcript holds; it is audited whether or not the row was taken, and not at all when the store raised anything but a refused anonymous write; what the store or else the audit logger raises is passed on |
| `AgentSession.Session.Save` | django_ag_ui/agent/agent_session.py:470-484 | one more row, none when the store refuses an anonymous write, and none and the store's error when it raises another; every row begins with the one prior conversation |
| `SubagentRace.ProgressIsToldInOrder` | django_ag_ui/agent/inject_subagent_events.py:50-91 | on every schedule with announcements from inside upstream only, what was passed on is a prefix of what happened, in order and once; at the end or error nothing is missing |
| `SubagentRace.UpstreamIsInLockstep` | django_ag_ui/agent/utils.py:53-59 | while upstream is being asked, the consumer has come back from every item so far |
| `SubagentRace.NeverStuck` | django_ag_ui/agent/inject_subagent_events.py:68-80 | the pump never meets a full queue, and a waiting stage always has a step that can happen or an upstream still at work |
| `SubagentRace.OutsideAnnouncementsOvertake` | django_ag_ui/agent/inject_subagent_events.py:59-65 | a schedule on which two announcements by another task, made while the stage is suspended at an event, go out in the wrong order |
| `OutsideAnnouncements.CarefulRunsAreOrdered` | django_ag_ui/agent/inject_subagent_events.py:58-91 | with any number of announcements by other tasks, each made while upstream has produced nothing the consumer has not come back from, everything is told in order |
| `OutsideAnnouncements.SafeExactlyBetweenItems` | django_ag_ui/agent/inject_subagent_events.py:58-91 | after any such run one announcement more by another task leaves the order intact, whatever the run and other careful tasks then do, if and only if it is made so too |
| `Lockstep.SourceAndClientAreInLockstep` | django_ag_ui/agent/utils.py:53-63 | for every stack of list-sink, sub-agent and heartbeat stages and every schedule: erasing what was injected leaves a prefix of the source's items, at most one short, and the source is asked for more only once the client came back from the last one |
| `Lockstep.InjectionsKeepTheirOrder` | django_ag_ui/agent/inject_invalidation_events.py:28-44 | what a stage injects reaches the client once each, in the order it was recorded |
| `Lockstep.NothingRecordedIsLost` | django_ag_ui/agent/inject_compaction_events.py:33-49 | when the stream ends normally the client has every source item and everything recorded before the end |
| `Lockstep.AnErrorComesLast` | django_ag_ui/agent/utils.py:42-44 | an error the source raises reaches the client as it was, behind every item produced before it |
| `RaceRefinesStage.RaceIsAStage` | django_ag_ui/agent/inject_subagent_events.py:50-91 | every run of the race's tasks, queues and getters with announcements from inside upstream, ending or raising, is, as its neighbours see it, a run of the stack with one sub-agent stage, so the stack's theorems hold of it |
| `RaceRefinesStage.StepSeen` | django_ag_ui/agent/inject_subagent_events.py:58-91 | each uninterrupted step of the race is none, one or two of the stage's steps |
| `NestedStages.RaceInAnyStack` | django_ag_ui/agent/agent_session.py:155-204 | wherever the race stands in a stack of any stages, what its tasks do is a few steps of that stage, or none |
| `NestedStages.RaceAmongNeighbours` | django_ag_ui/agent/agent_session.py:155-204 | and any step of another stage, of the source or of the client is to its tasks nothing, or the answer the pump was waiting for |
| `NestedStages.HeartbeatInAnyStack` | django_ag_ui/agent/agent_session.py:198-199 | the same of the heartbeat's tasks wherever they stand |
| `NestedStages.HeartbeatAmongNeighbours` | django_ag_ui/agent/agent_session.py:198-199 | and of what its neighbours do |
| `NestedStages.RaceMovesInBoth` | django_ag_ui/agent/agent_session.py:172-204 | in one stack that has both, among any other stages: a step of the race's tasks is steps of its stage, to which the heartbeat's tasks at most take answers, and both stay the stages they were |
| `NestedStages.HeartbeatMovesInBoth` | django_ag_ui/agent/agent_session.py:172-204 | and a step of the heartbeat's tasks likewise |
| `NestedStages.OthersMoveInBoth` | django_ag_ui/agent/agent_session.py:172-204 | and a step of any other stage, of the source or of the client; so what holds of any stack holds of the stack that `stream` builds |
| `SinkInjectors.InjectRecorded` | django_ag_ui/agent/inject_compaction_events.py:33-43 | one generator's run, with its sink filled and emptied in place, sends each turn's records just before its event and the last ones at the end |
| `SinkInjectors.Sink.Drain` | django_ag_ui/agent/inject_compaction_events.py:46-49 | everything recorded, leaving the same list empty |
| `SinkInjectors.NothingLostNothingMoved` | django_ag_ui/agent/inject_invalidation_events.py:28-44 | the events sent are upstream's, in order, and the injections are everything recorded, in order |
| `SinkInjectors.EachStandsRightBefore` | django_ag_ui/agent/inject_invalidation_events.py:31-36 | what was recorded before an event stands right before it, what was recorded last at the end, each at its stated place, and nothing else is sent |
| `GuardedTeardown.RunningKeepsSound` | django_ag_ui/agent/utils.py:53-63 | whatever a chain of plain and racing stages does next, a generator runs only inside its driver and a stage that is over has no pump |
| `GuardedTeardown.EveryRunIsSound` | django_ag_ui/agent/utils.py:53-63 | so in every state a chain of any length can reach |
| `GuardedTeardown.TeardownReachesTheProvider` | django_ag_ui/agent/guarded_stream.py:72-75 | from every such state with the guard suspended, closing the stream, the racing stages outermost first and the provider's stream never meets a running generator and leaves the provider closed, nothing running and no pump alive |
| `GuardedTeardown.GuardOrderGoesDown` | django_ag_ui/agent/guarded_stream.py:73-75 | the order closes the stream first and the provider's last, and between them each racing stage once, outermost first |
| `GuardedTeardown.WithoutRacingStagesTheProviderRuns` | django_ag_ui/agent/guarded_stream.py:45-53 | without the racing stages in between, a state from which the provider's stream refuses and goes on running |
| `GuardedTeardown.Guard.CloseQuietly` | django_ag_ui/agent/guarded_stream.py:88-100 | one close, its failure logged and not passed on; a running generator is left as it is |
| `GuardedTeardown.Guard.CloseStages` | django_ag_ui/agent/guarded_stream.py:73-74 | the closes in order, each made whatever the ones before it raised |
| `GuardedTeardown.EachCloseIsLogged` | django_ag_ui/agent/guarded_stream.py:88-100 | one outcome for each close: refused where the closes before it left the generator running, raised where it was suspended and fails |
| `GuardedTeardown.Guard.OnDisconnect` | django_ag_ui/agent/guarded_stream.py:69-85 | for both kinds of disconnect: the closes, none refused, then `on_cancel` once, and the same cancellation raised again |
| `HeartbeatStream.HeartbeatChangesNothing` | django_ag_ui/agent/heartbeat_stream.py:11-24 | a comment frame leaves a parser as it found it if and only if nothing was half read |
| `HeartbeatStream.HeartbeatsAreInvisible` | django_ag_ui/agent/heartbeat_stream.py:11-24 | when upstream's chunks end in a blank line, a stream with beats anywhere, any number of them, is read to the same events, ids and reconnection time as upstream alone |
| `HeartbeatStream.InvisibleExactlyBetweenEvents` | django_ag_ui/agent/heartbeat_stream.py:11-24 | after any text at all a beat is invisible, however the stream goes on, if and only if no line, data or event name is pending |
| `HeartbeatStream.ForwardWithHeartbeats` | django_ag_ui/agent/heartbeat_stream.py:79-98 | over any outcomes of the waits the loop sends a beat for each that expires and the chunk for each that lands, up to the end or the error it raises |
| `HeartbeatStream.OnlyBeatsAreAdded` | django_ag_ui/agent/heartbeat_stream.py:79-98 | less the beats, what is sent is upstream's chunks in order |
| `HeartbeatRace.PiecesAreToldInOrder` | django_ag_ui/agent/heartbeat_stream.py:75-98 | for every schedule of pump, queue, getter and timed wait: no chunk is lost to a beat or told out of order, and at the end or the error all were told |
| `HeartbeatRace.UpstreamIsInLockstep` | django_ag_ui/agent/utils.py:53-59 | the pump asks upstream only once every chunk was passed on and the consumer came back for more |
| `HeartbeatRace.ABeatFindsNothingQueued` | django_ag_ui/agent/heartbeat_stream.py:63-64 | a beat goes out only while the getter has not settled, and nothing is queued at it if and only if the pump has not put since its consumer last came back |
| `HeartbeatRace.ABeatCanFindOneQueued` | django_ag_ui/agent/heartbeat_stream.py:63-64 | a schedule on which a beat is sent with a chunk already queued |
| `HeartbeatRace.NeverStuck` | django_ag_ui/agent/heartbeat_stream.py:79-82 | the pump never meets a full queue, and a wait always has a step that can happen besides expiring |
| `HeartbeatRace.HeartbeatIsAStage` | django_ag_ui/agent/heartbeat_stream.py:75-100 | every run, ending or raising, is, as its neighbours see it, a run of the stack with one heartbeat stage, so the stack's theorems hold of it |
| `HeartbeatRace.TheLoopSendsWhatIsTold` | django_ag_ui/agent/heartbeat_stream.py:79-98 | on every schedule what has been sent is what the loop sends over the outcomes of the run's waits, and only the last outcome stops it, exactly when the stage is over |
| `ThreadActivities.WithActivities` | django_ag_ui/persistence/threads_view.py:193-218 | the three passes compute `Merged`, which `RestoredActivities.MergedIsRestored` says of the list of activities itself |
| `RestoredActivities.MergedIsRestored` | django_ag_ui/persistence/threads_view.py:193-218 | for every thread and list: each message, and after it, or at the end when the thread has no such message, each activity id once, where it came first, with the type and content it came last |
| `RestoredActivities.LastContentIsShown` | django_ag_ui/persistence/threads_view.py:202-227 | an activity no later one has the id of is in the merged thread with its own type and content |
| `ThreadActivities.PlaceEach` | django_ag_ui/persistence/threads_view.py:193-203 | first place and anchor, last event, per activity id |
| `ThreadActivities.GroupByAnchor` | django_ag_ui/persistence/threads_view.py:204-212 | the activities after each message and the trailing ones, each in order of first appearance |
| `ThreadActivities.BatchEqualsTheClient` | django_ag_ui/persistence/threads_view.py:170-218 | the batch draws what the client draws upserting one activity at a time, if and only if no activity has the id of one of the thread's messages |
| `ThreadActivities.MessagesStayAndActivitiesShowOnce` | django_ag_ui/persistence/threads_view.py:181-191 | after any number of upserts the thread's messages are as they were and in order, and every activity id is shown exactly once |
| `ThreadActivities.ClientShowsAnIdOnce` | django_ag_ui/persistence/threads_view.py:181-187 | whatever the client is sent it never shows an id twice |
| `RenderUntrustedContext.Render` | django_ag_ui/agent/render_untrusted_context.py:70-90 | the loop with its running budget renders `Rendered`, whose truncation line is there exactly when the values together are longer than the budget |
| `RenderUntrustedContext.ToldIsTheBeginning` | django_ag_ui/agent/render_untrusted_context.py:73-84 | the values shown, end to end, are exactly the first `max_chars` characters of the non-blank neutralised values |
| `RenderUntrustedContext.JoinedLaysOut` | django_ag_ui/agent/render_untrusted_context.py:84-90 | the body holds every section whole, in order, with a blank line between one and the next |
| `ContextSpelledOut.BlockSpelledOut` | django_ag_ui/agent/render_untrusted_context.py:70-90 | the block is its head, then for each item shown, in order, the heading, its label, the value line and as much of its value as there is room for, a blank line apart, then the truncation line if anything was cut, and its foot; the values read back from those places are the first `max_chars` characters of all values |
| `ContextSpelledOut.ValueSpelledOut` | django_ag_ui/agent/render_untrusted_context.py:74-74 | a value is the item's text without the whitespace at its ends, every marker in it rewritten and nothing else |
| `ContextSpelledOut.LabelSpelledOut` | django_ag_ui/agent/render_untrusted_context.py:98-100 | a label is its text with every run of whitespace one space, none at the ends, every marker rewritten and nothing else, cut to 120 characters |
| `ContextSpelledOut.MarkerByItsLetters` | django_ag_ui/agent/render_untrusted_context.py:11-12 | the marker stands where its letters do with casing ignored: capitals, a long s, and i with or without its dot |
| `ContextSpelledOut.DigitsReadAs` | django_ag_ui/agent/render_untrusted_context.py:89-89 | the number in the truncation line reads as the limit |
| `RenderUntrustedContext.NoneWhenNothingSurvives` | django_ag_ui/agent/render_untrusted_context.py:85-86 | there is no block if and only if the budget is not positive or every value is blank |
| `ContextFence.TheFenceHolds` | django_ag_ui/agent/render_untrusted_context.py:70-100 | whatever labels and values say, a block starts with the opener, ends with the closer and has the marker word, in any casing, there and nowhere else |
| `ContextFence.NothingSurvives` | django_ag_ui/agent/render_untrusted_context.py:93-95 | no occurrence of the marker survives neutralising, and none is made by it |
| `ContextFence.NeutraliseKeepsTheText` | django_ag_ui/agent/render_untrusted_context.py:13-15 | neutralising keeps length and characters, but for casing and hyphens that become spaces |
| `ContextFence.TheRestIsLeftAlone` | django_ag_ui/agent/render_untrusted_context.py:93-95 | a character outside every occurrence is not touched |
| `ContextFence.LabelIsOneShortLine` | django_ag_ui/agent/render_untrusted_context.py:98-100 | a label is one line of at most 120 characters, without the marker |
| `ContextFence.CollapseKeepsTheInk` | django_ag_ui/agent/render_untrusted_context.py:98-100 | collapsing whitespace keeps every other character, in order |
| `ContextFence.BlankIsAllWhitespace` | django_ag_ui/agent/render_untrusted_context.py:74-76 | a value is dropped if and only if it is all whitespace |
| `SubAgentObserver.EveryDelegationIsBracketed` | django_ag_ui/agent/subagent_observer.py:168-194 | for all interleavings of nested and parallel delegations, however each ends: under one call id there is nothing, or a start and its own steps, or that and one finish or failure; none is open once every task is over |
| `SubAgentObserver.StepsAreTheirOwners` | django_ag_ui/agent/subagent_observer.py:196-251 | a step is announced under the innermost delegation around the handler, across the tasks it was spawned through: a call as made, a result as returned unless it is a retry by its part or its mark, nothing else |
| `SubAgentObserver.EndsAreTheirOwners` | django_ag_ui/agent/subagent_observer.py:172-194 | a delegation is announced as started when called and as finished or failed, by how its call ends, when that call is the innermost around the task; other calls announce nothing |
| `SubAgentObserver.MoveKeepsPlaces` | django_ag_ui/agent/subagent_observer.py:176-194 | every step of every task keeps each context variable, saved value and captured value equal to the delegation it is inside of |
| `SubAgentCalls.TaskContext.Perform` | django_ag_ui/agent/subagent_observer.py:168-194 | a call run on one task announces what `Told` says, and gives the context variable back on every way out |
| `SubAgentCalls.TaskContext.ForwardChildEvents` | django_ag_ui/agent/subagent_observer.py:207-251 | a child's tool calls and results are reported, each retried one as failed, and nothing else is |
| `SubAgentCalls.TaskContext.Emit` | django_ag_ui/agent/subagent_observer.py:265-275 | one more event on the channel, and nothing where none is bound |
| `SubAgentCalls.WorkRuns` | django_ag_ui/agent/subagent_observer.py:168-251 | work done on one task is a run of the interleaving machine, and ends where it began |
| `SubAgentCalls.WorkIsBracketed` | django_ag_ui/agent/subagent_observer.py:168-251 | so every delegation in it is bracketed, and no other call id is spoken of |
| `ScopedStepStore.TwoViewsAreTwoStores` | django_ag_ui/persistence/scoped_step_store.py:83-173 | every script of writes and questions through two views of one ledger is answered as with a ledger each, if and only if neither prefix begins the other |
| `ScopedStepStore.NestedScopesLeak` | django_ag_ui/persistence/scoped_step_store.py:86-100 | when one prefix begins the other, a script on which one view finds the other's run under another id |
| `ScopedStepStore.SeparateNames` | django_ag_ui/persistence/scoped_step_store.py:83-86 | in terms of scope names: they differ and neither begins with the other and a colon |
| `ScopedStepStore.ViewAnswersForItself` | django_ag_ui/persistence/scoped_step_store.py:108-173 | a view of a shared ledger answers every question as a ledger of its own rows would, oldest first |
| `ScopedStepStore.AppendedIsItsOwn` | django_ag_ui/persistence/scoped_step_store.py:102-111 | a view has what it writes, under the id it was written by, and a separate view does not |
| `ScopedStepStore.KeysRoundTrip` | django_ag_ui/persistence/scoped_step_store.py:88-100 | a key is its id behind the scope and a colon; translation is undone by its inverse in both directions, and a key of no scope is handed back as it is |
| `ScopedStepStore.ScopedStore.Answer` | django_ag_ui/persistence/scoped_step_store.py:113-173 | the inner store's answer, filtered for a list of runs, with every key translated back |
| `ScopedStepStore.ScopedStore.Append` | django_ag_ui/persistence/scoped_step_store.py:102-112 | exactly one row more in the inner store, under the scoped key |
| `FixedWindowThrottle.Throttle.Consume` | django_ag_ui/agent/fixed_window_throttle.py:65-80 | undisturbed, a call counts itself and is refused if and only if its count is over the limit |
| `FixedWindowThrottle.Throttle.Increment` | django_ag_ui/agent/fixed_window_throttle.py:82-93 | the counter bumped, or seeded with one when it is gone |
| `FixedWindowThrottle.UndisturbedIsConsume` | django_ag_ui/agent/fixed_window_throttle.py:65-93 | the interleaving steps of one call that nothing comes between do what `Consume` does |
| `FixedWindowThrottle.AWindowAdmitsItsLimit` | django_ag_ui/agent/fixed_window_throttle.py:69-80 | under every interleaving, a counter whose entry is not lost lets in exactly the first `max_runs` calls decided on it |
| `FixedWindowThrottle.EachLifetimeAdmitsItsLimit` | django_ag_ui/agent/fixed_window_throttle.py:82-93 | with entries lost at any time, admissions are exactly, per lifetime of the entry, the calls it counted up to the limit, besides calls that found it gone between their two operations |
| `FixedWindowThrottle.AdmissionsAreBounded` | django_ag_ui/agent/fixed_window_throttle.py:82-93 | so at most the limit per lifetime, besides those |
| `FixedWindowThrottle.EveryLossLetsTheLimitInAgain` | django_ag_ui/agent/fixed_window_throttle.py:82-93 | that bound is attained: for every limit and any number of losses a run admits the limit once for each and once more |
| `FixedWindowThrottle.AnySpanAdmitsAtMostTwice` | django_ag_ui/agent/fixed_window_throttle.py:66-80 | any stretch of `per_seconds` seconds admits at most twice the limit |
| `FixedWindowThrottle.RefusalPointsAtTheNextWindow` | django_ag_ui/agent/fixed_window_throttle.py:78-80 | a refusal lies in 1 to `per_seconds`, names the first second of the next window, and no sooner second is in it |
| `FixedWindowThrottle.OneCounterPerClientAndWindow` | django_ag_ui/agent/fixed_window_throttle.py:66-68 | two calls count on one counter if and only if they are one client's, in one window |
| `FixedWindowThrottle.EveryRefusalPointsAhead` | django_ag_ui/agent/fixed_window_throttle.py:78-80 | so for every call refused in any run |
| `FixedWindowThrottle.ALostEntryBreaksTheLimit` | django_ag_ui/agent/fixed_window_throttle.py:82-93 | for every limit and client a run with one lost entry that admits one more than the limit |

## Left out

- HTTP views, authentication, settings, URL mounting, uploads, transcription: plumbing with no law to state.
- The framework's model dump and load, its private cut rule, and the provider's stream: not visible here.
- Whether a run is saved exactly once: a disconnect after completion or after an error event saves again.
- AgentSession.Session.Finalize: a framework call that raises while the prior conversation is dumped is not modelled; the store and the audit logger may raise.
- AgentSession.Session.OnComplete: the conversation record's thread id, owner and JSON encoding, and the outcome stamped on a tool result, are not modelled.
- GuardedTeardown.Guard.OnDisconnect: the five-second wait is one boolean, whether the write settled in time; the write goes on either way.
- RaceRefinesStage.RaceIsAStage: of the stack with this one stage; any other stack is in `NestedStages`, step by step.
- HeartbeatRace.HeartbeatIsAStage: likewise.
- NestedStages.RaceMovesInBoth: of one race and one heartbeat; the list sinks, the observers and the encoder between them are stages of `Lockstep` or pass everything on as it is.
- Lockstep.NothingRecordedIsLost: speaks of a normal end; before an error every item arrives (`AnErrorComesLast`), but what was recorded and not yet injected may not.
- NextRows.SessionsKeepIds: a session that resumes an older snapshot than the one its row's last save left is in `AStoredRowIsASoundSave`, with its row asked about.
- TranscriptWholeDump.SidesComeBack: a group whose count or contents differ from what was streamed keeps its dumped ids, which is in `NoMessageIsLentAnothersId` only.
- HeartbeatStream.HeartbeatsAreInvisible: decoding and a leading byte order mark are not modelled; the parser starts from characters, and the reconnection time is kept as its digits.
- HeartbeatStream.ForwardWithHeartbeats: each wait's outcome is given; `HeartbeatRace.TheLoopSendsWhatIsTold` ties it to the tasks that bring the outcomes about.
- SinkInjectors.InjectRecorded: what is recorded while the generator is suspended at a yield counts to the next turn; the fresh id of a compaction event is not modelled.
- SubagentRace.NeverStuck: says that some step is possible, not that a scheduler takes it.
- ContextFence.TheFenceHolds: casing is folded for the marker's own letters, as the regular expression engine folds them; of other letters only the capitals of ASCII.
- ContextFence.LabelIsOneShortLine: whitespace is Python's `str.isspace` on single characters, without normalisation.
- SubAgentObserver.EveryDelegationIsBracketed: a run whose channel is not bound announces nothing, and is in `SubAgentCalls` only.
- ScopedStepStore.TwoViewsAreTwoStores: the inner store is an append-only ledger that looks up by run id, first match for a run or a tool effect and last for a snapshot; a store that replaces rows is not modelled.
- FixedWindowThrottle.Throttle.Consume: a counter is a client and a bucket; the cache key's text, the namespace in it and the way a request names its client are not modelled.
- FixedWindowThrottle.AWindowAdmitsItsLimit: an entry that expires is one that is lost, so a call that stalls for a whole window is covered by `EachLifetimeAdmitsItsLimit` only.
- ThreadActivities.WithActivities: an activity's timestamp and anything else its event carries beside type and content are not modelled.
- RunTranscript: a missing list of tool calls and an empty one are one value, since every branch of the source treats them alike; so are events that carry no message content.
- LendStoredIds.GroupRows: the rows it builds hold activities too, which the source keeps in a dictionary of their own; nothing reads them by cursor.
- Numbers in JSON are reals and object equality is map equality: Python's `1 == True` is not modelled.
- Charts, suggestions, approval prompts, outcome stamping, catalogs, previews, tool-name precedence: single-function checks with no law across inputs.
- Timestamps, UUIDs, logging and JSON encoding.
