# Durable wallpaper runs and their surroundings

The server paints a large picture onto a TeamSpeak channel tree: it cuts the picture into banner
rows, creates one channel per row and stores one image per channel. This project models what
that needs to survive crashes and concurrency, and proves what it promises.

| file | what it models |
|---|---|
| `RunMachine.dfy` | a wallpaper run as a step machine over database, TeamSpeak server and workers |
| `RunInvariant.dfy`, `RunFrames.dfy`, `RunSteps.dfy`, `RunIdentify.dfy`, `RunCommands.dfy`, `RunFinishing.dfy`, `RunServer.dfy`, `RunReachable.dfy` | the invariant and its proof, step by step |
| `RunTheorems.dfy`, `RunInspect.dfy`, `RunClaims.dfy`, `RunRows.dfy` | what follows for every reachable state and every step: creations and deletions, which channel is taken for a row's, who may write and when, the order of the rows |
| `RunLeaves.dfy`, `RunLateChild.dfy` | when undo deletes leaves only, and a run in which it does not |
| `RunCalm.dfy`, `RunEnds.dfy`, `RunForward.dfy`, `RunErasing.dfy` | every worker's work ends; undisturbed work on one row, stage by stage |
| `RunRecovery.dfy`, `RunCompletion.dfy`, `RunBackward.dfy` | every undisturbed resume completes, every undisturbed undo takes back; both together are the identity |
| `RunParents.dfy`, `RunPlaces.dfy`, `RunLost.dfy`, `RunInterrupted.dfy` | what interruptions leave behind, and exactly when the next resume or undo succeeds |
| `ForestPlan.dfy`, `TreeBuilders.dfy`, `ChannelDepth.dfy` | the forest a row plan denotes, the two loops that build it, channel depths |
| `Naming.dfy`, `Generation.dfy` | markers, URLs and names; what the controller prepares |
| `ProcessingGate.dfy`, `ChannelCache.dfy`, `Transport.dfy`, `TransportSuccess.dfy` | the image gate, the channel cache, the bounded connection and when it succeeds |
| `Slicer.dfy` | cutting the picture |
| `ImageStore.dfy`, `ImageRules.dfy`, `ImageService.dfy` | the image tables, what reading, saving and deleting come down to, the service |
| `Backfill.dfy`, `BackfillPromises.dfy` | the channel-id backfill and the older matcher |

## How a run is modelled

`resume`, `undo` and `leased` run in several processes at once, so they are a state machine over
their awaits: a step of a worker is one awaited operation taking effect plus the code up to the
next await. `RunMachine.Pc` names the awaits of the row loop and `RunMachine.Outer` those around
it; `ActOnRow` says what each does, branch for branch. Any number of workers interleave with
each other, with the server and with outsiders. A crashed worker takes no more steps. Every
await may throw without effect (`Fail`); a command may be applied with its reply delivered,
applied with the reply lost, refused, or applied long after the worker gave up (`Deliver`,
`Refuse`, `Fail`). When the connection's deadline passes, the row loop is abandoned and goes on
beside the code that follows it (`Deadline`). Leases expire by a logical clock.

Undisturbed work of a worker (`RunCalm.Calm`) is any sequence of its own steps that do not fail,
its commands taking effect, its heartbeats and time passing, in any order, with any channel ids
and any order of inspection. `ResumeCompletes` and `UndoCompletes` speak of all such sequences;
`WorkEnds`, `GoesOn`, `UndisturbedEnds` and `BothEnd` say that they get to their end.

The other objects with state are classes whose methods are proved against functions on values:
the gate, the cache, the connection and the image service. The tree builders, the slicer, the
backfill planner, the matcher and the name generator are methods with the source's loops.

Assumptions, all of them conditions of the model and none of them axioms:

- lease tokens are fresh, channel ids are not reused, and a channel listing shows every channel;
- outsiders, which include other runs, may add, edit and delete channels and images at any time,
  and may give a channel its own marker back, but never write another marker of this run;
- a run starts as "pending" with every row waiting and its image stored; a run update that names
  a lease token is one atomic conditional write, a transaction is one step, reads see the last
  write;
- a command whose reply is lost stops the connection, as a timeout does; an error reply means that
  the command had no effect. A library error that rejects one command although it was applied, and
  leaves the connection open, is not among the steps;
- image rows have unique ids, and aliases go with their image;
- sizes of scaled pictures are the proportional ones, rounded half up, and laying a pixel over a
  background is a given function;
- the client library, the database library, the image library, Unicode tables, percent encoding
  and hashing are given functions or steps.

## Where code and documentation differ

- `ProcessingGate.StartsOutOfOrder`: a slot is always granted in arrival order, but the granted
  job wakes later, so with two slots a newcomer can start before it. `StartsInOrderIff` says
  exactly when jobs start in order.
- `RunLeaves.UndoDeletesLeaves`: the code relies on undo finding a row's channel childless in its
  listing (src/images/channel-wallpaper.service.ts:452-458). `RunLateChild.LateChild` is a run in
  which the channel has a child when the delete is applied; `ChildAppearsIff` says exactly how it
  gets one. The server's own refusal of occupied channels is one of the outcomes of a command.
- `ImageStore.SpacerAdoptedIff`: the comment on the reserved name (src/util/util.ts:24-33) says
  that no check for it is needed. A channel literally called like it is saved under that raw name
  (src/images/image-import.service.ts:77-118), and then it may take the shared row over; the
  lemma says exactly when. The theorems about saves ask that nobody saves a channel's image so.
- `saveImage` says its transaction checks the same identity again (src/images/images.service.ts:155-156).
  For a save without channel id it uses the ids read before; the model does so too.

## Model

| member | source | states |
|---|---|---|
| RunReachable.NextInv | src/images/channel-wallpaper.service.ts:198-517 | every step of any worker, the server or an outsider keeps the whole invariant: one creation per row, every live channel accounted for, delete intent before delete, image kept until stored, tree maps in step with the plan |
| RunReachable.RunInv | src/images/channel-wallpaper.service.ts:198-517 | so the invariant holds after every sequence of steps, in any order, with any failures |
| RunReachable.ClaimInv | src/images/channel-wallpaper.service.ts:203-218 | a claim that starts a worker keeps the invariant, although the worker before may still be acting |
| RunClaims.ClaimIff | src/images/channel-wallpaper.service.ts:204-218 | a claim starts a worker if and only if no lease runs and the status is pending, running or partial-failure for a resume, anything but undone for an undo; else nothing changes |
| RunClaims.ClaimStarts | src/images/channel-wallpaper.service.ts:203-218 | the new worker alone holds the lease, for 60 seconds, and begins at the first row or, undoing, at the last |
| RunClaims.ClaimComes | src/images/channel-wallpaper.service.ts:207-213 | from every state not completed and not on the undo side some waiting lets a resume start, and from every state not undone an undo |
| RunClaims.LeaseLasts | src/images/channel-wallpaper.service.ts:204-248 | until a lease expires only its holder can end it, whatever anybody else does |
| RunClaims.LeaseChecked | src/images/channel-wallpaper.service.ts:219-237 | a lease check lets a worker on exactly if the lease is its own, and renews it for a minute |
| RunClaims.RowsChangeSo | src/images/channel-wallpaper.service.ts:318-495 | whatever happens, a row changes only by the lease holder working on it, in one of seven ways |
| RunClaims.EndIs | src/images/channel-wallpaper.service.ts:416-428 | success is stored exactly if the loop ended without a failure on a connection never stopped, and status and release are written only under the lease |
| RunClaims.WorkLeaves | src/images/channel-wallpaper.service.ts:416-428 | undisturbed work always ends with the lease given up and a final status written |
| RunReachable.FinishInv | src/images/channel-wallpaper.service.ts:238-247 | the final status, written only under the own token, is true of the rows; the release clears only the own lease |
| RunCommands.SaveImageInv | src/images/channel-wallpaper.service.ts:372-385 | storing a prepared image, which is not fenced, harms no other row even when the worker's lease is long lost |
| RunFinishing.WriteSavedInv | src/images/channel-wallpaper.service.ts:390-401 | the prepared image is cleared only after its bytes are stored, and the maps take the row in as the plan says |
| RunFinishing.MarkDeletedInv | src/images/channel-wallpaper.service.ts:479-492 | a row is marked deleted only when its channel is gone and no creation is pending |
| RunFinishing.RowCatchInv | src/images/channel-wallpaper.service.ts:402-414 | the failure path keeps the invariant: an announced creation stays announced |
| RunTheorems.RunIsReachable | src/images/channel-wallpaper.service.ts:198-517 | whatever a sequence of events leads to is a reachable state |
| RunTheorems.AnnouncedOnFreePlace | src/images/channel-wallpaper.service.ts:309-346 | a worker about to announce a creation has loaded its row without an id and without an unknown outcome, its parent, if any, is listed, and no listed channel has the row's name under that parent |
| RunServer.DeliverInv | src/images/channel-wallpaper.service.ts:349-355 | a command may take effect long after its worker gave up on it, without breaking the invariant |
| RunServer.OutsiderInv | src/images/channel-wallpaper.service.ts:259-293 | people may add, edit and delete channels and images at any moment without breaking it |
| RunTheorems.CreatedAtMostOnce | src/images/channel-wallpaper.service.ts:326-362 | the server applies at most one channelCreate per row, however often workers crash, stall, lose leases or replies |
| RunTheorems.LiveChannelsAccounted | src/images/channel-wallpaper.service.ts:326-371 | a live channel with the run's marker is its row's channel, and the row holds its id or is creating/uncertain without one |
| RunTheorems.CreationsAccounted | src/images/channel-wallpaper.service.ts:326-371 | the same for every creation ever applied, marker or not |
| RunTheorems.DeletedRowIsGone | src/images/channel-wallpaper.service.ts:442-492 | a deleted row has no live channel and no create on its way |
| RunTheorems.DeletedForever | src/images/channel-wallpaper.service.ts:431-517 | no continuation, with any stalled worker, revives a deleted row or creates its channel again |
| RunTheorems.UndoneLeavesNothing | src/images/channel-wallpaper.service.ts:508-514 | undone means every row is deleted and no channel of the run is left |
| RunTheorems.StatusMoves | src/images/channel-wallpaper.service.ts:198-218 | the run status only moves along the allowed edges |
| RunTheorems.OneWay | src/images/channel-wallpaper.service.ts:295-300 | undoing never turns into running or completed again, and undone is final, over any continuation |
| RunTheorems.Fencing | src/images/channel-wallpaper.service.ts:198-248 | rows change only by the lease holder; a lease changes hands only when free or expired and is cleared only by its holder |
| RunTheorems.ActKeepsRun | src/images/channel-wallpaper.service.ts:304-416 | the row loop touches the run row only to extend its own lease, rows only under it, and the server only through commands |
| RunTheorems.CompletedIsTrue | src/images/channel-wallpaper.service.ts:416-420 | completed means every row is saved, under pairwise distinct channels this run created |
| RunTheorems.DeletesOnlyItsOwn | src/images/channel-wallpaper.service.ts:277-293 | a delete on its way names a channel this run created for that row, with id and intent stored, that the worker's listing shows with the row's name, the row's parent and the row's provisional or the channel's final banner, and without subchannels |
| RunInspect.InspectIff | src/images/channel-wallpaper.service.ts:270-288 | one inspected channel: with the row's marker it is taken in exactly if the listing shows it with the row's name, the row's parent and one of its two banners; without the marker it is passed over exactly if the row has no id; else the row fails |
| RunInspect.IdentifyOutcome | src/images/channel-wallpaper.service.ts:259-293 | the inspection as a whole, in whatever order the replies come: the worker accepts the one marked channel, finds none, or fails its row, each exactly when server and listing say so |
| RunInspect.ResumesItsOwn | src/images/channel-wallpaper.service.ts:363-395 | in every run, the channel a resume stores an id, an image or a banner for was created by the run for that row and was listed with the row's name, the row's parent and one of its two banners |
| RunLeaves.UndoDeletesLeaves | src/images/channel-wallpaper.service.ts:441-478 | if no row's creation is in doubt when undo lists the channels and nobody else adds or moves channels, then over every continuation, with any workers and failures, it and every later undo delete leaves only |
| RunLeaves.ChildAppearsIff | src/images/channel-wallpaper.service.ts:452-472 | as long as outsiders do nothing, a childless channel gets a child exactly when a creation on its way is applied under it, and that creation's row is still in doubt |
| RunLateChild.LateChild | src/images/channel-wallpaper.service.ts:326-478 | with a row in doubt it can happen: a concrete run, without any outsider, in which undo deletes a channel under which a stalled creation was applied meanwhile |
| RunLeaves.UndoKeepsParents | src/images/channel-wallpaper.service.ts:441-478 | if moreover no delete intent is pending at that moment and nobody else removes a channel with subchannels, every remaining channel's parent is present at every moment, after any partial undo |
| RunTheorems.ImageNeverLost | src/images/images.service.ts:238-250 | until its row is deleted a prepared image is served unchanged, unless somebody else changed that channel's image |
| RunTheorems.CompletedForest | src/images/channel-wallpaper.service.ts:304-401 | a completed run, however interrupted, has created every row at its planned parent and behind its planned sibling, and its channels show that and the final banner |
| RunTheorems.PlaceInForest | src/images/channel-wallpaper.service.ts:306-315 | a completed run's row hangs under the nearest earlier row one level up, behind the nearest earlier row of its own level there, under the root at level 0, and first where there is none |
| RunTheorems.SameForestUpToIds | src/images/channel-wallpaper.service.ts:304-416 | two completed runs of one plan built the same forest up to channel ids |
| RunCalm.WorkEnds | src/images/channel-wallpaper.service.ts:198-517 | every step of every worker, whether it succeeds or fails, changes nothing at all or brings the worker nearer to its end: none goes on for ever |
| RunCalm.GoesOn | src/images/channel-wallpaper.service.ts:198-517 | and none gets stuck: until it is gone, some undisturbed step brings it nearer to its end |
| RunForward.SeekActs | src/images/channel-wallpaper.service.ts:309-346 | an undisturbed worker at a row stores its parent, inspects the candidates in whatever order, and ends with the row's own channel or the announcement of a new one |
| RunForward.MakeActs | src/images/channel-wallpaper.service.ts:340-363 | then sends one creation, and goes on only with the id the server gave it |
| RunForward.KeepActs | src/images/channel-wallpaper.service.ts:363-401 | then records the id, stores the image, sets the banner and saves the row, in that order and with exactly these effects |
| RunErasing.EraseActs | src/images/channel-wallpaper.service.ts:441-492 | an undisturbed undo of a row finds its channel, stores the intent, deletes, and marks the row, in that order and with exactly these effects |
| RunRecovery.FoundAgain | src/images/channel-wallpaper.service.ts:266-292 | a channel an earlier worker left behind is recognised by the next one, and no other channel is |
| RunRecovery.PlaceFree | src/images/channel-wallpaper.service.ts:335-339 | a row never begun finds its place free |
| RunRecovery.NextBetween | src/images/channel-wallpaper.service.ts:396-401 | working off one row leaves the next ones workable |
| RunCompletion.ResumeCompletes | src/images/channel-wallpaper.service.ts:295-429 | from any reachable state whose traces are intact, whatever ids the server gives and in whatever order channels are inspected, every undisturbed resume goes through without a failure, and when it is over the run is completed, every row has its channel with the final banner and its image, and channels and images of others are as they were |
| RunEnds.UndisturbedEnds | src/images/channel-wallpaper.service.ts:295-517 | from any reachable state, undisturbed work of either kind, however far it got, can be continued to its end |
| RunRows.ResumeInOrder | src/images/channel-wallpaper.service.ts:304-401 | an undisturbed resume takes the rows in order, each after the one before is saved, and touches none after the one it is at |
| RunRows.ResumeStops | src/images/channel-wallpaper.service.ts:402-415 | a resume stops at the first row that fails: whatever happens, it works on no other row |
| RunRows.UndoPasses | src/images/channel-wallpaper.service.ts:440-506 | an undo passes no row by: whatever happens meanwhile, every row after the worker's is deleted or the worker failed at it |
| RunRows.UndoTriesAll | src/images/channel-wallpaper.service.ts:440-506 | when an undisturbed undo is over, every row is deleted or was tried and failed: one failure does not keep it from the others |
| RunRows.StoppedSendsNothing | src/teamspeak/teamspeak-transport.ts:35-50 | once a lost reply or the deadline stopped the connection, the worker sends nothing more; only the command already on its way may still take effect |
| RunRows.ImageIff | src/images/channel-wallpaper.service.ts:372-386 | a row gets on to its final banner exactly if its prepared image is still there, which is then stored for its channel, or one is stored already; else it fails |
| RunInterrupted.AloneRun | src/images/channel-wallpaper.service.ts:198-517 | as long as outsiders stay away, only the run's own commands change the server |
| RunLost.LostNeverEnds | src/images/channel-wallpaper.service.ts:272-336 | from any reachable state, no undisturbed resume completes a run, and no undisturbed undo ends it as undone, while an announced creation cannot be found |
| RunInterrupted.InterruptedRunCompletes | src/images/channel-wallpaper.service.ts:295-429 | a run interrupted any number of times by anything but outsiders: when the next undisturbed resume is over, it is completed if and only if no announced creation was lost, and failed else, with the lease given up |
| RunInterrupted.InterruptedRunEnds | src/images/channel-wallpaper.service.ts:198-429 | and for every such run that is neither completed nor on the undo side there is such a resume, after some waiting |
| RunInterrupted.InterruptedRunUndone | src/images/channel-wallpaper.service.ts:431-517 | the same for undo, after interrupted resumes and undos: undone if and only if no creation was lost, partly undone else, and once undone the server is as it was before the run |
| RunInterrupted.InterruptedUndoEnds | src/images/channel-wallpaper.service.ts:198-517 | and for every such run not undone yet there is such an undo |
| RunParents.ParentsRun | src/images/channel-wallpaper.service.ts:309-346 | in every run, from its announcement on a row holds the parent the plan gives it |
| RunParents.BornUnderParent | src/images/channel-wallpaper.service.ts:317-362 | so the stored parent is the one its channel was created under, which identification relies on |
| RunPlaces.ConflictIsForeign | src/images/channel-wallpaper.service.ts:335-339 | in every run with distinct names, a channel that occupies the place of a row not yet begun is somebody else's or was edited by somebody: a run never conflicts with its own rows |
| RunBackward.NoChildLeft | src/images/channel-wallpaper.service.ts:441-458 | going backwards, every row's channel is a leaf when its turn comes |
| RunBackward.UndoCompletes | src/images/channel-wallpaper.service.ts:431-517 | from any reachable state whose channels are gone or recognisable, every undisturbed undo goes through without a failure and so never refuses a channel for its subchannels, deletes leaves only and from the last row to the first, and when it is over every channel of the run is gone, so are the images of the rows it took back, and no other channel or image was touched |
| RunBackward.GenerateThenUndo | src/images/channel-wallpaper.service.ts:295-517 | whenever an undisturbed resume of a fresh run and then an undisturbed undo are over, the run was completed in between, and server and stored images are as they were before; neither can be repeated |
| RunBackward.BothEnd | src/images/channel-wallpaper.service.ts:295-517 | and there are such schedules for every fresh run on a server that welcomes it |
| Generation.GeneratedIsWelcome | src/images/channel-wallpaper.controller.ts:199-211 | what the controller prepares, an alternating plan with generated names, always meets the conditions of a run that completes |
| Generation.GeneratedThenUndone | src/images/channel-wallpaper.controller.ts:189-216 | so every undisturbed generation of a wallpaper completes, and its undisturbed undo restores the server |
| ForestPlan.StepwiseIffRooted | src/teamspeak/teamspeak-channel-admin.ts:108-114 | every row of a plan has a parent level exactly when the plan starts at 0 and never steps down by more than 1 |
| ForestPlan.PlaceIff | src/images/channel-wallpaper.service.ts:306-315 | parent and predecessor of a row can be read off the depths: the nearest earlier row less deep, if it is one level up, and the nearest earlier row no deeper, if it is as deep |
| ForestPlan.SiblingByDepth | src/teamspeak/teamspeak-channel-admin.ts:106-128 | looking the previous sibling up by depth with pruning agrees with looking it up by parent |
| TreeBuilders.ResumeLinks | src/images/channel-wallpaper.service.ts:306-315 | the parent-keyed loop gives each row its planned parent and predecessor, and stops exactly where a level is skipped |
| TreeBuilders.CreateChannelWallpaper | src/teamspeak/teamspeak-channel-admin.ts:90-147 | the depth-keyed loop with pruning does the same on planned rows, falls back to the root on others, and stops at the first failed creation |
| TreeBuilders.SameForest | src/teamspeak/teamspeak-channel-admin.ts:99-131 | the two algorithms agree on every row if and only if the plan is stepwise |
| ChannelDepth.ComputeChannelDepth | src/teamspeak/teamspeak-channels.ts:159-177 | terminates on every list, returns the number of parent hops, and throws exactly on a cyclic chain |
| ChannelDepth.DepthUnique | src/teamspeak/teamspeak-channels.ts:164-176 | that number is unique |
| ChannelDepth.RowDepth | src/images/channel-wallpaper.controller.ts:145-153 | a created row's live depth is the parent's depth + 1 + its depth in the plan, the depth its slice was cut for |
| Naming.MarkerInjective | src/images/channel-wallpaper.service.ts:47-49 | a marker determines run and position |
| Naming.RowUrlInjective | src/images/channel-wallpaper.service.ts:51-53 | a provisional banner URL determines run and position |
| Naming.FinalUrls | src/teamspeak/teamspeak-channels.ts:183-185 | a provisional URL is never a final one, and final ones differ when encoded ids do |
| Naming.NamesForRows | src/images/channel-wallpaper.controller.ts:59-65 | names are numbered per kind and pairwise distinct |
| Naming.NameInjective | src/images/channel-wallpaper.controller.ts:63-64 | a generated name determines kind and number |
| Naming.SentinelIsReserved | src/util/util.ts:20-34 | no channel name normalises to the reserved spacer name |
| Naming.NormalizeIsIdempotent | src/util/util.ts:1-9 | a normalised name is its own normal form |
| ProcessingGate.Bounded | src/images/image-processing-gate.ts:18-32 | never more active jobs than slots or waiters than the limit, waiters only while all slots are taken, no job or slot lost, slots granted in arrival order |
| ProcessingGate.ArrivesIff | src/images/image-processing-gate.ts:18-24 | in every run a newcomer starts at once exactly if a slot is free, waits last exactly if none is but the queue has room, and is refused exactly if both are full |
| ProcessingGate.BackToZero | src/images/image-processing-gate.ts:25-31 | all slots are free and nobody waits when every job is done |
| ProcessingGate.StartsInOrderIff | src/images/image-processing-gate.ts:18-32 | jobs start in arrival order if and only if none entered directly while a granted job still slept |
| ProcessingGate.OneSlotInOrder | src/images/image-processing-gate.ts:13-16 | with one slot they always do |
| ProcessingGate.StartsOutOfOrder | src/images/image-processing-gate.ts:13-31 | with the default limits they do not: a concrete run where job 3 starts before job 2 |
| ProcessingGate.ImageProcessingGate.Enter | src/images/image-processing-gate.ts:18-24 | refused, queued or entered, with the whole new state |
| ProcessingGate.ImageProcessingGate.Leave | src/images/image-processing-gate.ts:27-31 | a freed slot goes to the first waiter or back, whether the job failed or not |
| ChannelCache.NeverStale | src/teamspeak/teamspeak-channels.ts:87-113 | a call never returns channels read before the last invalidation that preceded it, in whatever order reads end |
| ChannelCache.OwnEditsVisible | src/teamspeak/teamspeak-channels.ts:115-123 | an edit is visible to every call after the invalidation that follows it |
| ChannelCache.OneRead | src/teamspeak/teamspeak-channels.ts:91-105 | at most one read of the current generation is under way |
| ChannelCache.OnlySuccessIsServed | src/teamspeak/teamspeak-channels.ts:88-97 | what is served from the cache is what a read saw that succeeded |
| ChannelCache.ServedFor30s | src/teamspeak/teamspeak-channels.ts:86-99 | a call is served from the cache exactly while some reply of the current generation is less than 30 seconds old, and gets the list of such a reply |
| ChannelCache.TeamSpeakChannelsService.FetchLiveChannels | src/teamspeak/teamspeak-channels.ts:87-106 | serves, joins or starts a read, with the whole new state |
| ChannelCache.TeamSpeakChannelsService.OnReply | src/teamspeak/teamspeak-channels.ts:94-99 | a reply fills the cache only in its own generation |
| ChannelCache.TeamSpeakChannelsService.OnSettled | src/teamspeak/teamspeak-channels.ts:100-102 | a settled read clears the shared promise only if it is its own |
| ChannelCache.TeamSpeakChannelsService.InvalidateCache | src/teamspeak/teamspeak-channels.ts:109-113 | advances the generation and forgets cache and shared read |
| Transport.SettlesOnce | src/teamspeak/teamspeak-transport.ts:52-84 | every call is settled at most once and keeps its outcome, over every order of replies, errors and timers |
| Transport.SilentAfterStop | src/teamspeak/teamspeak-transport.ts:35-50 | after stop nothing is sent, the reason stays, and nothing is left waiting |
| Transport.CleanAtReturn | src/teamspeak/teamspeak-transport.ts:93-107 | on return the client was force-quit exactly once and every call has been settled |
| Transport.SuccessMeans | src/teamspeak/teamspeak-transport.ts:69-73 | success means the operation resolved before its deadline on a connection no timeout had stopped |
| Transport.ValueIs | src/teamspeak/teamspeak-transport.ts:69-73 | a value before its call's limit settles that call as resolved, stops nothing and leaves the other calls alone; a late one stops the connection and settles every open call as timed out |
| Transport.ErrorIs | src/teamspeak/teamspeak-transport.ts:74-78 | an error settles its call with that error, stops nothing and leaves the other calls alone |
| TransportSuccess.CallsAre | src/teamspeak/teamspeak-transport.ts:48-99 | exactly these events make a call, with 20 seconds for a command, 2 for the disconnect and none of its own for the operation, and it is sent exactly on a running connection before the deadline |
| TransportSuccess.StopsIff | src/teamspeak/teamspeak-transport.ts:35-107 | a running connection is stopped exactly by an overdue timer, deadline or value, by a call made after the deadline, or by the end |
| TransportSuccess.SuccessIff | src/teamspeak/teamspeak-transport.ts:93-107 | a value is returned if and only if the connect answered with a value within 20 seconds and then the operation within 180 of the beginning, each for the first time and with the connection not stopped till then |
| TransportSuccess.CanSucceed | src/teamspeak/teamspeak-transport.ts:93-107 | and with answers in time, whatever the times, it is |
| Transport.DisconnectNeverReplaces | src/teamspeak/teamspeak-transport.ts:96-106 | once the operation has settled, its outcome is what is returned, whatever the disconnect does |
| Transport.AlwaysReturns | src/teamspeak/teamspeak-transport.ts:64-66 | it returns without any help from the client once its timers are due |
| Transport.TeamSpeakOperation.StopAll | src/teamspeak/teamspeak-transport.ts:35-46 | rejects every pending call, then force-quits, only the first time |
| Transport.TeamSpeakOperation.BoundedCall | src/teamspeak/teamspeak-transport.ts:48-85 | starts a call only on a running connection before the deadline |
| Transport.TeamSpeakOperation.OnReply | src/teamspeak/teamspeak-transport.ts:69-78 | a value in time resolves its call, an error rejects it, either changing nothing else; a late value stops the connection |
| Transport.TeamSpeakOperation.ContinueMain | src/teamspeak/teamspeak-transport.ts:93-107 | connect, operation, disconnect, stop |
| Slicer.BuildAlternatingRowPlan | src/images/wallpaper-slicer.ts:60-71 | art and spacer alternate, nested spacers at depth 1 |
| Slicer.PlanIsForest | src/images/wallpaper-slicer.ts:52-58 | every start of such a plan is a forest, each nested spacer under the art row before it |
| Slicer.RenderWallpaper | src/images/wallpaper-slicer.ts:122-295 | renders exactly the acceptable pictures, else gives the first error; as many rows as whole 44-pixel strips fit, each 500 by 44, showing the uncropped picture moved by its indent and the offsets, background elsewhere; every extract and composite is in bounds |
| Slicer.CheckIff | src/images/wallpaper-slicer.ts:131-194 | a picture is accepted if and only if it is one, at most 20,000 pixels each way and 25 million in all, scales to at least one line and at most 8 million pixels, with at most 300 rows and offsets of 20,000; the rest is refused as invalid or too large |
| Slicer.CropChangesNothing | src/images/wallpaper-slicer.ts:195-211 | cropping early changes no pixel, for any height, row count and offset |
| Slicer.CropKeepsRows | src/images/wallpaper-slicer.ts:216-224 | nor the number of rows |
| Slicer.CountRows | src/images/wallpaper-slicer.ts:218-224 | the loop that stops at the first row that no longer fits counts the whole rows |
| Slicer.RenderRow | src/images/wallpaper-slicer.ts:228-289 | each pixel is the picture's at the shifted position, over the background, or background where the picture ends |
| Slicer.SlicesTile | src/images/wallpaper-slicer.ts:103-112 | with cover fit and no offsets the indented, stacked slices are the picture, without background |
| Slicer.HeightIsProportional | src/images/wallpaper-slicer.ts:173-176 | the scaled height is the proportional one rounded to the nearest whole number |
| Slicer.LinesCovered | src/images/wallpaper-slicer.ts:109-112 | a line is shown exactly if its whole row fits and is planned |
| ImageStore.AliasMatchesIsEquivalence | src/images/images.service.ts:33-39 | matching is an equivalence and the reserved name matches only itself |
| ImageStore.LegacyIdsIff | src/images/images.service.ts:45-59 | an image is found exactly by the names it has or had |
| ImageStore.RunInv | src/images/images.service.ts:139-223 | every interleaving of two-phase saves, deletions and syncs keeps the tables sound |
| ImageStore.OneImagePerChannel | src/images/images.service.ts:160-191 | at most one image per channel without help from a unique index |
| ImageStore.SaveReadsBack | src/images/images.service.ts:160-202 | a save for a channel reads back, changes no other image, and writes only the channel's own, an unowned or a new row |
| ImageStore.AdoptionIsUnambiguous | src/images/images.service.ts:166-175 | an unowned image is adopted only if it alone matched and the channel alone has that name |
| ImageStore.OwnerIsForever | src/images/images.service.ts:166-175 | and by at most one channel: an owned image keeps its owner |
| ImageStore.HistoryOfNames | src/images/images.service.ts:45-75 | for every image and every name, after every interleaving: the image is among those found exactly if it was ever saved under a matching name, the empty one counting only while it is current, and then the name yields its current content or is reported ambiguous |
| ImageRules.GetImageIff | src/images/images.service.ts:61-75 | reading by name: ambiguous if and only if two images answer, the one that alone answers, nothing if none does |
| ImageRules.PublicIff | src/images/images.service.ts:81-106 | a channel's public URL serves the image it owns; if it owns none, exactly the unowned image that alone answers to its name, provided it is listed under a name that is not reserved and no other listed channel's name normalises to the same; else the fallback for a listed spacer only; else nothing |
| ImageRules.DeleteIff | src/images/images.service.ts:212-223 | delete by channel id removes exactly the owned or standing-in image with its aliases and answers true, or changes nothing and answers false |
| ImageRules.SaveIs | src/images/images.service.ts:139-202 | every save that commits, whatever happened since it read its ids, updates a row it may take or, only when there is none, adds one; it sets name, content, owner, aliases and reference and nothing else |
| ImageRules.RefusedIff | src/images/images.service.ts:155-159 | a save is turned away exactly if it names no channel and two images answer to its name |
| ImageRules.AdoptedIff | src/images/images.service.ts:155-176 | an unowned image becomes a channel's by a save if and only if the channel owns none and alone is listed under a name like the save's, and the image alone answers to that name |
| ImageStore.DeletesWhatIsShown | src/images/images.service.ts:212-223 | delete succeeds exactly if the public URL shows an image of the channel's, removes that row only, never the spacer's or another channel's |
| ImageStore.DeleteThenGone | src/images/images.service.ts:212-214 | after deleting its own image a channel owns none |
| ImageStore.SpacerFoundIff | src/images/images.service.ts:33-59 | a save finds the spacer's row exactly if it is made under the reserved name itself |
| ImageStore.SpacerAdoptedIff | src/images/images.service.ts:155-176 | a channel's save takes the shared spacer row over if and only if it is made under the reserved name, by the only channel of a name like it, which owns no image yet |
| ImageStore.SpacerCanBeAdopted | src/images/images.service.ts:155-176 | and it can happen: the spacer's image is stored, a channel literally called like it is listed, that channel's image is uploaded |
| ImageService.ImagesService.ReadLegacyIds | src/images/images.service.ts:45-59 | filters both tables |
| ImageService.ImagesService.CommitSave | src/images/images.service.ts:160-201 | updates a row the save may take or, only when there is none, adds one, and sets name, content, owner, aliases and reference, nothing else |
| ImageService.ImagesService.Delete | src/images/images.service.ts:212-223 | removes the image the channel owns, else the unowned one that stands in for it, else nothing, and answers accordingly |
| ImageService.ImagesService.FindLegacy | src/images/images.service.ts:81-96 | exactly the unowned image that alone answers to a name no two listed channels share |
| ImageService.ImagesService.GetPublicImage | src/images/images.service.ts:98-106 | the owned image, the one that stands in for it, the spacer's fallback or nothing |
| Backfill.PlanBackfill | scripts/lib/backfill-plan.ts:13-58 | an update is planned if and only if the row has no channel, one listed channel alone is called like it, no other image is or was called so, and no row owns the channel; unmatched if and only if no channel is called like it; else in conflict, with the first reason that applies and all candidates |
| Backfill.PlanIff | scripts/lib/backfill-plan.ts:30-56 | the same of the specified plan, without reference to how it is computed |
| Backfill.PlanIs | scripts/lib/backfill-plan.ts:30-56 | entry by entry and in table order |
| Backfill.GroupOwners | scripts/lib/backfill-plan.ts:21-29 | the alias map holds exactly the images answering to each normalised name |
| Backfill.MatchChannelIdsToRows | src/teamspeak/channel-id-matching.ts:35-61 | a row is matched to the channel that alone is called like it, unmatched if none is, in conflict with all of them if several are; each row once |
| BackfillPromises.EachRowOnce | scripts/lib/backfill-plan.ts:30-56 | each unowned row is in exactly one of the three lists, once |
| BackfillPromises.UpdatesAreDistinct | scripts/lib/backfill-plan.ts:38-55 | updates name pairwise distinct channels that own no image |
| BackfillPromises.ApplyKeepsOwnersUnique | scripts/lib/backfill-plan.ts:53-55 | applying any of them in any order gives no channel two images |
| BackfillPromises.UpdatesAreMatches | src/teamspeak/channel-id-matching.ts:49-57 | every update is a pair the matcher finds too |

## Left out

- ImageNeverLost: says nothing about images after an outsider changed the channel's image, nor about stored images of rows already undone, because `saveImage` and `channelEdit` follow a lease check without being fenced by it.
- CompletedForest: speaks of what a live channel shows only while no outsider edited it.
- UndoDeletesLeaves: asks that no row's creation is in doubt at the listing; without that it is false (`LateChild`). Deletes that an older worker sent before are covered by `UndoKeepsParents` only, which asks that no intent is pending.
- ResumeCompletes: undisturbed means that nothing fails and nobody else acts; what a resume reaches next to outsiders is covered by the safety theorems only.
- UndoCompletes: the lists of deleted and failed channels in the reply are not modelled, only that nothing failed.
- SlicesTile: compositing is an abstract pixel function, so nothing is said about colour arithmetic.
- NormalizeIsIdempotent: lower-casing and white space are given functions that leave plain text alone.
- The prechecks in `resume` and `undo` that read the status before claiming: the conditional claim repeats them.
- `prepare` and `existing` beyond the initial state: idempotency by request id, the 20 MiB budget and the limit of 20 unfinished runs, which is not an invariant because undoing a completed run reopens it.
- `result`, error texts, timestamps and the order in which `list` returns runs.
- Two runs in one state: another run is an outsider here.
- `Date.now()` going backwards, and the event loop between two microtasks except in the gate.
- `applyBannerUrlsForAllChannels`, `deleteManagedChannels`, `syncChannels` as a loop, `deleteImage` by name: each is a straight loop or one conditional; their effects on the tables are steps of the image model.
- Content hashes, editor subjects and MIME handling of stored images.
- Controllers, guards, DTOs, metrics, logging, the web front end, import of images from URLs, authentication, configuration, bootstrap and release scripts.
- Decoding, resizing and encoding of pictures, sockets and the query protocol, SQL.
