# A verified model of the assistant's net engine and its stores

The assistant runs conversations as coloured Petri nets: places hold typed tokens in
first-in-first-out queues, transitions fire language models, tools and human gates, and a
loop fires everything that is enabled until the net is complete. Around the engine stand a
ledger of files the assistant wrote, a store of authored nets addressed by their content,
and the code that reads JSON out of model output. This project models those parts in Dafny
and proves what they keep.

- `Net` gives the step semantics as values: enabling, consumption, firing, error routing,
  the mode, and one round as a relation. `FiringLaws`, `NetLaws` and `NetInvariants` prove
  its laws. `Cpn` holds the mutable objects (places, transitions, the net) and proves each
  method of the executor against the relation, up to the outcome of a whole run.
- `Validation` and `Mutation` are the structural validator and hot mutation.
- `Retry` is the circuit breaker, as a function of its history, and the retry loop.
- `Unified` is the assistant's own net with its clarification loop, for arbitrary model and
  human answers and arbitrary JSON decoders; `Reassess` are the decoders of its counter, of
  its reassessments and of its classifier.
- `FileTree`, `Returns`, `Ledger`, `Rollback`, `RoundTrip` and `Purge` are the artefact
  ledger over a file system whose operations may fail.
- `Json`, `Canonical` and `Flows` are the canonical form of nets, its reader, and the
  content-addressed store; `Scanners` are the four scanners for JSON in prose.
- `ToolLoop` is the agentic tool-call loop with its transcript.
- `Persist` saves and loads nets through a registry of named functions; `Topologies` is the
  serialisable form it shares with `Flows`.
- `Versions` are qualified tool names, version order and the tool registry.
- `Order`, `Strings`, `Decimals`, `Machine` and `Wrappers` are what the others share.

`dafny verify dfyconfig.toml` checks the whole project.

## Where the code keeps less than it promises

Each of these is a lemma with a concrete input or an exact condition.

- An input place listed twice can hand a firing fewer tokens than it has arcs
  (`NetLaws.ConsumeServesEveryArc`, `NetLaws.TwiceEnteredShort`).
- A rejected deprecation of a net that was already invalid is not undone
  (`Mutation.RejectionUndone`, `Mutation.RejectedDeprecationSticks`).
- A classifier threshold of NaN leaves a clear task without an enabled transition
  (`Unified.NeverStuck`, `Unified.NaNThresholdDeadlocks`, `Reassess.ClearTaskStuck`). The
  guards' documentation calls them complements of each other; the code's are not for this
  value.
- A reassessment text can read as a counter too, because keys are matched without regard to
  case while the filter against such texts is not. Over a run the counter is the number of
  counted follow-ups since the last topic shift exactly when every text that a counting or
  holding follow-up consumed reads as no counter or as the current one; call such answers
  benign. Then the loop is bounded (`Unified.FollowupReadsExactly`,
  `Unified.CounterIsExact`, `Unified.RunsAreBounded`); a text that is not is
  `Reassess.SpoofLosesCounter`, and at the cap `Reassess.SpoofPassesCap`.
- A streaming command that prints anything fails if it has an output: its chunks and its
  result need places of different colours and go to the same ones
  (`FiringLaws.StreamingNeverFits`).
- A restore that fails half way loses the files that had come back to the paths restored
  until then (`Returns.FailureLoses`, `Returns.HarmlessExactly`,
  `Returns.FailureLosesNewFile`).
- A rollback quarantines rows whose files it does not move, and a restore of that set then
  never succeeds; it succeeds exactly when there is no such row
  (`RoundTrip.RollbackThenRestore`).
- An unclosed quote or a stray brace before the object makes two of the four scanners miss it,
  and nothing else does (`Scanners.ScannersAgree`, `Scanners.QuoteHidesObject`).
- A wait between retries can shrink, or vanish, once it leaves the range of a Duration
  (`Retry.BackoffGrowsToCap`, `Retry.DefaultWaitsOverflow`).
- Comparing versions is transitive on a set of them exactly when it has no x, y and t that
  agree up to some component where x and y have numbers and t a text that stands, as text,
  above y and below x although x is not above y (`Versions.VersionsOrderedExactly`,
  `Versions.MixedVersionsCycle`).
- A tool that requires a human runs without anyone being asked exactly when the host gate is
  not concerned and the calling transition has no channel, which validation demands of human
  transitions only; the net then goes on reporting that it waits (`ToolLoop.ClearedUnasked`,
  `ToolLoop.AnswerCall`).
- A failed tool loop drops the cost of its re-calls (`ToolLoop.ToolStep`).

## Model

| member | source | states |
|---|---|---|
| `NetLaws.RoundSerialisable` | back/go-assistant/cpn/executor.go:112-201 | With duplicate-free inputs and guards that extra tokens cannot turn off, firing the batch one transition at a time in its order finds each one enabled at its turn, hands out the same tokens and reaches the same marking as consuming everything first. |
| `NetLaws.BatchPartition` | back/go-assistant/cpn/executor.go:122-130 | For every place, the old queue is what the batch took, in firing order, followed by what remains. |
| `NetLaws.ConsumePartition` | back/go-assistant/cpn/executor.go:322-336 | The same for the inputs of one firing. |
| `NetLaws.ConsumeHeads` | back/go-assistant/cpn/executor.go:322-336 | With distinct inputs a firing gets exactly one token per input place, in input order, each the head of its queue. |
| `NetLaws.ConsumeServesEveryArc` | back/go-assistant/cpn/executor.go:322-336 | A firing gets a token for every arc exactly when each input place queues at least as many tokens as it has arcs to the transition; the enabling test asks for one only. |
| `NetLaws.TwiceEnteredShort` | back/go-assistant/cpn/executor.go:322-336 | A place entered twice that holds one token is marked, and gives its transition one token for its two arcs. |
| `NetLaws.DepositOrderIrrelevant` | back/go-assistant/cpn/executor.go:159-201 | Whatever the order in which concurrent firings deposit, each queue keeps its old tokens as a prefix and holds the same tokens as a multiset. |
| `NetLaws.EnabledSurvivesDeposits` | back/go-assistant/cpn/transition.go:204-236 | A transition with a monotone guard that is enabled stays enabled when tokens are added anywhere. |
| `NetLaws.CentaurianMonotone` | back/go-assistant/cpn/mode.go:19-32 | The guard injected in Centaurian mode is monotone in added tokens. |
| `FiringLaws.CopiesReachAll` | back/go-assistant/cpn/fire_llm.go:356-384 | A firing that makes one token copies it to a prefix of its outputs, and to all of them exactly when each exists and takes the token. |
| `FiringLaws.FiringLands` | back/go-assistant/cpn/executor.go:342-373 | Over all attempts of a firing of any kind, every deposit is accepted by an existing place that the transition reaches: an output, the error place of a validation or an instantiation, or a place a child is mapped to. |
| `FiringLaws.FiringFills` | back/go-assistant/cpn/executor.go:342-373 | A successful tool, model, human, register, synthesize, mutate or bash firing ends by putting one token in each output, in order, and does nothing else when it is not retried; validations, sub-nets and instantiations are excepted. |
| `FiringLaws.StreamingNeverFits` | back/go-assistant/cpn/fire_bash.go:161-187 | A command's chunks and its result go to the same outputs, and a place takes one colour: depositing succeeds exactly when there is no output, or no chunk and every output takes results. |
| `FiringLaws.OnlyValidLeaves` | back/go-assistant/cpn/fire_validate.go:52-152 | Whatever the correcting model proposes and however often the firing is retried, every token it leaves outside its error place carries what its success transform makes of a payload its validator passed. |
| `NetInvariants.RoundFiresFirst` | back/go-assistant/cpn/executor.go:124-139 | A non-empty collection always gives a non-empty batch: the re-check never refuses the first transition. |
| `NetInvariants.RunKeepsTypes` | back/go-assistant/cpn/place.go:46-64 | In every state of every run, over firings of every kind, each queued token has the colour and the space of its place. |
| `NetInvariants.RoundKeepsTypes` | back/go-assistant/cpn/executor.go:124-240 | One round keeps that, error tokens included, and so does a round whose failure could not be routed. |
| `NetInvariants.RoundExtendsTerminals` | back/go-assistant/cpn/cpn.go:230-245 | No round, failed or not, removes a token from a terminal place. |
| `NetInvariants.CompleteIsStable` | back/go-assistant/cpn/cpn.go:617-628 | A complete net stays complete over any run. |
| `NetInvariants.RunKeepsValid` | back/go-assistant/cpn/fire_validate.go:52-185 | A place that only validate transitions write holds, over any run, only what their success transforms make of payloads their validators passed, if it did at the start. |
| `NetInvariants.ModeTellsHumanTokens` | back/go-assistant/cpn/cpn.go:511-548 | After a round MAS means no human-origin token in computation, and Centaurian means there is one or a human transition can fire. |
| `NetInvariants.CentaurianNeedsBothOrigins` | back/go-assistant/cpn/cpn.go:477-498 | In Centaurian mode a non-human transition with a computation output is in the batch only if human and non-human tokens were queued on its inputs. |
| `Cpn.Place.Deposit` | back/go-assistant/cpn/place.go:46-64 | Accepts exactly the tokens of the place's colour and space, appends them at the tail, and reports a surface token in a computation place before anything else. |
| `Cpn.Place.Consume` | back/go-assistant/cpn/place.go:69-79 | Removes and returns the oldest token, or reports that there is none. |
| `Cpn.Place.Clear` | back/go-assistant/cpn/place.go:106-110 | Empties the queue. |
| `Cpn.Env.Allow` | back/go-assistant/cpn/retry.go:72-88 | The breaker consulted by the enabling test refuses exactly while tripped and within its open period. |
| `Cpn.Env.Record` | back/go-assistant/cpn/retry.go:92-110 | Success clears the breaker; a failure counts and trips it at the threshold. |
| `Cpn.HasBothOrigins` | back/go-assistant/cpn/mode.go:19-32 | The scan returns true exactly when a human-origin and a non-human token are among the tokens. |
| `Cpn.CPN.IsComputation` | back/go-assistant/cpn/cpn.go:458-471 | Whether some output place lies in the computation space. |
| `Cpn.CPN.PeekAll` | back/go-assistant/cpn/transition.go:211-226 | Succeeds exactly when every input place is there and marked, and returns all queued tokens place by place. |
| `Cpn.CPN.EffectiveCanFire` | back/go-assistant/cpn/cpn.go:502-506 | The enabling test with deprecation, breaker, queues, the injected guard and the transition's own guard. |
| `Cpn.CPN.CollectFirable` | back/go-assistant/cpn/executor.go:307-318 | Collects each enabled non-observer transition once, whatever the order of the walk, except those a breaker refused. |
| `Cpn.CPN.ConsumeAll` | back/go-assistant/cpn/executor.go:322-336 | Takes one head token per input place that has one, and nothing else. |
| `Cpn.CPN.TakeFirings` | back/go-assistant/cpn/executor.go:122-130 | Re-check and consumption, one transition after the other, are the batch of the step semantics. |
| `Cpn.CPN.DepositResults` | back/go-assistant/cpn/executor.go:431-454 | Deposits the results in output order up to the first that is missing or rejected, stamped with their origin. |
| `Cpn.CPN.Dispatch` | back/go-assistant/cpn/executor.go:342-373 | One attempt does what its kind allows: a handler's deposits are a function of the consumed tokens; a model, human or tool answer is copied to the outputs; a validation marks its outputs or its error place; a command leaves chunks and a result; an instantiation leaves its child's tokens; a sub-net is only started. |
| `Cpn.CPN.FireOneToken` | back/go-assistant/cpn/executor.go:378-418 | One stamped token in a colour of its kind is copied to the outputs in order, up to the first that refuses it; or there is an error and no token. |
| `Cpn.CPN.FireValidate` | back/go-assistant/cpn/fire_validate.go:52-185 | A valid payload goes to the outputs in its colour; an invalid one goes to the error place, unless one of at most min(MaxCorrections, 10) model corrections validates, which then goes to the outputs. |
| `Cpn.CPN.FireBash` | back/go-assistant/cpn/fire_bash.go:115-304 | Chunks and then the result are copied to the outputs up to the first failure; success needs the result. |
| `Cpn.CPN.FireInstantiate` | back/go-assistant/cpn/fire_instantiate.go:108-165 | A finished child's tokens go, recoloured, only to the places they are mapped to, or to the outputs without a mapping; a failed child leaves at most one error token and no error when the error place exists. |
| `Cpn.CPN.Fire` | back/go-assistant/cpn/executor.go:165-168 | A firing under breaker and retries is refused, or is a sequence of attempts of its kind of which all but the last failed, keeping the deposits of each. |
| `Cpn.CPN.RouteErrors` | back/go-assistant/cpn/executor.go:214-247 | The failures, in the order they come, each leave an error token in their error place; one without an error place, or whose error place rejects the token, ends the run, with exactly the tokens routed before it deposited; nothing else ends it. |
| `Cpn.CPN.CheckModeSwitch` | back/go-assistant/cpn/cpn.go:511-548 | The mode after the round, as a function of the marking. |
| `Cpn.CPN.RunRound` | back/go-assistant/cpn/executor.go:87-269 | One iteration of the loop is one round of the step semantics, or finds nothing enabled and changes nothing, or is a round whose failure could not be routed, with the marking and mode it stopped in. |
| `Cpn.CPN.TerminalPlaces` | back/go-assistant/cpn/cpn.go:230-245 | Exactly the places that are input to no transition. |
| `Cpn.CPN.IsComplete` | back/go-assistant/cpn/cpn.go:617-628 | True exactly when there is a terminal place and all of them are marked. |
| `Cpn.CPN.Run` | back/go-assistant/cpn/executor.go:59-269 | The whole run is a sequence of rounds; it ends without error only when nothing is enabled, but for transitions with an open breaker, and every terminal place is marked; with a deadlock only when nothing else is enabled and the net is not complete; with a validation error exactly for nets the validator rejects; and otherwise only after cancellation or a failed firing whose error had no place to go, with the marking at that point. |
| `Cpn.CPN.Reset` | back/go-assistant/cpn/cpn.go:570-586 | Empties every place, restores the initial mode and state, and deposits the seeds again. |
| `Cpn.CPN.Mutate` | back/go-assistant/cpn/cpn_mutate.go:75-135 | The live net after a mutation, accepted or rejected, is the one `MutateNet` gives; new places start empty and old queues are untouched. |
| `Cpn.CPN.ValidateSelf` | back/go-assistant/cpn/validate.go:53-91 | The validator's errors for the net as it is. |
| `Validation.Validate` | back/go-assistant/cpn/validate.go:53-91 | Lists the errors of all transitions in ID order, and none exactly for the nets that `Accepted` describes. |
| `Validation.ValidateDecidesAccepted` | back/go-assistant/cpn/validate.go:53-91 | The listed errors are empty exactly when arcs exist, spaces are crossed by humans only, and human and bash transitions are configured. |
| `Validation.CheckArcReferences` | back/go-assistant/cpn/validate.go:127-151 | One error per missing input, output and error place, in arc order. |
| `Validation.CheckSpaceViolations` | back/go-assistant/cpn/validate.go:174-198 | One error per computation output of a transition with a surface input. |
| `Validation.CheckBashConfig` | back/go-assistant/cpn/validate.go:94-123 | The errors of a bash transition's command and of its output colours. |
| `Validation.SpacesMeetAtHumansOrObservation` | back/go-assistant/cpn/validate.go:174-198 | In an accepted net every arc path from a surface to a computation place crosses a human transition or a place outside both spaces. |
| `Mutation.MutationsKeep` | back/go-assistant/cpn/cpn_mutate.go:75-197 | Any sequence of accepted and rejected mutations keeps an accepted net accepted, keeps every place and transition, and never clears a deprecation. |
| `Mutation.MutationKeepsNetValid` | back/go-assistant/cpn/cpn_mutate.go:75-135 | One mutation, accepted or rejected, leaves an accepted net accepted. |
| `Mutation.RejectionUndone` | back/go-assistant/cpn/cpn_mutate.go:104-135 | A rejected mutation leaves the net as it was, except exactly when it deprecates a live transition of a net that was already invalid. |
| `Mutation.RejectedDeprecationSticks` | back/go-assistant/cpn/cpn_mutate.go:185-197 | A concrete rejected deprecation whose flag stays set. |
| `Mutation.DeprecatedNeverFires` | back/go-assistant/cpn/transition.go:204-208 | A transition once deprecated is in no later batch, after any further mutations. |
| `Retry.BreakerIsItsHistory` | back/go-assistant/cpn/retry.go:72-110 | The breaker's fields are the failures since the last success and the time of the failure that still holds it open, for every history of calls. |
| `Retry.CircuitBreaker.Allow` | back/go-assistant/cpn/retry.go:72-88 | Refuses exactly while tripped and within the open period, otherwise closes the breaker. |
| `Retry.CircuitBreaker.RecordFailure` | back/go-assistant/cpn/retry.go:92-100 | Appends a failure to the history and keeps the fields equal to the replay of it. |
| `Retry.CircuitBreaker.RecordSuccess` | back/go-assistant/cpn/retry.go:104-110 | Appends a success to the history and keeps the fields equal to the replay of it. |
| `Retry.DoRetry` | back/go-assistant/cpn/retry.go:160-210 | No attempt when the breaker refuses, one without a policy, else at most max(MaxAttempts, 1), stopping at the first success or error that is not retried, charging exactly the attempts made, waiting in backoff order between them, each attempt recorded once. |
| `Retry.BackoffGrowsToCap` | back/go-assistant/cpn/retry.go:227-230 | With a multiplier of at least one the waits never exceed MaxWait, and a later one is not shorter exactly when its raw wait is in the range of a Duration or the machine converts it to no less than the earlier one. |
| `Retry.DefaultWaitsOverflow` | back/go-assistant/cpn/retry.go:115-130 | The default waits are at the cap after the 35th attempt and out of range after the 36th; where that converts to the least Duration there is no wait. |
| `Unified.RoundMoves` | back/go-assistant/cmd/server/topologies.go:333-882 | Every round that does not fail moves the one control token along one arc of the flow and treats the counter token as that arc says, whatever the model and the humans answer. |
| `Unified.NeverStuck` | back/go-assistant/cmd/server/topologies.go:132-205 | Wherever the control token is, at most one transition is enabled, in either mode; none exactly when the answer is there, or at a classified task when the confidence threshold is not a number; the net is complete exactly when the answer is there. |
| `Unified.NaNThresholdDeadlocks` | back/go-assistant/cmd/server/topologies.go:57-65 | With the threshold set to NaN no classified answer that decodes as a clear task enables anything, although the net is not complete. |
| `Reassess.ClearTaskStuck` | back/go-assistant/cmd/server/topologies.go:71-196 | With the classifier's decoder as written, {"intent":"task"} is such an answer. |
| `Unified.RunsEndAnswered` | back/go-assistant/cmd/server/topologies.go:333-882 | A run that stops without failing has the answer, except in that one configuration. |
| `Unified.FollowupReadsExactly` | back/go-assistant/cmd/server/reassess_builders.go:111-122 | A follow-up that fires leaves the counter its event asks for (one more, zero after a topic shift, the same for a choice) exactly when the text it consumed is benign: it reads as no counter or as the current one, or the event is a topic shift. |
| `Reassess.SpoofLosesCounter` | back/go-assistant/cmd/server/reassess.go:145-310 | The text {"Decision":"request_user_choice","n":-100} fails that condition for every counter but -100, and leaves the counter at -100. |
| `Reassess.SpoofPassesCap` | back/go-assistant/cmd/server/reassess.go:145-310 | With the decoders as written, an answer of {"Decision":"request_user_choice","n":-100} lets the follow-up fire although the counter is at the cap. |
| `Reassess.SpoofReadsAsCounter` | back/go-assistant/cmd/server/reassess.go:180-222 | The filter for reassessments does not recognise that text, and it decodes as a counter of -100. |
| `Reassess.SpoofReadsAsChoice` | back/go-assistant/cmd/server/reassess.go:225-252 | The same text decodes as a reassessment that asks for a choice, because keys match without regard to case. |
| `Reassess.FilterCatches` | back/go-assistant/cmd/server/reassess.go:185-204 | An object with any of the ten keys in its exact spelling is never taken for a counter. |
| `Reassess.CounterExactly` | back/go-assistant/cmd/server/reassess.go:185-222 | A printed object is taken for a counter exactly when no needle occurs in it, it is empty or has the key n or reset in lower case, and those fields decode. |
| `Reassess.CounterBack` | back/go-assistant/cmd/server/reassess_builders.go:111-122 | What the follow-up deposits as counter reads back as that counter, for every 64-bit value. |
| `Reassess.DecodersRoundTrip` | back/go-assistant/cmd/server/reassess.go:145-252 | These decoders meet what the statements about the assistant's net ask of theirs. |
| `Unified.CounterIsExact` | back/go-assistant/cmd/server/reassess.go:274-330 | Over every run the counter, while there is one, is before and after each round the number of counted follow-ups since the last topic shift, if and only if every answer consumed is benign; then it stays below the cap, and counted follow-ups are at most (shifts + 1) times (cap - 1). |
| `Unified.RunsAreBounded` | back/go-assistant/cmd/server/reassess.go:274-330 | In a run whose answers are all benign the number of rounds is bounded by the cap, the topic shifts and the escape hatches; with neither shift nor hatch such a loop ends within 8 + 3 (cap - 1) rounds. Other answers can take the loop past its cap (`Reassess.SpoofPassesCap`). |
| `Unified.TurnStarts` | back/go-assistant/cmd/server/topologies.go:369-376 | After a reset, the host snapshot and the user's message, the run starts with one control token at the input and the counter at zero, whatever the last turn left. |
| `Unified.ParseMaxRounds` | back/go-assistant/cmd/server/reassess.go:52-64 | The cap is always between one and five. |
| `FileTree.FileSystem.Move` | back/go-assistant/cpn/persist/rollback.go:44-49 | A rename that succeeds moves one file, or every path below a directory; one that fails moves no file. |
| `FileTree.RelocateOne` | back/go-assistant/cpn/persist/rollback.go:203-213 | Staging one more file and moving it back are inverse. |
| `FileTree.RenameRelocated` | back/go-assistant/cpn/persist/rollback.go:215-219 | One rename of the staging directory relocates every staged file. |
| `Ledger.MemoryArtefactLedger.PreWrite` | back/go-assistant/cpn/persist/artefacts_memory.go:49-83 | Adds one pending row under its set, or a set of its own, and keeps both indexes exact. |
| `Ledger.MemoryArtefactLedger.PostWrite` | back/go-assistant/cpn/persist/artefacts_memory.go:86-98 | Activates the row from whatever state it was in. |
| `Ledger.MemoryArtefactLedger.SetForSet` | back/go-assistant/cpn/persist/artefacts_memory.go:127-142 | Returns every row of the set once, by creation time, or reports that there is none. |
| `Ledger.MemoryArtefactLedger.Rollback` | back/go-assistant/cpn/persist/artefacts_memory.go:145-186 | Quarantines every row of the set with one time and one directory, unless all are quarantined or purged already; errors change nothing. |
| `Ledger.MemoryArtefactLedger.Restore` | back/go-assistant/cpn/persist/artefacts_memory.go:189-222 | Restores exactly the quarantined rows of the set; errors change nothing. |
| `Ledger.MemoryArtefactLedger.PurgeExpired` | back/go-assistant/cpn/persist/artefacts_memory.go:225-255 | Purges exactly the rows quarantined before the cutoff and returns each of them once. |
| `Ledger.SetsExpireTogether` | back/go-assistant/cpn/persist/artefacts_memory.go:225-255 | The quarantined rows of a set all expire at a cutoff or none does. |
| `Ledger.ConsistentAfterWrite` | back/go-assistant/cpn/persist/artefacts_memory.go:49-83 | A new row keeps the indexes listing exactly the matching rows, once each. |
| `Ledger.ConsistentAfterRollback` | back/go-assistant/cpn/persist/artefacts_memory.go:145-186 | A rollback keeps the indexes, and all quarantined rows of a set share one time and path. |
| `Rollback.RollbackService.Rollback` | back/go-assistant/cpn/persist/rollback.go:145-240 | All or nothing: an error changes no row and, unless a compensating rename failed too, no file; success leaves exactly the files of the active and restored rows under the set's quarantine directory at their relative paths, all other files untouched, and every row of the set quarantined; every error has its reason, and without one it succeeds. |
| `Rollback.Reverse` | back/go-assistant/cpn/persist/rollback.go:176-188 | If no rename fails, the files end as if every recorded move had been undone, last first. |
| `Rollback.RollbackService.Stage` | back/go-assistant/cpn/persist/rollback.go:190-213 | The first phase moves exactly the active and restored rows' files into staging, or stops at the first error with what it moved on record. |
| `Rollback.Commit` | back/go-assistant/cpn/persist/rollback.go:215-219 | The commit rename turns the staged layout into the quarantined one. |
| `Rollback.RollbackService.Restore` | back/go-assistant/cpn/persist/rollback.go:244-300 | Success puts every quarantined file back with its content, over whatever is there. When a path cannot go back, those made before it are undone: rows untouched, files exactly those of the start without the ones at the paths made; nothing is lost at any point if no path that holds a file again could go back. It never succeeds with more quarantined rows than the quarantine directory holds files, and fails to move a path whose way is clear only by a fault. |
| `Returns.FailureLoses` | back/go-assistant/cpn/persist/rollback.go:257-290 | For every tree, order of the rows and failing point: undoing the paths that went back gives the starting files without those that lay at these paths, and all of them exactly when no such path held a file. |
| `Returns.HarmlessExactly` | back/go-assistant/cpn/persist/rollback.go:257-290 | Before the call: every failing point in every order is harmless exactly when no path that holds a file again could be restored. |
| `Returns.FailureLosesNewFile` | back/go-assistant/cpn/persist/rollback.go:257-290 | A concrete tree: two quarantined files, the first path re-created since; the second rename fails and the new file is lost. |
| `Returns.AtMostTheFilesReturn` | back/go-assistant/cpn/persist/rollback.go:271-290 | Every rename of a restore, of a file or of a directory, takes a file out of the quarantine directory, so no more paths can be restored than it holds files. |
| `Returns.ClearPathsReturn` | back/go-assistant/cpn/persist/rollback.go:271-290 | Distinct paths whose copies are there and whose way is clear can be renamed back one after another in any order. |
| `RoundTrip.RollbackThenRestore` | back/go-assistant/cpn/persist/rollback.go:145-300 | After a successful rollback and a successful restore the files are the ones of the start and every row of the set is restored; unless a rename or the ledger is at fault, the restore succeeds exactly when every row of the set was active or restored. |
| `RoundTrip.FilesRoundTrip` | back/go-assistant/cpn/persist/rollback.go:145-300 | The quarantined layout followed by the restored one gives the files of the start. |
| `RoundTrip.RowsRoundTrip` | back/go-assistant/cpn/persist/artefacts_memory.go:145-222 | For a set of active and restored rows both steps name the same files, and every row of the set ends restored, no other changed. |
| `RoundTrip.QuarantinedIsClear` | back/go-assistant/cpn/persist/rollback.go:190-219 | A rollback leaves nothing in the way of the files it moved. |
| `Purge.PurgeService.Run` | back/go-assistant/cpn/persist/purge.go:46-104 | Exactly the expired rows are purged, whole sets at a time; no file outside the directories of those sets is touched, and none of a set that stays quarantined. |
| `Purge.PurgedDirectoriesAreDone` | back/go-assistant/cpn/persist/purge.go:60-76 | A directory that is removed holds no file of a still-quarantined row. |
| `Purge.OwnDirectoryKept` | back/go-assistant/cpn/persist/rollback.go:131-133 | Every ledger operation keeps each quarantined row in its own set's directory. |
| `Json.ReadBack` | back/go-assistant/cpn/synthesis/canonical.go:188-230 | Reading a printed value gives it back and leaves what followed. |
| `Json.StringBack` | back/go-assistant/cpn/synthesis/canonical.go:188-230 | So do the string escapes. |
| `Json.PrintInjective` | back/go-assistant/cpn/synthesis/canonical.go:188-230 | Two values that print alike are the same. |
| `Canonical.CanonicaliseValue` | back/go-assistant/cpn/synthesis/canonical.go:247-291 | The canonical text of any JSON value, the same however its maps are walked. |
| `Canonical.ValueBack` | back/go-assistant/cpn/synthesis/canonical.go:247-291 | Canonicalising a value loses nothing. |
| `Canonical.MarshalStable` | back/go-assistant/cpn/synthesis/canonical.go:188-230 | Renders ordered entries in the order they were listed. |
| `Canonical.KeysInOrder` | back/go-assistant/cpn/synthesis/canonical.go:62-78 | The keys of a map come out in one order, whatever the walk. |
| `Flows.CanonicaliseTopology` | back/go-assistant/cpn/synthesis/canonical.go:23-33 | The canonical text of a topology and its sub-nets, the same however any of its maps is walked. |
| `Flows.TransitionText` | back/go-assistant/cpn/synthesis/canonical.go:95-183 | The fields of a transition in their fixed order, empty ones left out, tools sorted, raw parts that are not JSON left out. |
| `Flows.TopologyBack` | back/go-assistant/cpn/synthesis/canonical.go:54-183 | Reading the canonical form gives the topology back, tools sorted and unreadable raw parts dropped, through all sub-nets. |
| `Flows.CanonicalTextParses` | back/go-assistant/cpn/synthesis/canonical.go:15-33 | Parsing the canonical bytes recovers the topology. |
| `Flows.CanonicalTextDecides` | back/go-assistant/cpn/synthesis/canonical.go:23-33 | Two topologies have the same canonical bytes exactly when they are equal up to the order of tools and unreadable raw parts. |
| `Flows.SameFlowIff` | back/go-assistant/cpn/synthesis/canonical.go:35-42 | Under an injective hash they get the same flow ID exactly then. |
| `Flows.FlowRepository.SaveAuthored` | back/go-assistant/cpn/synthesis/authored_flow_memory.go:33-64 | The ID is the hash of the text; saving a known text changes nothing; every record is filed under the hash of its own text. |
| `Flows.FlowRepository.GetByID` | back/go-assistant/cpn/synthesis/authored_flow_memory.go:67-77 | What is found under the ID of a text is that text. |
| `Flows.FlowRepository.Reject` | back/go-assistant/cpn/synthesis/authored_flow_memory.go:80-90 | Marks exactly the named record. |
| `Scanners.ExtractReport` | back/go-assistant/cpn/awakens/report.go:174-213 | The scanner returns what the machine `Extract` describes. |
| `Scanners.ExtractIsShortest` | back/go-assistant/cpn/awakens/report.go:174-213 | The result is the shortest segment from the first brace whose braces balance outside quotes; there is none exactly when no segment balances. |
| `Scanners.ExtractInvertsPrint` | back/go-assistant/cpn/awakens/report.go:174-213 | For every JSON object, any text without a brace before it and any text after it, the scanner returns exactly the printed object. |
| `Scanners.ResponseContainsObject` | back/go-assistant/cpn/fire_llm.go:59-92 | True exactly when some brace brings the depth to zero outside quotes. |
| `Scanners.FirstObject` | back/go-assistant/cpn/fire_synthesize.go:261-297 | Non-empty exactly in the same case; the result is then a shortest balanced segment that ends there. |
| `Scanners.ScannersAgree` | back/go-assistant/cpn/fire_synthesize.go:261-297 | The loose scanners stop where the strict one does, with the object it finds, exactly when one scan of the text before the first brace ends where it started; then no other segment is theirs, and if the strict one finds nothing neither do they. |
| `Scanners.FirstSegmentUnique` | back/go-assistant/cpn/fire_synthesize.go:261-297 | What the synthesizer's scanner may return is determined by the text. |
| `Scanners.NoBraceNoObject` | back/go-assistant/cpn/fire_synthesize.go:261-297 | Without an opening brace no scanner finds anything. |
| `Scanners.QuoteHidesObject` | back/go-assistant/cpn/fire_llm.go:59-92 | An unclosed quote before the object hides it from the loose scanners only. |
| `Scanners.ClosedQuoteIsHarmless` | back/go-assistant/cpn/fire_synthesize.go:261-297 | With a closed quotation before the object every scanner finds it. |
| `Scanners.ExtractCandidate` | back/go-assistant/cmd/server/topologies.go:1008-1078 | The first usable balanced object, else the first, else nothing. |
| `Scanners.FirstCandidateAgrees` | back/go-assistant/cmd/server/topologies.go:1008-1060 | The first candidate is what the report scanner finds. |
| `ToolLoop.HandleToolCalls` | back/go-assistant/cpn/fire_llm.go:394-745 | At most ten re-calls, each carrying all that was said with every call answered; only allow-listed tools run; the cost is that of the re-calls; the content comes from a response without tool calls. |
| `ToolLoop.EveryCallAnswered` | back/go-assistant/cpn/fire_llm.go:427-433 | At every re-call the IDs asked for since the start and the IDs answered are the same sequence. |
| `ToolLoop.AnswerCall` | back/go-assistant/cpn/fire_llm.go:436-702 | One reply per call on every branch; the gate is asked once, a human exactly when the gate is not concerned, the tool requires one and the calling transition has a channel; the executor runs exactly for a known, allowed tool that nobody refused; the net is left waiting exactly when a human is required and there is no channel or the wait is cancelled. |
| `ToolLoop.ClearedUnasked` | back/go-assistant/cpn/fire_llm.go:583-646 | A tool that requires a human is cleared without the gate or a human being asked exactly when the gate is not concerned and there is no channel. |
| `ToolLoop.ToolStep` | back/go-assistant/cpn/fire_llm.go:274-286 | A failed loop reports only what was spent before it. |
| `Persist.RoundTripIffNormal` | back/go-assistant/cpn/persist/topology.go:168-560 | Loading a topology and saving it again gives the same topology exactly when it is in normal form, through all sub-nets. |
| `Persist.MarshalCpn` | back/go-assistant/cpn/persist/topology.go:168-195 | Saves a net, or fails exactly when some function has no registered name, whatever the order of the walk. |
| `Persist.UnmarshalCpn` | back/go-assistant/cpn/persist/topology.go:432-460 | Loads a net, or fails exactly when some name is unknown, whatever the order of the walk. |
| `Persist.SavedUnlessUnnamed` | back/go-assistant/cpn/persist/topology.go:168-330 | Saving fails exactly when some function of a transition, of its configurations or of an inline sub-net is registered under no name. |
| `Persist.LoadedUnlessUnknown` | back/go-assistant/cpn/persist/topology.go:432-560 | Loading fails exactly when some name in the topology, schemas and sub-nets included, is not registered. |
| `Persist.FuncRegistry.Register` | back/go-assistant/cpn/persist/registry.go:66-74 | A name is taken once; of two functions with the same code pointer the later name wins the way back. |
| `Persist.OneNameComesBack` | back/go-assistant/cpn/persist/registry.go:85-90 | A function registered under one name only finds that name again. |
| `Persist.MsBack` | back/go-assistant/cpn/persist/topology.go:404-410 | Milliseconds survive the conversion to a duration and back exactly when they do not overflow it. |
| `Versions.SplitInvertsPrint` | back/go-assistant/cpn/persist/tool_registry_memory.go:146-161 | Splitting returns a name exactly when the text is the print of it and the name is well formed. |
| `Versions.CompareSemver` | back/go-assistant/cpn/persist/tool_registry_memory.go:167-213 | The loop compares the three components in turn. |
| `Versions.ReleasesCompareByNumbers` | back/go-assistant/cpn/persist/tool_registry_memory.go:167-213 | Releases compare by their three numbers, then by suffix, a release above its pre-releases. |
| `Versions.VersionsOrderedExactly` | back/go-assistant/cpn/persist/tool_registry_memory.go:167-233 | For every set of versions, comparing is transitive exactly when no x, y and t in it are crossed: agreeing up to a component where x and y have numbers and t a text that stands, as text, above y and below x although x is not above y. |
| `Versions.TotalPreorder` | back/go-assistant/cpn/persist/tool_registry_memory.go:167-213 | On versions whose component heads are empty or in-range numbers nothing is crossed, and the comparison is a total preorder. |
| `Versions.HeadsOrderedExactly` | back/go-assistant/cpn/persist/tool_registry_memory.go:215-233 | A set of component heads is totally preordered exactly when no text in it stands, as text, between two of its numbers against their order. |
| `Versions.MixedVersionsCycle` | back/go-assistant/cpn/persist/tool_registry_memory.go:215-233 | With numbers and text mixed it has a cycle: 9 below 10, 10 below 1a, 1a below 9. |
| `Versions.AtoiIsNumber` | back/go-assistant/cpn/persist/tool_registry_memory.go:237-249 | The wrapping sum is the number while that fits a machine word. |
| `Versions.ToolRegistry.Latest` | back/go-assistant/cpn/persist/tool_registry_memory.go:112-129 | Returns an entry that is not deprecated, or reports that there is none; no other such entry has a higher version if no three of their versions are crossed. |
| `Versions.ToolRegistry.Upsert` | back/go-assistant/cpn/persist/tool_registry_memory.go:28-43 | Refuses incomplete entries and duplicates, and otherwise files the entry under its qualified name. |
| `Versions.ToolRegistry.Deprecate` | back/go-assistant/cpn/persist/tool_registry_memory.go:96-108 | Marks exactly the named entry. |
| `Versions.ToolRegistry.Get` | back/go-assistant/cpn/persist/tool_registry_memory.go:46-55 | A name that does not split is rejected; a versioned name finds exactly the entry filed under it, or reports that there is none; a name without version finds what `Latest` finds. |
| `Order.SortedUnique` | back/go-assistant/cpn/executor.go:113-115 | A multiset of strings has one sorted arrangement, which is why sorting makes the walk order invisible. |
| `Order.SortForgetsOrder` | back/go-assistant/cpn/synthesis/canonical.go:62-78 | However a map's keys are gathered, sorting them gives the same list. |

## Left out

- Asynchronous sub-nets and the wait for children in `checkCompletionOrDeadlock`: a sub-net firing only starts its child; what the child deposits later, between any two steps of the loop, is not modelled, so the run is that of a net without running children.
- Observers, buses, process events, metrics, history and the flush callbacks: they drop or copy data and do not steer the loop.
- Goroutines: a batch's deposits and error tokens land in an arbitrary order; interleavings inside one deposit are those of the place's lock.
- Cpn.CPN.Run: cancellation is the number of rounds after which the context is cancelled; mutation from inside a run is not modelled, mutations happen between rounds.
- Cpn.CPN.Fire: the waits between attempts and their cost are stated by `Retry.DoRetry`.
- Cpn.Env.Allow: breakers live in a table by transition ID; one breaker object shared by two transitions is not modelled.
- What models, humans, hosts, registries and children answer: any payload or error; `Makes`, `Validated`, `ShellTokens` and `Instantiated` in `Net` say which colours and places the kinds allow. A mutation applied by a firing changes the net between rounds only.
- Cpn.CPN.FireValidate: payloads are strings, the validator and its transform are functions of them, and a schema is such a function.
- Prompts, A2UI payloads and the planner preamble are parameters of `Unified`; its classifier, counter and reassessment decoders are parameters too, and `Reassess` has the ones of the code.
- Reassess.RoundFrom: payloads are compact JSON without white space between tokens, number syntax is the reader's, and the reassessment is read after the removal of reasoning blocks and fences.
- Unified.CounterIsExact: the cap is fixed over the run; the code reads it from the environment at every guard.
- The ledger's audit events, hashes, sizes and listing by host or forge run are not modelled.
- File paths are clean absolute sequences of names, a set ID is one name, and symbolic links, permissions and partial renames are not modelled.
- Rollback.RollbackService.Rollback: the file claims are for rows that name files outside the quarantine and an empty staging directory; the deprecation of tools after a rollback is not modelled.
- RoundTrip.RollbackThenRestore: also asks that no directory of an earlier staging of the set is left and that no file lies below another; an empty directory left there can be renamed in place of a row's file.
- Retry.Backoff: waits are computed over the reals; the rounding of float64 products is not modelled, a raw wait of 2^63 ns or more converts to a value the machine chooses.
- Strings are Unicode scalar values: Go's encoder replaces invalid UTF-8, so distinct invalid strings may print alike.
- Numbers inside raw JSON are kept as normalised text, and SHA-256 is any function, injective where a statement says so.
- Flows.CanonicaliseTopology: the configurations of a transition are held as the JSON their Go structs marshal to, and the entry list and its rendering are one pass.
- Scanners.ExtractCandidate: starts after the removal of reasoning blocks and the choice of a fenced block; which candidate is usable is a parameter.
- ToolLoop.HandleToolCalls: whether the calling transition has a channel is a parameter; streaming, tracing, events and the host gate's derivation of operations are not modelled.
- Persist.RoundTripIffNormal: the LLM configuration is one value that is copied; nil and empty lists are not told apart; the schema's value is represented by its factory.
- TopologyHash, the other in-memory repositories, ranking, pagination, host discovery, the tool-forge and manage-models nets, and the React front end.
