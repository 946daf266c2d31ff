# Aggregate cards, hub and session machinery: a verified model

An agent's answer is shown as one *aggregate card*: a message whose elements (thinking, tool
calls, text, footer) are appended and updated while the agent works. Three programs keep that
card in step over an unreliable network, and this project models all three and proves what they
keep.

- **The store.** `CardContent` is the stored card and the server's interpretation of every PATCH
  op on it; `MessageHandler` holds the server's loops, proved against it, and `CardRegisters` says
  what any sequence of requests amounts to. `Wire` puts the store behind io calls that are
  delivered, lost, or applied but reported as failed, at most once each.
- **The SDK card object.** `CardSpec` says what each call of `AggregateCard` does to its shadow and
  to the store; `AggregateCards` is the object itself, field by field, proved to do that over
  `Transport`. The TypeScript object is the reference, the Python one is the same machine.
- **The Hermes plugin.** `HermesSpec` is the `AggregateSession` with its own shadow, its direct
  reorder and remove requests and the dispatch of events; `HermesSession` is the object and the
  event consumer, proved against it. `HermesDesk` is the invariant of its runs, and
  `HermesLists`, `HermesApprovals` and `HermesClosings` say what events, approvals and endings
  leave in the store.
- **The hub.** `RpcRegistry` (racing finishers of one pending call) and `RpcReplies` (whose words
  they deliver), `DispatchBuffer` (the replay ring), `HubIndex` (connection lists, subscriptions,
  fan-out, clean-up), `HubReplay` (what several connections under one key do to the ring).
- **SDK streams.** `StreamSessions` (snapshots), `StreamThrottle` (when and how often they are sent)
  and `FrameHandoff` (frames from socket callbacks to a pull consumer).

A call is a function from state to state, or a class method proved equal to one; interleavings are
event lists, and whole-run results quantify over every list of calls, failures or events; a run is
written down as the states between its steps, and every list of calls has such a record
(`CardSpec.TraceOf`, `HermesDesk.RunOf`).

What is proved, in short: whatever fails, the server's card holds, in shadow order and without
repeats, only ids of the shadow, and each id was requested once per card; a heal makes server and
shadow equal whatever was there before; without failures they are equal after every call, under a
guard that is shown to be exact; the data of every stored element, on earlier cards too, is what the
calls addressed to it made of it; the unread count of a round is computed exactly, and so is the most
it can be under any failures; rounds split into the promised shape; the plugin's shadow is the
server's card through reorders, removals and splits, no card but the one in use is open or touched
again, and an approval rings and falls silent as it should; RPC answers are delivered at most once,
say what their caller said, and nobody blocks; stream frames keep their distance; a resume
after a disconnect is complete exactly when nothing missing was pushed out of the ring.

Where the code does less than one would expect, the model keeps the code and the exact condition is
proved:

- A card creation that `ensureCard` waits for and that is not acknowledged, in any round or after a
  failed split, leaves the object unable to append or finish for ever: `CardWedge.WedgedIff` and
  `WedgedForever`. So does a recall that took effect but was reported as failed: `GoneIff`,
  `GoneForever`.
- A lost append followed by a success leaves server and shadow apart with the failure count back at
  0 (`CardSync.LostAppendDrifts`). When exactly a returning call leaves them equal is
  `CardDrift.ReturningCallSyncIff`.
- Fault-free equality needs one type per element id and no update of the empty id
  (`CardFaultFree.GuardIsExact`).
- A round can count two unread messages and more: `CardTwoUnread.TwoUnreadInOneRound` is such a run.
  The most a list of calls can count under any failures is the number `CardMost.Most` computes from
  the list: it is never exceeded and always reached (`CardMostReached.CountsAtLeastIff`).
- The plugin's `finish` marks the session finalized before it settles, so running tools and
  non-blank thoughts stay loose on the finished card, although the comment promises settling
  (`HermesResults.FinishLeavesToolRunning`; exactly when is `FinishSettlesIff`). Splits settle
  everything; an interrupt settles tools and blank thoughts only (`InterruptSettlesIff`).
- A decision on an approval whose card was left goes past the session and the SDK, and the store
  replaces all the element said with it; it also silences a card that a finish had made loud
  (`HermesApprovals.DecisionsLand`). On the card in use the question is kept (`DecidingSettles`).
- An update after a finish is accepted and reaches no card (`CardHistory.LateUpdatesAreLost`).
- The plugin's `update_element` returns before it touches the shadow when the SDK call fails,
  although its comment says the shadow is updated in any case; the model follows the code.
- A repeated id in a reorder list can make the server and the plugin's sort differ
  (`Reorder.RepeatedIdsTellThemApart`; exactly when is `ReorderExact.ReordersAgreeIff`).
- Every connection under one client key puts a copy of each dispatch into the same buffer; exactly
  when a resume replays a dispatch twice is `HubReplay.ResumeOnceIff`.
- The stale-client sweep leaves the subscriptions of the connections it closes until their
  Unregister, and that Unregister no longer drops the key's buffer (`HubIndex.SweptBufferStays`).
- Frames can be lost when the generator ends; exactly when is `FrameHandoff.EndedRun`.
- The comment on generated element ids says they start with a letter; a type that starts with
  something else makes an id that does, and only such a type (`ElementIds.DigitFirst`,
  `StartsWithLetterIff`).

## Model

| member | source | states |
|---|---|---|
| MessageHandler.ApplyContentOp | server/internal/handler/message_handler.go:611-793 | a PATCH body is accepted or refused, and merged, exactly as the reference interpretation says, for every op, every error branch and the full replace |
| MessageHandler.UpdateElement | server/internal/handler/message_handler.go:665-685 | the search loop changes the data of the first element with that id, and reports when there is none |
| MessageHandler.RemoveElement | server/internal/handler/message_handler.go:686-702 | the filter loop drops every element with that id and keeps the order of the others |
| MessageHandler.ReorderElements | server/internal/handler/message_handler.go:703-736 | the index, the seen set and the two loops compute the listed elements in order, then the unlisted ones in theirs; an unknown id is refused |
| Reorder.ServerReorderIsStableSort | plugin/hermes-plugin/aggregate_card.py:351-356 | for distinct ids and a repeat-free order the server's reorder and the plugin's stable sort by rank give the same sequence |
| Reorder.ReorderLaws | server/internal/handler/message_handler.go:703-736 | reorder is a permutation, leaves unlisted elements in order at the tail, and is idempotent |
| Reorder.SortIsSorting | plugin/hermes-plugin/aggregate_card.py:351-356 | the sort by rank is sorted and a permutation |
| ReorderExact.ReordersAgreeIff | server/internal/handler/message_handler.go:703-736 | for distinct ids and any order, repeated ids included, the server and the plugin's sort agree exactly if the ids present are first listed in the order in which they are last listed and no listed element ranks behind an unlisted one |
| Reorder.RepeatedIdsTellThemApart | server/internal/handler/message_handler.go:720-727 | an order with a repeated id for which they differ |
| CardRegisters.RefusedIff | server/internal/handler/message_handler.go:611-793 | a request is refused exactly if it lacks a field or names an unknown id, segment or op; a full replace never is |
| CardRegisters.FieldsAreLastSaid | server/internal/handler/message_handler.go:527-551 | after any requests state, segment and silent are what was last said about each; a full replace says silent only if it carries it |
| CardRegisters.ElementsAreLastSaid | server/internal/handler/message_handler.go:648-736 | after any requests that repeat no id, what is stored under an id is what the appends, updates, removals and replaces of it made of it, whatever was reordered |
| CardRegisters.UnreadCountsTurns | server/internal/handler/message_handler.go:247-267 | unread grows by the turns from silent to loud, by op or by a full replace that says so, and by nothing else |
| ElementIds.GeneratedIdsDistinct | sdk/ts/src/aggregate_card.ts:145-149 | two generated ids are equal only if their numbers are, whatever the types |
| ElementIds.SuffixDecides | sdk/ts/src/aggregate_card.ts:145-149 | prefix and number can be read back from an id |
| ElementIds.GeneratedFooterIds | sdk/ts/src/aggregate_card.ts:145-149 | a generated id has the form of a footer id exactly if its type part is "footer" |
| ElementIds.StartsWithLetterIff | sdk/ts/src/aggregate_card.ts:143-149 | a generated id starts with a letter exactly if its type does or is empty |
| ElementIds.DigitFirst | sdk/ts/src/aggregate_card.ts:143-149 | an id that starts with a digit |
| CardIds.RoundIdsDistinct | sdk/ts/src/aggregate_card.ts:129-149 | any two ids generated in one round of a run differ, across types, cards, splits and failures |
| ElementIds.GeneratedIdLength | sdk/python/wanling_sdk/aggregate_card.py:131-136 | when exactly a generated id has at most 20 characters, for empty, one-letter and longer types |
| ElementIds.TypeIsKept | sdk/ts/src/aggregate_card.ts:145-149 | a generated id is type, underscore and number, with the type cut only when the whole would be longer than 20, and then to exactly 20 |
| ElementIds.DecimalValue | sdk/ts/src/aggregate_card.ts:145-149 | the digits read back as the number |
| AggregateCards.AggregateCard.Append | sdk/ts/src/aggregate_card.ts:156-201 | the object's append, with the creation, split, patch and flush methods under it, does to fields and store what the specification says; its other calls likewise |
| Transport.CardIo.UpdateContent | server/internal/handler/message_handler.go:183-267 | not found, refused, or stored with one unread increment on a silent true to false flip |
| CardFaults.ServerFollowsShadow | sdk/ts/src/aggregate_card.ts:165-185 | under every failure pattern the server's element ids are a duplicate-free subsequence of the shadow's, and append was requested exactly once for each shadow id |
| CardFaults.AppendRequestedOnce | sdk/ts/src/aggregate_card.ts:292-297 | no card, current or left behind, is asked twice to append one id: the retry after a heal is an update |
| CardFaults.UnreadCountsLoudCards | server/internal/handler/message_handler.go:256-265 | under every failure pattern the unread count is the number of cards that are no longer silent |
| CardSync.HealConverges | sdk/ts/src/aggregate_card.ts:282-312 | a tryPatch that returns through its heal branch leaves elements, state and segment equal to the shadow, silent as the op or the old card had it, the failure count at 0 |
| CardSync.ReturningCallKeepsSync | sdk/python/wanling_sdk/aggregate_card.py:266-298 | any call that returns keeps server and shadow equal, and makes them equal if it healed |
| CardSync.LostAppendDrifts | sdk/ts/src/aggregate_card.ts:282-292 | a lost append below the heal threshold drives them apart |
| CardDrift.ReturningCallSyncIff | sdk/ts/src/aggregate_card.ts:156-327 | for every state and returning call: server and shadow are equal afterwards exactly if its first patch cannot be acknowledged, so that it heals, or they agreed before on all it does not overwrite or leave behind |
| CardDrift.RunSyncIff | sdk/ts/src/aggregate_card.ts:282-312 | the same at every point of every run |
| CardDrift.HealedRunIsInSync | sdk/ts/src/aggregate_card.ts:282-312 | in any run a call that healed leaves them equal, a retyped element included |
| CardWedge.WedgedIff | sdk/ts/src/aggregate_card.ts:100-111 | for every state and call: the object is wedged afterwards exactly if it was, or this call's ensureCard had to create and got no acknowledgement, in any round and after any split |
| CardWedge.WedgedIffBadOpening | sdk/ts/src/aggregate_card.ts:100-111 | at every point of every run: wedged exactly if some earlier call opened without an acknowledgement |
| CardWedge.WedgedForever | sdk/ts/src/aggregate_card.ts:103-107 | a wedged object never gets a card again and no append or finish returns |
| CardWedge.GoneIff | sdk/ts/src/aggregate_card.ts:246-256 | for every state and call: the card is gone under an open round exactly if it was, or this finish recalled an empty card and the recall was applied but not acknowledged |
| CardWedge.GoneIffBadRecall | sdk/ts/src/aggregate_card.ts:246-256 | the same at every point of every run |
| CardWedge.GoneForever | sdk/ts/src/aggregate_card.ts:246-256 | from then on no append or finish returns, whatever the network does |
| CardFaultFree.CallRefines | sdk/ts/src/aggregate_card.ts:156-272 | a fault-free call returns, every request is accepted, and the server's card equals the shadow again |
| CardFaultFree.GuardIsExact | sdk/ts/src/aggregate_card.ts:176-185 | from an equal state a fault-free call returns equal exactly if the id keeps its type and no update goes out under the empty id |
| CardFaultFree.FaultFreeRefinement | sdk/ts/src/aggregate_card.ts:156-272 | at every point of a run of any number of calls, rounds and splits: all calls returned, all requests accepted, current or finished card equal to mirror, state and segment |
| CardFaultFree.FirstBreachShows | sdk/ts/src/aggregate_card.ts:176-185 | in any fault-free run the first call outside the guard is the first that fails or drives server and shadow apart |
| CardUnread.AppendAndUpdateCountNothing | sdk/ts/src/aggregate_card.ts:302-327 | appends and updates, with their splits and heals, never change the silence of a card or the count |
| CardUnread.FinishCountsOnce | sdk/ts/src/aggregate_card.ts:263-270 | a finish moves the count exactly with the loudness of the current card, however often it is retried |
| CardUnread.RoundUnread | server/internal/handler/message_handler.go:256-265 | the exact number of increments of a round, first or later, under every failure pattern |
| CardTwice.AtMostOneUnread | server/internal/handler/message_handler.go:527-551 | a round whose list has no finish, then an append after 20 elements, then a finish counts at most one, whatever fails |
| CardMostReached.RingsTwiceIff | sdk/ts/src/aggregate_card.ts:241-272 | for lists that append no id twice: some failures make the round count two exactly if the list has that form |
| CardMostBound.NeverMoreThanMost | sdk/ts/src/aggregate_card.ts:156-327 | for every list: no failures make a round count more than the number computed from the list |
| CardMostReached.MostIsReached | sdk/ts/src/aggregate_card.ts:156-327 | for every list: some failures, and the run under them, count exactly that number |
| CardMostReached.CountsAtLeastIff | sdk/ts/src/aggregate_card.ts:156-327 | n unread messages in one round are possible exactly if the computed number is at least n |
| CardMostReached.FreshClosedForm | sdk/ts/src/aggregate_card.ts:241-272 | for lists that append no id twice, two are possible exactly in the form finish, append after 20 elements, finish |
| CardTwoUnread.TwoUnreadInOneRound | sdk/ts/src/aggregate_card.ts:263-270 | a run of 22 calls from a new object with written-out failures that counts two |
| CardUnread.OneUnreadPerRound | sdk/ts/src/aggregate_card.ts:263-270 | fault-free, unread is the number of finished rounds, however many cards each has |
| CardSplit.ChunksCoverElements | sdk/ts/src/aggregate_card.ts:166-180 | the reference cards concatenate to the appended elements and all but the last are full |
| CardSplit.OpenRoundShape | sdk/ts/src/aggregate_card.ts:113-125 | after n fresh appends the store holds exactly the ceil(n/20) reference cards, marked and silent |
| CardSplit.FinishedRoundShape | sdk/ts/src/aggregate_card.ts:263-270 | the finish closes the last card only: footer, done, loud, one unread |
| CardConfluence.EarlyUpdateConfluence | sdk/ts/src/aggregate_card.ts:186-232 | wherever an append falls among the updates of its id, shadow and server end with the same merged data |
| CardHistory.EarlierUpdate | sdk/ts/src/aggregate_card.ts:221-228 | an update of an element of a card left by a split, whatever fails: it returns only if that element has exactly the caller's data, and nothing else in store or object ever changes |
| CardHistory.EarlierUpdateReturns | sdk/ts/src/aggregate_card.ts:221-228 | fault-free it returns, with just that change |
| CardHistory.EarlierCardHoldsLastUpdate | sdk/ts/src/aggregate_card.ts:221-228 | the earlier card holds that data from then on, through all later splits, finishes and rounds, until the next update of the id |
| CardHistory.DataIsWhatWasSaid | sdk/ts/src/aggregate_card.ts:156-237 | over any fault-free run every element of the store stays in its place, and its data is what the appends and updates addressed to it made of it: merged on the current card, replaced on an earlier one |
| CardHistory.AppendStores | sdk/ts/src/aggregate_card.ts:156-200 | an append with an id: new elements last on the current card or alone on a new one, known ones in place with the new data; buffered updates merged, id and type not in the data, no other element touched |
| CardHistory.AppendStoresGenerated | sdk/ts/src/aggregate_card.ts:145-163 | the same without a text id, under the next number of the round |
| CardHistory.LateUpdatesAreLost | sdk/ts/src/aggregate_card.ts:208-216 | an update after a finish reaches no card, neither of that round nor of the next |
| CardClosing.FinishCloses | sdk/ts/src/aggregate_card.ts:257-277 | a finish or interrupt leaves the card with its footer, key by key, done, loud, counted once; every other message as it was |
| CardClosing.EmptyRoundCloses | sdk/ts/src/aggregate_card.ts:247-256 | a finish before any element: recalled, settled silently without footer, or closed like any card, as options and io say |
| CardHeal.PatchReturnsIff | sdk/ts/src/aggregate_card.ts:282-300 | a patch returns exactly if it is acknowledged, or if it is the third failure in a row or later, healing is on and full replace and retry get through; the count is then 0, otherwise one more |
| CardHeal.ThirdFailureHeals | sdk/ts/src/aggregate_card.ts:282-315 | three appends whose requests fail: the first two throw, the third returns and the server's card has all three, whatever it held |
| CardHeal.CountSurvivesRounds | sdk/ts/src/aggregate_card.ts:127-141 | a new round starts from nothing but the failure count |
| CardQueue.OneAtATimeInOrder | sdk/ts/src/aggregate_card.ts:92-98 | derived from the promises that enqueue chains, in every interleaving: jobs run one at a time in enqueue order |
| CardQueue.FailureDoesNotBlock | sdk/ts/src/aggregate_card.ts:92-98 | whenever jobs wait and none runs, the next one starts within two reactions, however the one before it ended |
| CardQueue.OutcomeGoesToCaller | sdk/ts/src/aggregate_card.ts:92-98 | a job's outcome settles its caller's promise, and no tail of the chain is ever rejected |
| CardQueue.SendsAreSplitsPlusOne | sdk/ts/src/aggregate_card.ts:100-111 | in every interleaving the creations are exactly one more than the splits |
| HermesSession.AggregateSession.SettleUnfinishedElements | plugin/hermes-plugin/aggregate_card.py:360-388 | the settle loop over the snapshot of the shadow is the specified fold |
| HermesSession.AggregateSession.ReorderMarkdownToEnd | plugin/hermes-plugin/aggregate_card.py:297-321 | the loops compute the order the specification names, with the early returns |
| HermesSession.AggregateSession.ReorderReasoningBeforeMarkdown | plugin/hermes-plugin/aggregate_card.py:323-349 | the same for a thinking block |
| HermesSession.EventConsumer.Dispatch | plugin/hermes-plugin/aggregate_card.py:662-1042 | one signal to the session in use: new turn, event, interrupt, approval |
| HermesMirror.UpdateKeeps | plugin/hermes-plugin/aggregate_card.py:246-267 | an update changes shadow, SDK mirror and server card alike |
| HermesMirror.AppendSplits | plugin/hermes-plugin/aggregate_card.py:231-244 | a new element on a full card closes that card as it stands and is alone on the next |
| HermesSettle.SplitKeeps | plugin/hermes-plugin/aggregate_card.py:218-244 | the card a split leaves holds exactly the settled shadow |
| HermesSettle.SettlingLeavesNothingLoose | plugin/hermes-plugin/aggregate_card.py:360-388 | settling before finalizing leaves no unfinished thought and no running tool |
| HermesSettle.SettleKeeps | plugin/hermes-plugin/aggregate_card.py:360-388 | settling, with its removals past the SDK, keeps shadow and server card equal, finalized or not |
| HermesSettle.ReorderKeeps | plugin/hermes-plugin/aggregate_card.py:316-321 | a reorder past the SDK to any permutation makes both shadow and server card that permutation |
| HermesFinish.FinishOpen | plugin/hermes-plugin/aggregate_card.py:390-449 | the finished card is the shadow without its blank thoughts, plus the footer, done and loud, recalled exactly if nothing else is left |
| HermesShadow.OneOpenReasoning | plugin/hermes-plugin/aggregate_card.py:965-1021 | in a tidy shadow only the last thinking block can be unfinished |
| HermesEvents.MarkdownMeaning | plugin/hermes-plugin/aggregate_card.py:269-295 | a text replaces the last markdown it extends, is dropped if it is a prefix of it, and is an element of its own otherwise, on shadow and server |
| HermesEvents.FinalMarkdown | plugin/hermes-plugin/aggregate_card.py:1022-1027 | after the final text all markdown is a suffix, both classes in their old order, on shadow and server |
| HermesRun.ReasoningDeltaProper | plugin/hermes-plugin/aggregate_card.py:991-1021 | a new thought keeps the card equal to a tidy shadow |
| HermesRun.EventProper | plugin/hermes-plugin/aggregate_card.py:903-1042 | every event keeps the server's card equal to a tidy shadow, the last one finishes it |
| HermesRun.InterruptProper | plugin/hermes-plugin/aggregate_card.py:684-708 | an interrupt leaves the session between cards, ready for a new one |
| HermesEffects.ToolRoundTrip | plugin/hermes-plugin/aggregate_card.py:920-964 | a tool that starts and ends leaves one settled element holding its result, whatever else is running, and changes nothing else |
| HermesEffects.ThoughtOpens | plugin/hermes-plugin/aggregate_card.py:991-1021 | after a new thought the last block is unfinished with that text and every other block is finished |
| HermesEffects.ThoughtCloses | plugin/hermes-plugin/aggregate_card.py:965-990 | after the final thought no block is unfinished and one holds its text |
| HermesLists.EventsAreListSteps | plugin/hermes-plugin/aggregate_card.py:903-1031 | in any run each event does to the card in use exactly what a function on lists does: placeholder, tool with its report key by key, thoughts before the text, texts merged and moved behind |
| HermesLists.TurnIsLastNamed | plugin/hermes-plugin/aggregate_card.py:620-627 | the turn the session belongs to is the last one an event named |
| HermesApprovals.AskingRings | plugin/hermes-plugin/aggregate_card.py:759-782 | in any run an approval asked for is the last element of its card, pending, as given; the card is loud and counted once more unless it was loud |
| HermesApprovals.DecidingSettles | plugin/hermes-plugin/aggregate_card.py:787-816 | a decision settles the last pending element of its request on the card in use, approved exactly for the four allowing words, silences the card, counts nothing and changes nothing else |
| HermesApprovals.DecisionsLand | plugin/hermes-plugin/aggregate_card.py:710-860 | a decision on an approval asked for and not decided since always lands, on the card in use or wherever its card is by then, finished or of an earlier turn: there the element holds the decision alone and the card is silent; nothing else changes |
| HermesApprovals.RememberedUntilDecided | plugin/hermes-plugin/aggregate_card.py:541-564 | the persistent map holds a request exactly from when it was asked until it is decided, whatever becomes of card, turn and session |
| HermesApprovals.StrayDecision | plugin/hermes-plugin/aggregate_card.py:717-760 | a decision on a request that waits nowhere changes nothing |
| HermesApprovals.ApprovalRoundTrip | plugin/hermes-plugin/aggregate_card.py:759-816 | asked and decided: one settled element, a silent card, counted at most once |
| HermesClosings.RoundEndCloses | plugin/hermes-plugin/aggregate_card.py:390-449 | in any run the end of a round leaves its card with all but the blank thoughts and a footer that tells what was reported, key by key; done, loud, counted unless loud before |
| HermesClosings.InterruptCloses | plugin/hermes-plugin/aggregate_card.py:684-708 | an interrupt does so with every running tool turned to error, interrupted, its other data kept |
| HermesClosings.NewTurnCloses | plugin/hermes-plugin/aggregate_card.py:862-880 | a new turn closes the card it finds as interrupted before its first event, which does not touch it |
| HermesClosings.SplitEnds | plugin/hermes-plugin/aggregate_card.py:218-244 | the card a split leaves: all but the blank thoughts, everything on it over, done, as silent as it was, nothing counted |
| HermesDesk.LeftCardsAreFrozen | plugin/hermes-plugin/aggregate_card.py:662-1042 | in any run a card that is not in use is never touched by events, splits, finishes, interrupts or new turns: unless an approval on it is decided it stays exactly as it is |
| HermesDesk.NoCardLeftOpen | plugin/hermes-plugin/aggregate_card.py:862-880 | at every point of any run every message but the card in use is done or recalled |
| HermesDesk.CardsShareNoIds | plugin/hermes-plugin/aggregate_card.py:451-458 | the cards of one session, across splits and interrupts, share no element id |
| HermesResults.ServerCardIsShadow | plugin/hermes-plugin/aggregate_card.py:166-183 | after any signals the session's card is in the store, generating, and is the shadow, element for element, with at most 20 distinct ids |
| HermesResults.SplitCardsStaySettled | plugin/hermes-plugin/aggregate_card.py:218-244 | in any run no card left by a split ever has an unfinished thought or a running tool |
| HermesResults.OneThoughtAtATime | plugin/hermes-plugin/aggregate_card.py:965-1021 | in any run the shadow has at most one unfinished thought and it is the last block |
| HermesResults.NeighboursDiffer | plugin/hermes-plugin/aggregate_card.py:269-295 | in any run neighbouring markdown texts of a card are not prefixes of each other |
| HermesResults.SnapshotsCollapse | plugin/hermes-plugin/aggregate_card.py:269-295 | snapshots of one text, in any order, end as one element holding the longest |
| HermesResults.StripKeepsPrefixes | plugin/hermes-plugin/aggregate_card.py:280-293 | growing raw text gives growing snapshots |
| HermesResults.FinishSettlesIff | plugin/hermes-plugin/aggregate_card.py:409-416 | finish leaves nothing loose exactly if all that was loose is blank thoughts |
| HermesResults.FinishLeavesToolRunning | plugin/hermes-plugin/aggregate_card.py:253-254 | a tool that never reports back is still running on the finished card |
| HermesResults.InterruptStopsTools | plugin/hermes-plugin/aggregate_card.py:684-708 | no tool is left running on a card closed by an interrupt |
| HermesResults.InterruptSettlesIff | plugin/hermes-plugin/aggregate_card.py:684-708 | an interrupt leaves nothing loose exactly if all that was loose is tools and blank thoughts |
| RpcRegistry.RPCRegistry.TakeEntry | server/internal/hub/rpc.go:134-141 | the lock section gives the entry to one goroutine only and tells the others they lost |
| RpcRegistry.RPCRegistry.Collect | server/internal/hub/rpc.go:117-126 | the loop under the lock collects exactly the agent's pending ids, each once |
| RpcRegistry.AtMostOneDelivery | server/internal/hub/rpc.go:92-148 | in every interleaving, receives included, at most one message is ever sent on an id's channel, by whoever took the entry |
| RpcRegistry.SendNeverBlocks | server/internal/hub/rpc.go:102-104 | a goroutine that holds an entry finds the one place of the channel free |
| RpcRegistry.NoGoroutineStuck | server/internal/hub/rpc.go:92-148 | every goroutine that is not finished has a step |
| RpcRegistry.WinnerIsDelivered | server/internal/hub/rpc.go:92-109 | a returned Resolve won exactly if the delivered message is its own |
| RpcRegistry.CancelAllClearsSnapshot | server/internal/hub/rpc.go:117-130 | when CancelAllForAgent returns, its snapshot is out of pending and each id is answered or being answered |
| RpcRegistry.WatcherCanExit | server/internal/hub/rpc.go:81-85 | once an id was answered and its context cancelled its watcher can exit |
| RpcReplies.WorkerSpeaksForCaller | server/internal/hub/rpc.go:92-136 | in any run a Resolve carries the value it was given, a Cancel or watcher a timeout, a CancelAllForAgent a disconnect, for the ids they were called for |
| RpcReplies.ResolveDeliversItsValue | server/internal/hub/rpc.go:92-109 | a returned Resolve won exactly if the one message on the channel is the value it was given |
| RpcReplies.EveryReplyHasItsCall | server/internal/hub/rpc.go:67-148 | every message on an id's channel goes back to an earlier call about the id: a Resolve with that value, a Cancel or its watcher, or a disconnect of the agent it was registered for |
| RpcReplies.DisconnectReachesEveryCall | server/internal/hub/rpc.go:117-130 | every call of the agent that was pending at the disconnect is answered or being answered when it returns |
| DispatchBuffer.Ring.Push | server/internal/hub/hub.go:35-45 | the ring then denotes the last 1000 of what it denoted and the new message |
| DispatchBuffer.Ring.GetAfter | server/internal/hub/hub.go:47-58 | the loop returns the data above the seq, in order |
| DispatchBuffer.PushedIsLast | server/internal/hub/hub.go:23-58 | after any pushes the buffer denotes exactly the last 1000 of them |
| DispatchBuffer.ResumeIsExact | sdk/ts/src/client.ts:528-531 | a client that resumes with its running maximum gets exactly the messages it has not received, in order |
| DispatchBuffer.ResumeIsExactIff | server/internal/hub/hub.go:375-382 | for rising seqs the resume is complete exactly if at most 1000 messages are missing |
| HubIndex.Hub.SubscribeMp | server/internal/hub/mp_channels.go:20-38 | adds exactly the named channels to both maps, which stay inverse |
| HubIndex.Hub.UnsubscribeMp | server/internal/hub/mp_channels.go:42-58 | takes the connection out of every channel by walking only its own, leaving no empty set |
| HubIndex.Hub.Subscribers | server/internal/hub/mp_channels.go:64-72 | the fan-out snapshot holds each subscriber once |
| HubIndex.Hub.SendTo | server/internal/hub/hub.go:217-239 | one dispatch enters the key's buffer once per registered connection, nothing else changes |
| HubIndex.Hub.Unregister | server/internal/hub/hub.go:147-182 | the connection is in no list and no channel, others are untouched, the last one takes the buffer along, and a repetition changes nothing |
| HubIndex.Hub.GcStaleClients | server/internal/hub/hub.go:197-215 | the loop over all lists keeps and leaves open the connections heard from within the timeout, closes and drops the others, and touches nothing if there are none |
| HubIndex.SweepKeepsTheLiving | server/internal/hub/hub.go:197-215 | membership after a sweep, both directions |
| HubIndex.SweepByHeartbeat | server/internal/hub/hub.go:197-215 | in heartbeats: a connection heard from within the timeout stays listed and open, any other is closed and in no list, and if all were heard from nothing changes |
| HubIndex.SweptBufferStays | server/internal/hub/hub.go:147-161 | the buffer of a key whose last connection was swept outlives that connection's Unregister, which would drop it without the sweep |
| HubReplay.BufferIsLastPushes | server/internal/hub/hub.go:394-406 | after any dispatches to a key its buffer holds the last 1000 of all the copies |
| HubReplay.ResumeOnceIff | server/internal/hub/hub.go:217-226 | a resume replays every dispatch at most once exactly if none above its seq went to two or more connections with two copies still retained |
| HubIndex.KeysInjective | server/internal/hub/mp_channels.go:14-16 | channel keys are injective for appids without NUL |
| HubIndex.KeysClash | server/internal/hub/mp_channels.go:14-16 | and not with it |
| HubIndex.ClientsApart | server/internal/hub/hub.go:416-418 | two clients share lists and buffer only if they are the same one, for roles without a colon |
| StreamSessions.StreamSession.Push | sdk/ts/src/stream_session.ts:45-63 | throttled flush or one tail timer, as specified |
| StreamSessions.FramesAreGrowingPrefixes | sdk/ts/src/stream_session.ts:45-98 | frames are strictly growing non-empty prefixes of the pushed text |
| StreamSessions.UnsentTextHasTimer | sdk/ts/src/stream_session.ts:45-63 | while open, unsent text has a timer due within both throttle and tail of its oldest push |
| StreamSessions.EndSendsAll | sdk/ts/src/stream_session.ts:67-76 | end makes the whole text the last frame |
| StreamSessions.ClosedIsSilent | sdk/ts/src/stream_session.ts:78-85 | after end or abort nothing is sent |
| StreamThrottle.PushSendsIff | sdk/ts/src/stream_session.ts:45-63 | a push sends the whole text at once exactly if the throttle has passed since the last frame and there is something new; otherwise nothing, but a timer is due within both limits |
| StreamThrottle.PushKeepsDistance | sdk/ts/src/stream_session.ts:45-63 | in any run a frame sent by a push comes at least a throttle after the frame before it |
| StreamThrottle.PushFramesAreFew | sdk/ts/src/stream_session.ts:45-63 | pushes cause at most one frame per throttle interval, and one more, in any stretch of time |
| StreamThrottle.AllFramesAreFew | sdk/ts/src/stream_session.ts:45-98 | the same for all frames, with the timers' and end's |
| FrameHandoff.FrameIterator.Resume | sdk/ts/src/client.ts:666-673 | the awaiting generator goes on with the frame or ends |
| FrameHandoff.NothingLost | sdk/ts/src/client.ts:630-679 | yielded, in flight and queued frames are the arrived ones in order, in every interleaving before the end |
| FrameHandoff.YieldedIsPrefix | sdk/ts/src/client.ts:630-679 | over the whole run the yielded frames are a prefix of the arrived ones |
| FrameHandoff.WaiterHasEmptyQueue | sdk/ts/src/client.ts:640-647 | a waiting consumer means an empty queue, and the next frame wakes it |
| FrameHandoff.EndingStep | sdk/ts/src/client.ts:648-678 | a step ends the generator exactly if the loop condition is false, the promise was rejected or the consumer returns, and then frames are lost exactly if some are left |
| FrameHandoff.EndedRun | sdk/ts/src/client.ts:630-679 | every ended run: its ending step, and all arrived frames were yielded exactly if none was left at it |
| FrameHandoff.WaiterIsEnded | sdk/ts/src/client.ts:648-660 | a close or an error ends a consumer that waits |
| FrameHandoff.CloseAllowsOne | sdk/ts/src/client.ts:654-678 | after a close at most the frame in flight is yielded, whatever arrives or is pulled |

## Left out

- HTTP and WebSocket transport, tokens, reconnect back-off, and the adapter's transport-level resend, which would break at-most-once application.
- The repository layer: IncrUnread is a counter bump, UpdateContent is atomic; membership and approval checks before it are not part of this model.
- JSON encoding: content is a value; malformed stored JSON, schema_ver, preview text and quotes are not modelled.
- Broadcasts, presence, agent status, notifications; the hub's Send channel of a client and the messages dropped when it is full.
- CardQueue.OneAtATimeInOrder: the promise chain and the concurrent callers are a step machine on values, not objects; a caller's promise settles as soon as its job ends, and ready reactions may run in any order; which value a patch carries is in CardSpec.
- CardMostReached.RingsTwiceIff: the closed form holds for lists that append no id twice; for lists that bring an id back after its card was left, CardMostReached.CountsAtLeastIff is the condition.
- RpcRegistry.RPCRegistry.TakeEntry: Go's goroutines, channels and contexts are fields and steps; an id is a fresh number instead of a uuid.
- HubIndex.Hub.SendTo: messages with equal data are told apart by their seq only, and HubReplay takes rising seqs; a buffer deleted in between is a new one.
- HubIndex.Hub.Unregister: connections are handles with heartbeats and closed marks beside them, and a key's buffer is the value the ring denotes.
- HermesSession.EventConsumer.Dispatch: one conversation, its lookup always succeeds; image rewriting and the text-taken marks are not modelled, and an approval's own request to the store is delivered like the session's.
- HermesSession.AggregateSession.SettleUnfinishedElements: the plugin's io wrapper is modelled for delivered calls, where a new stored message is the new card and an appended element belongs to the current card; with failures only the SDK results hold.
- ElementIds.GeneratedIdLength: an explicit empty id counts as an id, as in TypeScript; Python generates one instead.
- AggregateCards.AggregateCard.Append: in finish the footer key mapped to duration is durationMs, as in TypeScript; Python names it duration_ms. Calls of one card are awaited in turn here, and their overlap is the subject of CardQueue, without finish.
- StreamSessions.StreamSession.Push: the clock is a parameter, timers fire when the event list says so; Python starts with a last flush of minus infinity.
- Easy members (registries, configuration, tables, password and token checks), the apps, the CLI and the docs site.
