# TeriChat protocol models

Dafny models of the stateful protocols of a chat server and its desktop client,
with proofs about whole runs, interleavings and agreement between components.

| file | what it models |
|---|---|
| `Ledger.dfy`, `LedgerDb.dfy` | the credit ledger: what a transfer or mint must answer, and the transactions that do it row by row |
| `LedgerConcurrency.dfy` | any number of transfers and mints interleaved under slots, row locks and the unique transaction id |
| `LedgerReference.dfy` | the same ledger as a mere list of posted requests, which all its answers follow |
| `LedgerHistory.dfy` | keyset paging through an account's postings |
| `Gateway.dfy`, `GatewayPump.dfy` | event delivery: outbox worker, bounded broadcast receiver, replay scan, lag rescan, redelivery window |
| `Messaging.dfy`, `MessagingDb.dfy` | one conversation on the server: sequenced sends, idempotency keys, read markers, history pages |
| `DirectMessages.dfy` | racing requests to open a direct message |
| `Store.dfy`, `ChatStore.dfy` | the client's message list and chat store |
| `ClientSync.dfy`, `HistorySync.dfy` | the client's history drain against a moving server, and the object that runs it |
| `Workspaces.dfy` | roles, ranks, bans, channel seats, overrides and invites of one workspace |
| `WorkspaceOutcomes.dfy` | exactly when each workspace operation succeeds and what it changes |
| `WorkspaceDb.dfy`, `Text.dfy` | the tables that hold all workspaces and all conversations, and the transactions over them |
| `Invites.dfy` | racing joiners of capped invites |
| `Stats.dfy` | counters folded exactly once from the outbox |
| `Typing.dfy` | the typing throttle |

Where the program changes rows or fields step by step, a class does the same
(`LedgerDb.Database`, `Scanner`, `Connection`, `Outbox`, `Conversation`, `ChatStore`,
`HistorySync`, `WorkspaceDb.Database`, `StatsDb`, `TypingBus`), and every method is proved
to answer and to leave behind what a pure function of the old state says
(`Execute`, `Advance`, `Pump`, `Apply`, `Step`, `Process`, …). The laws are then
lemmas about runs of those functions, so they hold of the methods. Protocols
whose point is interleaving (ledger transactions, invite joiners, direct-message
requests, stats workers, gateway and outbox workers, client and server) are
machines over small steps, one per lock, statement or message.

Assumptions taken from the code's use of its database: every statement after a
lock wait sees all prior commits (READ COMMITTED); membership, `(conversation,
client message id)`, wallet owner and transaction id are unique; `next_seq`
starts at 1 and a seat's marker at 0. Row ids are fresh naturals, allocated in
an order that says nothing about the order of commits. Time, ids and fault
points (a failing request, a crash, a failed statement) are parameters of the
steps, so results hold for every choice of them.

Places where code and comments differ, or a claim needs its condition:

- A conversation row that carries an explicit `null` position overwrites a known
  one, although the comment in `store.ts` says positions only move forward.
  `ChatStore.RewindsIffNull` gives the exact condition, `ChatStore.NullRewinds`
  an input.
- The rank rule that guards setting a channel override does not guard removing
  one. `Workspaces.RightsChangesAreRanked` says exactly when a member's right
  changes without an actor ranked above him: when a channel manager removes an
  override that decided it (`Workspaces.LiftsAgainstRank`).
  `Workspaces.LiftingIsUnranked` is a run that does so.
- Ids are not commit-ordered, so an event that was broadcast before a connection
  subscribed, and whose id does not lie beyond the resume position, is missed
  unless it is broadcast again or an overrun of the receiver makes the
  connection rescan everything (`Gateway.Missed`). `Gateway.AtRestAllIsSent`
  says that exactly these events are unsent at rest; `Gateway.ExceptionIsReal`
  shows one.
- A ban that arrives between a joiner's look and its commit does not stop the
  join: `Invites.SeatsBannedIffBannedSince`, with a run in
  `Invites.BannedGetsSeated`.
- An invite outlives the rank of whoever issued it, so the privilege ceiling
  holds exactly while no open invite reaches it
  (`Workspaces.CeilingIffNoOpenInvite`, `Workspaces.OldInvitesLeak`).

## Model

| member | source | states |
|---|---|---|
| LedgerDb.Database.EnsureWallet | apps/server/src/ledger.rs:324-376 | insert-or-ignore plus read back opens a missing wallet exactly as the serial ledger does, and reports an unknown owner without touching the book |
| LedgerDb.Database.ReadBalance | apps/server/src/ledger.rs:161-178 | only the owner may ask; the answer is the derived sum of the wallet's postings, and a missing wallet is opened |
| LedgerDb.Database.Transfer | apps/server/src/ledger.rs:477-584 | validation, wallets, idempotency, insertion, zero-sum and overdraft checks with rollback amount to one serial `Execute`: same answer, same book |
| LedgerDb.Database.Mint | apps/server/src/ledger.rs:599-690 | the same for issuing credits from the treasury |
| Ledger.RunKeepsValid | apps/server/src/ledger.rs:541-565 | every run keeps: each transaction id has exactly its two zero-sum legs, an account has at most one posting per transaction, wallets have distinct accounts |
| Ledger.RunSolvent | apps/server/src/ledger.rs:586-690 | in every run the treasury is minus what was minted and no group of user accounts holds less than zero or more than that |
| Ledger.UserBalanceBounds | apps/server/src/ledger.rs:566-575 | a user's balance is never negative and never above the total minted |
| Ledger.CastIsSafe | apps/server/src/ledger.rs:566-575 | in every run, while what it has issued fits an i64, no request is refused by the BIGINT cast of the overdraft check |
| Ledger.BalanceReadIsSafe | apps/server/src/ledger.rs:161-178 | nor does the cast of a balance read ever fail then: a known owner is answered an amount between zero and what was issued |
| Ledger.DedupedIffRepeat | apps/server/src/ledger.rs:500-513 | a request is answered as a duplicate if and only if an equal one was posted earlier in the run |
| Ledger.RetriesErase | apps/server/src/ledger.rs:500-583 | deleting every repeat of a posted request from a run leaves the same book |
| LedgerReference.AnswersAreVerdicts | apps/server/src/ledger.rs:477-584 | every answer follows from the list of requests posted before and nothing else: forbidden, not positive, to oneself, unknown user, duplicate, reused id, then insufficient funds exactly when the sender holds less than the amount by that list, and otherwise posted; a mint with a new id to a known user is always posted |
| LedgerReference.BalanceIsHeld | apps/server/src/ledger.rs:161-178 | a balance read of a known user answers what was minted to and moved to and from that user, an unknown one is told so |
| LedgerReference.PostedMovesOnce | apps/server/src/ledger.rs:541-553 | a posted request lowers its source and lifts its target by exactly its amount, and changes no other account |
| LedgerReference.ConcurrentAnswersAreVerdicts | apps/server/src/ledger.rs:382-584 | under any interleaving each request got the answer of the list of those answered before it |
| LedgerConcurrency.Linearizable | apps/server/src/ledger.rs:382-584 | for any interleaving of transfers and mints and any transactions that fail, the committed book is the serial run of the answered requests in answer order, and each got the serial answer |
| LedgerConcurrency.CommittedBookLaws | apps/server/src/ledger.rs:599-690 | hence two legs, solvency and no overdraft hold of every committed book under concurrency |
| LedgerConcurrency.CommitIsExecute | apps/server/src/ledger.rs:541-584 | what one transaction commits equals the serial execution at its commit |
| LedgerConcurrency.RefuseIsExecute | apps/server/src/ledger.rs:485-575 | every refusal equals the serial refusal at that moment and leaves the book alone |
| LedgerConcurrency.FallbackNeverDedupes | apps/server/src/ledger.rs:519-540 | the fallback after losing the insert race always reports a reused id, never a duplicate |
| LedgerConcurrency.RaceIsBetweenStrangers | apps/server/src/ledger.rs:519-540 | that fallback is reachable only against a request on two other accounts |
| LedgerConcurrency.NoWaitCycle | apps/server/src/ledger.rs:376-416 | no reachable state has a cycle of transactions waiting for each other, of any length |
| LedgerConcurrency.NeverStuck | apps/server/src/ledger.rs:496-518 | whenever requests are in flight, one of them can take its next step |
| LedgerConcurrency.EverybodyIsAnswered | apps/server/src/ledger.rs:496-583 | from any reachable state all requests in flight can be run to their answers, one each, without any of them failing |
| LedgerHistory.LinesAreDistinct | apps/server/src/ledger.rs:541-553 | in a valid book an account's history lines have distinct transaction ids, so an id is a cursor |
| LedgerHistory.LinesArePostings | apps/server/src/ledger.rs:742-750 | an account's lines are its postings, debits and credits alike, with their amounts and their transactions' times, and nothing else |
| LedgerHistory.HistoryAnswers | apps/server/src/ledger.rs:715-766 | strangers and cursors that are no transaction of one's own are refused, and nothing else is; a page holds the newest lines beyond its cursor, as many as the limit clamped to 1..100, and fewer only at the end |
| LedgerHistory.WalkIsComplete | apps/server/src/ledger.rs:715-766 | over any lines with distinct transactions, following the cursors to an empty page yields each line exactly once, in descending (time, id) order, for any limit and any ties |
| LedgerHistory.WalkEnds | apps/server/src/ledger.rs:715-766 | such a walk takes at most one page more than there are postings |
| LedgerHistory.GrowthNeverRepeats | apps/server/src/ledger.rs:715-766 | commits between pages never make a posting come back |
| LedgerHistory.RunHistoryIsComplete | apps/server/src/ledger.rs:715-766 | after any run of the ledger such a walk yields every posting of the account exactly once with its own amount and time, and no other line, newest first with ties by id, in at most one page more than there are postings |
| LedgerHistory.RunningHistoryNeverRepeats | apps/server/src/ledger.rs:715-766 | pages read at any moments of a run, with commits in between, never show a posting twice |
| Gateway.EventsAfterIsPage | apps/server/src/messaging.rs:780-808 | a page is ascending, lies beyond the position, and skips no visible row before its end |
| Gateway.ReplayIsComplete | apps/server/src/gateway.rs:429-480 | a scan over a growing outbox returns ascending ids within its ceiling, includes every visible row committed at its start, has an empty buffer when done, and ends |
| GatewayPump.Scanner.Next | apps/server/src/gateway.rs:456-480 | the in-place scan with buffer, cursor and done flag is `Advance` |
| GatewayPump.Connection.Turn | apps/server/src/gateway.rs:198-273 | one turn of the connection loop, with its bounded window of sent ids, is `Pump` |
| GatewayPump.Connection.Receive | apps/server/src/gateway.rs:284-308 | a full receiver drops its oldest event and remembers that it lagged |
| GatewayPump.Outbox.Round | apps/server/src/messaging.rs:813-833 | a worker's round takes the world through exactly a claim, one broadcast per claimed row, and then the marking of all of them or its failure |
| Gateway.NoEventIsLost | apps/server/src/gateway.rs:198-273 | in every reachable state each committed event of the member is still to be broadcast, sent, in hand, queued, behind a pending rescan, in the scan's buffer or its unread range, or was broadcast before the subscription at or below the resume position |
| Gateway.AtRestAllIsSent | apps/server/src/gateway.rs:198-308 | at rest exactly those of the member's events have been sent that were not missed: broadcast before the subscription, not beyond the resume position, and neither broadcast again nor followed by an overrun of the receiver |
| Gateway.MissedIsUnsent | apps/server/src/gateway.rs:198-230 | such an event is not sent at any moment of the run, at rest or not |
| Gateway.QuietConnectionRests | apps/server/src/gateway.rs:284-308 | when nothing more is committed or broadcast, a bounded number of turns brings the connection to rest, where it stays |
| Gateway.QuietConnectionSends | apps/server/src/gateway.rs:198-273 | what any connection has sent by then, event by event and in order: the scan by ascending id, a rescan after a lag, and the live queue in the order of broadcast, without events that are not visible or among the last 1024 sent |
| Gateway.LiveEventsKeepOrder | apps/server/src/gateway.rs:294-300 | a caught-up connection sends its queue in the order of broadcast, two turns an event |
| Gateway.PushKeepsNewest | apps/server/src/gateway.rs:199-199 | the receiver keeps the newest 1024 entries in order and notes a loss exactly when there is one |
| Gateway.NewEventArrives | apps/server/src/messaging.rs:813-833 | a new event of the member that is committed, claimed, broadcast and marked is sent after a bounded number of turns |
| Gateway.IdleIffDrained | apps/server/src/gateway.rs:284-308 | the pump has nothing to do exactly when buffer, receiver, lag mark and scan are empty |
| Gateway.NoNearDuplicate | apps/server/src/gateway.rs:240-273 | no event is sent twice within the redelivery window |
| Gateway.ExceptionIsReal | apps/server/src/gateway.rs:198-230 | a run in which an event allocated before the one the client resumes at, but broadcast after it and before the subscription, is never sent |
| MessagingDb.Conversation.SendMessage | apps/server/src/messaging.rs:511-600 | the send transaction is `Apply`: sizes, membership, idempotency lookup, position, row, event, sender's marker |
| MessagingDb.Conversation.InsertMessage | apps/server/src/messaging.rs:635-687 | one message row and one event carrying its id, position and sender |
| MessagingDb.Conversation.MarkAsRead | apps/server/src/messaging.rs:610-631 | the marker is clamped to existing positions, never lowered, and returned |
| MessagingDb.Conversation.History | apps/server/src/messaging.rs:696-718 | a member gets the messages after a position, capped; a stranger gets nothing |
| Messaging.EveryRunIsSequenced | apps/server/src/messaging.rs:511-600 | every run holds exactly the positions 1..next_seq-1, one message and one matching event each, one message per client id |
| Messaging.CreatedIffNewClient | apps/server/src/messaging.rs:545-583 | a send creates a row if and only if its client id is new; otherwise nothing changes |
| Messaging.RetryReturnsOriginal | apps/server/src/messaging.rs:545-558 | whatever happened since, a retry answers with the row first stored and changes nothing |
| Messaging.MarkersNeverSkip | apps/server/src/messaging.rs:584-631 | in every run each position at or below a marker is the user's own or at most what that user acknowledged, and the marker is below next_seq |
| Messaging.MarkersOnlyRise | apps/server/src/messaging.rs:584-631 | within a seat a marker only rises, and a send moves only its sender's, by one |
| Messaging.MarkReadReaches | apps/server/src/messaging.rs:610-631 | marking read answers the stored marker, which covers every message up to the asked position and rises no further than asked; no other marker moves |
| Messaging.NewSendStores | apps/server/src/messaging.rs:560-599 | a new message takes the next position with its own ids, its event is queued, and the marker of a sender who had read everything steps over it, and no other |
| Messaging.SendAnswers | apps/server/src/messaging.rs:519-558 | exactly when a send is refused for its size or for want of a seat, and that only a new message changes anything |
| Messaging.SeatsChangeOneByOne | apps/server/src/workspaces.rs:660-703 | a new seat has read nothing, an existing one is kept, and leaving removes just one |
| Messaging.PageIsStretch | apps/server/src/messaging.rs:696-718 | for every asked position and limit, a history page is the hole-free stretch right after the position, as long as the clamped limit allows |
| DirectMessages.AnswersAgree | apps/server/src/messaging.rs:368-432 | however requests race and whatever hashes collide, all answers for two people name one conversation with just these members |
| DirectMessages.SelfAnswersDiffer | apps/server/src/messaging.rs:361-368 | a conversation with oneself is a new one each time |
| DirectMessages.LoneRequestFinds | apps/server/src/messaging.rs:400-425 | a request that finds the lock free is answered with the conversation that is there |
| DirectMessages.LoneRequestCreates | apps/server/src/messaging.rs:426-431 | or creates one with just these members when there is none, and always for oneself |
| DirectMessages.VanishFreesLock | apps/server/src/messaging.rs:318-322 | a request that is cancelled frees its lock and creates nothing |
| Store.MergeMessages | apps/desktop/src/lib/store.ts:102-120 | the two-index loop is the specified merge |
| Store.MergeFacts | apps/desktop/src/lib/store.ts:88-120 | a merge is sorted, keeps what was there, represents all that came, adds nothing else and brings in no duplicate |
| Store.MergeIsIdempotent | apps/desktop/src/lib/store.ts:97-120 | merging the same rows again changes nothing |
| Store.UnreadIsNotOwn | apps/desktop/src/lib/store.ts:44-56 | the unread count is the number of positions after the marker, up to the newest known, that are not loaded as the reader's own |
| Store.UnreadNeverUndercounts | apps/desktop/src/lib/store.ts:37-56 | others' messages are never undercounted, and the count is exact once all of the reader's own are loaded |
| Store.LatestIsNewest | apps/desktop/src/lib/store.ts:51-52 | the newest known position is the largest of marker, announced position and loaded positions |
| Store.ReadableThrough | apps/desktop/src/lib/store.ts:58-68 | the loop ends at the largest gapless extension of the marker |
| ChatStore.UpsertFacts | apps/desktop/src/lib/store.ts:122-145 | an upsert keeps one row per id in order, touches one row, and merges it without rewinding known positions |
| ChatStore.UpsertedRow | apps/desktop/src/lib/store.ts:122-145 | a listed row takes the members that came and keeps the newer of two known positions |
| ChatStore.RewindsIffNull | apps/desktop/src/lib/store.ts:122-145 | a list row rewinds a known position if and only if it carries an explicit null for it |
| ChatStore.NullRewinds | apps/desktop/src/lib/store.ts:126-142 | an input on which a null erases a known position |
| ChatStore.RunKeepsOrder | apps/desktop/src/lib/store.ts:343-437 | every run of store operations keeps rows unique and ordered and lists sorted and free of duplicates |
| ChatStore.RunMovesForward | apps/desktop/src/lib/store.ts:343-437 | no run without null rows and removals lowers a marker, a position or a cursor, or loses a message |
| ChatStore.RedeliveryIsErased | apps/desktop/src/lib/store.ts:424-437 | a redelivered event changes nothing, whatever came in between |
| ChatStore.AnnouncedStaysUnread | apps/desktop/src/lib/store.ts:431-435 | an announced position keeps the conversation unread until the marker reaches it or it proves to be the reader's own, even if its fetch never succeeds |
| ChatStore.AddedRow | apps/desktop/src/lib/store.ts:349-351 | a new conversation is listed as it came and no other row is touched |
| ChatStore.EnsuredRow | apps/desktop/src/lib/store.ts:353-360 | a missing row is created empty, an existing one is kept |
| ChatStore.LoadedMessages | apps/desktop/src/lib/store.ts:362-387 | history, replies and pages load what came and lose nothing, and only a page moves the cursor, to its newest position |
| ChatStore.MarkerSet | apps/desktop/src/lib/store.ts:395-400 | a marker rises to the position, is created only when asked, and nothing else moves |
| ChatStore.ReceivedEvent | apps/desktop/src/lib/store.ts:424-437 | a first-seen event becomes the resume position and lifts the announced position of its row |
| ChatStore.Forgotten | apps/desktop/src/lib/store.ts:403-411 | a forgotten conversation loses row, messages and cursor, the others nothing |
| ChatStore.ChatStore.MergeHistoryPage | apps/desktop/src/lib/store.ts:380-387 | a page merges and lifts the history cursor to its highest position, and nothing else does |
| ChatStore.ChatStore.SetReadMarker | apps/desktop/src/lib/store.ts:395-400 | the marker only rises, and an absent one is created only when asked |
| ChatStore.ChatStore.ApplyGatewayEvent | apps/desktop/src/lib/store.ts:424-437 | a new event is recorded and raises the announced position of its row, created if missing; a seen one yields nothing |
| HistorySync.HistorySync.RefreshHistory | apps/desktop/src/App.tsx:251-264 | a trigger starts a drain at the cursor or sets `again` on the running one |
| HistorySync.HistorySync.PageArrived | apps/desktop/src/App.tsx:268-290 | an arriving page merges, moves the cursor, and leads to the next page, another attempt, or the end |
| HistorySync.HistorySync.PageFailed | apps/desktop/src/App.tsx:281-290 | a failure ends the drain unless a trigger came meanwhile |
| HistorySync.HistorySync.OnEvent | apps/desktop/src/App.tsx:392-420 | an event that announces a message refreshes its conversation when new, or when redelivered while its row is missing, and moves no marker; any other event is only remembered |
| HistorySync.HistorySync.OnSent | apps/desktop/src/App.tsx:695-715 | the reply to a send is merged without touching the cursor, and a caught-up marker steps over it |
| HistorySync.HistorySync.ReadTarget | apps/desktop/src/App.tsx:800-817 | what is marked read is gapless from the known marker and cannot be extended |
| ClientSync.NoLostWakeup | apps/desktop/src/App.tsx:247-295 | once an event announcing a position is handled, until the cursor reaches it a request issued since is in flight, owed by `again`, or has failed, in every interleaving |
| ClientSync.AtRestAllIsLoaded | apps/desktop/src/App.tsx:392-420 | with no job running and no failed request since, all messages up to an announced position are loaded |
| ClientSync.HistoryIsGapless | apps/desktop/src/lib/store.ts:362-387 | the list is strictly ascending, holds only the server's rows, and each position up to the cursor exactly once, whatever pages, failures, repeats and far-ahead replies came |
| ClientSync.PagesAdvance | apps/desktop/src/App.tsx:268-280 | a full page moves the cursor by exactly its size, so the "did not advance" error is dead, and a drain ends at or beyond what the server held when asked |
| ClientSync.ClientMarkerNeverSkips | apps/desktop/src/App.tsx:706-711 | the mirrored marker obeys the server's coverage claim in every run |
| ClientSync.EchoAdvances | apps/desktop/src/App.tsx:701-712 | the reply to a send is loaded at once, a caught-up marker steps over it, and the cursor stays |
| ClientSync.LearnAdvances | apps/desktop/src/App.tsx:830-836 | a reported marker is taken over unless the client is ahead of it |
| ClientSync.HearIsRemembered | apps/desktop/src/App.tsx:392-420 | a handled event is remembered, triggers a refresh when new or not loaded, and does nothing otherwise |
| ClientSync.RefreshIsHeard | apps/desktop/src/App.tsx:251-264 | a trigger marks the running drain or starts one from the cursor |
| ClientSync.QuietDrainEnds | apps/desktop/src/App.tsx:266-292 | on a quiet server a drain ends at the newest message after one request per full page, a short one, and one more if asked again |
| Workspaces.EveryWorkspaceIsSound | apps/server/src/workspaces.rs:935-1325 | every run keeps: an owner, no banned member, channel seats equal to the members, member overrides only for members and only for sending, distinct channel names, invites within their cap and never granting ownership |
| Workspaces.JoinerGetsRoleDefaults | apps/server/src/workspaces.rs:633-655 | whoever gains a seat, also after a kick, ban or leave, has in every channel exactly what the role gives |
| Workspaces.OnlySendingIsOverridden | apps/server/src/workspaces.rs:1544-1561 | every permission but sending follows the role alone |
| Workspaces.BannedStaysOut | apps/server/src/workspaces.rs:1155-1219 | until someone lifts the ban, a banned user is no member and sits in no channel |
| Workspaces.RoleChangesAreRanked | apps/server/src/workspaces.rs:517-528 | when a non-owner acts, a role changes only by leaving, by a usable invite, or by someone ranked above both the old and the new role |
| Workspaces.OnlyOwnersMakeOwners | apps/server/src/workspaces.rs:991-1048 | as long as no owner acts the set of owners stays the same |
| Workspaces.PrivilegeCeiling | apps/server/src/workspaces.rs:1830-1888 | actors of rank at most k (at most admin), with no open invite granting k or more, never lift anyone to k, nor touch anyone at k or above who does not act |
| Workspaces.CeilingIffNoOpenInvite | apps/server/src/workspaces.rs:1958-2082 | with a newcomer among such actors, the ceiling holds over all runs if and only if no invite open now grants that rank |
| Workspaces.OldInvitesLeak | apps/server/src/workspaces.rs:1958-2082 | a run from the founding in which the admin who issued an invite is demoted and the ceiling fails |
| Workspaces.RightsMoveByOverrides | apps/server/src/workspaces.rs:1544-1690 | when a non-owner acts, a right of a member who keeps his role moves only for sending, and only by an override set from above his role or by the removal of one that concerns him |
| Workspaces.RightsChangesAreRanked | apps/server/src/workspaces.rs:1544-1690 | when a non-owner acts and a member keeps his role, a right of his changes without an actor ranked above him if and only if a channel manager removes an override that decided it |
| Workspaces.LiftingIsUnranked | apps/server/src/workspaces.rs:1633-1690 | a run from the founding in which an admin may not override the silence set on him, and removes it instead |
| Workspaces.OverrideDecides | apps/server/src/workspaces.rs:1739-1788 | a successful override decides for the member it names, and for a role's holders that have no override of their own |
| Workspaces.IssuedUntilDeadline | apps/server/src/workspaces.rs:1830-1862 | a new invite is usable exactly until its creation time plus its lifetime |
| Workspaces.DeadInviteStaysDead | apps/server/src/workspaces.rs:1958-1969 | a revoked, expired or used-up invite stays unusable and its uses stay put, whatever happens later |
| WorkspaceOutcomes.KickOutcome | apps/server/src/workspaces.rs:1057-1106 | for sound spaces, a kick succeeds exactly when an unbanned moderator, admin or owner removes a member standing below (owners anyone) who is not the last owner; then the target is no member, in no channel and named by no override, and nothing else has changed |
| WorkspaceOutcomes.LeaveOutcome | apps/server/src/workspaces.rs:1108-1145 | a member leaves exactly when not the last owner, with the same effect |
| WorkspaceOutcomes.BanOutcome | apps/server/src/workspaces.rs:1155-1219 | a ban succeeds exactly for admins and owners under the same rank rule with a reason of at most 500 trimmed characters, expels the target and bans no one else |
| WorkspaceOutcomes.UnbanOutcome | apps/server/src/workspaces.rs:1221-1262 | admins and owners lift a ban; nobody is seated by it |
| WorkspaceOutcomes.AddOutcome | apps/server/src/workspaces.rs:935-983 | who may add whom in which role, and that the newcomer sits in every channel |
| WorkspaceOutcomes.RoleOutcome | apps/server/src/workspaces.rs:991-1048 | who may give whom which role, the last owner kept, and that one role changes |
| WorkspaceOutcomes.CreateOutcome | apps/server/src/workspaces.rs:1272-1340 | admins and owners open a channel under a free trimmed name, with every member seated and no override |
| WorkspaceOutcomes.RenameOutcome | apps/server/src/workspaces.rs:1431-1474 | admins and owners rename it to a free name, and nothing else of it changes |
| WorkspaceOutcomes.DeleteOutcome | apps/server/src/workspaces.rs:1482-1532 | admins and owners delete it, and it alone is gone |
| WorkspaceOutcomes.OverrideOutcome | apps/server/src/workspaces.rs:1544-1625 | who may override what for whom, and that just this override is set |
| WorkspaceOutcomes.LiftOutcome | apps/server/src/workspaces.rs:1633-1690 | admins and owners remove an override, and just this one |
| WorkspaceOutcomes.UnoverriddenRight | apps/server/src/workspaces.rs:140-157 | where no override concerns a member, the table of roles and permissions decides |
| WorkspaceOutcomes.InviteOutcome | apps/server/src/workspaces.rs:1830-1892 | who may issue which invite, never for ownership, with which cap and lifetime, and what is stored |
| WorkspaceOutcomes.RevokeOutcome | apps/server/src/workspaces.rs:1923-1955 | managers revoke an invite of their workspace, which is then of no use at any time |
| WorkspaceOutcomes.JoinOutcome | apps/server/src/workspaces.rs:1980-2082 | exactly who is banned, rejected, already seated or let in by an invite, as what, and at the cost of one use |
| WorkspaceOutcomes.OutsidersAreTurnedAway | apps/server/src/workspaces.rs:491-509 | strangers hear that they are no members, banned users that they are banned, and neither changes anything |
| WorkspaceDb.Database.AddMember | apps/server/src/workspaces.rs:935-983 | over the rows of all workspaces: the checks in order, then a member row and a participant row per channel; its workspace moves as `Apply` says, no other workspace and no direct message is touched |
| WorkspaceDb.Database.SetRole | apps/server/src/workspaces.rs:991-1048 | permission, both locked rows, rank and last owner, then one row changes, in one workspace |
| WorkspaceDb.Database.RemoveMember | apps/server/src/workspaces.rs:1057-1106 | a kick removes the member row, the participant rows of this workspace's channels and the personal override rows of this workspace, and no others |
| WorkspaceDb.Database.Leave | apps/server/src/workspaces.rs:1108-1145 | leaving does the same for oneself unless one is the last owner |
| WorkspaceDb.Database.BanMember | apps/server/src/workspaces.rs:1155-1219 | a ban also inserts the ban row, after checking the length of the trimmed reason |
| WorkspaceDb.Database.CreateChannel | apps/server/src/workspaces.rs:1272-1340 | the trimmed name is checked, a loop seats every member row of the workspace in a fresh conversation, and a channel row points at it |
| WorkspaceDb.Database.DeleteChannel | apps/server/src/workspaces.rs:1482-1532 | the conversation goes with its participants, its channel row and the channel's overrides |
| WorkspaceDb.Database.SetOverride | apps/server/src/workspaces.rs:1544-1625 | only sending, only current members or roles, only below the actor's rank, in the workspace the channel belongs to |
| WorkspaceDb.Database.ChannelAllowed | apps/server/src/workspaces.rs:1739-1788 | role grant, role override, member override: the most specific wins, strangers and banned users get nothing |
| WorkspaceDb.Database.RevokeInvite | apps/server/src/workspaces.rs:1923-1955 | an invite of another workspace is as unknown as none |
| WorkspaceDb.Database.JoinViaInvite | apps/server/src/workspaces.rs:1980-2082 | the invite names the workspace: unknown, banned, seated and unusable cases, else a seat in it and one use |
| WorkspaceDb.AllStaySound | apps/server/src/workspaces.rs:633-706 | a transaction on one workspace keeps the joint invariant of every workspace in the shared tables |
| Text.TrimFacts | apps/server/src/workspaces.rs:428-438 | trimming removes white space at both ends, all of it, and nothing else |
| Invites.UsesAreSeats | apps/server/src/workspaces.rs:1980-2082 | however joiners race, an invite's uses are the seats it created and never exceed its cap |
| Invites.AlreadySeatedIsFree | apps/server/src/workspaces.rs:2040-2062 | a join that finds the user seated burns no use and leaves no lock behind |
| Invites.CommitIsSerialJoin | apps/server/src/workspaces.rs:2008-2081 | a commit finds the seat free and the invite usable, and equals the atomic join made at the time of its check under the lock if and only if its user is not banned by then |
| Invites.SeatsBannedIffBannedSince | apps/server/src/workspaces.rs:1996-2039 | a commit always seats its user, who is banned exactly when a ban came after the look outside the lock and still stands |
| Invites.BannedGetsSeated | apps/server/src/workspaces.rs:1996-2039 | a run in which this happens |
| Invites.LoneJoinIsRedeem | apps/server/src/workspaces.rs:1980-2082 | a join that finds invite row and member slot free is the atomic join in every case |
| Invites.VanishLeavesNothing | apps/server/src/workspaces.rs:2008-2079 | a joiner that fails halfway leaves no lock, seat or use |
| Invites.RevokedIsRefused | apps/server/src/workspaces.rs:1958-1969 | a revoked invite passes neither check |
| Invites.SomebodyMoves | apps/server/src/workspaces.rs:2008-2039 | whenever a joiner is unfinished some joiner can move |
| Stats.StatsDb.RecordMessage | apps/server/src/stats.rs:148-195 | receipt and both counters together, once per event; unknown scopes are refused |
| Stats.StatsDb.FoldNewEvents | apps/server/src/stats.rs:311-344 | one poll handles the first pending rows in order, gives poison its own receipt, stops at a database failure, and reports as many as it receipted |
| Stats.CountersAreReceipts | apps/server/src/stats.rs:105-195 | in every run of publications in any id order, several workers, crashes and replays, each counter is the number of receipted events and each receipt belongs to one valid event |
| Stats.DrainedCountsAll | apps/server/src/stats.rs:303-325 | with nothing pending each counter is the number of valid published events |
| Stats.TotalIsSumOfConversations | apps/server/src/stats.rs:166-192 | a user's total is the sum of the conversation counters |
| Stats.CeilingRoundsSuffice | apps/server/src/stats.rs:311-344 | ceil(P/200) failure-free rounds leave none of P pending events, poison included |
| Stats.PollAndWorkIsRound | apps/server/src/stats.rs:311-344 | a worker that polls and works off its queue has done exactly one round |
| Stats.BatchIsFirst | apps/server/src/stats.rs:315-326 | a batch is the first 200 pending rows, or all |
| Typing.TypingBus.Admit | apps/server/src/typing.rs:76-96 | refuses on a young slot, otherwise sweeps a large map and reserves |
| Typing.Ticket.Close | apps/server/src/typing.rs:130-140 | an unpublished admission gives back its slot only while it still owns it |
| Typing.SweepingIsInvisible | apps/server/src/typing.rs:86-90 | the swept map answers every admit as one that is never swept |
| Typing.PublishedAreSpaced | apps/server/src/typing.rs:76-140 | two published signals of one account in one conversation were admitted at least two seconds apart |
| Typing.RefusedIffYoungerOne | apps/server/src/typing.rs:71-96 | an attempt is refused if and only if an undropped admission of that key is younger than the interval |
| Typing.AdmitAnswers | apps/server/src/typing.rs:76-96 | every attempt is answered, admitted exactly when no undropped admission of its key is less than two seconds old, and then recorded |
| Typing.SettledOnce | apps/server/src/typing.rs:115-140 | a held admission is published or dropped once, and no other is touched |
| Typing.LargeMapIsSwept | apps/server/src/typing.rs:86-90 | a map of 4096 entries keeps only the young ones and the new one |

## Left out

- HTTP adapters, JSON and text formats, error texts, logging, configuration: plumbing without properties of its own.
- WebSocket frames, timeouts, heartbeats and session checks: a send either succeeds or ends the connection.
- Password hashing, tokens, message sealing and recovery phrases: thin wrappers over libraries that are not part of this model.
- Audit rows, display names, avatars, rendering and notifications: nothing above depends on them.
- Amounts, positions and counters are unbounded integers; the one width that matters, the BIGINT cast of the overdraft check, is modelled.
- UUIDs, invite codes, client keys and hashes are naturals or arbitrary functions; freshness is assumed of new ids only.
- A failed statement rolls its transaction back with no effect; which database error the caller then sees is not distinguished, and whether a transaction survives the unique violation behind the ledger's fallback is taken as the code writes it.
- Wallets opened by a balance read are not among the interleaved ledger transactions; they are in the serial class.
- Gateway membership is fixed for a connection: losing a seat while connected, and removal of unpublished events with a deleted channel, are not modelled.
- The hub's ring buffer is a bounded queue per receiver that drops its oldest entry; a closed hub and several connections of one user are not modelled.
- Client runs do not remove the conversation and do not unmount the view; server rows without a marker are only covered by the chat-store model.
- Client clocks: a message's time is dropped in `ClientSync`, where positions already decide the order.
- Workspace operations are atomic: last-owner races between two leavers, which rest on a trigger that is not part of this model, and seats stranded by a join racing a channel creation with their later healing, are not covered; only invite joins are interleaved.
- Sends are atomic steps: the participant and conversation row locks that serialise them are not interleaved, and a send that loses the unique race for its client id against another sender simply rolls back.
- Conversation deletion with its cascades into messages and counters: the foreign keys are not part of this model.
- Timestamps of counters and list previews: last-writer-wins fields without further use.
- Typing signals are logged when published; their delivery is best effort in the code too. Time is monotone, as the program's clock promises.
- LedgerHistory.GrowthNeverRepeats: does not claim completeness while postings are being added, because newer ones belong on pages already passed.
- LedgerReference.AnswersAreVerdicts: speaks of runs whose amounts and total issuance fit an i64, the width of the amount column; beyond it the overdraft check may answer with an overflow instead.
- WorkspaceOutcomes.CreateOutcome: takes the new channel's id as unused, since the server generates it; so does `WorkspaceOutcomes.InviteOutcome`.
- GatewayPump.Outbox.Round: hands its rows to one connection; the hub serves each receiver separately, so several connections would only repeat the argument.
- Override targets and roles arrive as typed values: parsing them from text is not modelled, trimming of names and ban reasons is.
