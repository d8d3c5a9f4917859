# Cloud Browser: a verified model

Cloud Browser lets an assistant drive a browser that runs on a personal server. Actions may need
a human's approval, the human may take the desktop over, pages may contain secrets, and sites
are approached at a limited rate. This project models the parts on which those promises rest and
proves them for all inputs, all runs and all interleavings.

Concurrent code is modelled as a transition system whose atomic steps are the stretches of code
between two waits. The environment chooses which step comes next, what every worker reply says
and how far the clock moves. Beside each transition system stands a class with the fields of the
original object; each of its methods is proved to take the object from one state of the system
to the next, and `Serve` shows that handling any sequence of events is a run.

| files | what they are about |
|---|---|
| `Protocol`, `ProtocolInvariant`, `ProtocolSteps`, `ProtocolTheorems`, `ProtocolEffects`, `Service` | approval, dispatch and handoffs |
| `Adapter`, `InputDriver`, `Gestures`, `Worker`, `Composition` | whether input left the process, what it does, and how the service learns of it |
| `Store` | rows with expiry, and transactions; the service objects hold its tables |
| `Navigation`, `NavigationTheorems`, `NavigationEffects`, `NavigationService` | calls with a waiting limit, and the operation journal |
| `Schema`, `SchemaTheorems` | compaction of JSON Schemas |
| `TextWalk`, `Protection`, `Privacy` | the privacy-pruned walk over a page |
| `Pacer`, `PacerTheorems`, `PacerEffects`, `PacerService` | the per-host navigation pacer |
| `NodeRegistry` | handles of page elements under a byte budget |
| `Pagination` | observation pages |
| `OAuth`, `OAuthTheorems`, `OAuthEffects`, `OAuthService` | codes, tokens and grants |
| `Masking` | painting over private regions of screenshots |

The `Theorems` files hold what no run may do. The `Effects` files hold the other half, what each event
brings about, stated of events and of the state before and after them, without the step functions.

`dafny verify dfyconfig.toml` checks the whole project.

## How the layers compose

The service may undo its records after an action only when the worker says that nothing was
sent. `Adapter.TabState.Act` proves that the adapter says so truthfully, `Worker.NoSendReplyIsTrue`
that no failure of the pipe or the process can turn into such a reply, and `Composition.CallAct`
that every reply is one the protocol admits (`Protocol.Possible`) for what was really sent. A transport failure counts as
sent, since the adapter may still be at work. In the other direction,
`Composition.UnclearActionLatches` shows that an action which was dispatched and could not be seen through
leaves its session uncertain. The events `Sent` in a run's history are therefore
the inputs that may have reached a page, and `ProtocolTheorems.AtMostOnce` is about those.

Two facts about the outside enter the protocol as conditions on its events. Only `act` is ever
answered with an uncertain result (`src/cloud_browser/worker.py:59`, `:112` and `:130`; the adapter
raises it nowhere else), and a caller names only work sessions that have been opened, never the
reader's (`src/cloud_browser/service.py:429-430`).

The text walk asks `protectionRoot`; `Protection` proves what that answers after a complete scan,
and `Privacy.SecretsStayPrivate` puts both together.

## Where the code differs from its own description

- Replacing a sibling `type` by the merged union can accept more than before
  (`SchemaTheorems.OverwriteWitness`); `SchemaTheorems.OverwriteHarmless` says exactly when it does not.
- Compacting twice can differ from compacting once (`SchemaTheorems.SecondPassWitness`);
  `SchemaTheorems.StableExact` says exactly when it does not.
- `reclaim_session` marks any lease of the session as returning, even a completed one, and a
  failed disconnect then makes it active again (`src/cloud_browser/service.py:2297-2306`).
- While `cancel_handoff` runs the lease already reads "cancelled" although the session is still
  open; only the command lock keeps automation out, and the model's `Protected` covers that window.
- A grant's refresh token may be issued later than its lifetime was computed and so outlive the
  grant by that moment; it is of no use then, because refreshing needs the live grant.

## Model

| member | source | states |
|---|---|---|
| ProtocolTheorems.ApprovalSoundness | src/cloud_browser/service.py:1467-1528 | over every run, a dispatch that needed confirmation or presented a token was proposed for the same session, tab, action, epoch and target, granted afterwards, with no handoff start or completion of that session in between, and less than twice `approval_ttl` after its proposal |
| ProtocolTheorems.RevokedForGood | src/cloud_browser/service.py:1882-1891 | nothing proposed before a handoff start or completion is ever dispatched after it, whatever is approved or rolled back later |
| ProtocolTheorems.AtMostOnce | src/cloud_browser/service.py:1464-1476 | two worker actions that both sent input for the same non-passive session, tab, revision and action: their own dispatches are at least one execution-record lifetime apart |
| ProtocolTheorems.ConsentSpentOnce | src/cloud_browser/service.py:1614-1638 | over every run, at most one dispatch that presented a given token has sent input, whatever the revision |
| ProtocolTheorems.PauseExclusion | src/cloud_browser/service.py:301-312 | while a session is under private control, its closing window included, every worker command issued comes from the private console, except the focus command of the handoff just started; navigations of opens and of the reader are covered like any other command |
| ProtocolTheorems.SingleFlight | src/cloud_browser/service.py:1075-1093 | in every interleaving at most one worker command is in flight, and its task holds the command lock |
| ProtocolTheorems.UncertaintyLatch | src/cloud_browser/service.py:314-319 | between an uncertain outcome and the next action or `navigation_begin` of that session, whether sent by a navigation, by an open with an address or by the reader, lies a completed handoff of it |
| ProtocolTheorems.ReaderNeverUncertain | src/cloud_browser/service.py:683-723 | the reader needs no check before its navigation: its session is never uncertain |
| ProtocolTheorems.RollbackUndoesConsume | src/cloud_browser/service.py:1653-1671 | a no-send reply is the inverse of the consuming transaction: approval row with its original expiry, pending entries and execution record are as before |
| ProtocolTheorems.RollbackRespectsRevocation | src/cloud_browser/service.py:1663-1670 | a record revoked, replaced or expired while the action ran stays as it is |
| ProtocolTheorems.PauseEnds | src/cloud_browser/service.py:1988-2049 | over every run: if a session under a handoff is alive and unprotected at any later point, then since the start of that handoff all its viewers were closed without a failure and after that the worker confirmed its resume |
| ProtocolTheorems.HandoffStarts | src/cloud_browser/service.py:1932-1953 | where a handoff starts in the history: consent revoked, then its focus command, under a fresh handoff id |
| ProtocolTheorems.PauseStep | src/cloud_browser/service.py:1988-2107 | each event leaves a protected session protected by the same handoff, unless the session is gone or its resume was just confirmed; no clock advance ends a pause |
| ProtocolTheorems.UncertaintyEnds | src/cloud_browser/service.py:2023-2029 | one event clears a session's uncertainty only if it is that confirmed resume |
| ProtocolTheorems.ConsentIsHonoured | src/cloud_browser/service.py:1614-1652 | an approved request that matches in every respect is dispatched and its approval consumed |
| ProtocolTheorems.UnconfirmedIsProposed | src/cloud_browser/service.py:1529-1612 | an action that needs confirmation and has no token is proposed under a fresh token and not dispatched |
| ProtocolEffects.DecisionTakesEffect | src/cloud_browser/service.py:1858-1880 | a decision on an outstanding proposal of the current epoch makes its record approved if and only if it was approved, and denied otherwise, with the window each of them has |
| ProtocolEffects.StaleDecisionIsRefused | src/cloud_browser/service.py:1861-1871 | without such a proposal nothing is decided |
| ProtocolEffects.DecisionsStem | src/cloud_browser/service.py:1858-1880 | over every run: every grant and every denial of a token stems from an event that carries out a console decision to exactly that effect, on an outstanding proposal of that token |
| ProtocolEffects.DeniedNeverDispatched | src/cloud_browser/service.py:1872-1880 | over every run, no dispatch presents a token that was denied |
| ProtocolEffects.ActionAdmitted | src/cloud_browser/service.py:1421-1476 | in a live and certain session without private control, an action not dispatched before, with no token or with one that was approved for exactly it, goes to the worker |
| ProtocolEffects.ActionRefused | src/cloud_browser/service.py:1421-1476 | any other action ends without a command |
| ProtocolEffects.NavigationAdmitted | src/cloud_browser/service.py:1334-1352 | a navigation starts exactly in a live, certain session without control or a pending navigation |
| ProtocolEffects.OpenAdmitted | src/cloud_browser/service.py:1227-1300 | with room for one and nobody in control, a new session is opened, certain and with its own lifetime |
| ProtocolEffects.OpenRefused | src/cloud_browser/service.py:1262-1268 | otherwise no session is opened and nothing is sent |
| ProtocolEffects.ReadGoesOn | src/cloud_browser/service.py:683-740 | the reply to each command of a read leads to the next one |
| ProtocolEffects.FreeActionDispatched | src/cloud_browser/service.py:1614-1652 | an action that needs no confirmation is dispatched, with an execution record of the right lifetime unless it is passive |
| ProtocolEffects.NotProposedAgain | src/cloud_browser/service.py:1533-1565 | an outstanding proposal is not repeated, and none is added beyond the bound |
| ProtocolEffects.UncertainReplyLatches | src/cloud_browser/service.py:383-386 | an action that ends unclear, by a silent or broken pipe, a crash or the adapter's own word, leaves its living session uncertain and all records as they are |
| ProtocolEffects.NoSendUndoes | src/cloud_browser/service.py:1653-1671 | a delivered reply that nothing was sent removes the execution record and gives untouched consent back for what was left of it |
| ProtocolEffects.OtherRepliesKeep | src/cloud_browser/service.py:1653-1672 | every other reply leaves approvals and execution records alone |
| ProtocolEffects.CompletionUnobserved | src/cloud_browser/service.py:1714-1726 | a completion that cannot be observed leaves the session uncertain |
| ProtocolEffects.WorkerLossClears | src/cloud_browser/service.py:362-382 | whichever command finds the worker lost: every session, lease and navigation is gone and the records are not |
| ProtocolEffects.BrowserLossForgets | src/cloud_browser/service.py:355-361 | a lost browser takes its own session and no other |
| ProtocolEffects.HandoffTakesControl | src/cloud_browser/service.py:1893-1953 | a handoff is granted exactly in a live session; it revokes the outstanding consent, moves the epoch on, takes the lease and focuses the tab |
| ProtocolEffects.CompletionClosesViewers | src/cloud_browser/service.py:1988-2010 | completing revokes consent again and closes the viewers first |
| ProtocolEffects.ViewersDecide | src/cloud_browser/service.py:2003-2018 | the worker is asked to resume exactly when all viewers were closed; otherwise control goes on |
| ProtocolEffects.ConfirmedResumeReleases | src/cloud_browser/service.py:2019-2031 | a confirmed resume lifts the protection and the uncertainty of its session, and of no other |
| ProtocolEffects.FailedResumeKeeps | src/cloud_browser/service.py:2032-2049 | a failed resume keeps the session under control |
| ProtocolEffects.ClosedIsGone | src/cloud_browser/service.py:2087-2107 | a closed session is gone with its lease; a failed close keeps it under control |
| ProtocolEffects.CapacityKept | src/cloud_browser/service.py:1262-1266 | in every run there are at most as many sessions as the operator allows |
| ProtocolEffects.NobodyIsStuck | src/cloud_browser/service.py:1075-1093 | in every reachable state the task that holds the command lock has a possible step, and when nobody holds it any waiting task may take it |
| ProtocolSteps.NextInv | src/cloud_browser/service.py:1421-1736 | every event, with any worker reply and any choice of the environment, keeps the invariant relating tables, tasks and history |
| ProtocolSteps.RunInv | src/cloud_browser/service.py:1421-1736 | the invariant holds after every run |
| Service.BrowserService.FindProposal | src/cloud_browser/service.py:1535-1557 | the search finds an outstanding proposal for the action and target exactly when there is one, and reports a denial exactly when one is denied |
| Service.BrowserService.DeletePending | src/cloud_browser/service.py:1886-1889 | all pending proposals of the session and their records are deleted, nothing else |
| Service.BrowserService.Handle | src/cloud_browser/service.py:161-2317 | each stretch of the service between two waits, as one method of the object, takes it to the protocol's next state |
| Service.Serve | src/cloud_browser/service.py:1421-1736 | serving any sequence of events is a run of the protocol, so every theorem about runs holds of the object |
| Adapter.TabState.FocusExact | src/cloud_browser/drission.py:2548-2565 | focusing and checking focus sends no input |
| Adapter.TabState.Locate | src/cloud_browser/drission.py:2526-2538 | locating and hit-testing sends no input |
| Adapter.TabState.NativeClick | src/cloud_browser/drission.py:2526-2546 | `dispatched` false means nothing was sent; success means exactly the click's commands |
| Adapter.TabState.FillNode | src/cloud_browser/drission.py:2583-2590 | select all, then insert or delete, and nothing else |
| Adapter.TabState.SendSingle | src/cloud_browser/drission.py:2567-2582 | one command for each single-command action |
| Adapter.TabState.DragNodes | src/cloud_browser/drission.py:2607-2628 | both ends are checked before the first input command |
| Adapter.TabState.Dispatch | src/cloud_browser/drission.py:2567-2679 | `dispatched` is set before anything can be sent, on every branch; success sends exactly the action's commands |
| Adapter.TabState.Observe | src/cloud_browser/drission.py:2680-2705 | observing after a dispatch sends no input; a failure it reports happened |
| Adapter.TabState.Answer | src/cloud_browser/drission.py:2479-2503 | no failure of a dialog answer claims that nothing was done; an answer that failed, or a release left unconfirmed, is uncertain |
| Adapter.TabState.Conclude | src/cloud_browser/drission.py:2706-2740 | the exception mapping: after a dispatch a failure is raised as uncertain, or as a missed goal where it is one |
| Adapter.TabState.Attempt | src/cloud_browser/drission.py:2567-2740 | a claim that nothing was done is true, a claim of completion is exact, and every error after a dispatch is accounted for by a command that failed |
| Adapter.TabState.Perform | src/cloud_browser/drission.py:2741-2744 | the final release sends nothing unless something was pressed; what stays held is kept for later |
| Adapter.TabState.Act | src/cloud_browser/drission.py:2444-2779 | every exit with `performed: false` has sent no input (focus excepted); every completed exit has sent exactly the action; a plain success means that every command went well; an error with `performed: true` is RESULT_UNCERTAIN after a failure, or a missed goal |
| InputDriver.NativeInput.Key | src/cloud_browser/input_driver.py:50-73 | key down and up, the clipboard shortcuts refused before anything is sent; a key stays held only if a press was attempted |
| InputDriver.NativeInput.TypeChar | src/cloud_browser/input_driver.py:81-111 | one character as key events or as explicit insertion |
| InputDriver.NativeInput.TypeText | src/cloud_browser/input_driver.py:75-111 | the characters in order; the empty text sends nothing |
| InputDriver.NativeInput.MouseEvent | src/cloud_browser/input_driver.py:113-130 | one mouse command; a button is held from an attempted press to a confirmed release |
| InputDriver.NativeInput.Click | src/cloud_browser/input_driver.py:132-137 | press and release pairs with rising counts, released even when the press fails |
| InputDriver.NativeInput.Drag | src/cloud_browser/input_driver.py:139-148 | move, press, interpolated moves, release; released even when a move fails |
| InputDriver.NativeInput.Release | src/cloud_browser/input_driver.py:150-169 | sends nothing when nothing is held, only releases otherwise, and something stays held exactly when one of them failed |
| Worker.Worker.Call | src/cloud_browser/worker.py:98-136 | which failures become uncertain, which end the process, and when a command runs at all |
| Worker.Worker.Shutdown | src/cloud_browser/worker.py:171-184 | the process is gone; only a failed clean-up blocks the next start |
| Composition.CallAct | src/cloud_browser/service.py:1644-1652 | one `act` through adapter and worker: every reply is one the protocol admits for what was really sent, and a reply that permits rollback means that nothing was |
| Composition.UnclearActionLatches | src/cloud_browser/worker.py:98-136 | an action that the adapter dispatched and could not see through, whatever becomes of the pipe, leaves its living session uncertain unless the worker is given up with every session; nothing is undone |
| Gestures.FillReplaces | src/cloud_browser/drission.py:2583-2590 | filling leaves exactly the given text in the field, whatever was there, and nothing held |
| Gestures.TypeAppends | src/cloud_browser/input_driver.py:75-111 | typing adds the text in order and leaves nothing held |
| Gestures.ClicksAsNamed | src/cloud_browser/drission.py:2526-2546 | each kind of click presses and releases its own button at the node, twice with counts one and two for a double click |
| Gestures.DragDrops | src/cloud_browser/input_driver.py:139-148 | a drag presses at the start, moves in the given number of steps with the button held, and releases at the end |
| Composition.TruthfulIsPossible | src/cloud_browser/worker.py:98-136 | a truthful exit of the adapter is one the protocol reckons with, whatever becomes of the pipe |
| Worker.NoSendReplyIsTrue | src/cloud_browser/worker.py:15-66 | across every transport failure, a reply that permits rollback proves that no input was sent |
| Store.VacuumInvisible | src/cloud_browser/store.py:38-46 | the clean-up is invisible to every later read |
| Store.PutThenGet | src/cloud_browser/store.py:38-53 | a value is read back exactly until its time to live has passed; other keys are unaffected |
| Store.KeyValueStore.PutRow | src/cloud_browser/store.py:38-46 | insert or replace with an absolute expiry; the occasional clean-up shows in raw rows only |
| Store.KeyValueStore.GetRow | src/cloud_browser/store.py:48-53 | live rows only |
| Store.KeyValueStore.ExpiresAt | src/cloud_browser/store.py:61-66 | the raw expiry, expired or not |
| Store.KeyValueStore.DeleteRow | src/cloud_browser/store.py:68-70 | the key is gone, whatever its expiry |
| Store.KeyValueStore.Pop | src/cloud_browser/store.py:55-59 | read and delete in one transaction |
| Store.KeyValueStore.Rollback | src/cloud_browser/store.py:27-36 | every row as it was when the transaction began |
| NavigationTheorems.NotDispatchedIsTrue | src/cloud_browser/service.py:388-420 | told "not dispatched" means that no worker command was or will be sent for that call, in any continuation |
| NavigationTheorems.OperationIdIsTracked | src/cloud_browser/service.py:1186-1225 | a provisional operation id is in the journal and running exactly until its call and its navigation have both ended |
| NavigationEffects.AnswersAreDue | src/cloud_browser/service.py:403-420 | over every run, whenever a caller is answered: while its call works or its navigation loads it gets the operation id if there is one and "not dispatched" otherwise; a final answer means that all of it is over |
| NavigationEffects.StopThenReturn | src/cloud_browser/service.py:561-571 | a call that stops waiting returns the final result exactly when its navigation is over |
| NavigationEffects.AnsweredOnce | src/cloud_browser/service.py:400-420 | over every run no caller is answered twice |
| NavigationEffects.ArrivalQueues | src/cloud_browser/service.py:495-535 | a call under a new key is journalled as running with its digest exactly when the running records leave room |
| NavigationEffects.CallEnters | src/cloud_browser/service.py:1322-1352 | a call whose caller still waits sends its first command, and an open or navigation has its operation id journalled and on offer before that |
| NavigationEffects.CallRefused | src/cloud_browser/service.py:1186-1200 | abandoned, refused, behind a pending navigation or without room, it sends nothing and its records are completed |
| NavigationEffects.RepliesLeadOn | src/cloud_browser/service.py:871-905 | each reply leads to the next command, to the end, or to a pending navigation listed under the operation id |
| NavigationEffects.TrueRepeatIsReplayed | src/cloud_browser/service.py:495-508 | over every run: while the record of a key is retained, the same key with the same arguments is answered with it, and with others with a conflict |
| NavigationTheorems.JournalBounded | src/cloud_browser/service.py:839-846 | in every run at most 128 records, one a key, and every running one belongs to a call at work or to a pending navigation |
| NavigationTheorems.RunningIsKept | src/cloud_browser/service.py:839-846 | no event takes a running record away while its call or navigation lives |
| NavigationTheorems.NavigationNotOverwritten | src/cloud_browser/service.py:862-870 | at most one pending navigation per session: a pending one is never replaced |
| NavigationTheorems.RepeatSendsNothing | src/cloud_browser/service.py:495-508 | when a call arrives with a retained key: in every continuation no worker command is sent for it, its only answer is the record for equal arguments and a conflict for others, and everything else runs exactly as if it had never come |
| NavigationTheorems.EvictSound | src/cloud_browser/service.py:839-846 | eviction keeps every running record and invents none |
| NavigationTheorems.EvictFits | src/cloud_browser/service.py:839-846 | room is made if and only if the running records leave room |
| NavigationTheorems.EvictsOldest | src/cloud_browser/service.py:839-846 | what survives is running records followed by an untouched end of the journal |
| NavigationTheorems.NextInv | src/cloud_browser/service.py:422-594 | every event keeps the invariant of calls, journal, navigations and history |
| NavigationTheorems.RunInv | src/cloud_browser/service.py:422-594 | the invariant holds after every run |
| NavigationService.CallService.ReserveOperations | src/cloud_browser/service.py:839-846 | completed records are deleted oldest first until the needed number fits |
| NavigationService.CallService.CompleteAll | src/cloud_browser/service.py:910-913 | exactly the records of the given keys become completed |
| NavigationService.CallService.Handle | src/cloud_browser/service.py:388-960 | each stretch of a call takes the object to the next state, replays and conflicts included |
| NavigationService.Serve | src/cloud_browser/service.py:388-594 | serving any sequence of events is a run |
| SchemaTheorems.CompactMeans | src/cloud_browser/output_models.py:13-53 | the compacted schema accepts exactly the instances the original accepts, whatever references mean |
| SchemaTheorems.ReferencesMean | src/cloud_browser/output_models.py:13-53 | a reading of local references solves the compacted definitions exactly when it solves the original ones, and then both roots accept the same instances |
| SchemaTheorems.PropertyNamesSurvive | src/cloud_browser/output_models.py:34-37 | inside `properties` every name stays, `title` and `default` included, with its schema compacted |
| SchemaTheorems.CompactIsClean | src/cloud_browser/output_models.py:15-19 | no title, no `additionalProperties: true` and no null default is left at the schema or, through any of the seventeen keywords that lead to subschemas, below it |
| SchemaTheorems.OverwriteMeans | src/cloud_browser/output_models.py:20-31 | overwriting a sibling `type`, whatever the other keywords: exactly the instances that the sibling alone excluded from the union become valid |
| SchemaTheorems.OverwriteHarmless | src/cloud_browser/output_models.py:20-31 | so the overwrite is harmless if and only if the sibling excludes no instance of the union by itself |
| SchemaTheorems.OverwriteExact | src/cloud_browser/output_models.py:20-31 | a condition on the two type lists alone: with other keywords that accept everything, the overwrite is harmless if and only if the sibling covers the union |
| SchemaTheorems.OverwriteWitness | src/cloud_browser/output_models.py:29-30 | a sibling type that does not cover the union: null is rejected before and accepted after |
| SchemaTheorems.StableExact | src/cloud_browser/output_models.py:13-53 | compacting twice is compacting once if and only if no schema that is kept has a union of types hidden by a title or other noise |
| SchemaTheorems.SecondPassWitness | src/cloud_browser/output_models.py:20-31 | the failing case in the small: a titled choice becomes a type union only in a second pass |
| SchemaTheorems.UnionMeans | src/cloud_browser/output_models.py:29-30 | the merged union accepts what the choices accept |
| Schema.UniqueNames | src/cloud_browser/output_models.py:30 | the type names, each once, in order of first appearance |
| Schema.Strip | src/cloud_browser/output_models.py:15-31 | the noise removed and the union merged |
| Schema.CompactDictionary | src/cloud_browser/output_models.py:32-35 | every schema of a dictionary of schemas is compacted |
| Schema.CompactList | src/cloud_browser/output_models.py:36-39 | every schema of a list is compacted, other items stay |
| Schema.CompactSchema | src/cloud_browser/output_models.py:13-53 | the whole traversal computes the compacted schema |
| TextWalk.Add | src/cloud_browser/snapshot.js:216-220 | a piece is cut to the room left, and then truncation is recorded |
| TextWalk.AddText | src/cloud_browser/snapshot.js:228-233 | a text node is cut before it is normalised |
| TextWalk.AddOpening | src/cloud_browser/snapshot.js:237-240 | exactly what an element contributes before its children |
| TextWalk.AddClosing | src/cloud_browser/snapshot.js:224 | exactly what an element contributes after its children |
| TextWalk.CollectText | src/cloud_browser/snapshot.js:212-246 | not truncated: the output is the recursive rendering; truncated: all pieces but one are its beginning; the budget is kept; every piece comes from an exposed node; no node is visited twice |
| TextWalk.PublicText | src/cloud_browser/snapshot.js:247-255 | after an incomplete scan no text at all; no text is called free of secrets unless all of it was examined |
| TextWalk.WorkRenders | src/cloud_browser/snapshot.js:221-244 | the stack renders its top node exactly as the recursion does |
| TextWalk.ExposedAncestry | src/cloud_browser/snapshot.js:234-236 | from the source of any piece up to the start no element is protected, hidden, without a box or of an excluded kind, and none but a start is a landmark where those are left out |
| TextWalk.IncompleteExposesNothing | src/cloud_browser/snapshot.js:154 | when every element counts as protected nothing is exposed |
| TextWalk.RenderingOfTree | src/cloud_browser/snapshot.js:225-226 | in a composed tree the visited set leaves nothing out: the output is the plain in-order rendering |
| TextWalk.SameRendering | src/cloud_browser/snapshot.js:247-252 | the guard's second walk renders the same text as the first |
| Privacy.SecretsStayPrivate | src/cloud_browser/snapshot.js:113-162 | for every control that holds a secret: nothing rendered lies in its own form, else in the nearest form around it, else is the control itself |
| Protection.Scan | src/cloud_browser/snapshot.js:116-139 | incomplete if and only if there are more than 20000 elements or 1000 inputs; otherwise every reachable element is inspected once and the roots are exactly the own forms, else nearest enclosing forms, else selves of the secret controls |
| Protection.Ancestor | src/cloud_browser/snapshot.js:109-112 | the bounded search for an ancestor |
| Protection.ProtectionCache.ProtectionRoot | src/cloud_browser/snapshot.js:141-153 | the memoised search answers as the uncached rule and keeps its cache correct |
| Protection.ProtectionCache.ProtectionRoots | src/cloud_browser/snapshot.js:141-162 | whatever the order of queries |
| Protection.ParentReachable | src/cloud_browser/snapshot.js:108 | the composed parent of a reachable element is reachable |
| Protection.CompleteScanFits | src/cloud_browser/snapshot.js:109-112 | after a complete scan the 20000-step cut-off never matters |
| Protection.SensitiveIsProtected | src/cloud_browser/snapshot.js:123-127 | after a complete scan the form of every secret control, or the control itself without one, is protected with everything below it |
| Protection.RuleExact | src/cloud_browser/snapshot.js:141-153 | an element is protected if and only if its own form or something on its way up is a protected root |
| Protection.ProtectedThrough | src/cloud_browser/snapshot.js:106-108 | protection comes down through the assigned slot, else the parent, else the shadow host |
| Protection.ProtectionInherited | src/cloud_browser/snapshot.js:141-153 | below a protected root everything is protected |
| PacerTheorems.DispatchesSpaced | src/cloud_browser/navigation_pacing.py:71-90 | over all interleavings, recorded dispatches to one host are at least the interval apart |
| PacerTheorems.WindowLimited | src/cloud_browser/navigation_pacing.py:71-73 | every window (t-60, t] holds at most the configured number |
| PacerTheorems.LiveBlocksShare | src/cloud_browser/navigation_pacing.py:48-51 | blocks in flight for a host share the table's entry, and at most one is past the check and undispatched |
| PacerTheorems.QuietHostPasses | src/cloud_browser/navigation_pacing.py:57-83 | a quiet host lets the first block through at once |
| PacerEffects.AcquireDecides | src/cloud_browser/navigation_pacing.py:70-83 | over every run, a block that gets the lock is refused exactly when the host's minute is full or its turn comes after the deadline, sleeps exactly until its turn when that is later, and else runs at once; told by the dispatches alone |
| PacerEffects.ArriveDecides | src/cloud_browser/navigation_pacing.py:52-83 | the same for a new block on an unused host, with the deadline five seconds on or shortly before the given one |
| PacerEffects.ArriveQueues | src/cloud_browser/navigation_pacing.py:57-66 | behind another block a new one waits for the lock, and is refused only if that is taken and no time is left |
| PacerEffects.LockPassesOn | src/cloud_browser/navigation_pacing.py:84-96 | when the block that holds the lock dispatches, ends, fails or is cancelled, any block waiting for the host may get it |
| PacerTheorems.NextInv | src/cloud_browser/navigation_pacing.py:37-96 | every stretch of every block keeps the invariant |
| PacerTheorems.RunInv | src/cloud_browser/navigation_pacing.py:37-96 | the invariant holds after every run |
| PacerService.NavigationPacer.TrimEntry | src/cloud_browser/navigation_pacing.py:22-24 | dispatches a minute old or older are popped |
| PacerService.NavigationPacer.Expire | src/cloud_browser/navigation_pacing.py:20-26 | exactly the empty and unused hosts are forgotten |
| PacerService.NavigationPacer.Handle | src/cloud_browser/navigation_pacing.py:37-96 | any event takes the object to the next state |
| PacerService.Serve | src/cloud_browser/navigation_pacing.py:37-96 | serving any sequence of events is a run |
| Registry.RunInv | src/cloud_browser/node_registry.py:25-79 | after any operations: both budgets kept, the byte counter is the sum of live sizes, handles distinct, every index entry names a live record with that identity |
| Registry.EvictsExactly | src/cloud_browser/node_registry.py:64-68 | the fewest records go, oldest unpinned first, pinned ones only when nothing else remains, survivors in order |
| Registry.SameHandle | src/cloud_browser/node_registry.py:53-56 | an identity still indexed gets its handle back |
| Registry.RememberedIsFound | src/cloud_browser/node_registry.py:53-69 | what was remembered is found under its handle, or is reported as evicted |
| Registry.HitBecomesRecent | src/cloud_browser/node_registry.py:71-76 | a hit under its own root becomes the most recent record and the order of the others stays; anything else changes nothing |
| Registry.SynchronizeExact | src/cloud_browser/node_registry.py:47-51 | exactly the records of current documents are left |
| RegistryObject.NodeRegistry.Remove | src/cloud_browser/node_registry.py:39-45 | one record leaves records, byte counter and index |
| RegistryObject.NodeRegistry.Candidate | src/cloud_browser/node_registry.py:67 | the oldest unpinned record, else the oldest |
| RegistryObject.NodeRegistry.Remember | src/cloud_browser/node_registry.py:53-69 | the new state and the handle |
| RegistryObject.NodeRegistry.Get | src/cloud_browser/node_registry.py:71-76 | a hit becomes the most recent record |
| RegistryObject.NodeRegistry.Synchronize | src/cloud_browser/node_registry.py:47-51 | exactly the records whose document is gone are removed |
| RegistryObject.NodeRegistry.MissingReason | src/cloud_browser/node_registry.py:78-79 | whether the handle is among the last evictions |
| Pagination.PagesPartition | src/cloud_browser/observation.py:52-93 | following the offsets ends; slices make up the text, rows appear once each and in order, only the last page is not truncated |
| Pagination.PageIsBounded | src/cloud_browser/observation.py:63-84 | a page holds at most the budget, or its first row alone |
| Pagination.PageProgresses | src/cloud_browser/observation.py:81-93 | a page is the slice it claims to be, and an unfinished one moves on |
| Pagination.CutAtNewline | src/cloud_browser/observation.py:79-84 | a cut text ends just after the last newline in the second half of its budget, and at the budget if there is none |
| Pagination.RowsAreFilled | src/cloud_browser/observation.py:63-79 | rows are taken as long as they fit: all of the budget once the text is through, half of it before |
| Pagination.LineIdentifies | src/cloud_browser/observation.py:32-49 | a row is the whole element exactly when that fits; else its identity with the name halved only as often as needed |
| Pagination.EncodeLine | src/cloud_browser/observation.py:32-49 | the halving loop |
| Pagination.TakeRows | src/cloud_browser/observation.py:66-79 | the first row always, further ones while they fit the share |
| Pagination.FindEnd | src/cloud_browser/observation.py:79-84 | where the text of the page ends |
| Pagination.Paginate | src/cloud_browser/observation.py:52-93 | the page and the next offsets |
| OAuthTheorems.RedeemedOnce | src/cloud_browser/oauth.py:190-243 | each code and each refresh token is taken at most once (sections 4.1.2 and 6 of RFC 6749) |
| OAuthTheorems.RevokedForGood | src/cloud_browser/oauth.py:256-265 | no bearer succeeds and nothing is refreshed after the revocation of its grant, however the requests interleave (section 2.2 of RFC 7009) |
| OAuthTheorems.ExpiresInTime | src/cloud_browser/oauth.py:221-243 | no bearer succeeds later than the creation of its grant plus `grant_max_ttl`, through any number of refreshes |
| OAuthTheorems.RowExpiresInTime | src/cloud_browser/oauth.py:208-243 | the row of a timestamped grant never outlives its creation by more than the maximum, and the creation time never changes |
| OAuthTheorems.GrantsStemFromCodes | src/cloud_browser/oauth.py:195-215 | a grant issued for a code stems from one taking of that code, authorized before, with the verifier of its challenge, its callback and this resource (section 4.6 of RFC 7636); no code gives two grants |
| OAuthEffects.RevocationRevokes | src/cloud_browser/oauth.py:256-265 | over every interleaving, a revocation request that is not abandoned and finds its token live where and when it looks, as an access or as a refresh token, is still underway or has removed the grant (section 2.1 of RFC 7009) |
| OAuthEffects.RevokedIsUseless | src/cloud_browser/oauth.py:256-265 | from then on no bearer of the grant succeeds and none of its tokens is refreshed, in any continuation |
| OAuthEffects.AccessRevoked | src/cloud_browser/oauth.py:262-264 | two steps revoke a live access token's grant and change nothing else |
| OAuthEffects.RefreshRevoked | src/cloud_browser/oauth.py:262-264 | three steps revoke a live refresh token's grant |
| OAuthEffects.CodeSpent | src/cloud_browser/oauth.py:190-207 | the first attempt spends the code and leads to a grant exactly when challenge, callback and resource match |
| OAuthEffects.CodeExchanged | src/cloud_browser/oauth.py:208-250 | a matching code becomes a grant, an access and a refresh token of the configured lifetimes |
| OAuthEffects.Refreshing | src/cloud_browser/oauth.py:216-243 | a live refresh token of a live grant is spent and the grant lives on for another refresh lifetime, never beyond its end; otherwise nothing changes |
| OAuthEffects.BearerSucceeds | src/cloud_browser/oauth.py:54-61 | a bearer succeeds exactly with a live token of this server and a live grant |
| OAuthEffects.FreshTokenWorks | src/cloud_browser/oauth.py:190-250 | round trip: the access token that a matching code was exchanged for works until it or its grant expires |
| OAuthTheorems.NextInv | src/cloud_browser/oauth.py:83-265 | every step of every request keeps the invariant |
| OAuthService.Auth.Handle | src/cloud_browser/oauth.py:83-265 | any event takes the object to the next state |
| OAuthService.Serve | src/cloud_browser/oauth.py:83-265 | serving any sequence of events is a run |
| Masking.MaskCapture | src/cloud_browser/drission.py:1967-2045 | from the page's regions to the masked image: exactly when it is masked, and then every captured pixel overlapping a protected region, or a frame or restricted region as the policy says, is black and every pixel outside the returned rectangles is unchanged |
| Masking.EveryRegionCovered | src/cloud_browser/drission.py:1803-1826 | every captured pixel that overlaps a region, moved by the scroll offsets in a full-page capture, is painted over, whether the region was kept or dropped |
| Masking.RectContains | src/cloud_browser/image_privacy.py:48-55 | a region meeting the capture yields a non-empty rectangle that contains every pixel closer than sixteen pixels to it, and none further away than seventeen |
| Masking.KeptAreVisible | src/cloud_browser/image_privacy.py:48-57 | as many rectangles as kept regions, all inside the image |
| Masking.DroppedIsDisjoint | src/cloud_browser/drission.py:1811-1817 | a dropped region overlaps no captured pixel |
| Masking.KeptAre | src/cloud_browser/drission.py:1806-1826 | every region is kept, or is outside and safe to drop |
| Masking.PaintedIsRefused | src/cloud_browser/drission.py:2337-2351 | no point of a painted pixel is accepted for a coordinate action |
| Masking.CaptureRegions | src/cloud_browser/drission.py:1803-1826 | the loop keeps the regions inside, drops safe ones outside, and blocks otherwise |
| Masking.FillRectangle | src/cloud_browser/image_privacy.py:55 | black inside, unchanged outside |
| Masking.MaskFrames | src/cloud_browser/image_privacy.py:12-58 | the image is painted over exactly in the returned rectangles; when it is blocked and why |
| Masking.CheckCoordinates | src/cloud_browser/drission.py:2328-2351 | accepted exactly when inside the viewport and in no masked, protected or restricted region |

## Left out

- Schema.Plainly: the meaning of `unevaluatedProperties` and `unevaluatedItems` depends on annotations of neighbouring keywords; schemas that use them are outside the theorem. `$dynamicRef`, `$anchor` and a nested `$id` are treated as assertions of their own value.
- Schema.CompactSchema: works on values; that two dictionaries of a schema may be one shared object, compacted twice, is not modelled.
- Schema.Shaped: a dictionary keyword that is no dictionary, or a list keyword that cannot be iterated, makes the original raise; such schemas are excluded.
- ProtocolTheorems.AtMostOnce: holds while the execution record lives, as the code intends; afterwards the same action may run again.
- Navigation.Enter: the deadline arithmetic of the five seconds is abstracted to an event that may come at any time, and pacing, URL validation and admission to a yes or no of the environment.
- TextWalk.CollectText: the last clean-up of blanks and blank lines of the joined text is not modelled; `normalize` is any function.
- Protection.Scan: which labels and attributes make a control sensitive is a given predicate; the mutation observer and its epoch are not modelled.
- Pacer.Enter: a sleep is assumed not to wake early; host names arrive normalised, and a URL without a host passes unpaced.
- Pagination.Line: the JSON encoding of a complete row is given; that of a reduced row is built from the encoding of its strings.
- OAuthService.Auth.RememberQuery: the syntactic checks of the authorization request, throttling and the form's nonce cookie are not modelled; Argon2 and the passkey proof are one yes or no.
- Masking.CaptureRegions: regions with finite bounds; a region whose bound is not a number would be dropped by the comparison there when it is marked safe.
- Masking.MaskCapture: regions with finite bounds, as for `CaptureRegions`; the pixel budget, the deadlines and the comparison with the page after the capture only refuse more and are not modelled.
- Masking.RectContains: images of at least one pixel.
- InputDriver.NativeInput.Key: modifier bits, virtual key codes and the names in the key table are not recorded.
- Registry.SizeOf: the length of the JSON encoding is a given function; copying of metadata is not modelled.
- Cancellation of tasks by the event loop, except in the pacer, where leaving a block at any point is an event.
- An approval record that expires during `prepare` is modelled as a refusal; the original would fail on the missing record.
- A worker that dies while a completion is polled: the session is gone, and the original then fails on its dictionary; the model leaves the session gone.
- Commands of the page before an action (dialog inspection, clipboard text, uploads) reach the page only through the action itself; the clipboard and upload books are not modelled.
- `_cancel_navigation` before closing, handoff and reclaim is merged into those commands, and expired sessions are reaped by the sweeper's own task only; after a lost worker the sweeper's stale list is dropped.
- Leases' renewal and the private console's authentication reports, which never end a pause.
- Status output, diagnostics, event journal, artifacts, memory admission, settings validation.
- DNS, egress and ingress relays, console pages, tool wrappers, installers.
- Hashes are injective, random values are never repeated, one reading of a clock that never runs backwards per step.
