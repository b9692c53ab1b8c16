# NatStack: verified models of the relay, the native panels, the panel mirror, the codecs and the limits

NatStack is a desktop shell with a server beside it. Five of its parts keep state that many
handlers share, or encode data that another process has to read back. This project models
them in Dafny and proves what the rest of the system relies on.

**The CDP relay** (`Cdp*.dfy`). A bridge on the server carries automation commands of many
clients to many host providers. Its tables are providers by host, registrations by target,
client sets by target, pending CDP commands and pending host commands. A provider is a
WebSocket, whose close event comes later, or an RPC stream, whose close runs the bridge's
handlers in the same call, possibly from inside a handler that was only trying to send.
`CdpRelay` has the state and one function per event; `CdpBroker` has the object with loops and
updates in place, each method equal to its function. The other modules prove, over every
sequence of events, that every command is answered once, that the bridge closes a client only
after answering all its commands, that no command is stranded while a lease resolver is present,
that sessions and providers agree, and that pins follow clients. `CdpEffects` and `CdpLossEffects`
say outright what each event does to every table, without the handlers' own functions.

**Native panel slots and layers** (`Layer*`, `NativeSlots`, `Slot*`, `PanelHost`). The view
manager binds panels to slots that the hosted shell owns, remembers the binding of a destroyed
panel, and keeps the child views of the window in order. The fast path that skips restacking
agrees with a full restack; the slot table is a bijection with the right flags after every
operation, also after one that throws half-way, and on every run the panels are above the shell.
`SlotEffects`, `SlotPlan` and `LayerPositions` say what each operation does to the slots, which views
a reconcile raises, and which child list it leaves.

**The panel tree mirror** (`PanelTree`, `PanelMirror`, `PanelConvergence`, `PanelBroken`,
`PanelDelivered`, `PanelNavigation`, `PanelFocus`, `PanelClose`, `PanelChoice`, `PanelUnload`, `PanelOrchestrator`).
Versioned snapshots of the server's tree arrive in any order. The three ways to apply one have the
same result, and deliveries converge; which protected titles are left on the final tree is decided
exactly by the deliveries before it. Which panel gets the focus after a close, and which panels
select the way to it, is stated over the lists of children.

**Codecs** (`Hex`, `Utf8`, `JsonText`, `Framing`, `FramingSockets`, `Percent`, `DoAddress`, `DoRouter`,
`Base64`, `Base64Stream`, `KnownAnswers`, `CommandLine`, `CommandErrors`). Message frames over a byte stream that is cut anywhere,
inside a character too; nested percent-encoded addresses through the router and host that read
them; base64 with chunked streams; and a command-line parser that succeeds exactly on the lines
that can be printed and otherwise names the first word to blame.

**Logs and limits** (`Diagnostics`, `DiagnosticsStore`, `RestartLimits`). A bounded history that
refines the unbounded log, and two limiters with a bound over every window of every run.

## What was found

Properties that the code does not have are stated with the exact condition under which it does,
and with an input or a run for which it does not.

- Without a lease resolver a registration can take a target from a host that has commands
  pending for it; those commands can then be neither answered nor failed by that host
  (`CdpRouting.RegisterKeeps`, `CdpLimits.StolenIsStranded`, `CdpLimits.StealingIsReachable`).
- `cdp:unregister` drops the clients of its target without an unpin, so the pin leaks and the
  next client pins the target again (`CdpTheorems.LeakNeedsOrphan`, `CdpLimits.UnregisterLeaksPin`,
  `CdpLimits.LeakedTargetIsPinnedTwice`, `CdpLimits.LeakIsReachable`,
  `CdpLimits.SecondPinIsReachable`).
- Repopulating selects the path to the focused panel again, so the mirror can differ from the
  snapshot in the selected children (`PanelMirror.MirrorEqualsSnapshotIff`,
  `PanelConvergence.MirrorCanDifferFromSnapshot`).
- A snapshot without a panel, or one that navigates a panel with a native view here, also drops the
  protection of its title, so two histories can end with different titles; they agree exactly when
  every title that the highest snapshot would change survives both or neither
  (`PanelConvergence.HistoriesAgreeIff`, `PanelConvergence.DroppedPanelLosesItsTitle`,
  `PanelConvergence.NavigatedPanelLosesItsTitle`).
- A snapshot with a panel that has no current snapshot is taken over and throws, and from then on
  no snapshot changes the mirror: listing its panels throws after the new revision is recorded
  (`PanelBroken.AppliesIff`, `PanelBroken.SoundIffNoneBroken`, `PanelBroken.FreezeIsReachable`).
- An active hosted shell that was demoted cannot be destroyed
  (`SlotGuarantees.DemotedHostCannotBeDestroyed`, `SlotGuarantees.DemotionIsReachable`).
- Slot bounds that begin before the window's origin are moved in whole instead of being cut: accepted
  bounds are the part of the request inside the window exactly when, along each axis, the request
  begins in or after the window's origin or reaches to its far edge
  (`SlotEffects.PlacedIsIntersectionIff`, `SlotEffects.MovedInWhole`).
- Closing a panel does not notice a focused panel more than 100 levels below it
  (`PanelClose.ClosingIsNoticedUnlessDeep`, `PanelClose.DeepFocusIsLost`).
- After a malformed line the host still emits the later lines of the same chunk, though it has
  closed, and none of a later chunk (`Framing.ChunksDoNotMatterIff`, `Framing.CutDecides`).
- Empty method segments are lost on the way to a Durable Object (`DoAddress.MethodSurvivesIff`,
  `DoAddress.EmptySegmentIsLost`).
- An internal address with an empty key is read with the first method segment as the key, if another
  segment follows (`DoRouter.EmptyKeyIsMisread`). The router's usage check asks for five parts where
  its loop needs six, so a call without a method is answered as not found
  (`DoRouter.NoMethodIsNotFound`).

## How the model reads the code

- The bridge and the RPC channel are one state, because they re-enter each other. A change of the
  lease comes with the lease event that announces it, and `cdp:register` is one step although the
  code awaits twice in it. `provider.send` on an open WebSocket throws only in the branches that
  catch it. The pin callback does not re-enter the bridge. A timer is an event that may come at any
  time.
- `nav:*` and `host:*` commands are one kind of host command with a flag for those that outlive
  their target.
- The message listeners of one provider are handled one after another, as the code queues them.
- A view is its id, kind, host-chrome right and visibility; the window is the sequence of its
  children, where adding a child removes it first. The bootstrap view is never destroyed and no
  view has an empty id.
- Applying a snapshot is one step. The code awaits the reload of each navigated view inside its last
  loop, between two drops of protection, and once after it; an event that comes in there sees some
  titles still protected that the model has released. `packages/shared` holds the panel
  registry; of it the model has lookup, titles, artifacts, the selected path and repopulation. An
  artifact record is its build state and whether there is something to show. Ids
  in a tree are unique and not empty and, where a result needs it, every panel has a current snapshot. The pin
  store is present, so repopulating lists the panels again.
- Text is a sequence of code points; a surrogate stands for one without a partner. A line that is
  not a string literal is parsed by a function that the results do not depend on.
- Durable Object addresses are read from the path as sent.
- Capacities of the diagnostics store are not negative, and clocks of the limiters do not go back.

## Model

| member | source | states |
|---|---|---|
| CdpTheorems.OneAnswerPerCommand | src/server/cdpBridge.ts:769-853 | After every run, on every client socket that is still open, each received command frame has been answered exactly as often as it was received less the times it is still pending; on no socket is a frame answered more often than it was received |
| CdpTheorems.StopAnswersEverything | src/server/cdpBridge.ts:461-494 | After any run, stopping answers every frame of every socket that was open, and leaves no pending command, no host command and no session, although RPC providers run their close listeners inside the stop loop |
| CdpTheorems.ClosedOnlyWhenAnswered | src/server/cdpBridge.ts:982-1011 | After any run, whatever event comes next: a client socket that the bridge closes itself (unregister, lost or replaced host, lease move, broken send, stop) has had each of its frames answered as often as it was received, and has none pending |
| CdpTeardown.TeardownAnswersFirst | src/server/cdpBridge.ts:541-858 | Every event other than the client's own close either leaves an open socket open or has answered all its frames |
| CdpTeardown.AnswerThenClose | src/server/cdpBridge.ts:982-990 | Answering a scope and then closing sockets whose pending commands are all in the scope leaves no closed socket with an unanswered frame |
| CdpTeardown.FlushGraceful | src/server/cdpBridge.ts:952-980 | A flush closes only sockets whose frames it has answered |
| CdpTeardown.CloseRpcGraceful | src/server/cdpHostProviderRpcChannel.ts:118-153 | So does a synchronous close that re-enters the bridge |
| CdpTeardown.EvictGraceful | src/server/cdpBridge.ts:496-501 | So does the replacement of a provider |
| CdpTeardown.UnregisterGraceful | src/server/cdpBridge.ts:614-644 | So does an unregister |
| CdpTeardown.LeaseGraceful | src/server/cdpBridge.ts:439-456 | So does a lease change, with the detach notice that may break the provider |
| CdpTeardown.FrameGraceful | src/server/cdpBridge.ts:769-810 | So does a frame whose send breaks the provider, the frame itself included |
| CdpTeardown.ClosedGraceful | src/server/cdpBridge.ts:816-853 | A client's close leaves no other socket closed with an unanswered frame |
| CdpTeardown.StopGraceful | src/server/cdpBridge.ts:461-494 | Stopping closes only sockets whose frames it has answered |
| CdpTheorems.NoStrandedCommand | src/server/cdpBridge.ts:864-883 | With a lease resolver, after every run, each pending command's target is registered at its lease host and the connection it was sent on is that host's provider now |
| CdpTheorems.LossAnswersItsCommands | src/server/cdpBridge.ts:952-980 | Losing a provider answers exactly the commands that were sent on it, in order, with an error on the open sockets, and keeps every other pending command |
| CdpTheorems.OneProviderPerHost | src/server/cdpHostProviderRpcChannel.ts:19-59 | After every run each RPC session is open and is the bridge's provider for its host, two sessions never share a host, and an open RPC connection always has its session |
| CdpTheorems.OpeningReplaces | src/server/cdpBridge.ts:496-504 | A second provider session for a host settles all that the first provider held, closes it and forgets its session; then the new one takes its place, or, if its first send breaks it, is closed in the same call and leaves the host with no provider and no target |
| CdpTheorems.SettledOnce | src/server/cdpBridge.ts:324-425 | A host-control or navigation command settles once: a settled outcome never changes, and a pending one is afterwards either pending or settled, not both |
| CdpTheorems.IssuedIsCounted | src/server/cdpBridge.ts:382-425 | An issued command is pending or settled at once, not both, also when its send throws or breaks the provider |
| CdpTheorems.SettledOnRun | src/server/cdpBridge.ts:324-425 | From any reachable state on, an issued command stays pending or settled, never both, and keeps its outcome |
| CdpTheorems.HostCommandsSettleOnce | src/server/cdpBridge.ts:324-425 | The same for any split of any run of a new bridge |
| CdpTheorems.StepSafe | src/server/cdpBridge.ts:541-743 | Every event keeps the whole invariant, and keeps every pending command with the connection that holds it exactly unless the event is a stealing registration |
| CdpTheorems.InitialInv | src/server/cdpBridge.ts:155-173 | A new bridge meets the invariant |
| CdpTheorems.RunSafe | src/server/cdpBridge.ts:541-858 | The invariant (balance, wiring, order, pins) holds after every sequence of events |
| CdpTheorems.RunRouted | src/server/cdpBridge.ts:864-883 | On every run without a stealing registration each pending command is held by the current provider of its target's host |
| CdpTheorems.ResolverStopsStealing | src/server/cdpBridge.ts:568-598 | A lease resolver rules stealing out: registration is refused to any host but the lease holder |
| CdpTheorems.ResolverRunsNeverSteal | src/server/cdpBridge.ts:568-598 | So no run with a resolver contains a stealing registration |
| CdpTheorems.ClientsArePinned | src/server/cdpBridge.ts:749-767 | After every run a target with clients is pinned and its client set is not empty; a target is pinned exactly when it has clients or its pin was leaked by an unregister; its pin calls alternate exactly when no leaked target was pinned again |
| CdpTheorems.LeakNeedsOrphan | src/server/cdpBridge.ts:635-642 | The only event that leaks a pin is an unregister that finds clients on its target |
| CdpTheorems.RunNeverLeaks | src/server/cdpBridge.ts:635-642 | A run without such an unregister leaks no pin |
| CdpTheorems.PinsAlternate | src/server/cdpBridge.ts:998-1011 | On such a run the pin calls of every target alternate, and the target is pinned exactly while it has clients |
| CdpLimits.ReplyReachesItsCommand | src/server/cdpBridge.ts:646-675 | A result or error from the host of a pending command's target is sent once, to that command's socket if it is open, and takes exactly that command off the table |
| CdpLimits.StolenIsStranded | src/server/cdpBridge.ts:599-605 | After a stealing registration a pending command of the target can be neither answered by the host that has it nor failed by that host going away |
| CdpLimits.StealingIsReachable | src/server/cdpBridge.ts:547-612 | Without a resolver a stealing registration is reachable: two hosts register one target in turn |
| CdpLimits.UnregisterLeaksPin | src/server/cdpBridge.ts:614-644 | An unregister of a target with clients leaves it with no client and still pinned |
| CdpLimits.LeakIsReachable | src/server/cdpBridge.ts:614-644 | A run that leaks a pin: a target is registered, a client connects, the target is unregistered |
| CdpLimits.LeakedTargetIsPinnedTwice | src/server/cdpBridge.ts:749-767 | The next client of such a target pins it a second time with no unpin in between |
| CdpLimits.SecondPinIsReachable | src/server/cdpBridge.ts:749-767 | The run goes on with a registration and a second client, and the target has been pinned twice in a row |
| CdpConservation.StepConserves | src/server/cdpBridge.ts:541-858 | Every event keeps, for every frame: answers plus pending equal received on an open socket, and never exceed it on any |
| CdpConservation.AnswerWhereConserves | src/server/cdpBridge.ts:622-632 | Answering and forgetting the pending commands of a scope keeps the balance |
| CdpConservation.FlushConserves | src/server/cdpBridge.ts:952-980 | Flushing a provider keeps the balance |
| CdpConservation.CloseRpcConserves | src/server/cdpHostProviderRpcChannel.ts:118-153 | A synchronous close, with the bridge's close listener inside it, keeps the balance |
| CdpConservation.ForwardConserves | src/server/cdpBridge.ts:788-810 | Forwarding a frame keeps the balance whether the send is delivered, throws, or breaks the connection and re-enters |
| CdpConservation.ClosedConserves | src/server/cdpBridge.ts:816-853 | A client's close keeps the balance, although its pending commands are dropped |
| CdpConservation.LeaseConserves | src/server/cdpBridge.ts:439-456 | A lease change keeps the balance |
| CdpConservation.StopConserves | src/server/cdpBridge.ts:461-494 | Stopping keeps the balance |
| CdpRouting.RegisterKeeps | src/server/cdpBridge.ts:547-612 | A registration keeps each pending command with the connection that holds it if and only if it does not take the target from a host with commands pending for it |
| CdpRouting.UnregisterKeeps | src/server/cdpBridge.ts:614-644 | An unregister keeps the wiring and the routing |
| CdpRouting.FlushLeaves | src/server/cdpBridge.ts:952-980 | After a flush no pending command's target is registered at the flushed host or nowhere |
| CdpRouting.ProviderCloseRoutes | src/server/cdpBridge.ts:524-534 | The close listener keeps every remaining pending command where it is held |
| CdpRouting.CloseRpcRoutes | src/server/cdpHostProviderRpcChannel.ts:118-134 | So does a synchronous close |
| CdpRouting.EvictKeeps | src/server/cdpBridge.ts:496-501 | Replacing a provider keeps sessions, providers and ready states in agreement for all but the new connection, and keeps every remaining pending command where it is held |
| CdpRouting.CloseSessionsKeeps | src/server/cdpHostProviderRpcChannel.ts:81-86 | Closing sessions one after another keeps the wiring and the routing and takes out exactly those sessions |
| CdpRouting.LeaseKeeps | src/server/cdpBridge.ts:439-456 | A lease change keeps every registration at its lease host and every pending command routed |
| CdpRouting.FrameKeeps | src/server/cdpBridge.ts:769-810 | A client frame keeps the wiring and the routing, whatever becomes of the send |
| CdpRouting.ClosedKeeps | src/server/cdpBridge.ts:816-853 | A client's close keeps them too |
| CdpRouting.StopKeeps | src/server/cdpBridge.ts:461-494 | Stopping keeps them and empties every table |
| CdpSafety.StepTables | src/server/cdpBridge.ts:541-858 | Every event keeps the request ids ordered and fresh, the client sets non-empty and the pin histories exact |
| CdpSafety.AdditionThenWinds | src/server/cdpBridge.ts:541-858 | What an event does to pending commands, host commands, clients and pins is one addition, followed only by removals |
| CdpSafety.ConnectedPinned | src/server/cdpBridge.ts:749-767 | A new client keeps the client sets non-empty and the pin histories exact: a first one pins, a further one does not |
| CdpSafety.RemovedPinned | src/server/cdpBridge.ts:816-832 | A client's close keeps them too: the last one unpins |
| CdpSafety.OrphanedPinned | src/server/cdpBridge.ts:635-642 | Dropping a target's clients without an unpin keeps the pin histories exact only by counting the target as leaked |
| CdpEffects.FrameIsForwarded | src/server/cdpBridge.ts:788-806 | A frame whose target is registered at a host with an open current provider (which holds the lease when there is a resolver), and which is not a refused navigation, is pending under the next request id on that connection; no answer is sent and nothing else changes |
| CdpEffects.FrameIsRefused | src/server/cdpBridge.ts:782-790 | Every other frame is answered with exactly one error, not connected or navigation refused, nothing is pending for it and no id is used, whatever its send would have done |
| CdpEffects.FrameIsPendingIff | src/server/cdpBridge.ts:782-798 | A delivered frame changes the pending commands exactly under those conditions |
| CdpEffects.FrameSendThrows | src/server/cdpBridge.ts:807-810 | A send that throws uses up its id, leaves nothing pending and answers the frame with a failed send |
| CdpEffects.FrameSendBreaksLater | src/server/cdpBridge.ts:799-806 | A WebSocket that breaks on the send leaves the frame pending, as a delivered one |
| CdpEffects.ReplyIsDelivered | src/server/cdpBridge.ts:646-675 | The result or error of a pending command, from the host its target is registered at, is the one new answer, to its socket if open, and takes out exactly that command |
| CdpEffects.ReplyIsIgnored | src/server/cdpBridge.ts:650-651 | A reply from any other host or under an unknown id changes nothing |
| CdpEffects.ClientIsAdded | src/server/cdpBridge.ts:749-767 | A new client of a served target is open and in its target's set, which it pins exactly when it is the first; nothing else changes |
| CdpEffects.ClientIsTurnedAway | src/server/cdpBridge.ts:864-883 | A client of a target that no provider serves is not tracked |
| CdpEffects.CommandIsIssued | src/server/cdpBridge.ts:382-425 | A host command for a served target is pending under the next id, issued to the target's host, and nothing else changes |
| CdpEffects.CommandSendThrows | src/server/cdpBridge.ts:419-423 | One whose send throws is settled as a failed send and uses up its id |
| CdpEffects.CommandIsRefused | src/server/cdpBridge.ts:383-386 | One for a target that is not served issues nothing |
| CdpEffects.CommandIsSettled | src/server/cdpBridge.ts:700-741 | A navigation reply from the host of the command's target, or a host-command reply from there or from the host it was issued to, settles it with the outcome the reply carries, takes exactly it out and changes nothing else |
| CdpEffects.CommandReplyIsIgnored | src/server/cdpBridge.ts:704-705 | Any other such reply changes nothing |
| CdpEffects.CommandTimesOut | src/server/cdpBridge.ts:342-345 | A timer settles its command as timed out, and does nothing once it is settled |
| CdpEffects.TargetIsRegistered | src/server/cdpBridge.ts:599-605 | A registration by the open current provider, with a resolver only of the lease host, is stored under that provider's host, and the target can be sent to from then on |
| CdpEffects.RegistrationIsRefused | src/server/cdpBridge.ts:553-598 | Any other registration stores nothing |
| CdpEffects.ServedState | src/server/cdpBridge.ts:547-767 | A run with a lease resolver: a provider connects, registers its target, and a client joins |
| CdpEffects.FrameIsAnswered | src/server/cdpBridge.ts:646-806 | The run goes on: the client's frame is forwarded, and the provider's result is its answer |
| CdpEffects.CommandIsResolved | src/server/cdpBridge.ts:382-709 | Or a host command is issued and resolved |
| CdpLossEffects.FlushLoses | src/server/cdpBridge.ts:952-980 | A flush answers exactly the commands of the host's targets and of unregistered ones, settles exactly the host commands issued to it or aimed at its targets, all with the given reason, closes exactly its targets' clients and unpins them once |
| CdpLossEffects.ProviderIsLost | src/server/cdpBridge.ts:524-534 | When the current provider goes down, that happens, and the provider and its registrations are gone; no other table changes |
| CdpLossEffects.StaleProviderIsClosed | src/server/cdpBridge.ts:525-525 | The close of a replaced provider only marks its connection |
| CdpLossEffects.SessionIsLost | src/server/cdpHostProviderRpcChannel.ts:72-79 | Closing a session loses its host in the same way, at once, and forgets exactly that session |
| CdpLossEffects.FrameBreaks | src/server/cdpHostProviderRpcChannel.ts:109-116 | A frame whose send breaks an RPC stream ends as a delivered frame followed by the close of the session |
| CdpLossEffects.CommandBreaks | src/server/cdpHostProviderRpcChannel.ts:109-116 | So does a host command |
| CdpLossEffects.OpeningBreaks | src/server/cdpHostProviderRpcChannel.ts:19-59 | So does the opening of a session |
| CdpLossEffects.RefusalBreaks | src/server/cdpBridge.ts:553-598 | A refused registration whose answer breaks the stream is the close of the session |
| CdpLossEffects.ProviderIsAdded | src/server/cdpBridge.ts:503-504 | A host without a provider gets the new one and nothing else changes |
| CdpLossEffects.SessionIsAdded | src/server/cdpHostProviderRpcChannel.ts:19-59 | So does a host whose provider is a new session, which is held by its open connection |
| CdpLossEffects.ProviderIsReplaced | src/server/cdpBridge.ts:496-504 | In place of a WebSocket: the host's work is settled as reconnected, its registrations stay, and the old connection is told to close |
| CdpLossEffects.SessionIsReplaced | src/server/cdpHostProviderRpcChannel.ts:19-59 | In place of an RPC stream: the same, but the stream is closed at once and the host's registrations go with it; the new session holds |
| CdpLossEffects.TargetIsUnregistered | src/server/cdpBridge.ts:614-644 | The registering host takes a target back: its commands are answered, its host commands but the resilient ones are settled, its clients are closed, its pin stays |
| CdpLossEffects.UnregisterIsIgnored | src/server/cdpBridge.ts:617-617 | An unregister from any other host changes nothing |
| CdpLossEffects.ClientIsRemoved | src/server/cdpBridge.ts:816-853 | A client that goes takes exactly its own commands with it, unanswered, and the last one of a target unpins it |
| CdpLossEffects.LeaseIsMoved | src/server/cdpBridge.ts:439-456 | A lease that moves takes the registration from the host that loses it, answers and settles exactly what is pending for the target, and closes and unpins its clients |
| CdpLossEffects.LeaseBreaks | src/server/cdpBridge.ts:1013-1027 | If the notice breaks that host's stream, the move comes after the close of its session |
| CdpLossEffects.LeaseStays | src/server/cdpBridge.ts:441-447 | A lease that stays with its host changes nothing |
| CdpLossEffects.BridgeIsStopped | src/server/cdpBridge.ts:461-494 | Stopping answers every pending command and settles every host command as shutting down, closes and unpins every client, closes every provider and empties the tables |
| CdpBroker.WalkPending | src/server/cdpBridge.ts:960-973 | The loop answers the commands of a scope on open sockets, in order, and keeps the others in order |
| CdpBroker.WalkCommands | src/server/cdpBridge.ts:1029-1037 | The loop takes exactly the host commands of a scope out of the table |
| CdpBroker.WalkSocks | src/server/cdpBridge.ts:998-1003 | The loop tells exactly the given open sockets to close |
| CdpBroker.WalkRegistry | src/server/cdpBridge.ts:529-533 | The loop deletes exactly the lost host's targets |
| CdpBroker.Lookup | src/server/cdpBridge.ts:648-650 | Finds the pending command with an id, if there is one |
| CdpBroker.CdpBridge.constructor | src/server/cdpBridge.ts:155-173 | Starts with every table empty and request id 1 |
| CdpBroker.CdpBridge.Reply | src/server/cdpBridge.ts:1039-1044 | Sends to the socket if it is open and otherwise does nothing |
| CdpBroker.CdpBridge.AnswerPending | src/server/cdpBridge.ts:960-973 | The new state is the old one with the scope's commands answered and forgotten |
| CdpBroker.CdpBridge.ForgetPending | src/server/cdpBridge.ts:847-852 | Forgets a closed client's commands unanswered |
| CdpBroker.CdpBridge.SettleCommands | src/server/cdpBridge.ts:1029-1037 | Settles exactly the host commands of the scope with the given outcome |
| CdpBroker.CdpBridge.DropTargets | src/server/cdpBridge.ts:998-1011 | Closes and forgets the targets' clients and unpins each that had any |
| CdpBroker.CdpBridge.FlushProvider | src/server/cdpBridge.ts:952-980 | Settles the host's commands, answers what it or no host serves, and drops its targets' clients |
| CdpBroker.CdpBridge.HandleProviderClose | src/server/cdpBridge.ts:524-534 | Acts only for the current provider: removes it, flushes, and deletes its registrations |
| CdpBroker.CdpBridge.CloseRpcConnection | src/server/cdpHostProviderRpcChannel.ts:118-153 | An open connection is marked closed, its session forgotten and the close listener run in the same call; a closed one is left alone |
| CdpBroker.CdpBridge.CloseConnection | src/server/cdpBridge.ts:500-500 | Closes an RPC provider at once and only marks a WebSocket as closing |
| CdpBroker.CdpBridge.SendTo | src/server/cdpHostProviderRpcChannel.ts:109-116 | A send that breaks an RPC stream closes it inside the call, re-entering the bridge |
| CdpBroker.CdpBridge.AttachProvider | src/server/cdpBridge.ts:496-504 | Settles and closes a different provider of the host, then stores the new one |
| CdpBroker.CdpBridge.ConnectProvider | src/server/cdpBridge.ts:496-504 | A new WebSocket provider is tracked and attached |
| CdpBroker.CdpBridge.OpenChannelSession | src/server/cdpHostProviderRpcChannel.ts:19-59 | Refuses a forbidden caller, an unauthorized host or a session id in use without any change; otherwise opens, attaches and sends |
| CdpBroker.CdpBridge.CloseChannelSession | src/server/cdpHostProviderRpcChannel.ts:72-79 | Closes the session's connection if the caller may use it |
| CdpBroker.CdpBridge.StopRpcChannel | src/server/cdpHostProviderRpcChannel.ts:81-86 | Closes every session in turn while the close listeners take entries out of the map |
| CdpBroker.CdpBridge.HandleRegister | src/server/cdpBridge.ts:547-612 | Registers for the current provider of the lease host; otherwise answers a refusal or ignores it, with the source's branches |
| CdpBroker.CdpBridge.HandleUnregister | src/server/cdpBridge.ts:614-644 | Acts only for the registering host; answers, settles and drops the target's clients without unpinning |
| CdpBroker.CdpBridge.HandleCdpReply | src/server/cdpBridge.ts:646-675 | Accepts a result or error only from the host that the command's target is registered at |
| CdpBroker.CdpBridge.HandleCommandReply | src/server/cdpBridge.ts:695-741 | Accepts a navigation reply from the target's host and a host-command reply also from the issuing host, and settles the command with its outcome |
| CdpBroker.CdpBridge.FindProvider | src/server/cdpBridge.ts:864-883 | Finds the open provider of the registered host, which must be the lease host when there is a resolver |
| CdpBroker.CdpBridge.HandleClientConnection | src/server/cdpBridge.ts:749-767 | Adds the client and pins the target when it is the first |
| CdpBroker.CdpBridge.HandleClientMessage | src/server/cdpBridge.ts:769-814 | Answers when there is no provider or a workspace target is asked to navigate; otherwise the frame is pending and sent, and a failed send is answered once |
| CdpBroker.CdpBridge.HandleClientClose | src/server/cdpBridge.ts:816-853 | Removes the client; the last one unpins and makes the provider detach, which may re-enter; the client's commands are forgotten |
| CdpBroker.CdpBridge.DetachTarget | src/server/cdpBridge.ts:1013-1027 | Tells the open provider, then deletes the registration if it is that host's |
| CdpBroker.CdpBridge.CloseTarget | src/server/cdpBridge.ts:982-990 | Answers, settles and drops all that belongs to the target |
| CdpBroker.CdpBridge.HandleLeaseChanged | src/server/cdpBridge.ts:439-456 | Nothing when the host does not change; otherwise detaches from the previous host and closes the target |
| CdpBroker.CdpBridge.IssueHostCommand | src/server/cdpBridge.ts:382-425 | Issues a command to the target's provider, settles it at once when the send throws, and is refused without a provider |
| CdpBroker.CdpBridge.CommandTimer | src/server/cdpBridge.ts:342-345 | A timer settles its command if it is still pending |
| CdpBroker.CdpBridge.CloseAllProviders | src/server/cdpBridge.ts:486-491 | Closes every provider while RPC close listeners take entries out of the map being walked |
| CdpBroker.CdpBridge.StopBridge | src/server/cdpBridge.ts:461-494 | Settles, answers and drops everything and closes every provider |
| CdpBroker.CdpBridge.Dispatch | src/server/cdpBridge.ts:541-858 | Any event that can occur takes the object to the state of the specification and keeps the invariant, so the theorems about runs hold of the object |
| LayerOrder.ReconcileStacks | src/main/viewManager.ts:1405-1499 | Whether the no-op test succeeds or the views are restacked, the desired views end in the planned order with no other visible managed view above the first of them |
| LayerOrder.ReconcileMembers | src/main/viewManager.ts:1489-1492 | A managed view is a child after reconciling exactly when it was one before or is desired |
| LayerOrder.ReconcileIdempotent | src/main/viewManager.ts:1455-1487 | A second reconcile with the same plan leaves the child list as it is |
| LayerOrder.IndexChildren | src/main/viewManager.ts:1462-1463 | The index has the last position of every child |
| LayerOrder.DesiredInOrder | src/main/viewManager.ts:1464-1473 | The first half of the no-op test: every desired view is there and in order |
| LayerOrder.NoneAbove | src/main/viewManager.ts:1474-1485 | The second half: no other visible managed view above the first |
| LayerOrder.AlreadyStacked | src/main/viewManager.ts:1455-1486 | The no-op test accepts exactly the child lists that meet both |
| LayerOrder.RaiseEach | src/main/viewManager.ts:1489-1492 | The restack loop, each view removed and appended in turn |
| LayerOrder.Reconcile | src/main/viewManager.ts:1405-1499 | The whole method returns the reconciled child list |
| SlotGuarantees.SlotTableOnEveryRun | src/main/viewManager.ts:752-1007 | After every run of public operations, also ones that throw: slots and panels are a bijection of existing panel views, the focus flag is true exactly on the focused slot, owners and generations are current, remembered slots are distinct and apart from active ones, and both tables are empty while the hosted shell is not ready |
| SlotGuarantees.GateOnEveryRun | src/main/viewManager.ts:426-449 | After every run the bootstrap view is a child of the window exactly when the attach flag is set and exactly while the hosted shell is not ready |
| SlotGuarantees.LayersAfterOperation | src/main/viewManager.ts:1405-1499 | Every operation that ends in a reconcile (readiness, bind, update, clear, show, create with restore, renderer loss, demotion, hiding the suggestions) leaves the layers in the planned order |
| SlotGuarantees.RestackIdempotent | src/main/viewManager.ts:1455-1499 | In every reachable state a second reconcile changes nothing |
| SlotGuarantees.PlanPutsPanelOverShell | src/main/viewManager.ts:1412-1453 | While ready the plan has the hosted shell before every slotted panel |
| SlotGuarantees.FocusedIsLast | src/main/viewManager.ts:1446-1449 | While ready the focused slot's panel is the last of the plan |
| SlotGuarantees.PanelsAreAboveShell | src/main/viewManager.ts:1412-1453 | In any state whose layers are right, every slotted panel is above the hosted shell, and the focused one above every other slotted panel |
| SlotLayers.PanelsAboveShellOnEveryRun | src/main/viewManager.ts:2248-2271 | After every run of operations, however they ended: while the hosted shell is ready every slotted panel is above it in the window, and the focused slot's panel above those of all other slots |
| SlotLayers.StepAbove | src/main/viewManager.ts:752-1007 | Every operation keeps that order, also those that do not reconcile: a throwing bind, a destroy, hiding a view, showing an overlay |
| SlotLayers.RestackRaisesOverlays | src/main/viewManager.ts:1489-1498 | A reconcile that moves anything leaves the showing overlays topmost, in order |
| LayerOrder.WithoutOrder | src/main/viewManager.ts:786-786 | Taking a child out keeps the order of the others |
| LayerOrder.RaiseOrder | src/main/viewManager.ts:1490-1491 | So does raising it |
| SlotGuarantees.DestroyRecreateRoundTrip | src/main/viewManager.ts:611-639 | A slotted panel that is destroyed and created again, with no rebind or clear of its slot, clear-all or shell change in between, is back in its slot with the same record |
| SlotGuarantees.BindingSurvives | src/main/viewManager.ts:761-771 | No other operation loses a remembered binding |
| SlotGuarantees.DemotedHostCannotBeDestroyed | src/main/viewManager.ts:752-760 | Destroying a view throws, and changes nothing, exactly when it is the active hosted shell without host-chrome rights, which an update that demotes the shell brings about |
| SlotBounds.ClampFits | src/main/viewManager.ts:1265-1282 | Accepted bounds lie inside the window as it is then |
| SlotBounds.SlotsInsideOnEveryRun | src/main/viewManager.ts:363-368 | After every run, with any resizes of the window, every slot and remembered binding lies inside any size that the window never exceeded |
| SlotBounds.StepWithin | src/main/viewManager.ts:752-1007 | Every operation keeps that, because bounds are accepted only inside the window and kept otherwise |
| SlotGuarantees.DemotionIsReachable | src/main/viewManager.ts:2063-2088 | A run after which the hosted shell cannot be destroyed: it is created, becomes ready and is demoted |
| LayerPositions.ReconcileIs | src/main/viewManager.ts:1455-1499 | A child list that has the desired views in order, with no other shown view above the lowest, stays; any other becomes the remaining children in their order, then the desired views, then the overlays |
| LayerPositions.RightIsStacked | src/main/viewManager.ts:1462-1486 | The no-op test by last positions means just that, place by place |
| SlotPlan.PlanHolds | src/main/viewManager.ts:1424-1453 | Exactly the views that are raised: visible chrome and the hosted shell while ready, the visible panel without a slot, every panel in a slot, and the gate while not ready |
| SlotPlan.ChromeIsBelow | src/main/viewManager.ts:1424-1450 | Chrome comes before every panel |
| SlotPlan.FallbackIsBelow | src/main/viewManager.ts:1432-1450 | The visible panel without a slot comes before every panel in a slot |
| SlotPlan.ChromeInOrder | src/main/viewManager.ts:1425-1427 | Visible chrome comes in the order of creation |
| SlotPlan.SlotsInOrder | src/main/viewManager.ts:1441-1445 | Panels in slots without the focus come in slot order |
| SlotPlan.GateIsLast | src/main/viewManager.ts:1451-1453 | While not ready the gate comes last |
| SlotPlan.ReconcileMoves | src/main/viewManager.ts:1405-1499 | A reconcile changes only the child list, and to exactly that list |
| SlotEffects.BindFills | src/main/viewManager.ts:877-937 | A bind by the active shell of an existing panel that is free or already there, with finite positive bounds, ends with the panel in the slot: the record with the placed bounds, focus, owner and generation, both maps, the visible view, the focus; the ousted panel is hidden and unmapped, rivals are no longer remembered, every other slot keeps its panel, bounds and owner |
| SlotEffects.BindOrder | src/main/viewManager.ts:904-926 | A slot that is new or has a new panel comes last in slot order, and one that keeps its panel keeps its place |
| SlotEffects.BindIsRefused | src/main/viewManager.ts:886-913 | Any other bind throws: before any change, or, with bad bounds only, after the old panel is out of the slot |
| SlotEffects.PlacedIsIntersectionIff | src/main/viewManager.ts:1265-1282 | Accepted bounds cover exactly the part of the request inside the window, along each axis, if and only if the request begins in or after the window's origin or reaches to its far edge |
| SlotEffects.MovedInWhole | src/main/viewManager.ts:1227-1234 | A request that begins before the origin is moved into the window at its full size: from -100 of width 300 to 0 of width 300 |
| SlotEffects.UpdateTunes | src/main/viewManager.ts:939-977 | An update changes exactly the slot's bounds, if given, to where they are placed, and the focus, if given |
| SlotEffects.UpdateIsRefused | src/main/viewManager.ts:943-950 | An update by another owner, of an unknown slot or with bad bounds changes nothing, and says so |
| SlotEffects.ClearFrees | src/main/viewManager.ts:979-991 | A clear takes exactly that slot off the table, hides its panel, drops the focus if it was there and forgets what was remembered for the slot |
| SlotEffects.ClearIsRefused | src/main/viewManager.ts:980-982 | A clear by another owner throws and changes nothing |
| SlotEffects.ClearAllEmpties | src/main/viewManager.ts:993-1007 | Clear-all empties the table and what is remembered, and hides exactly the panels that were in slots |
| SlotEffects.ShellTakesOver | src/main/viewManager.ts:844-855 | A host-chrome app that was not the active shell takes over with the next generation, an empty table, its view visible and the gate detached |
| SlotEffects.ShellStays | src/main/viewManager.ts:828-843 | The active shell reporting ready again leaves slots, focus and bindings as they are |
| SlotEffects.ShellLeaves | src/main/viewManager.ts:866-875 | The shell reporting not ready empties the table, hides its view and shows the gate; owner and generation stay |
| SlotEffects.ReadinessIsRefused | src/main/viewManager.ts:817-864 | Nobody else can report readiness, and no other app can report the active shell gone |
| SlotEffects.ShellDies | src/main/viewManager.ts:560-568 | The end of the shell's renderer does the same |
| SlotEffects.OthersDie | src/main/viewManager.ts:560-568 | Any other renderer that goes changes nothing here |
| SlotEffects.ShellIsDemoted | src/main/viewManager.ts:2063-2088 | So does taking its host-chrome right away |
| SlotEffects.ViewIsCreated | src/main/viewManager.ts:478-603 | A new view is hidden and the topmost child, and host chrome only if it is an app |
| SlotEffects.ViewIsCreatedBelow | src/main/viewManager.ts:478-603 | The same with panels showing, when it is put in its layer at once |
| SlotEffects.SlottedPanelIsDestroyed | src/main/viewManager.ts:752-794 | Destroying a panel in a slot frees exactly that slot and remembers its record |
| SlotEffects.ViewIsShown | src/main/viewManager.ts:1038-1100 | Showing or hiding a view changes its visibility and which panel is the visible one, as the kind of view demands |
| SlotEffects.ViewIsRestored | src/main/viewManager.ts:611-640 | A panel that was destroyed in a slot and is created again is back in that slot with the remembered record and visible; only a focused one takes the focus, every other slot stays, and the binding is no longer remembered |
| SlotEffects.OverlaysAreShown | src/main/viewManager.ts:1122-1151 | Showing an overlay puts it on top of the window, among the overlays that a reconcile raises, suggestions before content |
| SlotEffects.OverlaysAreHidden | src/main/viewManager.ts:1137-1159 | Hiding one takes it out of these and leaves it a child |
| SlotEffects.PanelIsShown | src/main/viewManager.ts:817-937 | A run: an app becomes the hosted shell and binds a panel, which ends in its slot with the requested bounds, focused and above the shell |
| SlotTheorems.RestoreGuardHolds | src/main/viewManager.ts:616-622 | The restore guard never rejects a remembered slot in a reachable state |
| SlotTheorems.StepInv | src/main/viewManager.ts:752-1007 | Every public operation keeps the invariant of slots, focus, owners, remembered slots, gate and layers |
| SlotTheorems.InitialInv | src/main/viewManager.ts:261-330 | A new view manager meets it |
| SlotTheorems.RunInv | src/main/viewManager.ts:752-1007 | So does every run |
| SlotTheorems.BindInv | src/main/viewManager.ts:877-938 | A bind keeps the invariant, also when bad bounds throw after the slot was made free; a successful one leaves the layers right |
| SlotTheorems.UpdateInv | src/main/viewManager.ts:940-979 | An update keeps it; a successful one leaves the layers right |
| SlotTheorems.ClearInv | src/main/viewManager.ts:981-992 | A clear keeps it; a successful one leaves the layers right |
| SlotTheorems.ClearAllInv | src/main/viewManager.ts:994-1007 | Clear-all keeps it, although its reconcile can attach the gate again |
| SlotTheorems.SetReadyInv | src/main/viewManager.ts:817-875 | Reporting the shell ready or not keeps it |
| SlotTheorems.CreateInv | src/main/viewManager.ts:478-603 | Creating a view, with the restore of a remembered slot, keeps it |
| SlotTheorems.RestoreInv | src/main/viewManager.ts:611-639 | The restore keeps it |
| SlotTheorems.DestroyInv | src/main/viewManager.ts:752-794 | Destroying a view keeps it and remembers the binding of a slotted panel |
| SlotTheorems.RendererGoneInv | src/main/viewManager.ts:560-575 | The loss of the hosted shell's renderer keeps it |
| SlotTheorems.UpdateAppInv | src/main/viewManager.ts:2063-2088 | Updating an app, which may demote the hosted shell, keeps it |
| SlotTheorems.SetViewVisibleInv | src/main/viewManager.ts:1038-1080 | Showing or hiding a view keeps it |
| SlotTheorems.ShowOverlayInv | src/main/viewManager.ts:1122-1151 | Showing an overlay keeps it |
| SlotTheorems.HideRowsInv | src/main/viewManager.ts:1137-1141 | Hiding the suggestions keeps it and leaves the layers right |
| SlotTheorems.ResizeWindowInv | src/main/viewManager.ts:363-368 | A resize keeps the invariant and every slot record, and leaves the layers right |
| SlotInvariants.PlanIs | src/main/viewManager.ts:1412-1453 | The plan has existing views once each, and the gate exactly while the shell is not ready |
| SlotInvariants.RestackInv | src/main/viewManager.ts:1405-1499 | A reconcile keeps the invariant and leaves the layers right |
| SlotInvariants.ReassertInv | src/main/viewManager.ts:828-843 | A redundant readiness report keeps the slots and the invariant |
| PanelHost.FocusFlags | src/main/viewManager.ts:1313-1315 | The loop sets the focus flag on the given slot and clears it on every other |
| PanelHost.DropRemembered | src/main/viewManager.ts:903-905 | The loop forgets exactly the remembered bindings of a slot |
| PanelHost.ComputePlan | src/main/viewManager.ts:1412-1453 | The loops compute the plan |
| PanelHost.ViewManager.constructor | src/main/viewManager.ts:261-330 | Starts with the gate attached and every table empty |
| PanelHost.ViewManager.ReconcileNativeLayerOrder | src/main/viewManager.ts:1405-1499 | The child list becomes the reconciled one and nothing else changes |
| PanelHost.ViewManager.ShowBootstrapShell | src/main/viewManager.ts:426-433 | Attaches the gate once and shows it |
| PanelHost.ViewManager.HideBootstrapShell | src/main/viewManager.ts:443-449 | Hides and detaches the gate |
| PanelHost.ViewManager.ClearPanelSlotInternal | src/main/viewManager.ts:1284-1310 | Frees the slot, moves focus and the visible panel as the source does, and hides the panel |
| PanelHost.ViewManager.SetFocusedNativePanelSlot | src/main/viewManager.ts:1312-1324 | The slot becomes the one focused slot and its panel the visible one |
| PanelHost.ViewManager.ClearAllPanelSlots | src/main/viewManager.ts:994-1007 | Forgets every binding and remembered binding, hides the slotted panels, clears focus and reconciles |
| PanelHost.ViewManager.LoseHostedShell | src/main/viewManager.ts:562-567 | Not ready, all slots cleared, the shell hidden, the gate shown, the layers reconciled |
| PanelHost.ViewManager.SetVisibleView | src/main/viewManager.ts:1038-1080 | Shows or hides a view, with the tracked visible panel and the reconcile of each branch |
| PanelHost.ViewManager.SetHostedShellReady | src/main/viewManager.ts:817-875 | Refuses a view that may not host and a different active shell; a redundant report keeps the slots; a takeover starts a generation with empty tables |
| PanelHost.ViewManager.BindPanelSlot | src/main/viewManager.ts:877-938 | Checks, forgets superseded bindings, frees the slot, and throws on bad bounds after that; otherwise binds, focuses and reconciles |
| PanelHost.ViewManager.UpdatePanelSlot | src/main/viewManager.ts:940-979 | Missing slot, stale owner, lost panel and bad bounds as in the source; otherwise moves and refocuses the slot and reconciles |
| PanelHost.ViewManager.ClearPanelSlot | src/main/viewManager.ts:981-992 | Checks the owner, forgets remembered bindings of the slot, frees it and reconciles |
| PanelHost.ViewManager.RestorePanelSlotIfPending | src/main/viewManager.ts:611-639 | Takes the remembered binding and puts it back if the guards allow |
| PanelHost.ViewManager.CreateManagedView | src/main/viewManager.ts:478-603 | Refuses an id in use; otherwise appends the view, restores a panel's slot and reconciles when something is shown |
| PanelHost.ViewManager.DestroyManagedView | src/main/viewManager.ts:752-794 | Loses the hosted shell first, remembers a slotted panel's binding, then removes the view |
| PanelHost.ViewManager.HandleRendererGone | src/main/viewManager.ts:560-568 | Loses the hosted shell when its renderer is gone |
| PanelHost.ViewManager.UpdateManagedApp | src/main/viewManager.ts:2063-2088 | Sets the host-chrome right and loses the hosted shell when it is taken away |
| PanelHost.ViewManager.ShowOverlayView | src/main/viewManager.ts:1122-1151 | The overlay is showing and topmost; nothing else moves |
| PanelHost.ViewManager.HideOverlayView | src/main/viewManager.ts:1157-1159 | The overlay is not showing and stays a child |
| PanelHost.ViewManager.HideRowsOverlay | src/main/viewManager.ts:1137-1141 | Hides the suggestions if the id matches and reconciles either way |
| PanelHost.ViewManager.OnResize | src/main/viewManager.ts:363-368 | The window has the new size, the slots keep their bounds, the layers are reconciled |
| PanelHost.ViewManager.Perform | src/main/viewManager.ts:752-1007 | Any operation takes the object to the state and outcome of the specification and keeps the invariant, so the theorems about runs hold of the object |
| PanelTree.MatchIsSemanticEquality | src/main/panelOrchestrator.ts:1234-1251 | The recursive comparison accepts exactly two trees with equal semantic parts whose panels all have a current snapshot |
| PanelTree.LooseMatchIsUntitledEquality | src/main/panelOrchestrator.ts:1253-1269 | The comparison without titles accepts exactly two trees that are equal but for titles and artifacts |
| PanelTree.RetitledTitle | src/main/panelOrchestrator.ts:1278-1293 | Preserving explicit titles gives a protected panel its current title and leaves every other title |
| PanelTree.SelectIsIdentity | packages/shared/src/panelRegistry.ts:427-454 | Selecting the focused path changes nothing exactly when it is selected already, and selects it otherwise |
| PanelMirror.ThreePathsOneResult | src/main/panelOrchestrator.ts:1128-1162 | Skipping, patching titles and repopulating all leave the snapshot's semantic tree with the explicit titles kept and the focused panel's path selected |
| PanelMirror.MirrorEqualsSnapshotIff | src/main/panelOrchestrator.ts:1162-1162 | The mirror equals the snapshot, explicit titles aside, exactly when the snapshot itself selects the path to the focused panel |
| PanelMirror.PatchReaches | src/main/panelOrchestrator.ts:1271-1276 | The titles-only path reaches the snapshot's semantic tree |
| PanelMirror.ExplicitTitleSurvives | src/main/panelOrchestrator.ts:1278-1293 | A protected title survives every snapshot that still has the panel |
| PanelConvergence.Converges | src/main/panelOrchestrator.ts:1128-1162 | However deliveries are reordered, duplicated or lost before and after it, once the highest snapshot is delivered the mirror is in its semantic tree, with exactly those protected titles that survived the deliveries before it, whatever those dropped or navigated |
| PanelConvergence.ProtectedIffSurvives | src/main/panelOrchestrator.ts:1167-1192 | After any deliveries a panel is protected exactly when it was before and no applied delivery dropped it or navigated it while it had a native view here; then it still has its title |
| PanelConvergence.HistoriesAgreeIff | src/main/panelOrchestrator.ts:1128-1137 | Two histories with the same highest snapshot end in the same semantic tree exactly when every protected title that the snapshot would rename survives both or neither |
| PanelConvergence.AllTitlesKeptIff | src/main/panelOrchestrator.ts:1278-1293 | All protected titles are on the final tree exactly when each one that the highest snapshot would rename survived |
| PanelConvergence.HistoryOf | src/main/panelOrchestrator.ts:1128-1137 | Any list of deliveries with one highest snapshot splits into older ones, its first delivery and the rest |
| PanelConvergence.HistoriesAgree | src/main/panelOrchestrator.ts:1128-1137 | Without protected titles, any two lists of deliveries that have the highest snapshot end in the same semantic tree |
| PanelConvergence.DeliveredProtection | src/main/panelOrchestrator.ts:1178-1192 | One delivery takes the protection of exactly the panels that are gone, or hosted here and navigated |
| PanelConvergence.DeliveryKeeps | src/main/panelOrchestrator.ts:1128-1210 | A delivery keeps the mirror well formed, and protection only for panels that are there, whatever it drops or navigates |
| PanelConvergence.DroppedPanelLosesItsTitle | src/main/panelOrchestrator.ts:1168-1170 | Two histories that disagree because one of them drops a protected panel |
| PanelConvergence.NavigatedPanelLosesItsTitle | src/main/panelOrchestrator.ts:1178-1192 | Two that disagree because one of them navigates a hosted protected panel; without the view the title survives |
| PanelConvergence.MirrorCanDifferFromSnapshot | packages/shared/src/panelRegistry.ts:652-654 | A snapshot that the mirror does not end equal to: a focused child that it does not select |
| PanelConvergence.MirrorOnEveryRun | src/main/panelOrchestrator.ts:1128-1232 | After snapshots, title events and focus changes in any order the ids are unique, every panel has a current snapshot, the focused panel's path is selected and only panels that are there are protected |
| PanelConvergence.RunKeeps | src/main/panelOrchestrator.ts:1128-1232 | The same from any mirror that is well formed |
| PanelConvergence.BuildSurvives | packages/shared/src/panelRegistry.ts:687-716 | A panel that stays in its context keeps what is known of its build, by whichever path the snapshot is applied |
| PanelTree.CarriedFind | packages/shared/src/panelRegistry.ts:687-698 | Repopulating gives each panel the known artifacts if it is still in its context, and everything else as in the snapshot |
| PanelMirror.BrokenPanelFreezesMirror | src/main/panelOrchestrator.ts:1139-1142 | A mirror with a panel that has no current snapshot takes no snapshot over, and a newer one throws |
| PanelMirror.FrozenForever | src/main/panelOrchestrator.ts:1128-1142 | No later snapshot changes the tree of such a mirror |
| PanelBroken.AppliesIff | src/main/panelOrchestrator.ts:1128-1210 | For every mirror and snapshot the call returns exactly when the snapshot is stale or every panel of the mirror and of the snapshot has a current snapshot |
| PanelBroken.BrokenSnapshotIsTaken | src/main/panelOrchestrator.ts:1139-1174 | A newer snapshot with a broken panel throws and is taken over all the same, so the mirror has a broken panel |
| PanelBroken.SoundIffNoneBroken | src/main/panelOrchestrator.ts:1128-1174 | After any deliveries every panel of the mirror has a current snapshot exactly when none of the applied snapshots was broken |
| PanelBroken.BrokenSnapshotFreezes | src/main/panelOrchestrator.ts:1128-1174 | The first broken snapshot that is applied is the last one that changes the tree, whatever is delivered after it |
| PanelBroken.FreezeIsReachable | src/main/panelOrchestrator.ts:1139-1142 | From an empty mirror, one panel whose history index is out of range keeps the next good snapshot out |
| PanelMirror.FocusKeepsSettled | packages/shared/src/panelRegistry.ts:427-454 | Focusing a panel keeps the mirror well formed |
| PanelMirror.TitleUpdateKeeps | src/main/panelOrchestrator.ts:1219-1232 | A title event changes that one title, and a protected title only when it is explicit |
| PanelClose.FocusSurvivesClose | src/main/panelOrchestrator.ts:500-518 | The panel chosen for focus is still in the tree after the close |
| PanelClose.NoFocusExactly | src/main/panelOrchestrator.ts:500-518 | None is chosen exactly when the focused panel is not closing or the only root is |
| PanelClose.ClosingIsNoticedUnlessDeep | packages/shared/src/panelRegistry.ts:125-147 | A focused panel that goes away with the closed one is noticed exactly when it is at most 100 levels below it |
| PanelClose.DeepFocusIsLost | packages/shared/src/panelRegistry.ts:125-147 | In a chain of 102 panels closing the first removes the focused last one and focuses nothing else |
| PanelClose.RemovedIds | src/main/panelOrchestrator.ts:520-525 | Removing a panel takes away its own id and those below it, and no other |
| PanelUnload.EachReleasedOnce | src/main/panelOrchestrator.ts:1931-1944 | An unload releases every panel of the subtree once and no other |
| PanelUnload.BelowComesFirst | src/main/panelOrchestrator.ts:1938-1942 | What is below a panel is released before it |
| PanelUnload.UnloadKeepsMatches | src/main/panelOrchestrator.ts:1944-1951 | Unloading does not change which snapshots match the tree |
| PanelUnload.UnloadedExactly | src/main/panelOrchestrator.ts:1944-1951 | Afterwards exactly the panels of the subtree are pending without a build, and every other keeps its artifacts |
| PanelOrchestrator.PruneRemoved | src/main/panelOrchestrator.ts:1168-1170 | The loop releases exactly the panels that are gone and drops their title protection |
| PanelOrchestrator.DropNavigated | src/main/panelOrchestrator.ts:1178-1192 | The loop drops the title protection of exactly the hosted panels that were navigated |
| PanelOrchestrator.Repopulate | src/main/panelOrchestrator.ts:1139-1192 | The repopulate path: the snapshot with the known artifacts carried over and the focused path selected, protection dropped, each lost panel released once; it throws when a panel has no current snapshot |
| PanelOrchestrator.Orchestrator.ApplyServerPanelTitleUpdate | src/main/panelOrchestrator.ts:1219-1232 | A title event as specified: ignored for an unknown panel or a protected title |
| PanelOrchestrator.Orchestrator.ApplyPanelTitles | src/main/panelOrchestrator.ts:1271-1276 | The recursive walk patches titles, parents first |
| PanelOrchestrator.Orchestrator.ApplyServerPanelTreeSnapshot | src/main/panelOrchestrator.ts:1128-1210 | The whole method refines the specification and releases every panel that has gone, once, and no other |
| PanelOrchestrator.Orchestrator.UnloadPanelTree | src/main/panelOrchestrator.ts:1931-1951 | Looks every panel up again by id and still unloads exactly the subtree, children first |
| PanelOrchestrator.Orchestrator.Focus | packages/shared/src/panelRegistry.ts:427-454 | The panel is focused and the path to it selected, by the walk |
| PanelFocus.UpdateSelectedPath | packages/shared/src/panelRegistry.ts:427-454 | The walk from the panel up, at most 100 steps, each selecting the panel it comes from, ends in the specified selection; it never visits a panel twice |
| PanelFocus.ParentIsNext | packages/shared/src/panelRegistry.ts:113-120 | The parent found for an ancestor is the next ancestor, and there is none exactly at the root |
| PanelFocus.SelectStep | packages/shared/src/panelRegistry.ts:441-448 | One step of the walk selects exactly one more ancestor's child |
| PanelNavigation.ProtectionAfterNavigation | src/main/panelOrchestrator.ts:1182-1193 | After a newer snapshot a protected panel that is still there is protected exactly if it has no native view, or source and context are both the same, or either source begins with browser: |
| PanelNavigation.GoneIsUnprotected | src/main/panelOrchestrator.ts:1169-1171 | A panel that is gone is not protected |
| PanelNavigation.TitleDelivered | src/main/panelOrchestrator.ts:1271-1293 | A newer snapshot gives every panel its title there, except that a protected one keeps its own |
| PanelNavigation.TitleAfterNavigation | src/main/panelOrchestrator.ts:1182-1193 | So the next snapshot renames a protected panel exactly if it was loaded anew |
| PanelNavigation.ContextAloneEndsProtection | src/main/panelOrchestrator.ts:1186-1191 | Another context alone ends the protection, another source alone too; a page change of a browser panel does not |
| PanelNavigation.StaleIsIgnored | src/main/panelOrchestrator.ts:1129-1129 | A snapshot that is not newer changes nothing |
| PanelNavigation.TitleEventProtects | src/main/panelOrchestrator.ts:1219-1232 | Exactly an explicit title event for a panel that is there protects, and none takes protection away |
| PanelNavigation.BuildAfterNavigation | packages/shared/src/panelRegistry.ts:687-714 | When more than titles change, a panel in its old context keeps what is known of its build and in another context has only what the snapshot says |
| PanelDelivered.TreeDelivered | src/main/panelOrchestrator.ts:1128-1162 | After a newer snapshot the mirror has exactly the snapshot's panels, in its order at every level, each at its position and with its current snapshot; each selects what it does there, except that panels on the way down to the focused one select along it |
| PanelChoice.ChildChoice | src/main/panelOrchestrator.ts:500-511 | A closed child hands the focus to the last other child of its parent, an only child to the parent |
| PanelChoice.RootChoice | src/main/panelOrchestrator.ts:512-517 | A closed root hands it to the next root, the last one to the root before it, the only one to none |
| PanelChoice.MiddleChild | src/main/panelOrchestrator.ts:508-511 | Of three children the middle one hands the focus to the last one, and the last one to the middle one |
| PanelChoice.ParentHolds | packages/shared/src/panelRegistry.ts:113-120 | The parent that is found is the panel whose children hold the id |
| PanelChoice.RootOrSomeChild | packages/shared/src/panelRegistry.ts:113-120 | Every panel in a tree is a root or some panel's child |
| PanelChoice.ClosingIff | packages/shared/src/panelRegistry.ts:125-147 | The focus is closing exactly if going from child to parent at most 100 times leads from it to the closed panel |
| PanelChoice.SelectFollows | packages/shared/src/panelRegistry.ts:427-454 | After a focus change exactly the panels on the way down to the focused one, up to 100 of them, select the next panel on it, and nothing else about any panel changes |
| PanelOrchestrator.Orchestrator.Handle | src/main/panelOrchestrator.ts:1128-1232 | Any snapshot, title or focus event takes the object to the state of the specification and keeps the mirror well formed |
| Utf8.DecodeConcat | src/main/remoteCdpHostProviderSocket.ts:76-87 | Decoding goes on where it stopped, wherever the bytes are cut |
| Utf8.RoundTrip | src/server/cdpHostProviderRpcChannel.ts:109-112 | Encoded text decodes to itself and leaves the decoder between two characters |
| JsonText.QuoteRoundTrip | src/server/cdpHostProviderRpcChannel.ts:112-112 | Reading a printed string literal by the grammar of section 7 of RFC 8259 gives the text back |
| JsonText.QuoteIsPrintable | src/server/cdpHostProviderRpcChannel.ts:112-112 | A printed literal has no line break and no lone surrogate |
| KnownAnswers.Utf8Answers | src/server/cdpHostProviderRpcChannel.ts:109-112 | The bytes of code points at both ends of each length of section 3 of RFC 3629; a lone surrogate is replaced |
| KnownAnswers.Utf8Repairs | src/main/remoteCdpHostProviderSocket.ts:76-87 | One replacement for each part of a sequence that does not go on, also at the end of the stream; a leading byte order mark is dropped |
| KnownAnswers.JsonAnswers | src/server/cdpHostProviderRpcChannel.ts:112-112 | A quote, a backslash and a line break as they stand in a literal |
| KnownAnswers.JsonCodes | src/server/cdpHostProviderRpcChannel.ts:112-112 | So a control character and a lone surrogate |
| KnownAnswers.WireAnswers | src/server/cdpHostProviderRpcChannel.ts:109-112 | The bytes of a message on the wire, with its quotes and line break |
| Framing.SentIsReceived | src/main/remoteCdpHostProviderSocket.ts:76-108 | For all messages and all ways of cutting their bytes, the host receives exactly those messages in order, closes once and has nothing left over |
| Framing.ChunksDoNotMatterIff | src/main/remoteCdpHostProviderSocket.ts:89-114 | For any byte stream the way it is cut makes no difference to what is emitted exactly when no message follows a malformed line |
| Framing.CutDecides | src/main/remoteCdpHostProviderSocket.ts:76-114 | A malformed line and a message: in one chunk the message is emitted after the close, with a cut between them it is lost |
| Framing.ReadingIsTaking | src/main/remoteCdpHostProviderSocket.ts:76-87 | Reading chunks is taking, as one, all that arrived before the reader was cancelled |
| Framing.TakeConcat | src/main/remoteCdpHostProviderSocket.ts:89-99 | Taking two chunks one after the other is taking them as one |
| Framing.LinesConcat | src/main/remoteCdpHostProviderSocket.ts:89-99 | The lines of a longer text are those so far and those of the remainder with what follows |
| Framing.NextBreak | src/main/remoteCdpHostProviderSocket.ts:92-94 | The search for the next line break from the cursor |
| FramingSockets.EmitBuffered | src/main/remoteCdpHostProviderSocket.ts:89-99 | The cursor loop emits the complete lines and returns what follows the last break |
| FramingSockets.EmitFrame | src/main/remoteCdpHostProviderSocket.ts:101-108 | A line that parses is emitted, one that does not fails the socket once |
| FramingSockets.RemoteSocket.Close | src/main/remoteCdpHostProviderSocket.ts:34-45 | Closes and emits once |
| FramingSockets.RemoteSocket.ReadLoop | src/main/remoteCdpHostProviderSocket.ts:76-87 | The read loop refines the specification of reading |
| FramingSockets.RemoteSocket.Open | src/main/remoteCdpHostProviderSocket.ts:47-74 | Emits exactly the outcome of the stream and ends closed |
| FramingSockets.RpcConnection.Send | src/server/cdpHostProviderRpcChannel.ts:109-116 | The bytes on the wire are those of the messages accepted while open; a refused one closes the connection |
| Percent.ComponentRoundTrip | src/server/doDispatch.ts:46-48 | Decoding a percent-encoded component gives it back, for every text |
| Percent.EncodedIsClean | src/server/doDispatch.ts:40-45 | An encoded component has only unreserved characters and percent signs, so neither a slash nor a bar |
| Percent.SplitJoin | src/server/workerdManager.ts:1682-1689 | Splitting joined parts gives them back when none has the separator |
| KnownAnswers.PercentAnswers | src/server/doDispatch.ts:46-48 | Characters that are kept, and separators and a letter of two bytes that are not |
| DoAddress.KeyRoundTrip | src/server/workerdManager.ts:1682-1689 | The host's decoder recovers source, class and key from every packed key |
| DoAddress.KeysAreInjective | src/server/doDispatch.ts:46-48 | Two references never share a packed key |
| DoAddress.UserlandRoundTrip | src/server/doDispatch.ts:55-59 | Every userland reference and method comes back from its path |
| DoAddress.InternalRoundTrip | src/server/doDispatch.ts:9-14 | So does every internal one whose source has two segments |
| DoAddress.AddressRoundTrip | src/server/doDispatch.ts:55-62 | The path built for any reference and method parses back to both |
| DoAddress.AddressesAreInjective | src/server/doDispatch.ts:55-62 | Two different calls never share a path |
| KnownAnswers.PlainKey | src/server/doDispatch.ts:40-48 | A key of plain parts: the parts between bars, which are escaped in the path |
| KnownAnswers.PlainAddress | src/server/doDispatch.ts:9-62 | The two layouts of an address with plain parts, a packed key or source, class and key |
| DoAddress.UserlandDelivery | src/server/workerdManager.ts:1536-1545 | Through the generated router and the host, a userland call reaches the object it names exactly when source and class are not empty, with the non-empty segments of its method |
| DoAddress.MethodSurvivesIff | src/server/workerdManager.ts:1541-1542 | The object sees the method as it was called exactly when it is empty or has no empty segment |
| DoAddress.EmptySegmentIsLost | src/server/workerdManager.ts:1541-1542 | Such a method: two slashes in a row reach the object as one |
| DoRouter.RouteInternal | src/server/workerdManager.ts:1513-1527 | The router's loop takes the first position for the class that is not passed over |
| DoRouter.RouteAtIs | src/server/workerdManager.ts:1513-1526 | One position of the loop: class and key at that place, found exactly when the words before it and the class are in the table |
| DoRouter.InternalDelivery | src/server/workerdManager.ts:1506-1528 | An internal call reaches the object it names exactly when its class has a service, its key is not empty and its method has a segment that is not |
| DoRouter.InternalRoute | src/server/workerdManager.ts:1506-1528 | The exact outcome for every internal call, also one with an empty class or key: the first two words after the source are class and key and there must be a third, and the class must have a service; otherwise the router answers with usage or not found |
| DoRouter.EmptyKeyIsMisread | src/server/workerdManager.ts:1513-1526 | With an empty key the first non-empty method segment is taken for the key when there are two or more; with one the class is not found, with none the usage is answered |
| DoRouter.NoMethodIsNotFound | src/server/workerdManager.ts:1507-1513 | A call without a method has five parts, passes the usage check and is not found |
| Base64.EncodedLength | apps/mobile/index.js:114-115 | The encoding of n bytes has 4 times the ceiling of n/3 characters |
| Base64.EncodedDecodes | apps/mobile/index.js:113-144 | Decoding by section 4 of RFC 4648 gives every byte sequence back |
| Base64.EncodedPadding | apps/mobile/index.js:125-138 | Padding is only at the end: two places after one byte left over, one after two |
| KnownAnswers.Base64Answers | apps/mobile/index.js:113-144 | The test vectors of section 10 of RFC 4648 |
| Base64.ChunksEncodeAsOneIff | apps/mobile/index.js:229-236 | Encoding two chunks apart equals encoding them together exactly when the first has a multiple of three bytes or the second is empty |
| Base64.ChunksDecode | apps/mobile/index.js:229-236 | Decoding separately encoded chunks and joining them gives the whole stream, however it was cut |
| Base64Stream.Uint8ToBase64 | apps/mobile/index.js:113-144 | The loops fill every place of the output with the encoding |
| Base64Stream.FillGroups | apps/mobile/index.js:117-124 | The group loop fills the places of the whole groups with their encoding |
| Base64Stream.FillRest | apps/mobile/index.js:125-138 | The rest fills the remaining places and no other |
| Base64Stream.FromCodes | apps/mobile/index.js:139-143 | The string is all the codes, taken in parts |
| Base64Stream.DrainStream | apps/mobile/index.js:167-186 | One new array holds all the chunks, one after another |
| Base64Stream.StreamToNative | apps/mobile/index.js:227-238 | What is appended decodes to the whole body, only the first append is marked first, and an empty body is an error |
| CommandLine.ParseInvocation | src/cli/commandTable.ts:82-135 | The index loop refines the parser's specification, with its three errors |
| CommandLine.ParseOfPrint | src/cli/commandTable.ts:82-135 | Printing any positionals and flags, in any of their forms, and parsing back yields the positionals and the tail verbatim, the last value of every flag and all values of a repeatable one in order |
| CommandLine.ParsesIffPrinted | src/cli/commandTable.ts:82-135 | A line parses exactly when it can be printed from positionals and flags of the table |
| CommandLine.ParsePrint | src/cli/commandTable.ts:82-135 | Parsing a printed line has the effects of its items, then the tail |
| CommandLine.ParsedIsPrinted | src/cli/commandTable.ts:82-135 | A line that parses is the print of some items |
| CommandLine.TableIsPrintable | src/cli/commandTable.ts:101-107 | In a table with distinct non-empty names free of an equals sign every flag can be printed by its name |
| CommandErrors.ErrorIff | src/cli/commandTable.ts:82-135 | A line gets an error exactly if it is something that can be printed, then a word to blame for it, then anything: a flag the table does not have, a last word that lacks its value, or a switch given something other than true and false |
| CommandErrors.BlameIsErrorHere | src/cli/commandTable.ts:98-130 | The word to blame, spelled out over the table and the word, is where the parser stops |
| CommandErrors.PrintedIsPassed | src/cli/commandTable.ts:91-133 | What can be printed is passed over, whatever follows |
| Diagnostics.Keep | src/server/runtimeDiagnosticsStore.ts:91-95 | Pushing and shifting keeps the last records up to the capacity and counts what it drops |
| Diagnostics.RecordIn | src/server/runtimeDiagnosticsStore.ts:82-104 | The pushes and shifts compute the recorded history |
| Diagnostics.RecordedRepresents | src/server/runtimeDiagnosticsStore.ts:82-104 | A history that represents a log represents, after a record, the log with it at the end: the last records, the last errors, kept plus dropped equal to recorded, numbers contiguous |
| Diagnostics.NumbersAreContiguous | src/server/runtimeDiagnosticsStore.ts:84-90 | The kept records carry consecutive numbers up to the number of records so far |
| Diagnostics.NormalizeLimit | src/server/runtimeDiagnosticsStore.ts:179-182 | A limit that is not a number falls back; any other is rounded down into the range from 0 to the capacity |
| Diagnostics.FilteredIs | src/server/runtimeDiagnosticsStore.ts:112-115 | The filter keeps exactly the records that the query shows, in their order |
| Diagnostics.QueryReturns | src/server/runtimeDiagnosticsStore.ts:106-130 | What a query returns was recorded, is shown by it and is in order; without a limit no kept record that it shows is missing |
| Diagnostics.QueryIs | src/server/runtimeDiagnosticsStore.ts:106-130 | Without limits a query returns exactly the kept records of its level or above, in the order debug, info, warn, error, not before its time and above its number; and exactly the kept errors that pass those two |
| Diagnostics.LimitCuts | src/server/runtimeDiagnosticsStore.ts:120-130 | A whole limit cuts what the query returns without it to its end |
| Diagnostics.LimitReturnsEnd | src/server/runtimeDiagnosticsStore.ts:106-130 | A plain limit returns the end of the whole log, as far as the capacity goes |
| Diagnostics.ErrorsAre | src/server/runtimeDiagnosticsStore.ts:96-102 | The errors of a log are exactly its records of that level, in order |
| Diagnostics.ErrorQueryReturns | src/server/runtimeDiagnosticsStore.ts:115-120 | The errors a query returns were recorded as errors, pass its cursor and are in order, whatever the level asked for; without a limit no kept one that passes is missing |
| Diagnostics.ErrorLimitReturnsEnd | src/server/runtimeDiagnosticsStore.ts:115-120 | A plain error limit returns the end of the whole log's errors, as far as the capacity goes |
| Diagnostics.ResumeReturnsRest | src/server/runtimeDiagnosticsStore.ts:109-114 | Resuming after a number returns exactly the records not seen yet when none of them was dropped, and otherwise all that is left |
| Diagnostics.ReaderSeesAllIff | src/server/runtimeDiagnosticsStore.ts:109-114 | On every run of records and polls over a history, a reader that resumes by number has seen each record up to its cursor once and in order exactly when every poll that returned something went on right after the cursor |
| Diagnostics.ReaderOnEveryRun | src/server/runtimeDiagnosticsStore.ts:106-130 | The same from an empty store |
| DiagnosticsStore.Store.constructor | src/server/runtimeDiagnosticsStore.ts:75-80 | Starts with no log |
| DiagnosticsStore.Store.Reopen | src/server/runtimeDiagnosticsStore.ts:140-171 | A later process over the same files goes on with every log |
| DiagnosticsStore.Store.Find | src/server/runtimeDiagnosticsStore.ts:132-138 | The cached history, or else the file's, or else an empty one, represents the entity's log |
| DiagnosticsStore.Store.Add | src/server/runtimeDiagnosticsStore.ts:82-104 | One record more in its entity's log, numbered next, and every other log as it was |
| DiagnosticsStore.Store.Query | src/server/runtimeDiagnosticsStore.ts:106-130 | A query shows, in order, what passes it of the ends of the log and of its errors, every error one that was recorded as such, with exact counts of the rest |
| RestartLimits.FilterRecent | src/main/serverProcessManager.ts:180-180 | The filter keeps exactly the times of the last minute |
| RestartLimits.EveryWindowIsBounded | src/main/serverProcessManager.ts:178-197 | If grants are spaced, whatever minute is looked at holds at most the maximum of them |
| RestartLimits.EveryRunIsBounded | src/main/serverProcessManager.ts:178-197 | On every run with a clock that does not go back, every window of 60 seconds holds at most the maximum of grants |
| RestartLimits.RefusedIff | src/main/panelView.ts:764-767 | A request is refused exactly when the minute up to now already holds the maximum of grants |
| RestartLimits.CountInMinute | src/main/serverProcessManager.ts:178-183 | The count of a window is the number of times within 60000 milliseconds from its start |
| RestartLimits.ServerProcessManager.HandleUnexpectedExit | src/main/serverProcessManager.ts:178-197 | Restarts unless the last minute holds 5 of them, and no minute of the whole history ever holds more |
| RestartLimits.PanelView.ShouldAttemptReload | src/main/panelView.ts:762-770 | Grants a reload unless the last minute holds 3 of this view, and no minute since the view was destroyed ever holds more, for any view |
| RestartLimits.PanelView.DestroyView | src/main/panelView.ts:242-242 | Destroying a view forgets its reloads and no other's |

## Left out

- CdpLimits.StealingIsReachable: one run as an example; the exact condition is in `CdpRouting.RegisterKeeps`.
- CdpTheorems.NoStrandedCommand: does not split `cdp:register` at its awaits, because between them the lease can move and the property no longer holds.
- CdpBroker.CdpBridge.HandleProviderClose: the error listener of a provider only logs and is not an event.
- PanelOrchestrator.Orchestrator.ApplyServerPanelTreeSnapshot: does not split the call at the awaits in its navigate loop; reloading views, pushing state arguments and synchronising leases after the registry is repopulated are effects on other objects.
- PanelTree.CarriedFind: the navigation state that the registry also carries over is not part of a panel here.
- PanelHost.ViewManager.SetHostedShellReady: creating the hidden suggestion overlay ahead of its first use adds a child that is not managed and is left out.
- SlotEffects.BindFills: bounds are whole numbers; the source rounds fractions first.
- FramingSockets.RemoteSocket.Open: a failing response and a close by the user during the stream are not modelled; listeners do not throw.
- DoAddress.AddressRoundTrip: text with a lone surrogate makes the encoder throw and is not representable here; dot segments that `fetch` normalises are read as sent.
- DoRouter.InternalDelivery: the table has classes of the internal source only, as it is generated.
- DiagnosticsStore.Store.Reopen: files from before records had numbers, and unreadable files, are not modelled; reading a file gives back what was written.
- CommandLine.ParseInvocation: names that a JavaScript object already has, such as `constructor`, are treated like any other name.
- RestartLimits.ServerProcessManager.HandleUnexpectedExit: the clock of the source is the wall clock, which can go back; the bound needs that it does not.
- `cdp:event` broadcasts, handshake grants and the HTTP upgrade of the bridge: they touch no table that the properties speak of.
- Electron effects: bounds of the hosted shell, contents and bounds of overlays, compositor repair, menus, theme, devtools, the callbacks after a reorder.
- `ViewManager.withViewVisible` and session single-flight: no mutual exclusion with three or more callers.
- Garbage collection of panel views, leases and the panel registry's own persistence.
- `ServerEventSubscriptionBridge`: a call of an old epoch can settle in a new one; from quiet starts it is a small single-flight table.
- Token handling and retries of `DODispatch`, and loading of object code by the host.
- WebSocket, WebRTC, HTTP, file-system and process plumbing, pairing and credentials.
