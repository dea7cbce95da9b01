# A model of the multiplayer log relay, with proofs

OoTMM multiplayer lets the games of several players share what they find. A game reports a find to
the client beside it; the client keeps the report in a durable send queue and sends it to the server
until the server confirms it; the server adds it to a write-ahead log unless its key is there
already, and streams that log, in order, to every client; each client keeps a copy of the log on
disk, and its game reads the copy page by page. Connections break at any byte, processes die, and
the server closes and reopens a session's log as players leave and join.

This project models that machinery and proves what it is for: an accepted report is safe, with
exceptions that are named exactly, none is counted twice, every log in the system is a prefix of the
server's, in every state that any run with any number of clients can reach, and from there all
clients whose files can be read can come to agree as long as the server's log is whole and has room.
It also shows where the code promises more than it keeps, and under which condition the promise
holds.

## How it is laid out

Three layers, each proved against the one below.

- **Codecs.** `Bytes`, `Framing`, `WalEntry`, `Packets`, `Ipc`: layouts of entries, keys, packets and
  messages. `Framing` treats the three record formats (log file, queue file, wire) as one notion: a
  header, a length taken from it, a payload.
- **Objects.** `Wal`, `Stream`, `Wire`, `SendQueue`, `ClientSession`, `ServerPlayer`, `Positions` and
  `SessionTable` hold the program's objects as classes that change in place, over files that are
  bytes plus an offset (`Files`). Every method is proved against a function on values (`WalState`,
  `QueueState`, `ClientState`, `PositionState`), and it is about those functions that the
  properties are proved.
- **The system.** `Protocol` is a transition system over those same functions: one server session,
  any number of clients. A run is any sequence of steps; a step that is not possible does nothing.
  `Links`, `Safety` and `Delivery` prove its invariants; `Theorems` says what follows for every
  reachable state, `Progress` and `Convergence` what is still possible from it, `Losses` what goes
  wrong, and `Steps` what each step does, in terms of states alone.

The steps of `Protocol.Apply` and where they come from:

| step | source |
|---|---|
| `Start`, `Stop` | client/internal/game/session.go:104-220 |
| `GameWal` | client/internal/game/session.go:287-367 |
| `TakePending`, `Resend` | client/internal/game/session.go:266-285 |
| `Dial`, `Disconnect` | client/internal/game/uplink.go:35-136 |
| `PumpOut` | client/internal/game/uplink.go:157-173 |
| `Accept` | server/internal/app/app.go:53-75, 91-125, server/internal/session/session.go:297-348 |
| `ServerRecv` | server/internal/session/session.go:152-167 |
| `AckOut` | server/internal/session/session.go:169-177 |
| `StreamOut` | server/internal/session/session.go:260-295 |
| `OtherOut` | server/internal/session/session.go:87-102, 229-258 |
| `ServerDrop` | server/internal/app/app.go:77-89, server/internal/session/session.go:345-348 |
| `Deliver` | client/internal/game/session.go:44-93, client/internal/game/uplink.go:195-211 |
| `ClientCrash`, `ServerCrash` | shared/wal/wal.go:97-159, the process dying in the middle |

The way down to a client is a queue of packets, for it is one: the player's channel, the connection
and the client's channel. Two goroutines of the server fill it, so appending an entry, sending its
acknowledgement and streaming it are separate steps, and the entry may overtake its acknowledgement.
The way up is the set of all that was ever sent on each connection; the server may take any of it at
any time, again and again or never, also after the client has gone on to a new connection. That
covers loss, repetition, reordering and late arrival. A client that dies inside a write to its queue
does what a torn write and then `Stop` do.

## Where code and promise part

- The client acknowledges a report to its game although it ignores the error of `SendQueue.Add`
  (client/internal/game/session.go:299). `Losses.AckIsTrueIff` says exactly when that acknowledgement
  is true; `Losses.AckedAndLost` shows that a false one can go out in whatever state the system is.
- `Add` does not cut a failed write back (client/internal/game/send_queue.go:119-142).
  `QueueState.AddReload` says exactly which failed writes make the queue unreadable. Later writes may
  make the misaligned file readable again; a start on it then misses entries whose own `Add`
  succeeded, and finds entries that nobody wrote, perhaps under the key of a real one. The model keeps
  a record of both, `dropped` and `salvaged`, and the theorems hold for all clients in terms of these
  two sets. By `Theorems.DroppedIff` a key is dropped in two ways and no other: at such a start, if the
  file does not give back an entry of that key; and at a report, if the queue holds something else
  under its key, since `Add` then returns nil and adds nothing. `Theorems.SalvagedIff` says when the
  other set grows. `Losses.AcceptedAndLost`, `Losses.AcceptedOverJunk` and `Losses.InventedAndLogged`
  show that all of this happens. `Theorems.EarlyFoundIff` bounds the harm: what was accepted before the
  torn write is found unless a misread record has its very key.
- Most torn writes leave a queue file that cannot be read, and a crash inside a log append leaves a
  log that cannot. `Theorems.StartsIff` says exactly which clients cannot be started again, and
  `Theorems.StuckForever` that nothing ever helps them; `Losses.TornAndStuck` and
  `Losses.CrashedAndStuck` show accepted reports held up that way. The server's log is no better off:
  once torn it is never opened again (`Progress.ShutForever`).
- Taken together: `Theorems.NothingLost` says for every client that an accepted key which is not dropped
  is safe if and only if it is logged, or the client runs, or the files it left can be read and give the
  entry back; and `Theorems.WholeWritesLoseNothing` that a client whose writes were whole has lost
  nothing. "Logged" is said of the server's log whether or not its file can still be opened.
- Data that a start finds in a misaligned file may not parse. The resend loop ends the session on it
  (client/internal/game/session.go:271-275), and again after each start: `Losses.ResendEndsIff`,
  `Losses.EndsAgain`, `Losses.RestartJams`.
- An item info message of exactly 6 bytes passes the length check and is then read out of bounds
  (client/internal/ipc/msg.go:172-182). `ClientSession.Session.HandleMsg` gives it an outcome of its
  own.
- `RecvRaw` returns `io.EOF` unchanged when the connection ends right behind a packet's header, the
  same error as after a whole packet (shared/protocol/io.go:47-50). `Wire.CutStream` has both cases.
- Local player ids are 16 bits wide and the counter wraps. `PositionState.IdsDistinctIff` gives the
  exact bound: 65536 players at once.

## Model

| member | source | states |
|---|---|---|
| `Theorems.LogsArePrefixes` | client/internal/game/uplink.go:51-105 | In every reachable state a client's log is a prefix of the server's; the log packets on its live connection are the server's next consecutive entries, each with the position where the client will store it; its player streams on right behind them; every acknowledgement in flight names a key in the server's log. |
| `Theorems.ServerLogGrows` | shared/wal/wal.go:97-159 | From every reachable state, every continuation only extends the server's log, which never holds a key twice, through resends, late packets, crashes and reopening; the session is open exactly while it has players. |
| `Theorems.ClientLogGrows` | client/internal/game/session.go:48-58 | Nor does a client's log ever lose or change an entry, through reconnections, restarts and crashes. |
| `Theorems.NothingLost` | client/internal/game/session.go:287-306 | For every client in every reachable state, when `Add` has returned nil for a key that is not dropped, an entry of that key, reported or salvaged, is in the server's log, in the running client's queue, or in the queue a start gives it, if and only if the key is logged, or the client runs, or its log file is whole and its queue file either had no torn write or can be read and has such an entry. |
| `Theorems.DroppedIff` | client/internal/game/send_queue.go:108-117 | A step drops a key if and only if it starts the client on readable files after a torn write, the key was accepted and the file gives back no entry of that key under it; or it reports an entry of that key while the queue holds something else under it. |
| `Theorems.SalvagedIff` | client/internal/game/send_queue.go:20-53 | A step salvages data if and only if it starts the client on readable files after a torn write, and the queue file gives that data back. |
| `Steps.AcceptedIff` | client/internal/game/send_queue.go:108-148 | For every world, step and client, a key becomes accepted if and only if a running client's game reports an entry of it while the queue has something under it or the write succeeds, which is when `Add` returns nil; and it stays accepted. |
| `Steps.ReportedIff` | client/internal/game/session.go:308-350 | An entry becomes reported if and only if the game of a running client reports it. |
| `Steps.CleanIff` | client/internal/game/send_queue.go:119-142 | In every reachable state, after a step the queue file counts as clean if and only if it is empty, the step started the client, or it was clean and the step left no part of a record; and exactly at the first torn write it is noted what was in the file and which keys were safe. |
| `Steps.ReportEffect` | client/internal/game/session.go:287-367 | A report adds its entry to the queue as `Add` does, to the uplink channel if there is room, and its acknowledgement to what goes to the game, and changes nothing else of the client or of anybody. |
| `Steps.NoReportNoEffect` | client/internal/game/session.go:308-350 | Without a report that parses, a message of this kind changes nothing. |
| `Theorems.StartFindsIff` | client/internal/game/send_queue.go:55-78 | For every stopped client, a start brings it up with the entry of an accepted key that is neither dropped nor logged yet in its queue if and only if its log file is whole and its queue file either had no torn write since it was last truncated or read, or can be read and has an entry of that key. |
| `Theorems.StartsIff` | client/internal/game/session.go:118-140 | A stopped client can be started again if and only if it did not die inside an append to its log and its queue file had no torn write, or what came behind the torn write can be read as records. |
| `Theorems.StuckForever` | client/internal/game/session.go:118-140 | A client that cannot be started stays stopped in every continuation, with the same files, accepted and dropped keys. |
| `Theorems.EarlyFoundIff` | client/internal/game/send_queue.go:20-53 | At a start after a torn write, the entry of a key that was safe before that write and is not logged yet is found if and only if no record read from behind the earlier end of the file has its key, or the last that has carries an entry of it. |
| `Theorems.WholeWritesLoseNothing` | client/internal/game/send_queue.go:108-148 | In every reachable state, a client that has salvaged nothing has dropped nothing; and if besides it runs, or its files are whole, every key it has accepted is safe. |
| `Theorems.NothingInventedAnywhere` | server/internal/session/session.go:156-164 | In every reachable state every entry in any log is, field by field, one that some game reported, or one that some client salvaged from a misaligned queue file. |
| `Theorems.QueueCoherent` | client/internal/game/session.go:266-285 | Every queued entry that was not salvaged parses, can be sent, is one that was reported, and has as its key the id it is queued under, so the resend loop does not end on it and the server's acknowledgement clears exactly it. |
| `Theorems.QuietMeansAgreement` | server/internal/session/session.go:264-294 | In every reachable state, a connected client whose stream and downlink are drained holds the server's log, and each key that a running client with an empty queue, connected or not, has accepted and not dropped is in that log exactly once, whatever the other clients do. |
| `Theorems.OccursOnce` | shared/wal/wal.go:116-119 | In a log without repeated keys, a key occurs once or not at all, and once exactly if it is logged. |
| `Theorems.DeliveryProgress` | client/internal/game/session.go:48-58 | Handling a log packet brings the client exactly one entry nearer to the server, which does not move. |
| `Steps.DeliverUpIff` | client/internal/game/session.go:44-93 | In every reachable state a client stays connected after the packet in front of it unless an append fails, an acknowledgement is not 16 bytes long or a position is shorter than 34; when it does not, log and queue are as they were, and no packet but log entries and acknowledgements ever touches them. |
| `Steps.ServerTakesIff` | server/internal/session/session.go:152-177 | The server keeps a player whose packet it takes if and only if the packet parses and its key is in the log already or can be written; then the key is owed to the player and the log has grown by the entry exactly if the key was new. |
| `Steps.AcceptIff` | server/internal/app/app.go:53-75 | A hello is answered with a player if and only if it has 65 bytes and the session is open or its file can be read; the player starts at the index in its bytes 61 to 64. |
| `Steps.SendsArrive` | server/internal/session/session.go:229-258 | What the server sends on the connection in use arrives behind what is there, and an acknowledgement only if it is owed, and once. |
| `Steps.DialSays` | client/internal/game/uplink.go:35-111 | A new connection starts with empty channels and a hello with the player's id, name and world and the length of its log. |
| `Steps.PumpSends` | client/internal/game/uplink.go:157-173 | What goes out is what was in the channel, and data over 65535 bytes end the connection instead. |
| `Steps.ResendOffers` | client/internal/game/session.go:266-278 | The resend loop puts data into the channel if and only if they are in the queue. |
| `Steps.StartEffect` | client/internal/game/session.go:104-170 | A client that starts is the player now at its game, with the log it had and exactly what its queue file gives back. |
| `Steps.StopEffect` | client/internal/game/session.go:208-219 | A client that stops keeps its files and loses what was in its channels. |
| `Theorems.ItemCountsOnce` | client/internal/game/session.go:332-339 | However often games of one world report an item that is not renewable, no log in the system ever holds it twice. |
| `Progress.CanCatchUp` | client/internal/game/uplink.go:35-91 | From every reachable state a running client whose server can still be opened has a continuation that gives it the whole server log, unchanged meanwhile. |
| `Progress.CanGetThrough` | client/internal/game/session.go:266-285 | From every reachable state a queued entry that was not salvaged, or that at least can be sent and carries the key it is queued under, has a continuation in which it is in the server's log and out of the queue, unless the log is full or its file torn. |
| `Progress.CanBeLoggedIff` | server/internal/session/session.go:156-164 | A queued entry of a running client that is not in the server's log can get there if and only if that log is neither full nor torn. |
| `Progress.ShutForever` | shared/wal/wal.go:29-48 | Once the server's log is full or torn, its entries are the same in every continuation; a torn one stays torn and is never opened again. |
| `Losses.AckIsTrueIff` | client/internal/game/session.go:299-364 | A report always adds its acknowledgement, with its token, to what goes to the game; afterwards an entry of its key is in the queue or the server's log if and only if the write succeeded with nothing queued under that key, or such an entry was there before. |
| `Losses.AckedAndLost` | client/internal/game/session.go:299-303 | In whatever state, an event that is in no log, queue, channel or connection, reported while the queue cannot be written and the channel is full, is acknowledged to the game and still nowhere. |
| `Losses.AcceptedAndLost` | client/internal/game/send_queue.go:119-148 | From every reachable state in which a client's queue is empty, a key that is nowhere can be reported and accepted by `Add` without an error, behind a torn write of another or of the same event, and be dropped and nowhere again once the client restarts. |
| `Losses.AcceptedOverJunk` | client/internal/game/send_queue.go:114-117 | After that restart, with no torn write outstanding, reporting the event whose write was torn makes `Add` return nil whatever the file does, and the game is acknowledged; the event is dropped and nowhere. |
| `Losses.ResendEndsIff` | client/internal/game/session.go:266-274 | The resend loop can end a session if and only if the queue holds data that does not parse. |
| `Losses.UnparsedIsSalvaged` | client/internal/game/session.go:266-274 | In every reachable state, queued data that does not parse was salvaged. |
| `Losses.EndsAgain` | client/internal/game/session.go:266-274 | However a run goes on after that, as long as no write of the client is torn and no packet it handles clears the key, the running session can end on the same data, and a stopped one whose log file is whole can be started only into such a session. |
| `Losses.RestartJams` | client/internal/game/send_queue.go:20-53 | From every reachable state in which a client's queue is empty, a torn write, a whole one and a restart leave such data in its queue. |
| `Losses.TornAndStuck` | client/internal/game/send_queue.go:34-46 | From every reachable state in which a client's queue is empty, a key is accepted, the write of another is torn and the session ends; in every continuation the client is stopped and cannot be started, and the key, which nothing else carries, is safe only if somebody else brings it into the log. |
| `Losses.CrashedAndStuck` | client/internal/game/session.go:135-140 | A client that dies after any proper part of a record of its log is stuck in the same way in every continuation, with everything in its queue. |
| `Losses.InventedAndLogged` | client/internal/game/send_queue.go:20-53 | From every reachable state in which a client's queue is empty, such a torn write and restart can bring an entry with another player's id that no game ever reported into the server's log. |
| `Convergence.CanAgree` | client/internal/game/session.go:266-285 | From every reachable state in which the server's file is whole and the log has room for what they still miss in it, any set of clients that run or can be started has a continuation after which each of them is connected and holds the server's log, each key they could send or answered for is in it exactly once, their queues hold nothing but entries they held before and cannot send, and all other clients are exactly as they were. |
| `Convergence.AgreedEmptied` | client/internal/game/session.go:266-285 | After that, what is left in a queue was there before and cannot be sent; if everything that waited could be, the queue is empty. |
| `Convergence.IntactSendsAll` | client/internal/game/send_queue.go:55-78 | Everything can be sent that waits with a client whose queue writes were whole and that holds nothing salvaged. |
| `Convergence.SendQueues` | client/internal/game/session.go:266-285 | Such clients can start and get everything they can send into the server's log, one entry at a time, without the log outgrowing the number of distinct keys missing, and without any step of the other clients. |
| `Convergence.SettleAll` | client/internal/game/uplink.go:35-91 | Clients that have sent all they can can reconnect and catch up, one after the other, none disturbing those that are done nor any other client. |
| `Progress.CatchUp` | client/internal/game/uplink.go:35-91 | A client can come to hold the whole server log by steps that change nothing about any other client and add nothing to its own queue. |
| `Progress.Transmit` | server/internal/session/session.go:156-177 | A queued entry can be brought into the server's log, added exactly if its key is new, with its acknowledgement on the way back. |
| `Progress.GetThrough` | client/internal/game/session.go:75-81 | With the acknowledgement handled, exactly that entry is gone from the queue. |
| `Progress.RunOthers` | server/internal/session/session.go:297-348 | Steps of one client and its connections leave every other client as it was. |
| `Progress.ReconnectWorks` | client/internal/game/uplink.go:35-136 | Disconnecting, dialling and being accepted gives any running client a clean connection and leaves both logs and the queue as they were. |
| `Progress.PullAll` | server/internal/session/session.go:260-295 | On a clean connection, streaming and delivering as often as entries are missing makes the client's log equal to the server's and leaves the connection clean. |
| `Safety.StepKeeps` | client/internal/game/uplink.go:51-105 | Every step of the system keeps the log invariant, and no step takes anything away from the server's log. |
| `Safety.RunKeeps` | client/internal/game/uplink.go:51-105 | So does every run. |
| `Safety.RecvKeeps` | server/internal/session/session.go:152-167 | Whatever bytes a client sends, the server taking them and appending keeps the log invariant for every client, before any acknowledgement goes out. |
| `Safety.AppendKeeps` | shared/wal/wal.go:97-159 | A longer server log disturbs nothing that is under way to any client. |
| `Safety.ServerCrashKeeps` | shared/wal/wal.go:121-149 | A server that dies while writing a record leaves its log as it was, one entry longer, or refusing to open, and every client's log still a prefix. |
| `Links.DeliverWal` | client/internal/game/session.go:48-58 | The log packet in front of a client parses to the next entry with the client's own log length as its index, and is new to the client. |
| `Links.DeliverWalKeeps` | client/internal/game/session.go:44-93 | Handling it keeps the log invariant and makes the client's log one longer. |
| `Links.DialKeeps` | client/internal/game/uplink.go:93-111 | Draining the channels and naming the log length in the hello re-establishes the link invariant from any state, whatever older connections still hold. |
| `Links.AcceptKeeps` | server/internal/app/app.go:53-75 | Accepting a hello, opening the session if need be, keeps the log invariant and the contents of the log. |
| `Links.StreamKeeps` | server/internal/session/session.go:260-295 | Streaming one entry to a player, over its present or an abandoned connection, keeps the client's invariant. |
| `Links.AckedKeeps` | server/internal/session/session.go:169-177 | Sending an acknowledgement that is still owed, at any time after the append and behind whatever was sent in between, keeps the client's invariant: it names a key in the log. |
| `Links.DropPlayerKeeps` | server/internal/app/app.go:77-89 | A player leaving, with any number of its packets lost, keeps the log invariant; with the last one the session closes. |
| `Links.StartKeeps` | client/internal/game/session.go:125-140 | Restarting from the files gives back the same log and keeps the invariant, or the client does not start. |
| `Links.CrashKeeps` | shared/wal/wal.go:121-149 | A client that dies in the middle of an append keeps the invariant and every entry it had. |
| `Delivery.Reachable` | client/internal/game/session.go:266-306 | Every reachable state satisfies the log, queue and origin invariants together. |
| `Delivery.SystemStepKeeps` | client/internal/game/session.go:266-306 | Every step of the system keeps them. |
| `Delivery.KeptAdd` | client/internal/game/send_queue.go:108-148 | An `Add`, however far it gets, keeps every accepted entry in the log or the queue, and the one it accepts with them, unless something else is queued under that key. |
| `Delivery.KeptAck` | client/internal/game/send_queue.go:80-106 | Clearing a key that is in the server's log keeps every accepted entry safe, in memory and on file. |
| `Delivery.DeliverQueue` | client/internal/game/session.go:44-93 | Whatever packet is in front of a client, it clears the queue of nothing but a key that is in the server's log. |
| `Delivery.ServerStepLog` | server/internal/session/session.go:156-164 | A step of the server leaves its log as it was or adds one entry that some client sent. |
| `Delivery.StepOf` | server/internal/session/session.go:297-348 | A step of the server changes of a client only what is on its way to it and the server's side of its connections, and a step of another client changes nothing. |
| `Framing.ScanJoin` | shared/wal/wal.go:33-64 | Reading joined records followed by anything returns those records first and then what reading the rest returns. |
| `Framing.ScanSplits` | shared/wal/wal.go:33-64 | What is read out of any bytes is, joined again, a prefix of them, and all of them exactly when reading ended on a record boundary. |
| `Framing.SplitUnique` | shared/wal/wal.go:33-64 | Bytes split into records in at most one way. |
| `Framing.ScanCut` | shared/protocol/io.go:39-55 | Cutting joined records anywhere yields exactly those that were whole by then, and the error of the place of the cut. |
| `WalState.LoadAccepts` | shared/wal/wal.go:29-65 | `load` accepts a file if and only if it is a sequence of length-prefixed payloads that all parse. |
| `WalState.LoadReturns` | shared/wal/wal.go:50-62 | It then returns exactly the entries of those payloads, in order. |
| `WalState.LogUnique` | shared/wal/wal.go:33-64 | A file is such a sequence in at most one way. |
| `WalState.LoadCut` | shared/wal/wal.go:34-48 | A loadable file cut on a record boundary loads as the records before it; cut anywhere else it is rejected. |
| `WalState.LoadRecord` | shared/wal/wal.go:108-141 | Loading a file with a record put behind it gives the old entries and that entry. |
| `WalState.LoadTorn` | shared/wal/wal.go:45-48 | Any proper, nonempty part of a record behind a loadable file makes it refuse to load. |
| `WalState.AppendKeepsSound` | shared/wal/wal.go:97-159 | `Append`, however it ends, keeps file, set, list and count in agreement; failing changes nothing; succeeding leaves the key in the set; entries are only added. |
| `WalState.AppendOutcome` | shared/wal/wal.go:97-159 | `Append` succeeds if and only if the type is known and an entry of the same key is there or every write works; the log grows by the entry and its record exactly in the second case, and is untouched in all others, so a duplicate succeeds whatever the file would have done. |
| `WalState.AppendKeepsNoRepeats` | shared/wal/wal.go:116-119 | No append ever makes a key occur twice. |
| `WalState.AppendKeepsWritten` | shared/wal/wal.go:127-154 | A file written by `Append` stays the concatenation of its entries' records. |
| `WalState.ReopenKeepsWritten` | shared/wal/wal.go:67-95 | Such a file opens, with its entries in normal form, and what is opened is again a file as `Append` would have written it. |
| `WalState.RunKeepsWritten` | shared/wal/wal.go:67-159 | Every run of appends, failing or not, and reopenings keeps this and only adds entries. |
| `WalState.AlwaysWritten` | shared/wal/wal.go:67-159 | Starting from an empty file, the file is always exactly the records of its entries and no key is in it twice. |
| `WalState.OpenSound` | shared/wal/wal.go:67-95 | A file that loads opens into a state that agrees with it. |
| `WalState.ReopenSame` | shared/wal/wal.go:67-95 | Closing and opening a log again gives the same state. |
| `WalState.CrashOutcomes` | shared/wal/wal.go:121-149 | A log whose process died after any number of bytes of a record opens as before, one entry longer, or not at all; which of them is decided by the number alone. |
| `Wal.WAL.OpenWAL` | shared/wal/wal.go:67-95 | Opening succeeds exactly when the file loads, yields what the file holds, and does not alter the file. |
| `Wal.WAL.ReadRecord` | shared/wal/wal.go:33-58 | One turn of the reading loop agrees with the meaning of the rest of the file and moves on in it. |
| `Wal.WAL.ReadAll` | shared/wal/wal.go:29-65 | The loop as a whole computes the meaning of the file, or its first error. |
| `Wal.WAL.WriteRecord` | shared/wal/wal.go:121-149 | Three calls that may each fail half way leave a whole record behind the file, or the file as it was. |
| `Wal.WAL.Append` | shared/wal/wal.go:97-159 | The object's new state and its answer are those of the specification, on success, duplicate and every failure, and its representation invariant is kept. |
| `Wal.WAL.Get` | shared/wal/wal.go:161-168 | Returns the entry at the index, or nothing at or behind the count. |
| `Stream.NoLostWakeup` | shared/wal/wal.go:193-215 | However appends interleave with the sections of `Next`, the stream yields the entries from its index on without gap or repeat, all of them pass the guard and are sent, and it never waits on an open channel while its entry is there. |
| `Stream.NeverStuck` | shared/wal/wal.go:151-156 | A stream that is behind yields its next entry within three of its own sections. |
| `Stream.WALStream.Next` | shared/wal/wal.go:193-215 | The sections of the object do what the specification's sections do. |
| `Wire.SendRaw` | shared/protocol/io.go:11-27 | Sends the frame of a packet, or part of it on a fault, and refuses exactly the packets over 65535 bytes without sending a byte. |
| `Wire.RecvRaw` | shared/protocol/io.go:39-55 | Takes the first packet off the connection, or reports how the connection ended. |
| `Wire.PumpIn` | client/internal/game/uplink.go:138-155 | Hands over everything that can be received, in order, and the error that stopped it. |
| `Wire.WholeStream` | shared/protocol/io.go:11-55 | Receiving what was sent returns the packets that were sent. |
| `Wire.CutStream` | shared/protocol/io.go:39-55 | A connection cut after any number of bytes delivers exactly the packets whole by then, and ends with `io.EOF` exactly between packets or right behind a header. |
| `Wire.PacketLayout` | shared/protocol/io.go:19-22 | A packet on the wire is its length, low byte first, its opcode and its data. |
| `WalEntry.ParseSerialize` | shared/wal/serialize.go:8-65 | Parsing a serialized entry, with anything behind it, returns the entry with the unused half zeroed. |
| `WalEntry.ParseSerializeExact` | shared/wal/serialize.go:8-65 | The same without anything behind it. |
| `WalEntry.SerializeParse` | shared/wal/serialize.go:8-65 | Serializing what was parsed returns the first 40 or 30 bytes of the data. |
| `WalEntry.ParsesIff` | shared/wal/serialize.go:8-40 | Bytes parse if and only if they are 40 or more with an item's type or 30 or more with an event's. |
| `WalEntry.EntryLayout` | shared/wal/serialize.go:42-65 | Every field of an entry is at its place among the bytes. |
| `WalEntry.KeyLayout` | shared/wal/key.go:8-25 | Every field of a key is at its place, and the rest is zero. |
| `Bytes.LittleEndian` | shared/wal/serialize.go:28-37 | Which byte counts how much on disk and towards the server. |
| `Bytes.BigEndian` | client/internal/ipc/msg.go:148-168 | Which byte counts how much towards the game. |
| `WalEntry.KeyInjective` | shared/wal/key.go:8-25 | Two entries have the same key if and only if they agree on type, sender and either game, location and nonce or event id. |
| `WalEntry.KeySurvivesCodec` | shared/wal/key.go:8-25 | The key of an entry is that of its serialized and parsed form, so server and client compute the same one. |
| `WalEntry.BuildPayload` | shared/wal/serialize.go:42-65 | The buffer grown by successive appends is the serialized form. |
| `WalEntry.FillKey` | shared/wal/key.go:8-25 | The array filled in place is the key. |
| `Packets.ServerWalRoundTrip` | shared/protocol/packet.go:98-121 | An entry crosses the wire with its index and every meaningful field. |
| `Packets.ClientHelloRoundTrip` | shared/protocol/packet.go:52-79 | The server reads from the hello what the client put in, the resume index included. |
| `Packets.HelloLayout` | shared/protocol/packet.go:68-79 | Every field of a hello is at its place. |
| `Packets.HelloParsesIff` | shared/protocol/packet.go:52-55 | A hello parses if and only if it has 65 bytes or more. |
| `Packets.ServerWalLayout` | shared/protocol/packet.go:112-121 | The index is in front, the entry behind it. |
| `QueueState.AddReload` | client/internal/game/send_queue.go:108-148 | After an `Add` the file can be reloaded if and only if the write left nothing or a whole record, and then holds what it held, or that and the new entry. |
| `QueueState.AddOutcome` | client/internal/game/send_queue.go:108-148 | A duplicate `Add` changes nothing; any other leaves behind the file what got written, and adds exactly its key with its data if all of it worked. |
| `QueueState.LeftIs` | client/internal/game/send_queue.go:119-142 | How many bytes of a record a failed `Add` leaves, for each call that can fail; all of them if only the sync does. |
| `QueueState.AckOutcome` | client/internal/game/send_queue.go:80-99 | `Ack` removes exactly its id, and empties the file exactly when that empties the queue and the truncation works. |
| `QueueState.MisalignedLoad` | client/internal/game/send_queue.go:119-142 | For any two keys and event payloads, the second ending in four zero bytes, a first write torn behind its length and a second one that succeeds leave a file that loads, with exactly two records, neither of which was written. |
| `QueueState.AckKeepsFaithful` | client/internal/game/send_queue.go:80-106 | `Ack` removes exactly its id, and the file still gives back every live entry, whether or not it could be truncated. |
| `QueueState.OpenFaithful` | client/internal/game/send_queue.go:55-78 | A file that loads opens as a queue that agrees with it. |
| `QueueState.LoadRecord` | client/internal/game/send_queue.go:24-50 | A record put behind a loadable file overrides what the file had under its id and nothing else. |
| `QueueState.LoadTorn` | client/internal/game/send_queue.go:34-46 | Any proper, nonempty part of a record behind a loadable file makes it refuse to load. |
| `QueueState.LoadAppend` | client/internal/game/send_queue.go:20-53 | Whatever is put behind a loadable file, the whole loads if and only if that part would load alone, and then holds what the file held, overridden only by the keys of that part. |
| `QueueState.RunKeepsAgrees` | client/internal/game/send_queue.go:80-148 | Every run without a torn write keeps the file in agreement with the live map, up to keys retired since the last truncation. |
| `QueueState.ReloadAgrees` | client/internal/game/send_queue.go:20-53 | After any such run a reload finds every live key with its exact data, and no other key but retired ones. |
| `QueueState.RetiredOnly` | client/internal/game/send_queue.go:80-148 | A key is retired only by its acknowledgement or by an `Add` of it that wrote something and failed, and none is once the file has been emptied or read anew. |
| `QueueState.EmptyQueueEmptyFile` | client/internal/game/send_queue.go:91-99 | After any run of successful calls an empty queue has an empty file. |
| `SendQueue.SendQueue.OpenSendQueue` | client/internal/game/send_queue.go:55-78 | Opening succeeds exactly when the file loads and yields the live map it describes. |
| `SendQueue.SendQueue.ReadRecord` | client/internal/game/send_queue.go:24-46 | One turn of the reading loop takes the first record of the rest of the file, or reports a cut. |
| `SendQueue.SendQueue.ReadAll` | client/internal/game/send_queue.go:20-53 | The loop computes the meaning of the file, a later record replacing an earlier one. |
| `SendQueue.SendQueue.WriteRecord` | client/internal/game/send_queue.go:119-142 | The writes leave behind the file exactly as much as they got to, and report success exactly when all of them succeed. |
| `SendQueue.SendQueue.Add` | client/internal/game/send_queue.go:108-148 | File, map and answer after an `Add` are those of the specification, for a duplicate, a success and every failure. |
| `SendQueue.SendQueue.Ack` | client/internal/game/send_queue.go:80-106 | File and map after an `Ack` are those of the specification. |
| `SendQueue.SendQueue.Pending` | client/internal/game/send_queue.go:158-167 | Returns the data of every live key once, in some order. |
| `Ipc.MessageRoundTrip` | client/internal/ipc/msg.go:197-203 | A message between game and client is read as it was written. |
| `Ipc.WalItemRoundTrip` | client/internal/ipc/msg.go:148-159 | So is an item, whatever follows it. |
| `Ipc.WalEventRoundTrip` | client/internal/ipc/msg.go:161-168 | So is an event. |
| `Ipc.WalOutRoundTrip` | client/internal/ipc/msg.go:213-221 | A log message to the game determines every one of its fields. |
| `Ipc.MessageLayout` | client/internal/ipc/msg.go:197-203 | The parts of a message are at their places. |
| `Ipc.ReportLayout` | client/internal/ipc/msg.go:137-146 | A report is its token, its type and its data. |
| `Ipc.ItemLayout` | client/internal/ipc/msg.go:223-231 | The fields of an item are at their places. |
| `Ipc.WalOutLayout` | client/internal/ipc/msg.go:213-221 | The parts of a log message to the game are at their places. |
| `Ipc.ParsesIff` | client/internal/ipc/msg.go:100-103 | A message parses if and only if it has 5 bytes or more, and so does a report. |
| `ClientState.EntryForNormal` | client/internal/game/session.go:308-350 | The entry made of a report is in the form that survives storage and wire unchanged, and is sent in the name of the client's own world. |
| `ClientState.ReportsShareKey` | client/internal/game/session.go:332-339 | Two reports of one location by games of one world, without the renewal flag, get the same key, whatever else differs. |
| `ClientState.EntryForIff` | client/internal/game/session.go:315-350 | A report becomes an entry if and only if it is an item of 10 bytes or more or an event of 4 or more. |
| `ClientState.ItemEndToEnd` | client/internal/game/session.go:308-414 | Whatever item a game reports, whatever bytes follow it: a game of any player is told of exactly that item, with the world it was found in, and with the finder's name unless it is the finder; the entry has the finder's id and name, and the drawn nonce exactly if the item is renewable. |
| `ClientState.EventEndToEnd` | client/internal/game/session.go:340-414 | The same for events. |
| `ClientState.AckNamesToken` | client/internal/game/session.go:357-364 | The acknowledgement to the game has the opcode of acknowledgements and the token of the report. |
| `ClientState.PacketFailsIff` | client/internal/game/session.go:44-93 | Handling a packet fails if and only if a log packet does not parse or its append fails, an acknowledgement is not 16 bytes long, or a position is shorter than 34. |
| `ClientState.PacketEffect` | client/internal/game/session.go:44-93 | A log entry is appended and cleared from the queue, an acknowledged key is cleared, and nothing else, nor anything that fails, touches log or queue. |
| `ClientState.GameMessageFaithful` | client/internal/game/session.go:376-414 | What the game is sent for an entry gives back index, type, sender and the whole item or event, and the name, which is zeroed exactly if the find is the player's own. |
| `ClientSession.Session.HandleUplinkPacket` | client/internal/game/session.go:44-93 | Log and queue afterwards are those of the specification, a position packet moves its player in the position table and is passed on to the game if there is room, and a packet it fails on changes nothing. |
| `ClientSession.Session.NewWalEntry` | client/internal/game/session.go:287-306 | The entry goes through `Add` and, if the channel has room, to the uplink; an entry of unknown type does neither. |
| `ClientSession.Session.HandleWalIn` | client/internal/game/session.go:308-367 | A well-formed report is queued and acknowledged with its own token; a malformed one changes nothing. |
| `ClientSession.Session.SendGameWal` | client/internal/game/session.go:369-419 | A query is answered with exactly the page of the log that starts at its index, one message an entry. |
| `ClientSession.MessageAt` | client/internal/game/session.go:370-416 | The k-th message of a page is that of the entry k places behind the index asked for, and says so. |
| `ClientSession.ItemNoticeSays` | client/internal/game/session.go:484-497 | The daemon is told item and location by the names of the ids in the message, and whether the find is the player's own. |
| `ClientSession.EntranceNoticeSays` | client/internal/game/session.go:498-509 | The daemon is told both entrances and the age by name, with the defaults for what is not known. |
| `ClientSession.Session.HandleMsg` | client/internal/game/session.go:443-513 | The process dies exactly of an item info of 6 bytes in sequence; otherwise a message is handled if and only if it is in sequence, not a second hello and well formed, and else ends the session. A handled one is queued and acknowledged, answered with a page, kept as the game's own place, or passed on to the daemon by name; one not handled changes nothing but the sequence number. |
| `ServerPlayer.Player.HandlePacket` | server/internal/session/session.go:87-188 | A key is acknowledged only when it is in the log, and nothing is acknowledged or changed when parsing or appending fails; a position goes, with the player's id and name, to exactly the other players whose channels are not full. |
| `ServerPlayer.Player.SendEntry` | server/internal/session/session.go:273-293 | An entry behind the player's index is skipped; any other is sent with its index and moves the player's index past it. |
| `PositionState.ExpiryExact` | client/internal/game/position_system.go:78-145 | After any run, whatever the order of each map iteration, a player is in the table if and only if its last packet is fewer than 30 ticks old, and its TTL is 30 minus that age. |
| `PositionState.LowerAllLocal` | client/internal/game/position_system.go:82-89 | A tick lowers each TTL by one and removes exactly those that were at one, in every order of visiting. |
| `PositionState.SameToTheGame` | client/internal/game/position_system.go:127-145 | Over every run, a player that is in the table before and after an event has the same local id and name in both. |
| `PositionState.NewToTheGame` | client/internal/game/position_system.go:128-142 | A new player gets the name of its packet and the id freed last, or the next one never used if none is free. |
| `PositionState.TickFrees` | client/internal/game/position_system.go:82-87 | A tick frees the ids of exactly the players that expire, in the order in which they are visited. |
| `PositionState.IdsDistinctIff` | client/internal/game/position_system.go:130-136 | No two players share a local id at any time of a run if and only if there are never more than 65536 at once. |
| `PositionState.IdsAreTight` | client/internal/game/position_system.go:130-136 | While the peak is below 65535, ids in use and free ids are together exactly 1 to the peak, each once, and the next new id is one more. |
| `Positions.PositionSystem.OnServerPos` | client/internal/game/position_system.go:122-145 | The object after a packet is as specified, and the game is told the id the player has in the table. |
| `Positions.PositionSystem.LowerTTLs` | client/internal/game/position_system.go:78-90 | The loop that deletes from the map it ranges over visits each player once and does what the specification does in that order. |
| `Positions.PositionSystem.OnGamePos` | client/internal/game/position_system.go:112-120 | The game's own place is kept. |
| `Positions.PositionSystem.SendSelfPos` | client/internal/game/position_system.go:61-76 | It is sent once, if it has been set since. |
| `Places.PlaceEndToEnd` | client/internal/game/position_system.go:147-160 | Whatever place a game sends, another game is told of exactly that place, with the id and name of the player, through the client, the server and the other client. |
| `SessionTable.CountsAreHolders` | server/internal/app/app.go:53-125 | However handlers interleave: a session is in the table if and only if some handler holds it, its count is the number of holders, who all hold the same open session and presented the same secret; a session is closed once, exactly when nobody holds it any more; no two open sessions have the same id. |
| `SessionTable.ConnectIff` | server/internal/app/app.go:53-75 | After every run, a handler that connects gets a session if and only if it shows the secret of those who hold that id, or nobody does and it can be opened; it gets the session object they hold, or a new one, and otherwise the matching error and no effect; nobody else notices. |
| `SessionTable.LeaveEffect` | server/internal/app/app.go:77-89 | After every run, a handler that leaves closes its session if and only if no other holds it, and changes no other. |
| `SessionTable.ConnectKeeps` | server/internal/app/app.go:53-75 | A handler acquiring a session, or failing to, keeps that invariant. |
| `SessionTable.LeaveKeeps` | server/internal/app/app.go:77-89 | So does its deferred release. |
| `SessionTable.App.AcquireSession` | server/internal/app/app.go:53-75 | Table and answer are those of the specification: joined, refused for a wrong secret, opened, or failed to open. |
| `SessionTable.App.ReleaseSession` | server/internal/app/app.go:77-89 | The table is as specified; the last release closes the session and removes it. |
| `Paging.BatchContiguous` | client/internal/game/session.go:369-419 | However the log grows between the turns of the loop, the game gets a contiguous run starting at the index it asked for, at least the page of the log at the start and at most that of the log at the end. |
| `Paging.BatchExact` | client/internal/game/session.go:369-375 | When the log stays the same it is exactly that page; the 32-bit sum never brings back an earlier entry. |
| `Paging.DownloadsAll` | client/internal/game/session.go:469-474 | A game that keeps asking for the index it has reached ends up with the whole log, nothing skipped and nothing twice. |
| `Paging.QueriesNeeded` | client/internal/game/session.go:370-374 | It takes as many answered queries as there are pages of 16 missing, the last one counted even if it is not full. |

## Left out

- Fewer than 2^32 log entries: the server in `Protocol` takes no entry that would make the 32-bit count wrap. The WAL object itself wraps its count as the code does.
- `Truncate` and `Seek` in the rollback of a failed log write (shared/wal/wal.go:130-131) are taken to succeed, since the code ignores their errors.
- A torn last record makes a file refuse to open, as in the code; there is no repair to model.
- `load` does not look for duplicate keys, so what is said about repeated keys concerns logs written by `Append`.
- Progress.CanCatchUp: says a continuation exists, not that a scheduler takes it; timers, retries and fairness are not modelled. The same goes for Progress.CanGetThrough and Convergence.CanAgree.
- The event the server publishes for a position, at most every 250 ms (server/internal/session/session.go:119-149), since it depends on the clock.
- How the daemon encodes and distributes what it is told.
- Failing calls of the operating system are parameters of the operations (`AppendIo`, `AddIo`, a fault at a byte); which of them fail and when is arbitrary.
- One client process per session directory, as the code supposes.
- A notify channel is a generation number: it is closed when the log has moved on to a later one.
- The nonce of a renewable item is an arbitrary number, and nothing is claimed about two of them differing.
- Contexts and cancellation, timers, deadlines, keep-alive packets, the capacity of channels other than "has room or not", and what is printed or logged.
- The checks of magic, version and session secret in the client's hello and the server's reply; what the secret does for a session's table entry is modelled.
- Positions in `Protocol`: there they are packets the server may send at any time.
- The position table holds its records by value; the references the program keeps in its map are never shared outside it.
- Sequence numbers on the way to the game (`SeqNet`), and single-player mode, in which there is no queue and no uplink.
- The local daemon, HTTP and web sockets, configuration, user interface, event publishing, and the IPC transports of each platform.
