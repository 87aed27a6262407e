# The MMO server in Dafny

A model of the game server: the grid that answers "who can see this cell", the SPAWN/DESPAWN
protocol on top of it, combat with death and timed respawn, the per-session job pipeline, and the
packet framing of the client, with proofs about every run.

| file | content |
|---|---|
| `Grid.dfy` | cells, vision boxes, and the geometry of moving a box |
| `Aoi.dfy` | `World` as a value: EnterGame, LeaveGame and HandleMove, with the packets they send |
| `Ledger.dfy` | who knows whom, folded from the SPAWN and DESPAWN packets |
| `TimeWheel.dfy` | the circular timer, as a value and as a class, against a plain list of deadlines |
| `Server.dfy` | the whole server as a step system: login, enter, move, attack, disconnect, tick |
| `Invariant.dfy`, `Runs.dfy` | what every step keeps |
| `Theorems.dfy`, `Witnesses.dfy` | what holds of knowledge in every reachable state, and where it stops |
| `Requests.dfy` | login, enter and move requests: effect, refusal, order of the answers |
| `AreaAttack.dfy`, `Combat.dfy` | whom an attack strikes, what it takes, and who is told of blows, deaths and respawns |
| `Death.dfy`, `Clock.dfy` | death and respawn, in ticks and in milliseconds of the clock |
| `Erasure.dfy` | leaving without trace |
| `GameWorld.dfy`, `PacketHandler.dfy` | `World`, `Player` and the handlers as objects updated in place, proved equal to the value-level functions |
| `Jobs.dfy`, `JobRuns.dfy` | the job pipeline as a concurrent step system |
| `LogicManager.dfy` | `JobPool` and `LogicManager` as objects updated in place |
| `Framing.dfy` | the receive loop of the client |

## How the model reads the source

* The map size, cell size, vision range and attack ranges are parameters (`Area`, `Config`). The repository's README
  (lines 76-77) gives 1000, 100 and 1 for the first three; the attack ranges are not declared in the repository. The
  World.h in the repository is older than World.cpp; `GetGridPos` and `IsInvalid` follow it.
* Coordinates are reals. `(int)x / GRID_SIZE` is truncation, then division toward zero, then clamping.
* A session is the address of its object in the session pool, and the session fields that `World` uses are a record under
  that address. `std::set<Session*>` is iterated in address order. An untouched session has id 0 and state NONE.
* `Send` is an entry in the list of packets sent, in order. Packets are sent after the lock is released; one operation,
  with its sends, is one step.
* Who knows whom is a ledger over player ids: the last SPAWN or DESPAWN about o that was addressed to p was a SPAWN. The
  list kept by the client program never removes anybody and is not used.
* A run is any sequence of logins, entries, moves, attacks, disconnects and clock ticks. A login is taken to succeed with a
  fresh id. The one assumption on order is that a session in the game does not log in again, which the client never
  does; `Runs.LoginKeepsIff` shows what happens if it does. Everything else is guarded by the handlers.
* A disconnect is LeaveGame followed by the removal of the Player and state NONE. The `Session::Clear` that the handlers
  refer to (PacketHandler.cpp:295) is newer than the one in the repository.
* The random spawn position is an argument: any integer point of the map. The clock is an argument.
* The time wheel returns the callbacks it runs, in order, and `GameWorld.World.Update` then executes them. The only callback
  is the respawn, which does not touch the wheel, so running it inside the loop or after it is the same.
* `World::Update`, which thread 0 calls, is taken to call `TimeWheel::Update`.
* In the pipeline a step is what one lock protects, or one action of a thread between two locks. Producers are the I/O and
  database workers.
* The repository's README says session timeouts are handled by the time wheel; the code polls for them in LogicManager.h.
  They are left out.

## Model

| member | source | states |
|---|---|---|
| Grid.BoxesMeet | MMO/Server/Game/World.cpp:14-25 | two vision boxes clipped to the map intersect iff their centres are within twice the vision range |
| Grid.StripeMembers | MMO/Server/Game/World.cpp:201-219 | the nested offset loops visit exactly the cells of the one box outside the other |
| Grid.TouchesMeansSharedCell | MMO/Server/Game/World.cpp:200-240 | a closed arithmetic test decides whether somebody's box reaches into the stripe a move leaves or enters |
| Grid.UntouchedStaysNear | MMO/Server/Game/World.cpp:200-219 | a box that met the old box and avoids the stripe left behind still meets the new box |
| Grid.AxisContracts | MMO/Server/Core/PacketHandler.cpp:229-234 | coordinates n cell sizes apart lie at most n cells apart, clamping and truncation included |
| Grid.AxisHolds | MMO/Server/Game/World.cpp:190-191 | the cell of a coordinate is the one whose span holds it; off the covered map it is the first or the last |
| Aoi.InOrder | MMO/Server/Game/World.cpp:100-104 | a cell is iterated in ascending address order, every session in it once |
| Aoi.EnterKeepsIndex | MMO/Server/Game/World.cpp:75-107 | entering keeps "registered in a cell iff in the world and within vision of it", and adds just this session to the world |
| Aoi.MoveKeepsIndex | MMO/Server/Game/World.cpp:170-198 | so does a move, to any cell, at borders and for overlapping or disjoint boxes |
| Aoi.LeaveKeepsIndex | MMO/Server/Game/World.cpp:139-160 | so does leaving, and it takes just this session out of the world |
| Ledger.StripeRegistrations | MMO/Server/Game/World.cpp:207-217 | the sessions registered in the stripe are those in the world whose own box reaches into it |
| Ledger.MoveNotifies | MMO/Server/Game/World.cpp:200-240 | exact characterisation: who is in the despawn list and in the spawn list of a move, in both directions |
| Ledger.MoveLedger | MMO/Server/Game/World.cpp:254-287 | since all DESPAWNs go out before the SPAWNs, the ledger loses the first list and then gains the second; a move within a cell leaves it alone |
| Ledger.EnterLedger | MMO/Server/Game/World.cpp:109-136 | entering adds exactly the self pair and the collected pairs to the ledger |
| Ledger.EnterNotifies | MMO/Server/Game/World.cpp:99-104 | the pairs collected on entering are those with everyone whose box covers the spawn cell, both ways |
| Ledger.LeaveLedger | MMO/Server/Game/World.cpp:151-167 | leaving takes the leaver out of the ledger of everyone who sees it, and touches no other pair |
| Runs.MoveLaw | MMO/Server/Game/World.cpp:170-288 | knowledge after a move as a function of knowledge before and the three cells, the same in both directions; pairs of others unchanged |
| Runs.EnterLaw | MMO/Server/Game/World.cpp:75-137 | after entering, the newcomer and another know each other iff they see each other; pairs of others unchanged |
| Runs.LoginKeepsIff | MMO/Server/Core/PacketHandler.cpp:152-172 | a login keeps the server invariant iff the session is not already in the game |
| Runs.MoveKeeps | MMO/Server/Core/PacketHandler.cpp:110-133 | a move request, whatever its coordinates and whoever sends it, keeps the invariant of world, ids, ledger and timers |
| Runs.EnterKeeps | MMO/Server/Core/PacketHandler.cpp:135-150 | so does an enter request |
| Runs.DisconnectKeeps | MMO/Server/Game/World.cpp:139-168 | so does the end of a connection |
| Invariants.AttackKeeps | MMO/Server/Core/PacketHandler.cpp:174-268 | so does an attack of either kind |
| Invariants.TickKeeps | MMO/Server/Core/TimeWheel.cpp:7-18 | so does an advance of the time wheel with all callbacks it runs |
| Theorems.RunKeeps | MMO/Server/Core/PacketHandler.cpp:110-268 | so does every run |
| Theorems.IndexIsExact | MMO/Server/Game/World.cpp:14-73 | in every reachable state one cell read gives exactly the sessions in the world within vision of the cell |
| Theorems.KnownWithinTwiceVision | MMO/Server/Game/World.cpp:99-136 | in every reachable state knowledge is symmetric, and those who know each other are within twice the vision range |
| Theorems.MoveCoverage | MMO/Server/Game/World.cpp:200-240 | whoever leaves view is despawned both ways; whoever enters view is known both ways after the move |
| Theorems.BroadcastReachesObservers | MMO/Server/Game/World.cpp:331-346 | a broadcast reaches exactly the players in the world that can see the session's cell, each once |
| Theorems.MoveIsSeen | MMO/Server/Game/World.cpp:243-249 | the MOVE packet goes, with the new position, to exactly those who can see the new cell |
| Theorems.SpawnsTellTheTruth | MMO/Server/Game/World.cpp:121-136 | every SPAWN sent in any run names a player in the world and gives its position |
| Requests.LoginGivesFreshId | MMO/Server/Core/PacketHandler.cpp:152-172 | a login is answered, to the session alone, with the id it has from then on, an id nobody has and nothing said or scheduled names |
| Requests.EnterPlaces | MMO/Server/Core/PacketHandler.cpp:135-150 | from the lobby an enter request puts the session at the drawn point with 100 HP; otherwise it changes nothing and is not answered |
| Requests.MoveRequest | MMO/Server/Core/PacketHandler.cpp:110-133 | a living player asking for a point of the map is put there and nobody else moves; a dead one, or a point off the map, is ignored |
| Requests.ClampStaysOnMap | MMO/Server/Game/World.cpp:184-188 | HandleMove itself never leaves the map and keeps points of the map as they are |
| Requests.NoticesBeforeMoves | MMO/Server/Game/World.cpp:252-287 | all DESPAWNs, then all SPAWNs, then the MOVE packets, and nothing else |
| Theorems.MoveAgreesIff | MMO/Server/Game/World.cpp:200-240 | a player that knew exactly whom it saw still does after a move iff nobody stands where the move blurs, a test on cells |
| Witnesses.TwiceVisionIsTight | MMO/Server/Game/World.cpp:221-240 | a run in which two players know each other at exactly twice the vision range, on every map with room for it |
| Witnesses.VisibleButForgotten | MMO/Server/Game/World.cpp:200-219 | a run in which a step to the next cell makes a player forget one it still sees |
| Witnesses.KnownIsVisibleIff | MMO/Server/Game/World.cpp:170-288 | "every client knows exactly whom it can see" holds in all reachable states iff the map makes vision trivial; not with the shipped constants |
| AreaAttack.AreaAttackFindsAll | MMO/Server/Core/PacketHandler.cpp:225-237 | the targets read from one cell are all other players in the world within range, each once, when the range fits the vision |
| AreaAttack.RadialCoversIff | MMO/Server/Core/PacketHandler.cpp:225-237 | the area attack loses nobody in any reachable state iff the range is at most vision range times cell size or vision covers the map |
| AreaAttack.AreaAttackDamages | MMO/Server/Core/PacketHandler.cpp:239-267 | an area attack takes 20 HP, not below 0, from everyone in range exactly once and from nobody else |
| AreaAttack.InRangeIsDisc | MMO/Server/Game/World.cpp:383-389 | the range test of an attack is the closed Euclidean disc |
| AreaAttack.AreaTargetsAre | MMO/Server/Core/PacketHandler.cpp:225-237 | whatever the range, the targets are the other players within vision and within range, each once |
| Combat.AttackHp | MMO/Server/Core/PacketHandler.cpp:183-255 | melee takes 10 HP from the player with the given id if within melee range, an area attack 20 HP from those in its range; not below 0, and nobody else |
| Combat.MissIsSilent | MMO/Server/Core/PacketHandler.cpp:180-195 | an attack by the dead, at an unknown id or out of range changes nothing and is not answered |
| Combat.AttackAnswers | MMO/Server/Core/PacketHandler.cpp:213-266 | S_ATTACK names attacker and struck player and goes to exactly those who can see the attacker |
| Combat.DeathsAndRespawnsAreTold | MMO/Server/Game/World.cpp:315-346 | in every step of every run the S_DIE and S_RESPAWN packets are exactly those about players that died or came back in the step, to exactly those who can see them, a respawn with the position |
| Death.OnePendingRespawnPerDead | MMO/Server/Game/Player.cpp:4-25 | in every reachable state HP is within bounds, and a player has exactly one pending respawn with its session and id if dead, none if alive |
| Death.OnlyItsOwnTimerChangesAPlayer | MMO/Server/Game/Player.cpp:15-23 | timers of other sessions or with a stale id never change a player |
| Death.OnlyAttacksKill | MMO/Server/Game/Player.h:49-59 | no other step brings a living player to 0 HP |
| Death.DeathSchedules | MMO/Server/Game/Player.h:49-59 | the step in which a player dies leaves its respawn due 50 ticks later |
| Death.DeadAndFrozen | MMO/Server/Core/PacketHandler.cpp:116-181 | through any run of fewer than 50 ticks the dead player stays dead, in place, and its moves and attacks are ignored |
| Death.RespawnOnTheFiftiethTick | MMO/Server/Game/Player.cpp:27-41 | the 50th tick after death revives it at full HP and announces the position at which it died |
| Clock.RespawnByTheClock | MMO/Server/Game/Player.cpp:15-23 | after a death with the wheel at lastTick, whatever happens short of a disconnect, an update revives the player and tells it its position iff the clock reads at least lastTick + 5000 ms |
| Erasure.UpdateIsRemoveThenInsert | MMO/Server/Game/World.cpp:42-73 | the delta update equals removal at the old cell followed by insertion at the new one, and leaves others alone |
| Erasure.LeaveIsIdempotent | MMO/Server/Game/World.cpp:139-160 | leaving twice leaves grids and sessions as leaving once |
| Erasure.LeavesNoTrace | MMO/Server/Game/World.cpp:75-198 | a run in which a session starts and ends outside the world gives the grids and sessions of the run with all its steps deleted |
| TimeWheels.DelayExactIff | MMO/Server/Core/TimeWheel.h:17-22 | a delay in milliseconds is met exactly iff it is a multiple of 100 from 100 to 5000 |
| TimeWheels.AddRefines | MMO/Server/Core/TimeWheel.h:17-22 | adding a timer to the wheel is appending it, with its due tick, to a plain list |
| TimeWheels.AdvanceRefines | MMO/Server/Core/TimeWheel.cpp:9-17 | an advance runs exactly the entries of the list that are due, in the order they were added |
| TimeWheels.EveryTimerFiresOnceWhenDue | MMO/Server/Core/TimeWheel.cpp:7-18 | over every run, advance k runs exactly what is due at tick k: nothing lost, repeated, early or late |
| TimeWheels.CatchUpBatching | MMO/Server/Core/TimeWheel.cpp:5-18 | catching up in two calls runs the same callbacks in the same order, and ends in the same state, as in one |
| TimeWheels.CatchUpClock | MMO/Server/Core/TimeWheel.cpp:7-10 | less than one tick is outstanding afterwards, and the clock moved by whole ticks |
| TimeWheels.TimeWheel.AddTimer | MMO/Server/Core/TimeWheel.h:17-22 | the slot array after the call is that of the value-level wheel |
| TimeWheels.TimeWheel.Update | MMO/Server/Core/TimeWheel.cpp:3-19 | the catch-up loop runs the callbacks, and leaves the wheel and the clock, as specified |
| GameWorld.World.InsertToVisionGrids | MMO/Server/Game/World.cpp:14-25 | the loops insert the session in the cells of its box and change nothing else |
| GameWorld.World.RemoveFromVisionGrids | MMO/Server/Game/World.cpp:28-39 | the loops erase it from the cells of the box and change nothing else |
| GameWorld.World.UpdateVisionGrids | MMO/Server/Game/World.cpp:42-73 | the two double loops change exactly the two stripes |
| GameWorld.World.CollectPairs | MMO/Server/Game/World.cpp:201-240 | the collection loops yield the pairs of the stripe, cell by cell and in address order |
| GameWorld.World.EnterGame | MMO/Server/Game/World.cpp:75-137 | the objects and the packets after EnterGame are those of the value-level function |
| GameWorld.World.LeaveGame | MMO/Server/Game/World.cpp:139-168 | the same for LeaveGame |
| GameWorld.World.HandleMove | MMO/Server/Game/World.cpp:170-288 | the same for HandleMove, clamping and order of packets included |
| GameWorld.World.BroadcastPacketToObservers | MMO/Server/Game/World.cpp:331-346 | the snapshot of the session's cell is sent the packet |
| GameWorld.World.Update | MMO/Server/Core/TimeWheel.cpp:3-19 | the wheel, its lastTick and the callbacks it hands out amount to the ticks the clock is ahead |
| GameWorld.Player.OnDamaged | MMO/Server/Game/Player.h:49-59 | HP, death and scheduling as in the value-level function; the dead are not damaged |
| GameWorld.Player.Die | MMO/Server/Game/Player.cpp:4-25 | HP 0, DIE to the observers, and one timer with the id of the moment |
| GameWorld.Player.Respawn | MMO/Server/Game/Player.cpp:27-41 | full HP, and RESPAWN with the current position to the player and to the observers |
| PacketHandlers.CollectTargets | MMO/Server/Core/PacketHandler.cpp:226-237 | the loop over the attacker's cell collects the targets of the area attack |
| PacketHandlers.HandleAttack | MMO/Server/Core/PacketHandler.cpp:174-268 | the handler does to objects and packets what the attack step does |
| PacketHandlers.HandleMove | MMO/Server/Core/PacketHandler.cpp:110-133 | the same for the move step, guards included |
| PacketHandlers.HandleEnterGame | MMO/Server/Core/PacketHandler.cpp:135-150 | the same for the enter step |
| PacketHandlers.HandleLogin | MMO/Server/Core/PacketHandler.cpp:152-172 | the same for the login step |
| PacketHandlers.HandleDisconnect | MMO/Server/Game/World.cpp:139-168 | the same for the disconnect step |
| JobRuns.StepKeeps | MMO/Server/Core/LogicManager.h:17-135 | every step of every actor keeps ownership, routing, order, pool and exit conditions |
| JobRuns.SessionOrder | MMO/Server/Core/LogicManager.h:66-101 | per-session FIFO: handled, then batched, then queued requests of a session are exactly those its producers filled in and pushed, read off the steps of the run, header and data included |
| JobRuns.SessionExclusion | MMO/Server/Core/LogicManager.h:64-72 | two logic threads never hold jobs of one session |
| JobRuns.OneOwner | MMO/Server/Core/LogicManager.h:20-44 | every Job object is in exactly one place; the pool is duplicate-free, bounded and blank |
| JobRuns.RecyclingIsInvisible | MMO/Server/Core/LogicManager.h:32-44 | no step changes a Job that is queued or batched |
| JobRuns.ShutdownDrainsIff | MMO/Server/Core/LogicManager.h:79-135 | when all threads have left, everything pushed has been handled once and in order iff nothing was pushed to a thread that had left |
| JobRuns.LogicStepsDecreaseWork | MMO/Server/Core/LogicManager.h:89-101 | every step of a logic thread decreases the work left |
| JobRuns.WorkCanProceed | MMO/Server/Core/LogicManager.h:79-101 | while work is left and nothing came late, some logic thread can take a step |
| JobRuns.ShutdownCompletes | MMO/Server/Core/LogicManager.h:79-135 | from every reachable state with nothing late, a shutdown can be followed by thread steps after which all have left and everything asked for is handled |
| LogicManagers.JobPool.Pop | MMO/Server/Core/LogicManager.h:20-30 | the top of the stack or a new object, blank and no longer pooled |
| LogicManagers.JobPool.Push | MMO/Server/Core/LogicManager.h:32-44 | the Job is blanked and pooled unless the pool is full |
| LogicManagers.LogicManager.PushJob | MMO/Server/Core/LogicManager.h:66-72 | the Job goes to the back of the queue of its session's thread; other queues are unchanged |
| LogicManagers.LogicManager.Drain | MMO/Server/Core/LogicManager.h:79-94 | the whole queue moves to the batch in order, and the thread leaves iff stopped with an empty queue |
| LogicManagers.HandleBatch | MMO/Server/Core/LogicManager.h:96-101 | each Job of the batch is handled with the content it was pushed with, although each is blanked right after |
| Framing.ChunkingDoesNotMatter | MMO/Client/Main.cpp:32-126 | however a byte stream is cut into chunks, the same packets come out and the same bytes stay behind |
| Framing.BytesAreConserved | MMO/Client/Main.cpp:41-125 | the packets followed by the remainder are the input |
| Framing.RoundTrip | MMO/Client/Main.cpp:32-126 | well-formed frames and the beginning of another, in any chunks, come out as exactly these frames, the beginning kept |
| Framing.MessagesArrive | MMO/Client/Main.cpp:32-126 | packets laid out byte by byte as size, id, payload, and a part of one more, in any chunks, arrive as exactly these packets, the part kept |
| Framing.FramesAreDistinct | MMO/Client/Main.cpp:46-49 | the packets determine the messages they were made of |
| Framing.CaughtIff | MMO/Client/Main.cpp:44-124 | the parse loop runs for ever iff some packet boundary of the stream shows a size field of 0 |
| Framing.ReceiveThread.OnReceive | MMO/Client/Main.cpp:41-125 | the loop does to the buffer what the value-level parser does |

## Left out

* Sockets, IOCP, accept, send buffers, the receive ring buffer, monitoring and logging: input and output.
* The database: a login is reduced to a fresh id. Failed logins, chat and logout change nothing that is modelled.
* The session pool, session generations and the timeout kick: they depend on session code newer than the one in the repository.
* Races outside the locks: sends after the lock is released, AddTimer concurrent with the wheel, jobs of a session that has left.
* Floating-point rounding, NaN, and the square root of the distance: reals and squared distances.
* Overflow of the 32-bit id counter and of the millisecond clock.
* What the client does with a packet beyond cutting it out of the stream.
- GameWorld.World.UpdateVisionGrids: the vision range is that of the map, not a parameter, as at every call in the source; the same for insertion and removal.
- LogicManagers.LogicManager.Drain: the wait on the condition variable is not modelled; with an empty queue the call returns an empty batch.
- Framing.ReceiveThread.OnReceive: running for ever is modelled as a flag, since methods terminate.
