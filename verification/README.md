# F4MP: a verified model

F4MP puts several Fallout 4 players into one world: a lobby server relays who is there, where
they are and what they say; a client plugin keeps a replica of the other players and moves a
clone for each of them. This project models the engine-free logic of both sides in Dafny and
proves what the parts promise together.

* **Wire** (`Packet`, `Protocol`, `Messages`, `WireFormat`): the byte writer and reader with the sticky
  failure flag, and the eleven messages, against the byte layout of the protocol document. Floats are
  32-bit patterns here.
* **Lobby** (`Names`, `Chat`, `ServerModel`, `Lobby`, `LobbySteps`, `LobbyRuns`, `LobbyAnswers`,
  `LobbyChat`, `LobbyStates`, `Server`): the server as a step machine over connections, packets,
  disconnects, the bot clock and the console. For every connection it carries two logs, one a channel, of what was handed to ENet; they start
  empty when a peer connects. `Server.dfy` is the server object, and each of its methods is proved
  to take exactly the step of the machine.
* **Agreement** (`ClientView`, `Agreement`, `SessionModel`, `Session`, `EndToEnd`): the client as a
  fold over messages, over bytes, and as the session object; the client agrees with the server's
  roster, and its buffers hold what the players really did.
* **Timeline** (`Angles`, `Interp`, `Sampling`, `Timeline`): wrapping stamps, the bounded and
  pruned snapshot buffer, sampling, and the clock offset, over exact reals.
* **Clones** (`CloneModel`, `CloneFrames`, `CloneRuns`, `CloneLives`, `CloneHistory`,
  `RemotePlayers`): the player list against the engine's references: spawning, despawning, the
  cached flags and deaths, names, buffers. The engine is a table from handles to actors.
* **Prologue** (`PrologueModel`, `PrologueHistory`, `PrologueSkip`): the state machine that skips the
  opening scenes, with a trace of what it asked of the engine, and what each frame does told by the frames
  before it.

How it fits together: the objects (`Writer`, `Reader`, `Server`, `ServerClock`, `RemotePlayers`,
`Session`, `PrologueSkip`) are classes whose methods change fields step by step; each method's
contract equates the new state with a function of the old one, and the theorems are about those
functions and about all runs of them. `SessionModel.ReplicaAgrees` joins server, codec, both
channels and client in one statement about who is listed; `EndToEnd.StatesReachBuffers` does so for
states, from the sender's packet over the server's stamp to the snapshot buffer, and
`CloneHistory.ShownIsSampled` goes on from there to the clone.

Where code and documents disagree, the code is followed:

* `docs/PROTOCOL.md:69-70` promises at most 6 chat messages per 5 seconds. That holds for the
  server's own windows (`Chat.PerWindow`), not for every stretch of 5 seconds: `Chat.SixPerFiveSecondsFails`
  is a run in which 12 pass, `Chat.RelayedInInterval` shows that 12 is the most, and `Chat.SixPerFiveSecondsIff`
  says at which moments the promise does hold for the next 5 seconds.
* `docs/ARCHITECTURE.md:76-77` says the player's name is what the crosshair shows. With the default shared
  base record it is not when a state update overtakes the join and a frame runs in between: the clone keeps
  the placeholder label (`CloneLives.NamesStep`, `CloneHistory.OvertakenJoinHidesName`).
* `client/src/Sync/RemotePlayers.cpp:136-137` never drives the local player as a clone. A rename through a
  handle that has come to resolve to the local player still relabels it (`CloneLives.RenameCanReachSelf`);
  `CloneLives.SelfLeftAlone` says that this is the only way the local player is touched.

Assumptions about the surroundings are stated where they are used: `ServerModel.Enabled` (ENet reports a
disconnect before it reuses a peer; the clock does not run backwards; fewer than 2^32 - 2 ids are handed
out), `ServerModel.SaneArithmetic` (adding at most 250 to a finite single stays finite; sine and cosine stay
in [-1, 1]), `CloneModel.EngineMay` (the engine may move, animate or delete clones and let a handle resolve to
the local player, but does not change a clone's name, flags, death or switch for root motion), `CloneModel.FreshLuck` (a new reference
gets a handle that nobody holds), `Agreement.Sourced` (state updates come from the server), `LobbyChat.NoCounterWraps` (no window gets 2^32 messages).

## Model

| member | source | states |
|---|---|---|
| Packet.FromToLE | shared/include/f4mp/Packet.hpp:40-45 | reading back the little-endian bytes of any number that fits gives the number |
| Packet.Writer.Str | shared/include/f4mp/Packet.hpp:29-34 | appends the 16-bit length and the first 4096 bytes, nothing else |
| Packet.Reader.Raw | shared/include/f4mp/Packet.hpp:86-95 | takes n bytes, or yields zeros, stays put and fails for good |
| Packet.Reader.Str | shared/include/f4mp/Packet.hpp:73-83 | refuses a length over 4096 or beyond the end, keeping the two length bytes consumed |
| Packet.FieldsRoundTrip | shared/include/f4mp/Packet.hpp:17-101 | reading a written field list returns it, strings clamped, and consumes exactly its bytes |
| Packet.FieldsReverse | shared/include/f4mp/Packet.hpp:50-101 | whatever a sequence of reads accepts, writing the results gives the consumed bytes back |
| Packet.FieldsSticky | shared/include/f4mp/Packet.hpp:63-95 | after a failure every later read yields zero or empty, and the cursor stays |
| Packet.FieldsStayInside | shared/include/f4mp/Packet.hpp:86-95 | on arbitrary bytes the cursor only moves forward and never passes the end |
| Packet.SignedRoundTrip | shared/include/f4mp/Packet.hpp:25-25 | signed integers survive the wire |
| WireFormat.LittleEndian | shared/include/f4mp/Packet.hpp:40-45 | the low byte of a number goes first |
| Messages.WriteStateUpdate | shared/include/f4mp/Protocol.hpp:244-249 | the imperative writer appends the layout of the message |
| Messages.Write | shared/include/f4mp/Protocol.hpp:86-300 | every message's Write appends exactly its fields, in order |
| Messages.Encode | shared/include/f4mp/Protocol.hpp:304-311 | the id byte followed by the body |
| Messages.ReadHeader | shared/include/f4mp/Protocol.hpp:314-318 | takes one byte and reports the reader's flag |
| Messages.ReadBody | shared/include/f4mp/Protocol.hpp:86-300 | every message's Read parses its layout, or refuses when the reader fails |
| Protocol.DecodeEncode | shared/include/f4mp/Protocol.hpp:86-318 | decoding an encoding followed by any bytes returns the message, strings cut, and leaves exactly those bytes |
| Protocol.EncodeDecode | shared/include/f4mp/Protocol.hpp:86-318 | an accepted packet is, up to its unread tail, the encoding of what was read |
| Protocol.DecodeIgnoresTail | shared/include/f4mp/Protocol.hpp:314-318 | appended bytes change neither the message nor what is consumed |
| Protocol.PrefixRejected | shared/include/f4mp/Protocol.hpp:86-318 | every strict prefix of an encoding is refused |
| Protocol.FailedReaderRejects | shared/include/f4mp/Packet.hpp:86-92 | a reader that has failed parses no body and moves nowhere |
| WireFormat.EncodesAsDocumented | docs/PROTOCOL.md:5-39 | every message goes out byte for byte as the document lays it out: id, little-endian numbers, fields in order, strings as length and bytes |
| Names.SanitizeName | shared/include/f4mp/Protocol.hpp:321-340 | the in-place edit computes the sanitised name |
| Names.SanitizedIs | shared/include/f4mp/Protocol.hpp:321-340 | of the printable bytes, in order, the first 32 without the spaces at either end; "Wastelander" if that is nothing |
| Names.SanitizedIsGood | shared/include/f4mp/Protocol.hpp:320-340 | the result is 1 to 32 printable bytes with no outer space, whatever came in |
| Names.FixedPointIffGood | shared/include/f4mp/Protocol.hpp:320-340 | a name is left alone if and only if it is good |
| Names.SanitizeIdempotent | shared/include/f4mp/Protocol.hpp:320-340 | sanitising twice is sanitising once |
| LobbyRuns.DefaultBotName | server/src/Server.cpp:395-395 | a bot that is given no name is called "Bot" and the digits that read back as its id, which is a good name |
| Chat.CleanChat | server/src/Server.cpp:298-301 | cut to 512 bytes, control characters removed |
| Chat.StrippedText | server/src/Server.cpp:298-304 | what is left is the first 512 bytes with exactly the control characters missing and the rest in order; a short text without any is left alone |
| Chat.LimiterByCount | server/src/Server.cpp:286-291 | the limiter holds the last window and how many messages were counted in it |
| Chat.VerdictByCount | server/src/Server.cpp:279-308 | what becomes of a message is decided by how many were counted in its window before it: six relayed, one warning, then nothing |
| Chat.PerWindow | server/src/Server.cpp:286-296 | a window relays at most six messages and warns at most once |
| Chat.WindowsApart | server/src/Server.cpp:286-290 | window starts are at least five seconds apart |
| Chat.RelayedInInterval | server/src/Server.cpp:279-308 | any stretch of time relays at most 6 * (ceil(length / 5 s) + 1) messages; 12 in five seconds |
| Chat.SixPerFiveSecondsFails | docs/PROTOCOL.md:69-70 | a run in which 12 messages pass in five seconds |
| Chat.SixPerFiveSecondsIff | server/src/Server.cpp:286-296 | the five seconds from a moment on relay at most six messages, whatever arrives, if and only if the player's window is then used up, just begun or over |
| Chat.NeverWraps | server/src/Server.cpp:291-291 | fewer than 2^32 messages never wrap the counter |
| Chat.FloodBeatsBound | server/src/Server.cpp:291-296 | 2^32 messages at one moment get more relayed than the bound allows, so the condition on the counter is needed |
| ClientView.GoodLogShape | server/src/Server.cpp:212-263 | a healthy log opens with its one Welcome, holds no Reject, and all its content is good |
| ClientView.JoinedOrLeft | client/src/Session.cpp:500-514 | everyone announced is either still listed or was announced to have left, never both |
| LobbyServer.Server.Send | server/src/Server.cpp:329-336 | one packet goes to the right log unless ENet is closing the connection |
| LobbyServer.Server.Broadcast | server/src/Server.cpp:338-346 | in any map order every handshaked player but one hears the packet once |
| LobbyServer.Server.Kick | server/src/Server.cpp:353-360 | a Reject, then the connection closes; the player stays listed until the disconnect |
| LobbyServer.Server.HandleConnect | server/src/Server.cpp:144-152 | a fresh unnamed player and empty logs |
| LobbyServer.Server.HandleDisconnect | server/src/Server.cpp:154-171 | the player goes; if it was handshaked the others hear PlayerLeft and the farewell |
| LobbyServer.Server.HandlePacket | server/src/Server.cpp:173-208 | header, handshake guard and dispatch as the machine's step |
| LobbyServer.Server.HandleHello | server/src/Server.cpp:212-263 | refusals, the repeated hello, and the join with the introductions in map order |
| LobbyServer.Server.HandlePlayerState | server/src/Server.cpp:265-277 | implausible states are dropped, others stored and relayed |
| LobbyServer.Server.HandleChat | server/src/Server.cpp:279-308 | the limiter moves and the verdict is sent |
| LobbyServer.Server.HandleSetName | server/src/Server.cpp:310-325 | a new sanitised name is stored and broadcast, an equal one is ignored |
| LobbyServer.Server.FindPlayer | server/src/Server.cpp:368-376 | finds the handshaked player with the id, whatever the map order |
| LobbyServer.Server.FindFirstWithState | server/src/Server.cpp:378-387 | the handshaked player with a state and the smallest id |
| LobbyServer.Server.AddBot | server/src/Server.cpp:391-403 | the next id, a sanitised name, a join for everyone |
| LobbyServer.Server.RemoveBot | server/src/Server.cpp:405-417 | the first bot with the id goes and everyone is told |
| LobbyServer.Server.RemoveAllBots | server/src/Server.cpp:523-525 | the removal loop ends and takes the machine's steps |
| LobbyServer.Server.UpdateBots | server/src/Server.cpp:419-469 | the timed pass over all bots |
| LobbyServer.Server.KickCommand | server/src/Server.cpp:560-572 | removes the bot, else kicks the player, else does nothing |
| LobbyServer.Server.Handle | server/src/Server.cpp:113-140 | whatever happens next, the server object takes that step of the machine and keeps the invariant |
| LobbySteps.GreetingTellsRoster | server/src/Server.cpp:237-259 | in any map order the greeting makes a newcomer list exactly the players and bots already there |
| LobbyAnswers.HelloAnswered | server/src/Server.cpp:212-263 | a hello of version 3 on an open, waiting connection is admitted under the next id, welcomed first, told the roster and announced to the others; any other version ends in a Reject and a closed connection, the roster unchanged |
| LobbyAnswers.HelloAgain | server/src/Server.cpp:220-227 | a hello of a player already admitted changes nothing if it is of version 3, and closes the connection with a Reject otherwise |
| LobbyAnswers.StrangerRefused | server/src/Server.cpp:173-218 | any other packet of a waiting connection does nothing if empty and is refused otherwise |
| LobbyAnswers.HelloCameIn | server/src/Server.cpp:220-232 | in every run the present connection of every handshaked player carried a hello of version 3 |
| LobbyAnswers.PlausibleIff | server/src/Server.cpp:26-40 | a state is plausible exactly if none of its six singles is infinite or a NaN |
| LobbyAnswers.StateAnswered | server/src/Server.cpp:265-277 | a state packet made of numbers is stored as it is and sent on once, under the present millisecond, to everyone else who hears; any other changes nothing |
| LobbyAnswers.RenameAnswered | server/src/Server.cpp:310-325 | a SetName lists the player under the sanitised name; everyone who hears, the player included, is told once if that is new and nothing otherwise; nobody else changes |
| LobbyAnswers.LeaveAnswered | server/src/Server.cpp:154-171 | a handshaked player that goes leaves the roster; everyone else hears PlayerLeft and the farewell, nothing more |
| LobbyAnswers.BotJoins | server/src/Server.cpp:391-403 | a new bot takes the next id and is listed; everyone hears the join and the line of chat |
| LobbyAnswers.BotLeaves | server/src/Server.cpp:405-417 | a removed bot leaves the list and the roster; everyone hears it; an unknown id does nothing |
| LobbyAnswers.KickAnswered | server/src/Server.cpp:560-572 | kick removes the bot with the id, else the player with it gets a Reject as its last message and is closed, else nothing happens |
| LobbyAnswers.SayHeard | server/src/Server.cpp:541-547 | what the console says everyone hears once |
| LobbyAnswers.PassTells | server/src/Server.cpp:436-468 | a bot pass sends everyone who hears one update of every bot that has a state after it, in order, and nothing else |
| LobbyRuns.GreetingTellsStates | server/src/Server.cpp:244-259 | a state update is in the greeting exactly if it is the state of a player or bot under the one stamp, and then it is the only one of its id |
| LobbyRuns.JoinedBeforeState | server/src/Server.cpp:244-259 | in the greeting every state update comes after the join of its id |
| LobbyRuns.StateRelayed | server/src/Server.cpp:265-277 | a plausible state is stored and reaches every other open, handshaked connection once and nobody else; an implausible one changes nothing |
| LobbySteps.JoinKeeps | server/src/Server.cpp:229-262 | a join keeps every client's log in agreement with the new roster |
| LobbySteps.DisconnectKeeps | server/src/Server.cpp:154-171 | so does a disconnect, handshaked or not |
| LobbySteps.SetNameKeeps | server/src/Server.cpp:310-325 | so does a rename |
| LobbySteps.StepKeeps | server/src/Server.cpp:113-140 | every event keeps the whole lobby invariant |
| LobbySteps.Reachable | server/src/Server.cpp:113-140 | the lobby invariant holds after every run |
| Agreement.RosterAgreement | server/src/Server.cpp:144-171 | after every run each open, handshaked client makes of its packets exactly the other players and the bots, and its own id |
| Agreement.LogShape | server/src/Server.cpp:173-263 | a connection's log is empty, or opens with a Welcome or a Reject; a Reject can only be its last message; all content is good |
| Agreement.CrossChannelAgreement | client/src/Sync/RemotePlayers.cpp:52-59 | however state updates are lost, repeated, reordered or early, the client ends with the server's roster if and only if none came after its player's PlayerLeft |
| Agreement.LateUpdateLeavesGhost | client/src/Sync/RemotePlayers.cpp:55-59 | one update after a PlayerLeft leaves exactly one placeholder behind |
| Agreement.AgreesIffAllowed | client/src/Session.cpp:500-537 | for any good log: placeholders made early are overwritten by their joins, late ones stay for good, and nothing else differs |
| LobbyRuns.IdentityInEveryRun | server/src/Server.cpp:229-232 | ids of players and bots are distinct and in [1, next); before the handshake the id is invalid and there is no state |
| LobbyRuns.NeverReused | server/src/Server.cpp:394-394 | an id once given up is never held again, so a stale follow id means nobody else |
| LobbyRuns.NamesAndStatesInEveryRun | server/src/Server.cpp:28-40 | every roster name is a fixed point of sanitising, every stored or relayed state finite |
| LobbyRuns.ListedNameIsSilent | server/src/Server.cpp:317-324 | in every run, asking for the name one is listed under changes and sends nothing |
| LobbyRuns.AskingAgainIsSilent | server/src/Server.cpp:310-325 | however often a name is asked for, only the first time changes or sends anything, and not even that for the text of the hello |
| LobbyChat.LimiterFollowsChat | server/src/Server.cpp:279-296 | in every run a player's limiter is where its own chat messages brought it |
| LobbyChat.PacketNews | server/src/Server.cpp:173-308 | what a packet lets anybody hear of a player is the stripped line of that player's chat message if the limiter grants it, and nothing else |
| LobbyChat.AnswerFollowsRun | server/src/Server.cpp:279-308 | in every run a chat message is answered in the logs as the run of that player's own messages decides: relayed to everyone who hears, or one warning to the sender, or nothing |
| LobbyChat.ChatAnswered | server/src/Server.cpp:279-308 | in every run a chat packet puts into the log of everyone who hears exactly what the count of that player's messages in the window says: the stripped line, the warning for the sender, or nothing |
| LobbyChat.HeardText | server/src/Server.cpp:298-307 | what anybody hears of a player after a packet is that player's own text: its first 512 bytes without exactly the control characters, in order |
| LobbyChat.HeardWithinGrant | server/src/Server.cpp:279-308 | in every run, what anybody has heard of an id is within what the limiter of its holder granted, and nothing before the id is given out |
| LobbyChat.ChatFlood | server/src/Server.cpp:279-308 | in every run and any stretch of time at most 6 * (ceil(length / 5 s) + 1) chat lines of one player get into anybody's log |
| LobbyRuns.PassAttaches | server/src/Server.cpp:440-450 | after a pass every bot follows a player with a state, its own while that has one, else the smallest id; or nobody, without a state |
| LobbyRuns.PassesApart | server/src/Server.cpp:426-434 | a pass is noted exactly when there are bots and 50 ms have gone by, and otherwise nothing happens |
| LobbyRuns.MirrorCopies | server/src/Server.cpp:453-457 | a mirror bot is its player, 200 units further east |
| LobbyRuns.OrbitTurns | server/src/Server.cpp:458-465 | an orbit bot walks on by speed times time up to whole turns, on the circle around its player, at the same height, facing minus its phase |
| LobbyRuns.OrbitInEveryRun | server/src/Server.cpp:458-465 | phase and yaw stay in [0, 2 pi) |
| LobbyRuns.RemoveAllTells | server/src/Server.cpp:522-526 | removing all bots leaves none and tells everyone exactly one PlayerLeft a bot |
| LobbyStates.UpdatesAreTrue | server/src/Server.cpp:244-277 | in every run every state update in any log was true when stamped: at that millisecond the player or bot it names had that state |
| LobbyStates.StateCameIn | server/src/Server.cpp:265-277 | in every run a player's state is one that came in a packet of its present connection |
| LobbyStates.SentStateIsStored | server/src/Server.cpp:265-273 | a packet that carries a plausible state puts exactly that state into the sender's record |
| Interp.ServerClock.Unwrap | shared/include/f4mp/Interp.hpp:33-44 | the clock object takes the signed step |
| Interp.StaysCongruent | shared/include/f4mp/Interp.hpp:28-44 | every unwrapped time has its stamp as low 32 bits |
| Interp.UnwrapRecovers | shared/include/f4mp/Interp.hpp:28-44 | when neighbours differ by less than 2^31 ms every time is the true one up to one constant multiple of 2^32 |
| Interp.TurnIsShortest | shared/include/f4mp/Interp.hpp:61-72 | the turn is congruent to the difference and no congruent turn is smaller |
| Interp.LerpAngleShortest | shared/include/f4mp/Interp.hpp:61-72 | stays within pi of the start and ends facing the target |
| Interp.SampleAt | shared/include/f4mp/Interp.hpp:89-124 | the loop computes the sample |
| Sampling.SampleHeld | shared/include/f4mp/Interp.hpp:92-96 | up to the oldest snapshot, and always if there is only one, the sample is exactly that snapshot |
| Sampling.SearchSucceeds | shared/include/f4mp/Interp.hpp:113-123 | between oldest and newest a bracketing pair is always found, so the last return is dead |
| Sampling.SampleBetween | shared/include/f4mp/Interp.hpp:74-84 | position and health lie between the pair's, the discrete fields are the nearer one's |
| Sampling.SampleEven | shared/include/f4mp/Interp.hpp:113-122 | part of the way in time is the same part of the way in position, health and shortest turn |
| Sampling.SampleAtSnapshot | shared/include/f4mp/Interp.hpp:86-124 | at a snapshot's own time the sample is that snapshot, yaw up to whole turns |
| Sampling.CarriesOn | shared/include/f4mp/Interp.hpp:98-111 | past the newest snapshot the last pair's speed goes on for 150 ms, or not at all after a gap over 400 ms; all else is held |
| Sampling.DropMany | shared/include/f4mp/Interp.hpp:89-124 | dropping snapshots in front changes no sample after the new front |
| Sampling.Lipschitz | shared/include/f4mp/Interp.hpp:86-124 | over the whole line each coordinate moves at most at the fastest adjacent pair's speed: no jumps |
| Timeline.BufferRefines | client/src/Sync/RemotePlayers.cpp:64-72 | after any arrivals and frames the buffer is a suffix of all accepted snapshots, at most 64 and at least the last two |
| Timeline.BufferSamplesLikeHistory | client/src/Sync/RemotePlayers.cpp:119-127 | it samples like the whole history after its own oldest snapshot |
| Timeline.PruneKeepsSamples | client/src/Sync/RemotePlayers.cpp:119-127 | a prune changes no sample from 1500 ms before its render time on |
| Timeline.FramesForget | client/src/Sync/RemotePlayers.cpp:119-127 | right after a frame the buffer holds two snapshots or a second one within 1500 ms of the render time |
| Timeline.ArrivalsFillUp | client/src/Sync/RemotePlayers.cpp:70-72 | without a frame in between the buffer grows by whatever is accepted until it holds 64 snapshots, and stays at 64 |
| Timeline.Prune | client/src/Sync/RemotePlayers.cpp:119-127 | the loop drops what the specification drops |
| Timeline.AcceptedAreMaxima | client/src/Sync/RemotePlayers.cpp:64-69 | accepted snapshots are exactly the strict running maxima |
| Timeline.WireToTimeline | client/src/Sync/RemotePlayers.cpp:61-69 | with one clock for all players, each one's snapshots are the maxima of its true send times, moved by one constant for everyone |
| Timeline.OffsetBetween | client/src/Sync/RemotePlayers.cpp:82-93 | the offset lies between the smallest sample and the latest |
| Timeline.OffsetDrift | client/src/Sync/RemotePlayers.cpp:84-92 | k samples in [m, M] after a packet with sample m keep it within m + (1 - 0.98^k)(M - m) and no lower than that packet left it |
| Timeline.OffsetRises | client/src/Sync/RemotePlayers.cpp:84-92 | from an offset v, k samples of at least M bring it to M - 0.98^k (M - v) or higher, and exactly there if all are M |
| Timeline.OffsetStaysAboveIff | client/src/Sync/RemotePlayers.cpp:84-92 | the lower end m is kept by all later samples in [m, M] if and only if that packet set the offset |
| CloneFrames.OneFrame | client/src/Sync/RemotePlayers.cpp:113-250 | one player's frame touches only its own handles, keeps cache and engine equal, leaves it as wanted (opaque, and if driven following the sample, the flags and the gait), and gives it a clone exactly when one survives or an attempt succeeds |
| CloneFrames.SpeedApproaches | client/src/Sync/RemotePlayers.cpp:218-227 | the smoothed speed goes twelve times the elapsed part of a second of the way to the rendered one, never past it |
| CloneFrames.CloneGoesOn | client/src/Sync/RemotePlayers.cpp:184-249 | a clone that stays goes on from what was cached of it, a new one from a clean slate at the latest snapshot: pacified until that has worked, only made visible when not driven, else put or walked to the sample with its speed following, and a corpse keeps whatever it had |
| CloneFrames.GaitFollowsSpeed | client/src/Game/GameUtil.cpp:339-347 | slower than 8 is standing, from 260 on running, 900 the most, and only what moves sprints |
| CloneFrames.AttemptsPaced | client/src/Sync/RemotePlayers.cpp:149-171 | a spawn attempt is noted exactly when none is kept, the place is visible and a second has gone by; bases are made and given up on only then |
| CloneRuns.OrderDoesNotMatter | client/src/Sync/RemotePlayers.cpp:108-110 | every map order of a frame ends in the same state, of the players and of the whole engine table |
| CloneRuns.FrameAsWanted | client/src/Sync/RemotePlayers.cpp:97-111 | the same for all players in one frame |
| CloneLives.RunKeeps | client/src/Sync/RemotePlayers.cpp:16-323 | in every run cached deaths and flags equal the engine's, no handle is shared, a state implies a known offset |
| CloneLives.ClonesFollow | client/src/Sync/RemotePlayers.cpp:129-250 | after any run and a frame a clone and the local player are inside the same cell or outside in the same worldspace, as the latest snapshot says; it is not the local player, and is as dead, sneaking, armed and sprinting as that snapshot |
| CloneLives.ClonesComeBack | client/src/Sync/RemotePlayers.cpp:254-315 | after a save, new options or a load the next frame has a clone exactly where its player is in sight, the engine gives one and an attempt is due, after new options at once; failed bases are forgotten by the last two, and no other reference is touched |
| CloneLives.NamesStep | client/src/Sync/RemotePlayers.cpp:16-39 | every step keeps the right name over every clone, except if and only if a join reaches a clone that carries another label |
| CloneLives.NamesInEveryRun | client/src/Sync/RemotePlayers.cpp:16-39 | so after every run without such a join every clone carries its player's name |
| CloneLives.SelfLeftAlone | client/src/Sync/RemotePlayers.cpp:136-141 | the local player's actor changes if and only if a rename goes through a handle resolving to it |
| CloneLives.RenameCanReachSelf | client/src/Sync/RemotePlayers.cpp:26-39 | a run that gets there: a state, a frame, the engine lets the handle resolve to the local player, a rename |
| CloneLives.NoOrphansSince | client/src/Sync/RemotePlayers.cpp:254-323 | over every run from when all clones have owners until handles are forgotten, every clone has one, so saving, respawning and leaving remove them all |
| CloneLives.NoOrphansInEveryRun | client/src/Sync/RemotePlayers.cpp:254-323 | in particular in every run that starts without clones |
| CloneHistory.BuffersRefine | client/src/Sync/RemotePlayers.cpp:52-73 | in every run of the object each buffer refines the unbounded history |
| CloneHistory.ShownIsSampled | client/src/Sync/RemotePlayers.cpp:209-216 | what a driven clone shows is the sample of that whole history; up to the oldest snapshot held, or with only one, it is that snapshot |
| CloneHistory.WireToBuffer | client/src/Sync/RemotePlayers.cpp:61-72 | over any number of connections, a player's buffer is a suffix of the strict running maxima of the true send times since it was last removed, moved by one constant for everyone |
| CloneHistory.OffsetIsFiltered | client/src/Sync/RemotePlayers.cpp:82-93 | in every run the offset is the filter over this connection's samples, between the smallest and the latest |
| CloneHistory.OffsetComesBack | client/src/Sync/RemotePlayers.cpp:82-93 | in every run, k later updates of the connection with samples of at least M bring an offset v up to M - 0.98^k (M - v) or higher, exactly there if all are M: no lucky packet pins the clock |
| CloneHistory.ServerTimeInEveryRun | client/src/Sync/RemotePlayers.cpp:82-107 | in every run, if no update arrives before it was sent, the estimated server time is no less than the latest send time and no more than the true time |
| CloneHistory.RenderedInThePast | client/src/Sync/RemotePlayers.cpp:106-107 | so a frame renders the interpolation delay before a time between the latest update and the true server time |
| CloneHistory.OvertakenJoinHidesName | client/src/Sync/RemotePlayers.cpp:16-24 | a state that overtakes the join, and a frame in between, leave the placeholder on the clone |
| ReplicaSet.RemotePlayers.Add | client/src/Sync/RemotePlayers.cpp:16-24 | new entry or new name, snapshots and actor kept |
| ReplicaSet.RemotePlayers.Rename | client/src/Sync/RemotePlayers.cpp:26-39 | name, base and label follow |
| ReplicaSet.RemotePlayers.Remove | client/src/Sync/RemotePlayers.cpp:41-50 | the entry and its clone go |
| ReplicaSet.RemotePlayers.ApplyState | client/src/Sync/RemotePlayers.cpp:52-73 | placeholder, clock, offset, buffer |
| ReplicaSet.RemotePlayers.NoteServerTime | client/src/Sync/RemotePlayers.cpp:82-93 | one step of the offset filter |
| ReplicaSet.RemotePlayers.Update | client/src/Sync/RemotePlayers.cpp:97-111 | the loop over the map is the frame of the machine in some order |
| ReplicaSet.RemotePlayers.UpdateOne | client/src/Sync/RemotePlayers.cpp:113-250 | the frame of one player with all its early returns |
| ReplicaSet.RemotePlayers.Spawn | client/src/Sync/RemotePlayers.cpp:149-192 | retry interval, base, spawn, reset of the cache |
| ReplicaSet.RemotePlayers.Drive | client/src/Sync/RemotePlayers.cpp:194-249 | pacify, move, death edges, changed flags |
| ReplicaSet.ApplyStateFlags | client/src/Game/GameUtil.cpp:208-224 | pushing the changed bits of a body that has the previous ones gives it the new ones |
| ReplicaSet.RemotePlayers.DespawnAll | client/src/Sync/RemotePlayers.cpp:254-259 | every held clone goes, the list stays |
| ReplicaSet.RemotePlayers.Respawn | client/src/Sync/RemotePlayers.cpp:261-276 | the same and all caches reset |
| ReplicaSet.RemotePlayers.ForgetActors | client/src/Sync/RemotePlayers.cpp:302-315 | handles and bases dropped, the engine untouched |
| ReplicaSet.RemotePlayers.Clear | client/src/Sync/RemotePlayers.cpp:317-323 | nobody left, offset and clock reset |
| SessionModel.PiPattern | shared/include/f4mp/Interp.hpp:64-64 | the pi of the timeline is the value of the single the source uses |
| SessionModel.FloatSteps | shared/include/f4mp/Packet.hpp:26-26 | the value of a single: zero is zero, each pattern is one unit in the last place above the one before, the top bit turns the sign |
| SessionModel.FloatIncreasing | shared/include/f4mp/Packet.hpp:26-26 | so larger patterns are larger values |
| SessionModel.SendsApart | client/src/Session.cpp:164-187 | unforced sends leave at least one interval after whatever was sent before, and only because a second is over or the last one is out by more than the tolerances |
| SessionModel.SentIsCurrent | client/src/Session.cpp:164-187 | in every run an attempt an interval or more after the last packet leaves the server with the present state up to half a unit of distance and health and 0.005 of yaw, everything else but the maximal health equal; forced or after a second exactly |
| SessionModel.IntervalIs | client/src/Session.cpp:172-172 | the interval is the largest whole number of milliseconds that leaves room for the send rate |
| SessionModel.WelcomeTellsState | client/src/Session.cpp:473-489 | a Welcome makes the client tell its state at once, and the next due tick after entering a world or losing the connection tells it again |
| SessionModel.WelcomedInEveryRun | client/src/Session.cpp:473-489 | in every run the session is welcomed exactly if this connection brought a Welcome, and shows the name in the last one |
| SessionModel.HandleBytesView | client/src/Session.cpp:465-557 | a packet does to ids and names what the fold says, whatever else it does |
| SessionModel.SessionFollowsPackets | client/src/Session.cpp:65-76 | whatever happens locally in between, the roster is the fold over the packets of this connection |
| SessionModel.ReplicaAgrees | client/src/Session.cpp:473-557 | server run, codec, both channels and client run together: the client lists exactly the other players and the bots, if and only if no update reached it after its player's PlayerLeft |
| EndToEnd.ProjectedRuns | client/src/Session.cpp:465-557 | a session does to its remote players what one of their runs does, so whatever holds in every such run holds in every session |
| EndToEnd.StatesReachBuffers | client/src/Session.cpp:531-537 | whatever packets of the server's logs reach a session, every buffer is a suffix of the strict running maxima of states that player or bot really had on the server, at the true times, moved by one constant |
| ClientSession.Session.SendState | client/src/Session.cpp:164-187 | sends the encoded state exactly when due, and remembers what it sent |
| ClientSession.Session.HandlePacket | client/src/Session.cpp:465-557 | the session takes the step of the model and of the fold |
| ClientSession.Session.OnDisconnected | client/src/Session.cpp:65-72 | everything about the connection is forgotten |
| ClientSession.Session.OnEnterWorld | client/src/Session.cpp:86-97 | actors forgotten, the next state is sent at once |
| ClientSession.Session.OnPreSave | client/src/Session.cpp:113-117 | only the clones go |
| PrologueModel.CommandsKeep | client/src/Game/PrologueSkip.cpp:160-168 | the command loop ends, never goes back, and leaves the running state only with every command consumed |
| PrologueModel.RunKeeps | client/src/Game/PrologueSkip.cpp:65-225 | after every run the trace is in the one order of the prologue and fits the state |
| PrologueModel.WholeRun | client/src/Game/PrologueSkip.cpp:65-395 | nothing happens twice, commands in order without gaps, the sex change before them, controls restored exactly if the face editor was asked for |
| PrologueModel.NeverBack | client/src/Game/PrologueSkip.cpp:101-225 | a frame never goes back, except out of the world when a command says so |
| PrologueModel.LateFrameMoves | client/src/Game/PrologueSkip.cpp:101-225 | a frame after every deadline gets on if and only if no player is missing, no start delay runs, no character is being rebuilt and no menu is open |
| PrologueHistory.EveryFrame | client/src/Game/PrologueSkip.cpp:101-391 | after any run a frame does exactly what the frames so far call for: when each state is left, for which state, and with which actions; the sex is changed exactly when the answer given since the question differs from the present one and it was not changed before |
| PrologueHistory.EveryOtherEvent | client/src/Game/PrologueSkip.cpp:65-89 | a new game arms it afresh or is done, leaving the world stops it, an answer alone does nothing yet |
| PrologueHistory.ToldInEveryRun | client/src/Game/PrologueSkip.cpp:65-305 | in every run the machine remembers exactly what the frames since it entered its state have shown |
| Prologue.PrologueSkip.Update | client/src/Game/PrologueSkip.cpp:101-225 | the object takes the step of the machine and its invariant holds |
| Prologue.PrologueSkip.OnNewGame | client/src/Game/PrologueSkip.cpp:65-81 | armed afresh, or done when disabled |
| Prologue.PrologueSkip.OnLeaveWorld | client/src/Game/PrologueSkip.cpp:83-89 | idle, whatever it was doing |
| Prologue.PrologueSkip.UpdateRunning | client/src/Game/PrologueSkip.cpp:160-168 | the while loop is the recursive run of commands |
| Prologue.PrologueSkip.RunNextCommand | client/src/Game/PrologueSkip.cpp:307-336 | one command consumed, or the list is done |

## Left out

- ENet, sockets and timeouts: a send is an entry in a log, delivery is whatever schedule the client model is given; the flush before a kick has no effect here.
- Engine calls other than the ones on the handle table: pacifying is only its flag, and the animation graph is taken to have the variables that `SetLocomotion` looks for. The square root behind the smoothed speed is an input of the frame.
- Float rounding: timeline, offset and angles are exact reals; the single-precision casts in `SampleAt` and `Blend` are dropped.
- SessionModel.ToReal: infinite and NaN patterns get the value the formula gives; the server never relays one (`LobbyRuns.NamesAndStatesInEveryRun`).
- ClientSession.Session.SendState: how the local player is sampled is an input; comparing infinite or NaN samples follows `SessionModel.ToReal`, not the IEEE rules.
- ClientSession.Session.OnEnterWorld: the in-world flag and the two fields of the reconnect timer belong to connecting, which is not modelled.
- Overflow of the 64-bit unwrapped time, and wrap-around of the id counter (bounded by `ServerModel.Enabled`).
- Players, bots and remote players are values held in the objects' maps and sequences rather than objects of their own; each is owned by exactly one entry in the source, so no aliasing is lost.
- CloneModel.PutAt: `Actor::Move` puts the clone wherever the engine says, so `CloneFrames.AsWanted` claims the position only with that experiment off.
- Each handler reads the clock once; the source reads it again in some of them.
- Prologue: the text of a command is already parsed into a wait or a console line; menus and quest stages are inputs of a frame.
- Console input, tokenising, listing and logging, the INI file, reconnecting, `SyncName`, printing of chat and status: they only format or route what is modelled.
- Name labels in the save file, `SetGhost` per actor and the contents of a copied base record beyond its name.
