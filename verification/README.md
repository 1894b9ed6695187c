# The room server, verified

Screego's room server owns everything it knows about clients, rooms, sessions and TURN
credentials in one event loop (`ws/rooms.go:98-111`). This project models that loop with
all its events, the credential table behind the TURN server, the run-once guard of a
client's close path, and the 16-bit arithmetic that picks relay ports, and proves what
they promise.

## How it is built

The data is in `Types.dfy`. `RoomModel.dfy` says, as functions on one `State` value, what
each event does; `Apply` is one iteration of the loop, including the disconnect that
follows a failing event. `Server.dfy` is the program itself: the classes `InternalServer`,
`Room` and `Rooms`, whose methods change fields in place with the source's branches and
loops (each Go map loop is a `while` over a shrinking set, so every iteration order is
covered, deletion during iteration included). Each method is proved to compute the
function of its event; `Rooms.Start` is the whole loop, and what it does is a run of
`RoomModel`. So everything proved about runs holds of the program.

What the server promises is not said in terms of these functions. `Rules.dfy` states, over the
data and the messages alone, who may found and enter a room, why an event is refused, who has
to go and what is said to them, what has to be relayed, listed and announced; it refers to no
function that carries an event out. `Guarantees.dfy` proves of every run that each step keeps
these rules, and no more happens than they say.

| file | content |
|---|---|
| `Rules.dfy` | the rules, as predicates and functions on state and message that no event is carried out with |
| `Invariant.dfy` | the global invariant: the four structures, counters and history against each other, and the shape of one room |
| `Counting.dfy`, `Elementary.dfy`, `Events.dfy` | every elementary change and every event keeps the first part, also in the middle of a failing event |
| `Shape.dfy`, `Safety.dfy` | every finished step keeps the second part; no nil dereference; a failing event is a disconnect |
| `Frame.dfy`, `Properties.dfy` | what one step can reach; what the invariant means for users of the server |
| `Unnamed.dfy`, `Witnesses.dfy` | the room with the empty name: what every step makes of it, and runs in which it makes a difference |
| `Notices.dfy`, `Rosters.dfy`, `Goodbyes.dfy` | who is sent what: relays and end-share notices, room lists, close notices |
| `Authority.dfy` | who can change what about whom, and when rooms close |
| `Books.dfy`, `Conduct.dfy`, `Sessions.dfy`, `Showings.dfy` | every step keeps the rules: counters, what rooms are founded with, refusals, leaving, bans, sessions, lists |
| `Runs.dfy`, `Guarantees.dfy` | statements over whole runs, and over every state and step of every run |
| `Refinement.dfy`, `Server.dfy` | the program and its proof against `RoomModel` |
| `Once.dfy`, `PortRange.dfy` | the run-once guard under every interleaving; the relay port range |

## What came out

- A room may be created with the empty name (`ws/event_create.go:81-82` never checks it),
  but `connected` uses the empty name for "in no room". Its members are then members that
  `connected` does not know: they cannot act in the room and never leave it
  (`NobodyLeavesUnnamed`), but they may join it again, and then lose ownership and are
  counted once more (`OneOwnerEach`, `CountersAreExact`, `OwnerLost`). A client that is gone
  is still sent the lists of the unnamed room (`GoneAreSpared`, `GoneIsWrittenTo`).
  Membership is a bijection exactly as long as no such room exists (`MembershipIsOneToOne`,
  `RunBijection`). All statements hold with such a room too; where it makes a difference
  they say exactly which.
- A failing event, followed by the disconnect of the loop, is the same as a plain
  disconnect, except in exactly one case: the IP provider fails after a join of the unnamed
  room. Then a client that is gone stays listed (`FailuresAreDisconnects`,
  `MemberLeftBehind`).
- `closeOnOwnerLeave`, and the setting `SCREEGO_CLOSE_ROOM_WHEN_OWNER_LEAVES` behind it
  (`screego.config.example:29-30`), reach the room but are never read there: a room passes
  to another member when its owner leaves. The model follows the code (`RoomsCloseRightly`).
- Sessions ended by an owner action or by dissolving a room are not announced with
  `EndShare`; only leaving and `stopshare` are (`NoticesAreExact`).
- `once.Do` can return to one caller before the other caller's function has begun
  (`ReturnsBeforeFunctionRuns`); that is what the early unlock is for.
- A reversed port range is stopped only by the fatal start-up check; the range function
  itself would use it and draw the ports not in between (`ReversedRangeDrawsOutside`).

## Assumptions

Identifiers made by `xid.New` are unique. `Connected` is enqueued once per client and is
the only message of a client that skips the check (`ws/rooms.go:92-94`); `Health` skips it
too (`ws/rooms.go:118`), but only reports how many clients are connected and is left out. The IP provider answers or
fails, random names and passwords are arbitrary strings, and the identifier in an owner
action is absent, unparsable or parsed. A sent message is recorded; what one Go map loop
sends is one multiset, because the order inside it is not specified.

## Model

| member | source | states |
|---|---|---|
| Server.Rooms.Start | ws/rooms.go:98-111 | over any sequence of incoming messages the program performs a run of the model, message by message, and meets no nil dereference |
| Server.Rooms.Step | ws/rooms.go:98-111 | one iteration performs one enabled step of the model, whatever it chooses on the way, and keeps the global invariant |
| Server.Rooms.Execute | ws/rooms.go:106-106 | the error returned and the state left by any event are those of the model, and the sessions opened cover exactly the pairs due, under new identifiers |
| Server.Rooms.Disconnected | ws/event_disconnected.go:19-84 | leaving: connection, membership, sessions on both sides, notices, inheritance or closing, for every iteration order and every heir |
| Server.Rooms.EndInvolving | ws/event_disconnected.go:44-59 | the loop that deletes while it iterates closes exactly the sessions from or to the leaver and tells exactly the other ends |
| Server.Rooms.HandOver | ws/event_disconnected.go:62-83 | the room is closed if empty, passed to one of the remaining members if the owner left, and shown to them |
| Server.Rooms.CloseRoom | ws/rooms.go:148-160 | the room, its sessions and their credentials are gone and all counters moved |
| Server.Rooms.CurrentRoom | ws/rooms.go:57-71 | the sender's room, or which of the three errors |
| Server.Rooms.NewSession | ws/room.go:38-69 | a session under an identifier never used before, its credentials allowed with the right addresses, announced to both ends |
| Server.Rooms.CloseSession | ws/room.go:87-94 | the session and, in TURN mode, both its usernames are gone, and it is counted once |
| Server.Rooms.CloseHosted | ws/event_owner_action.go:53-57 | the loop closes exactly the sessions the member hosts |
| Server.Rooms.CloseInvolving | ws/event_owner_action.go:122-126 | the loop closes exactly the sessions from or to the expelled member |
| Server.Rooms.NotifyInfoChanged | ws/room.go:101-136 | every member is sent all members' current data, marked from its own point of view |
| Server.Rooms.Connected | ws/event_connected.go:5-8 | the client is connected and in no room |
| Server.Rooms.Join | ws/event_join.go:18-68 | the three refusals, the late failure, and a session from every streaming member to the newcomer |
| Server.Rooms.Create | ws/event_create.go:26-87 | refusals, joining instead, the login check, or a new room owned by its founder |
| Server.Rooms.Share | ws/event_share.go:15-50 | refusals, the late failure, and a session to every other member |
| Server.Rooms.StopShare | ws/event_stop_share.go:17-36 | the flag, exactly the hosted sessions, one notice for each |
| Server.Rooms.OwnerAction | ws/event_owner_action.go:22-167 | all six actions with all their refusals |
| Server.Rooms.DisableEach | ws/event_owner_action.go:46-62 | the nested loop closes exactly the sessions of the streaming members that lose the permission |
| Server.Rooms.Dissolve | ws/event_dissolve.go:18-52 | refusals, or every member forgotten and told, and the room closed |
| Server.Rooms.Exit | ws/event_exit.go:15-23 | leaving with the reason "User Left" |
| Server.Rooms.Name | ws/event_name.go:13-23 | the sender's name, shown to all |
| Server.Rooms.HostOffer | ws/event_hostoffer.go:18-38 | relayed to the client of a session the sender hosts, refused for others' sessions, ignored for unknown ones |
| Server.Rooms.HostIce | ws/event_hostice.go:18-38 | the same for the host's candidates |
| Server.Rooms.ClientAnswer | ws/event_clientanswer.go:18-38 | relayed to the host of a session the sender is the client of |
| Server.Rooms.ClientIce | ws/event_clientice.go:18-38 | the same for the client's candidates |
| Server.InternalServer.Allow | turn/server.go:138-145 | the username's entry holds the address and the long-term key of username, the realm "screego" and password |
| Server.InternalServer.Disallow | turn/server.go:147-152 | the username, and no other, is unknown |
| Server.InternalServer.Authenticate | turn/server.go:158-171 | a key is returned exactly for known usernames, and it is theirs |
| Server.InternalServer.Credentials | turn/server.go:173-177 | the name and password handed out are the ones allowed |
| Safety.StepKeepsInv | ws/rooms.go:98-111 | every message, outcome and choice keeps the global invariant |
| Runs.RunInv | ws/rooms.go:98-111 | the invariant holds in every state of every run |
| Runs.RunNeverPanics | ws/event_clientanswer.go:35-35 | in no run is a user looked up that is not there: the unchecked dereferences are safe |
| Guarantees.FailuresAreDisconnects | ws/rooms.go:106-109 | in every run a refused event leaves rooms, connections and TURN table as a disconnect message of its sender would, if and only if it is not a late failure that changes the member list of the unnamed room |
| Witnesses.MemberLeftBehind | ws/event_join.go:42-58 | the exception at work: after four messages from the start a client that is gone is still listed, and after a plain disconnect it would not be |
| Guarantees.SessionsFormAStar | ws/event_share.go:27-46 | in every reachable state the sessions of a room lead from its streaming member to every other member, and there are none if nobody streams |
| Guarantees.OneOwnerEach | ws/event_disconnected.go:62-81 | in every reachable state every room has members and exactly one owner; the unnamed room has one exactly if no owner of it has joined it again, and otherwise none |
| Witnesses.OwnerLost | ws/event_join.go:19-51 | three messages from the start: the founder joins the unnamed room again, which is left without an owner and counts its one member twice |
| Unnamed.UnnamedStep | ws/event_join.go:19-51 | what any step makes of the unnamed room: whoever joins it is listed as a newcomer, and nothing else ever changes its members |
| Unnamed.UnnamedOwners | ws/event_join.go:42-49 | it loses an owner exactly in a step in which that owner joins it again |
| Runs.NobodyLeavesUnnamed | ws/event_disconnected.go:20-26 | once there, the unnamed room stays, and its members are for good those it had and those who joined since |
| Guarantees.OnePermittedStreamer | ws/event_share.go:21-34 | in every reachable state at most one member of a room streams, and it has the permission to |
| Guarantees.MembershipIsOneToOne | ws/event_disconnected.go:20-39 | in every reachable state `connected` names the room of exactly its members if and only if there is no unnamed room |
| Properties.BijectionKept | ws/event_create.go:81-82 | the next step keeps that if and only if it does not found a room with the empty name |
| Properties.UnnamedRoomBreaksBijection | ws/event_create.go:81-82 | a concrete first message that breaks it |
| Runs.RunBijection | ws/rooms.go:57-71 | in every run membership is a bijection exactly as long as no step founded an unnamed room; and always a client that has a room finds it there and is listed in it, so no room is ever found to be already removed |
| Runs.RunBijectionBroken | ws/event_create.go:81-82 | and after such a step it is none in any later state |
| Guarantees.TurnServerKnowsLiveSessions | turn/server.go:138-171 | in every reachable state the TURN server knows a username exactly when it belongs to a live session of a room in TURN mode |
| Guarantees.CredentialsLiveAsLong | ws/room.go:53-65 | credentials that were sent out work, with the password sent and for the address of the member they were sent to, exactly as long as their session lives |
| Guarantees.SessionsAreAnnouncedOnce | ws/room.go:67-68 | each session ever opened was announced once to its host and once to its client, each with the other as peer, with STUN or TURN servers exactly in that mode and the username of that end, and nothing else was announced |
| Guarantees.LiveSessionsCanConnect | ws/room.go:53-68 | both ends of every live session were told of it and of each other; in a TURN room each was sent credentials that the TURN server accepts for its address, with the key made of that username, the realm and the password sent |
| Guarantees.SessionsOpenRightly | ws/event_share.go:41-46 | a step opens exactly the sessions that are due, one each under a new identifier: from who shares, also again, to every other member, or from who streams to who enters |
| Guarantees.SessionsEndRightly | ws/event_owner_action.go:46-62 | in a room that lives on a session ends exactly if one of its ends leaves or its host stops streaming |
| Guarantees.CountersAreExact | ws/rooms.go:148-160 | in every reachable state rooms created and users joined are the numbers of steps that founded a room or added a member, and sessions created those ever opened; rooms and sessions created and not closed are those there are; users joined and not left exceed the members by exactly the number of joins of the unnamed room by clients it listed already, so they are equal if and only if there was none |
| Unnamed.StepSurplus | ws/event_join.go:51-53 | in one step that difference grows by one exactly for such a join, and otherwise stays |
| Guarantees.StepsAreIsolated | ws/event_owner_action.go:22-167 | a step touches one room, its members' and the sender's connections, its sessions' usernames, and writes to these clients only |
| Guarantees.NoticesAreExact | ws/event_hostoffer.go:24-35 | in every step each relay is sent once if the sender is the right end of the session, in its room, and each end-share notice once if the sender leaves or stops sharing, to the other end; otherwise neither is sent |
| Rosters.MembersSeeTheirRoom | ws/room.go:101-136 | in every state of every run each present member, and nobody else, was sent one list in the last phase that showed its room, marked as its own, with exactly one entry per member and the identity, name, streaming, owner and permission that member has now |
| Guarantees.ListsAreSentWhenDue | ws/event_owner_action.go:87-100 | in every step the list of a room is sent round exactly as often as is due: once for a change, twice for a late failure of a join, not at all if a member that does not stream is stopped |
| Rosters.StepFresh | ws/event_join.go:52-52 | no step, failing ones included, leaves a member with an outdated list |
| Guarantees.GoodbyesAreExact | ws/event_dissolve.go:40-46 | in every step exactly those leave whom the rules make leave (the sender of a refused event, an exit or a disconnect, the target of a kick or ban, all members of a dissolved room), and each is told to close once, with the reason for it |
| Goodbyes.ToldToCloseOnce | ws/event_disconnected.go:20-22 | in every state of every run a client was told to close once if it is gone and never if it is connected |
| Guarantees.OnlyTheEntitledDecide | ws/event_owner_action.go:35-114 | a member's permission changes exactly by its room's owner, its stream starts exactly by its own share and stops by itself or the owner, ownership comes exactly from an owner that leaves, and names are one's own; only who joins the unnamed room again is listed anew, as a newcomer |
| Guarantees.RoomsCloseRightly | ws/event_disconnected.go:62-81 | a room closes exactly when its owner dissolves it or its last member leaves |
| Guarantees.OnlyOwnersLeaveRoomsEmpty | ws/event_disconnected.go:78-81 | a leaver that does not own its room leaves somebody there, so that branch is never taken |
| Guarantees.SendersLeaveByRule | ws/rooms.go:106-109 | a connected sender is gone after a step if and only if its event is refused, by an explicit condition for each event, or is an exit, a disconnect or a dissolve |
| Conduct.RefusalsExact | ws/rooms.go:106-109 | whether an event of a connected client fails, and the reason it fails with, are given by conditions on state, message and provider answer for every event |
| Guarantees.SignalsAreJudged | ws/event_clientice.go:18-38 | a signalling message makes its sender leave if and only if it is in no room, or at the wrong end of a session of its room; for a session that is not there nothing at all changes |
| Guarantees.StrangersOnlyConnect | ws/rooms.go:99-104 | a `Connected` comes from a client never seen and puts it in no room; any other message of a client that is not connected changes nothing |
| Guarantees.RoomsAppearRightly | ws/event_create.go:27-86 | a room appears in a step if and only if a connected client in no room asks for that new name and the authentication mode lets it; it then has the mode asked for, nobody banned, and the client, under the right name, as its one member and owner |
| Guarantees.MembersAppearRightly | ws/event_join.go:19-58 | a room gains a member if and only if a connected client in no room asks for it, is not banned and the provider answers (or the room is the unnamed one); it is listed under the right name, with the permission and not streaming or owning |
| Guarantees.BansAreExact | ws/event_owner_action.go:138-145 | what a room is founded with stays, and its bans grow exactly by the address of another member that the owner bans |
| Guarantees.BannedStayOut | ws/event_owner_action.go:138-162 | whoever is banned is gone at once and for good, who banned it stays, and as long as the room lives the ban holds and no member with that address is gained |
| Runs.ClosedStaysClosed | ws/room.go:87-94 | a closed session never lives again |
| Runs.ClosedIsSilent | ws/event_hostoffer.go:24-35 | once a session is closed, nothing bearing its identifier is relayed or reported again |
| Runs.DepartureIsFinal | ws/rooms.go:99-104 | a client that has left never comes back, and its later messages change nothing |
| Runs.GoneAreSpared | ws/rooms.go:99-104 | something is written to a client that has left if and only if the unnamed room lists it and somebody joins that room |
| Unnamed.StepWritesToGone | ws/room.go:101-136 | the same for one step |
| Witnesses.GoneIsWrittenTo | ws/event_join.go:52-52 | five messages from the start after which a client that is gone has been sent a list of the unnamed room |
| Runs.BansPersist | ws/event_owner_action.go:138-145 | while the room lives, a ban holds and no member with that address is gained |
| OnceModel.RunsAtMostOnce | ws/once.go:19-36 | under every interleaving the function runs at most once, some thread has won whenever any call has returned, and at most one `Disconnected` is enqueued |
| OnceModel.RunsWhenAllReturned | ws/client.go:72-91 | when all callers are back the connection was closed exactly once |
| OnceModel.OneHolder | ws/once.go:28-36 | mutual exclusion |
| OnceModel.SomeoneCanMove | ws/once.go:28-36 | no deadlock |
| OnceModel.ReturnsBeforeFunctionRuns | ws/once.go:12-13 | a schedule in which a call returns before the function has begun |
| OnceGuard.Once.Do | ws/once.go:19-26 | with any number of actions of the other callers between any two of its own, a call comes back having taken exactly the model's actions, with the flag set, the function run at most once, and run if this call won |
| OnceGuard.Once.MayExecute | ws/once.go:28-36 | takes the mutex, checks and sets the flag and gives the mutex back before it answers whether the caller may run the function |
| OnceGuard.Once.Lock | ws/once.go:29-29 | the wait for the mutex ends, with the mutex taken |
| OnceGuard.Once.SetFlag | ws/once.go:31-33 | the flag is set by the one thread inside |
| OnceGuard.Once.Call | ws/client.go:72-91 | what either closing function does, as a step of the model |
| PortRange.SplitsInTwo | config/config.go:78-81 | there are two parts exactly if there is one colon, and they are what stands around it |
| PortRange.DecimalRoundTrip | config/config.go:84-91 | reading a decimal notation gives the number back, or out of range from 65536 on |
| PortRange.RangesInUse | config/config.go:208-216 | a range is in use after start-up exactly if the setting is two decimal numbers of 16 bits, in order and not zero |
| PortRange.FindingsExact | config/config.go:208-222 | start-up is fatal exactly for a setting that is not empty, not two zeros and not such a range, and warns exactly of such a range with a difference below 40 |
| PortRange.DrawsExactlyIff | turn/portrange.go:36-36 | over all 16-bit pairs, the draw hits exactly the ports of the range if and only if it is in order and is not all of 0 to 65535 |
| PortRange.RangesInUseDrawExactly | turn/portrange.go:36-36 | so it does for every range in use, a maximum of 65535 included |
| PortRange.ReversedRangeDrawsOutside | config/config.go:96-99 | without the start-up check any reversed range would be used; the ports drawn would be exactly those not between its two numbers, or a number out of none if nothing is between |
| PortRange.AllocatePacketConn | turn/portrange.go:25-47 | the requested port, or the first of ten draws that opens, or an error exactly if none does; always inside the range |

## Left out

- Users and sessions are values in the rooms' maps, not shared objects; two pointers to one user are not modelled.
- The 2-second limit on a send (ws/room.go:151-157): a recorded message may not have been taken by its client.
- In which order one event sends its different messages: it is the code's, but nothing is stated about it.
- The order of the entries in a room list (ws/room.go:115-130) and the address strings of ICE servers (ws/room.go:71-85).
- External TURN servers: their credentials are stateless and cannot be withdrawn (turn/server.go:154-156, 179-185).
- The hash behind a long-term key is kept symbolic; passwords and user names are arbitrary strings.
- The lock around the credential table: each access is one step.
- `Health` (with `Count`, ws/rooms.go:113-128) and `GetRoomList` only read.
- JSON decoding, WebSocket reading and writing, HTTP routing, logging and the web client.
- Everything in `config` but the port range, and its error texts that come from the standard library.
