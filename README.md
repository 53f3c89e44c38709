# Rock-paper-scissors match service: a verified model of its core

This project models, in Dafny, the core logic of a best-of-N
rock-paper-scissors service across three code bases:

- the web client's **request hook** (`useRequest`): a reducer over
  `{loading, data, error}`, plus the protocol by which `request` dispatches
  Request and then exactly one Success or Error;
- the web client's **socket hook** (`useWebSocket`): the connection-status
  machine driven by the socket's open, message, error and close events,
  the mount gate on every handler, and `send`;
- the **live-match screen** (`LiveMatch`): which action panel is shown,
  which message a click sends, what the two move icons show, and when the
  "opponent connected" and "game over" notifications fire;
- the **game-log line** (`GameLog`): `W`/`L`/`T` per game, then dash placeholders,
  joined by spaces;
- the **HoC display name** (`makeHoc`): `name(wrappedName)`, where
  `wrappedName` comes from a `||` fallback chain;
- the Django **live match** (`LiveMatch` model): player slots,
  connected flags, applying moves and completing a game;
- the Rust API's **users**: permissions and their database text encoding,
  permission-checked queries and mutations, the deduplication done by
  `set_permissions`, the token-to-user field validator, `upsert`, and the
  mapping from a `userid` cookie to a request outcome.

Each source file becomes one module: `ApiRequest`, `WebSocketHook`,
`LiveMatchView`, `GameLog`, `HocName`, `LiveMatchModel`, `Permissions`,
`UserQuery` and `UserMutation`. `Wrappers` holds `Option` and `Result`.
Code that updates state in place is a class. These are the request hook, the
socket hook, the Django model and the object whose `displayName` is assigned.
Their methods' postconditions tie the new state to specification
functions, and lemmas about those functions state the properties.
Everything else is functions and lemmas.

I/O is abstracted. This covers the socket, axios, the database, the cookie jar,
`console.error` and the notification display:
- socket and hook events are method calls;
- visible effects go into an `effects` sequence;
- the database is a map from user id to row;
- the cookie jar is the optional value of the `userid` cookie;
- each call into code that is not shown becomes a parameter.
  These are `freq`, `Status::from`, the object the HoC returns, and the
  permissions that `auth!` grants.

Behaviour of the code that the model keeps:
- The request engine has no stale-response guard. Responses settle in any order,
  and the last one dispatched decides the state (`ApiRequest.LastActionWins`,
  `ApiRequest.OverlappingRequests`).
- Connection status is not one-directional. A close event decides the status
  whatever it was before (`WebSocketHook.LastCloseDecides`). Re-running the
  effect does not reset the status to Connecting.
- `send` checks only the ref, never the status. It logs an error only when no
  socket was ever created. `wsRef` is never cleared, so after the socket closed
  the frame is still handed to the socket in the ref
  (`WebSocketHook.SendAfterClose`).
- A malformed inbound frame makes `JSON.parse` throw inside the message
  handler. The error callback is not called (`ParseFailure` effect).

## Model

| member | source | states |
|---|---|---|
| ApiRequest.Reduce | webapp/src/hooks/useRequest.ts:6-33 | Request sets loading and clears data and error. Success stores the payload as data and clears the error. Error stores the cause and clears data. Loading is set only by Request. Data and error are never both set. The other fields are copied unchanged. |
| ApiRequest.RunKeepsExclusive | webapp/src/hooks/useRequest.ts:6-33 | From an initial state without both data and error, every run of actions keeps that invariant and leaves the other fields unchanged. |
| ApiRequest.LastActionWins | webapp/src/hooks/useRequest.ts:51-67 | Nothing sequences the actions: after any non-empty run, the state is exactly what the last action alone produces. |
| ApiRequest.Settlement | webapp/src/hooks/useRequest.ts:56-67 | A resolved response dispatches Success with the response data. A rejected one dispatches Error with the cause. |
| ApiRequest.MergeConfig | webapp/src/hooks/useRequest.ts:55 | The request config has the keys of both configs. The sub-config's values win, and base values remain for keys the sub-config lacks. |
| ApiRequest.RequestHook.constructor | webapp/src/hooks/useRequest.ts:44-46 | The hook starts from the default state (which holds the invariant), with nothing dispatched or in flight. |
| ApiRequest.RequestHook.Request | webapp/src/hooks/useRequest.ts:51-55 | Dispatches Request (state is loading, with no data or error) and adds the merged config to the in-flight requests. The state stays the reducer run over all dispatched actions. |
| ApiRequest.RequestHook.Settle | webapp/src/hooks/useRequest.ts:56-67 | Any in-flight request, in any order, settles once. It is removed from the in-flight list and its Success or Error is dispatched. Each Request is matched by exactly one settlement or is still in flight. |
| ApiRequest.OverlappingRequests | webapp/src/hooks/useRequest.ts:51-67 | Two overlapping requests, the older one answered last: the final state is the older request's outcome. |
| WebSocketHook.NextStatus | webapp/src/hooks/useWebSocket.ts:58-92 | While mounted, open gives Connected. Close gives ClosedNormal iff the code is 1000 and ClosedError otherwise, whatever the prior status. Message and error never change the status. Unmounted, nothing does. |
| WebSocketHook.Reaction | webapp/src/hooks/useWebSocket.ts:58-92 | Unmounted handlers do nothing. Open, error and close call their callback iff it is registered, and error always logs. A message calls onMessage with the decoded payload iff it is registered and the frame parses, and throws iff the frame is malformed. |
| WebSocketHook.UnmountedFrozen | webapp/src/hooks/useWebSocket.ts:58-92 | After unmount, no run of events changes the status. |
| WebSocketHook.LastCloseDecides | webapp/src/hooks/useWebSocket.ts:80-92 | After any history, a close event while mounted sets the status from its code alone. |
| WebSocketHook.ErrorsAndMessagesInert | webapp/src/hooks/useWebSocket.ts:66-78 | Removing every error and message event from a run leaves the resulting status the same. |
| WebSocketHook.SocketHook.constructor | webapp/src/hooks/useWebSocket.ts:29-32 | The status starts as Connecting, mounted, with no socket yet. |
| WebSocketHook.SocketHook.RunEffect | webapp/src/hooks/useWebSocket.ts:51-56 | Running the effect creates a socket in the ref and leaves the status as it was. |
| WebSocketHook.SocketHook.Unmount | webapp/src/hooks/useWebSocket.ts:44-45 | After unmount the mounted flag is false. |
| WebSocketHook.SocketHook.Deliver | webapp/src/hooks/useWebSocket.ts:58-92 | An event moves the status by NextStatus and appends its Reaction effects. Unmounted, nothing changes. |
| WebSocketHook.SocketHook.OnOpen | webapp/src/hooks/useWebSocket.ts:58-65 | While mounted, the status becomes Connected and onOpen is then called if registered. Unmounted, nothing changes. |
| WebSocketHook.SocketHook.OnMessage | webapp/src/hooks/useWebSocket.ts:66-70 | The status is unchanged. The decoded payload goes to onMessage only when mounted and registered, and a malformed frame throws. |
| WebSocketHook.SocketHook.OnError | webapp/src/hooks/useWebSocket.ts:71-78 | The status is unchanged. While mounted, the error is logged and onError is called if registered. |
| WebSocketHook.SocketHook.OnClose | webapp/src/hooks/useWebSocket.ts:80-92 | While mounted, code 1000 gives ClosedNormal and any other code ClosedError, then onClose is called if registered. |
| WebSocketHook.SocketHook.Send | webapp/src/hooks/useWebSocket.ts:35-42 | The serialised data is handed to the socket iff one was ever created. Otherwise an error is logged. |
| WebSocketHook.SendAfterClose | webapp/src/hooks/useWebSocket.ts:35-42 | Once a socket exists, send hands the frame to the socket in the ref and logs nothing, even after that socket closed, because the ref is never cleared. |
| WebSocketHook.SendBeforeSocket | webapp/src/hooks/useWebSocket.ts:35-42 | Before the first socket exists, send only logs an error. |
| LiveMatchView.ActionPanel | webapp/src/components/matches/live/LiveMatch.tsx:83-136 | With an outcome, the match-over panel. Ready with no move picked: move buttons, disabled iff there is no opponent. Not ready: the Ready button with the last game's outcome if any. Ready with a move picked: no actions. |
| LiveMatchView.Outgoing | webapp/src/components/matches/live/LiveMatch.tsx:99-133 | Only move buttons send a Move message carrying the clicked move, and only the Ready button sends Ready. |
| LiveMatchView.MoveSendableIff | webapp/src/components/matches/live/LiveMatch.tsx:98-109 | The move click handler sends a Move message iff the player is ready, has not picked and the match is not over, and it carries the clicked move. |
| LiveMatchView.ReadySendableIff | webapp/src/components/matches/live/LiveMatch.tsx:111-134 | A Ready message can be sent iff the player is not ready and the match is not over. |
| LiveMatchView.NothingAfterMatchOver | webapp/src/components/matches/live/LiveMatch.tsx:83-96 | Once the match has an outcome, no click sends anything. |
| LiveMatchView.SelfIcon | webapp/src/components/matches/live/LiveMatch.tsx:27-33 | The own icon shows the selected move when ready. Otherwise it shows the last game's own move, or nothing before the first game. |
| LiveMatchView.OpponentIconOf | webapp/src/components/matches/live/LiveMatch.tsx:34-40 | The opponent icon is loading iff a move is selected. It shows the last game's opponent move iff the player is not ready and a game exists. |
| LiveMatchView.Notifications | webapp/src/components/matches/live/LiveMatch.tsx:153-167 | "Connected" fires iff the opponent's username (`OpponentName`, `opponent && opponent.username`) is non-empty and changed since the last render, or this is the mount. "Game over" fires iff the number of games changed, or this is the mount, and a last game exists; it carries that game's outcome. Each fires at most once per render, so a render fires exactly as many notices as those conditions hold. Re-rendering the same state fires nothing. |
| LiveMatchView.OneGameOverPerGame | webapp/src/components/matches/live/LiveMatch.tsx:161-167 | Over any renders that start without games and add games one at a time, exactly one game-over notification fires per game. |
| GameLog.OutcomeLabel | webapp/src/components/match/GameLog.tsx:6-10 | Each label is one character, has no space and is not the placeholder. |
| GameLog.LabelRoundTrip | webapp/src/components/match/GameLog.tsx:6-10 | Win, Loss and Tie have distinct labels ("W", "L", "T") that read back to the outcome. |
| GameLog.Tokens | webapp/src/components/match/GameLog.tsx:18-22 | There are `|gameLog| + remaining` tokens. The i-th is the label of the i-th game, the rest are the "–" placeholder, and none is empty or holds a space. |
| GameLog.SplitJoin | webapp/src/components/match/GameLog.tsx:20-22 | Joining space-free tokens with single spaces (`Join`, `.join(' ')`) and splitting on spaces gives back the tokens. |
| GameLog.GameLogLine | webapp/src/components/match/GameLog.tsx:18-23 | Defined only when `bestOf - freq(gameLog, Tie)` is not negative. The line is empty iff there are no tokens, and otherwise it splits into exactly the tokens. |
| GameLog.OneWinShowsFourSlots | webapp/src/components/match/GameLog.tsx:18-19 | As written, one win in a best of 3 gives the four tokens "W – – –", and four ties in a best of 3 make the placeholder count negative. |
| GameLog.IntendedGameLogLine | webapp/src/components/match/GameLog.tsx:18-23 | With `bestOf` minus the non-tie games, the line is defined whenever at most `bestOf` games were not ties. Besides the ties it has exactly `bestOf` tokens, and the first ones are the games' labels in order. |
| HocName.WrappedName | webapp/src/util/funcs.ts:19 | The wrapped name is displayName when it is non-empty, else name when non-empty, else "Component". It is never empty. |
| HocName.ParseRoundTrip | webapp/src/util/funcs.ts:20 | The display name `HocDisplayName` is `name(wrappedName)`: for a HoC name without "(", both names read back from it. |
| HocName.WrapComponent | webapp/src/util/funcs.ts:16-22 | Returns the very object the HoC produced, with only its displayName set to `name(wrappedName)`. The wrapped name is taken from the component before the assignment. |
| LiveMatchModel.GameInProgress | api/livematch/models.py:35-37 | Holds iff exactly one of the two moves is set (truthy). |
| LiveMatchModel.GameCompleteAsWritten | api/livematch/models.py:39-41 | As written, it is true iff player 1's move is truthy. |
| LiveMatchModel.CompleteIgnoresPlayer2 | api/livematch/models.py:39-41 | As written, completeness does not depend on player 2's move. |
| LiveMatchModel.CompleteWhileInProgress | api/livematch/models.py:35-41 | As written, a game where only player 1 has moved is both complete and in progress. |
| LiveMatchModel.StagesPartition | api/livematch/models.py:35-41 | With the corrected completeness `GameComplete` (both moves truthy), a game is exactly one of not started, in progress or complete. |
| LiveMatchModel.ConnectSlotsAsWritten | api/livematch/models.py:56-59 | The player takes slot 1 if empty, else slot 2 if empty. Full slots are left alone. |
| LiveMatchModel.ReconnectTakesSecondSlot | api/livematch/models.py:56-59 | Player 1 reconnecting while slot 2 is empty is put in slot 2 as well. |
| LiveMatchModel.ConnectSlots | api/livematch/models.py:43-69 | Corrected: a player already in the match leaves the slots as they are. |
| LiveMatchModel.ConnectSlotsKeepsPlayersDistinct | api/livematch/models.py:43-69 | The corrected filling keeps the two players different, and seats the player iff they were in or there was room. |
| LiveMatchModel.MoveAfter | api/livematch/models.py:104-121 | A member's move is set only if it was None. Otherwise it is "Move already applied". A non-member gets "Player not in match". Both errors are INVALID_MOVE. |
| LiveMatchModel.SecondMoveRejected | api/livematch/models.py:104-117 | After a successful move, the same player's next move in that game is rejected. |
| LiveMatchModel.TwoMovesCompleteGame | api/livematch/models.py:35-41 | From a fresh game, player 1's non-empty move puts the game in progress. Player 2's move then completes it. |
| LiveMatchModel.CompleteGameAsWritten | api/livematch/models.py:123-131 | Raises RuntimeError "Cannot complete game" iff player 1's move is not truthy. Otherwise both moves are cleared. |
| LiveMatchModel.LiveMatch.constructor | api/livematch/models.py:8-33 | A new row has empty slots, both connected fields false and no moves. |
| LiveMatchModel.LiveMatch.ConnectPlayer | api/livematch/models.py:43-69 | Slots are filled as written. The result is True iff the player ends up in a slot. The written flag (`player1_connected`, else `player2_connected`) becomes true. The declared `*_is_connected` fields never change. |
| LiveMatchModel.LiveMatch.DisconnectPlayer | api/livematch/models.py:71-89 | Slots never change. The result is False iff the player is in neither slot. Otherwise that player's written flag becomes false. |
| LiveMatchModel.LiveMatch.ApplyMove | api/livematch/models.py:91-121 | Moves change as MoveAfter says, and not at all when it raises. |
| LiveMatchModel.LiveMatch.ProcessCompleteGame | api/livematch/models.py:123-131 | Raises and changes nothing when the as-written completeness is false. Otherwise it clears both moves. |
| Permissions.ExactlyFive | rust_api/src/models/user/permissions.rs:22-28 | Every permission is one of exactly five distinct variants. |
| Permissions.ToSql | rust_api/src/models/user/permissions.rs:39-43 | The column text is the variant name in double quotes. |
| Permissions.FromSql | rust_api/src/models/user/permissions.rs:51-55 | A NULL column fails. Text decodes to a permission only if, with surrounding JSON whitespace trimmed, it is that permission's encoding. Any other text fails with a decode error. |
| Permissions.RoundTrip | rust_api/src/models/user/permissions.rs:39-55 | Decoding an encoding gives back the permission. |
| Permissions.ToSqlInjective | rust_api/src/models/user/permissions.rs:39-55 | Distinct permissions have distinct encodings. |
| Permissions.DecodesPadded | rust_api/src/models/user/permissions.rs:51-55 | An encoding surrounded by JSON whitespace still decodes to its permission. |
| Permissions.BareNameRejected | rust_api/src/models/user/permissions.rs:51-55 | The variant name without quotes does not decode. |
| UserQuery.Authorize | rust_api/src/models/user/query.rs:42 | The check passes iff the permission is granted. Otherwise it fails with that permission. |
| UserQuery.HasPermission | rust_api/src/models/user/query.rs:32-34 | Holds iff the permission occurs in the user's permission list. |
| UserQuery.GetByIdAuthless | rust_api/src/models/user/query.rs:36-38 | Returns the row with that id, or NotFound iff there is none. |
| UserQuery.GetMany | rust_api/src/models/user/query.rs:40-45 | Without ViewUsers it is an authorisation error. Otherwise it returns exactly the users stored. |
| UserQuery.GetById | rust_api/src/models/user/query.rs:47-51 | Without ViewUsers it is an authorisation error. Otherwise it is the plain lookup. |
| UserQuery.QueriesCheckBeforeReading | rust_api/src/models/user/query.rs:40-51 | Without ViewUsers, the result does not depend on the database. |
| UserQuery.FromCookie | rust_api/src/models/user/query.rs:53-63 | With no cookie the result is Authentication. Otherwise the cookie's value is exactly the id looked up. |
| UserQuery.FromRequest | rust_api/src/models/user/query.rs:81-107 | Ok(user) gives Success(user). Err(e) gives Failure with e's status and e. A missing cookie gives Failure with Authentication. |
| UserQuery.NoCookieNoLookup | rust_api/src/models/user/query.rs:85-92 | Without the cookie, every request fails the same way whatever the database holds. |
| UserMutation.UniqueFrom | rust_api/src/models/user/mutation.rs:27 | Keeps each element not yet seen exactly once, and nothing else. |
| UserMutation.Unique | rust_api/src/models/user/mutation.rs:27 | The result has no duplicates and holds exactly the input's elements. |
| UserMutation.UniqueKeepsFirstOccurrences | rust_api/src/models/user/mutation.rs:27 | The result is the input's first occurrences, in input order. |
| UserMutation.UniqueOfDistinct | rust_api/src/models/user/mutation.rs:27 | A list without duplicates is unchanged. |
| UserMutation.UniqueIdempotent | rust_api/src/models/user/mutation.rs:27 | Deduplicating twice equals deduplicating once. |
| UserMutation.Delete | rust_api/src/models/user/mutation.rs:15-18 | Without ManageUsers it is an authorisation error. Otherwise it returns the deleted row and a database without it. It is NotFound iff no row has that id. |
| UserMutation.SetPermissions | rust_api/src/models/user/mutation.rs:20-34 | Without ManageUsers it is an authorisation error. Otherwise the row's permissions become the deduplicated input, with everything else unchanged. It is NotFound iff no row has that id. |
| UserMutation.MutationsCheckBeforeWriting | rust_api/src/models/user/mutation.rs:15-34 | Without ManageUsers, delete and set_permissions give the same error whatever the database holds, so they neither read nor write it. |
| UserMutation.SetPermissionsStores | rust_api/src/models/user/mutation.rs:20-34 | Afterwards the user has a permission iff it was in the input, each stored once, in first-occurrence order. |
| UserMutation.NewUserFrom | rust_api/src/models/user/mutation.rs:62-85 | Succeeds iff all six claims are present, copying `sub` to id and each claim unchanged. Otherwise it is MissingUserFields naming the first missing field in struct order. |
| UserMutation.NewUserFromClaims | rust_api/src/models/user/mutation.rs:70-85 | Every new user is rebuilt from its own claims. |
| UserMutation.MissingFieldIsFirst | rust_api/src/models/user/mutation.rs:62-85 | A failure names exactly one of the six field names. |
| UserMutation.UpsertRow | rust_api/src/models/user/mutation.rs:37-58 | The row carries the seven NewUser fields. An existing row keeps its permissions, and a new row has none. |
| UserMutation.Upsert | rust_api/src/models/user/mutation.rs:50-58 | Inserts the row or overwrites the existing one. Every other row is unchanged. |
| UserMutation.UpsertIdempotent | rust_api/src/models/user/mutation.rs:50-58 | Upserting the same user twice equals upserting once. |

## Left out

- The transports are events and maps, not code: the socket, axios, the database and cookie encryption. Failures inside them (connection errors, SQL errors other than a missing row) are not modelled.
- React's machinery is left out. This covers `useReducer` scheduling, `useCallback`/`useMemo` memoisation, `useSafeCallbacks` and `useIsMounted`. Mounting is a flag that starts true and turns false once. Callback registration is fixed per hook instance.
- The inner workings of `JSON.parse`/`JSON.stringify` are left out. A frame either decodes to a value or is malformed, and `Transmit(d)` stands for sending `JSON.stringify(d)`.
- WebSocketHook.SocketHook.Send: what the browser's socket does with a send while connecting or after closing is not modelled.
- WebSocketHook.SocketHook.RunEffect: the socket address (protocol and host) is not modelled.
- The effect cleanup's `ws.close()` is not modelled. Its close event arrives through `OnClose` like any other.
- LiveMatchView.Outgoing: it models what the click handlers send. Whether disabled move buttons suppress the click belongs to `MoveButtons`, which is not part of this model.
- LiveMatchView: the JavaScript truthiness of `matchOutcome` and `selectedMove` is taken to mean "defined". The enums are not part of this model, and a numeric member equal to 0 would be falsy.
- LiveMatchView.Notifications: `notify` is taken to be stable across renders. The texts produced by `formatGameOutcome`/`formatMatchOutcome`, the splash message and the layout are not modelled.
- The inbound match-event reducer, best-of majority and tie rules, and the match outcome are not part of this model. They live in the client state modules and in the server's `Move.get_outcome`.
- GameLog.GameLogLine: `freq` is not part of this model and enters as the parameter `ties`. `Array(n)` also throws for n of 2^32 or more, which is not modelled.
- LiveMatchModel.LiveMatch.DisconnectPlayer: requires player 1 or a filled slot 2, because Python raises AttributeError on `None.player`.
- LiveMatchModel.LiveMatch.ApplyMove: same precondition as DisconnectPlayer. `player2.player` is taken to be player 2's user id.
- LiveMatchModel.LiveMatch: every `.player` access (in connect_player, disconnect_player and apply_move) is taken to give that player's user id. The `User`/`Player` models in the code declare no `player` attribute, so as the code stands those accesses would raise AttributeError whenever they are reached.
- LiveMatchModel.LiveMatch.ProcessCompleteGame: the call to `Move.get_outcome` is left out. Its code is not part of this model, the file ends right after the moves are cleared, and any exception it might raise is not modelled.
- The move string is not validated, as in the source, and saving to the database is not modelled.
- UserQuery.Authorize: the body of the `auth!` macro is not part of this model. It is abstracted as the set of permissions the context grants, and every refusal is one error kind.
- UserQuery.FromRequest: `Status::from` is not part of this model and enters as the parameter `statusOf`.
- `add_cookie` and `remove_cookie` write the cookie jar. They are not modelled, and neither are the GraphQL field wrappers, which only delegate.
- Permissions.FromSql: it rejects some text that `serde_json` would accept. This covers names spelled with JSON escape sequences and the object form `{"ViewUsers":null}`, because the JSON grammar is not modelled.
- Permissions.FromSql: the error payload is abstracted. The code propagates a `serde_json::Error`, and the model's `NotAPermission` carries the offending text instead.
- UserMutation.UpsertRow: a newly inserted row is given no permissions. The column default is in the schema, which is not part of this model.
- UserMutation.Delete, UserMutation.SetPermissions: only a missing row is modelled as a database error (NotFound).
- Integer widths are not modelled; none of the modelled code does arithmetic that could overflow.

## Findings

| source | as written | input that shows it | evidently intended | confidence | as-written member | corrected member |
|---|---|---|---|---|---|---|
| api/livematch/models.py:41 | `is_game_complete` returns `player1_move and player1_move`, which ignores player 2 | `player1_move = "rock"`, `player2_move = None`: the game is complete and in progress at once, so `process_complete_game` goes ahead with one move | `player1_move and player2_move` | high (not executed) | LiveMatchModel.CompleteWhileInProgress | LiveMatchModel.StagesPartition |
| api/livematch/models.py:56-59 | `connect_player` fills the first empty slot before checking membership | `player1 = A`, `player2 = None`, `connect_player(A)`: A also takes slot 2 | the docstring says a player already in the match is only marked connected | high (not executed) | LiveMatchModel.ReconnectTakesSecondSlot | LiveMatchModel.ConnectSlotsKeepsPlayersDistinct |
| webapp/src/components/match/GameLog.tsx:18-19 | `nonTies = freq(gameLog, Tie)` counts the ties, and `maxRemainingGames = bestOf - nonTies` subtracts them | best of 3 after one win: "W – – –", four slots; four ties in a best of 3: `Array(-1)` throws | `bestOf - (gameLog.length - freq(gameLog, Tie))`, as the name `nonTies` says | plausible (not executed; `freq` is not part of this model and is read as an occurrence count) | GameLog.OneWinShowsFourSlots | GameLog.IntendedGameLogLine |

The class `LiveMatchModel.LiveMatch` keeps the code's behaviour: its
methods are specified by `GameCompleteAsWritten` and `ConnectSlotsAsWritten`.
The corrected functions `GameComplete` and `ConnectSlots` state what the code
evidently intends, and the lemmas named in the table are proved about them.
`GameLog.GameLogLine` likewise keeps the code's count. `GameLog.IntendedGameLogLine`
renders the same line with the non-tie count.
