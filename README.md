# Drawing duel client — a Dafny model

This project models the browser client of a two-player drawing duel with spectator
voting (`src/DrawingGame.js`). Two players draw the same prompt against a clock. Each
stroke point a player adds is sent to the room in full, so the opponent can mirror the
drawing live. Voters then see both drawings and vote, and the results are shown.

The model covers the client's side of that protocol:

- **Client state machine** (`drawing_game.dfy`, module `DrawingGame`). Class `Client`
  holds the component's state as fields: screen, game state, role, room id, prompt,
  time left, ready/voted/drawing flags, own and opponent drawings, the drawings the
  voting cards show, and the results. Every inbound socket event (`room_created`, `joined_room`,
  `game_started`, `opponent_drawing`, `voting_started`, `game_ended`, `error`) and every
  user action (start/draw/stop/clear, create, join as player or voter, ready, vote,
  play again, the input fields) is a method. Each method names the fields it may change
  in its `modifies` clause and states their new values. Every `socket.emit` appends a
  `Message` to the `outbox` log. The object invariant `Valid()` says:
  - at most one vote has left since the current voting phase started, and exactly one once `hasVoted` is set;
  - a non-empty own drawing is exactly the drawing carried by the last `drawing_data` sent;
  - every recorded point has kind `"draw"` and a brush size from 1 to 20;
  - an opponent canvas that is not on screen shows nothing.
- **Stroke points and segments** (`strokes.dfy`, module `Strokes`). A drawing is a
  sequence of points. `Segments` is what a canvas draws from it: each point after the
  first is joined to its predecessor with the later point's colour and size. `Replay`
  is the canvas loop itself, proved equal to `Segments`. `PaintCards` is the voting and
  results cards.
  Pressing the mouse starts a stroke but records no point (`src/DrawingGame.js:105-115`,
  compared with 129-131). So the mouse-down position never reaches the opponent canvas or
  the cards, and on those canvases the last point of one stroke is joined to the first point
  of the next: there is no pen-up break (`Scenarios.StrokesJoinedAcrossPenUp`).
- **Input normalisation** (`input_text.dfy`, module `InputText`): JavaScript `trim`,
  upper-casing, and the check that the join buttons make before sending.
- **Countdown text** (`clock.dfy`, module `Clock`): `m:ss`, with a parser that reads
  it back.

The opponent's canvas is a list of segments rather than pixels. It exists only on the
game screen of a player (`src/DrawingGame.js:409-457`), so leaving that screen empties
it. An `opponent_drawing` update with no points does not repaint it
(`src/DrawingGame.js:147`). A clear by the opponent therefore stays visible on this
client until the next stroke arrives (`Scenarios.ClearLeavesOpponentView`). The client
applies whatever update arrives last and does not discard shorter, stale updates.

A voter who presses a second vote button in the same voting phase sends nothing more
(`src/DrawingGame.js:223`). Only a new `voting_started` lets the client vote again.

## Model

| member | source | states |
|---|---|---|
| `Strokes.Segments` | src/DrawingGame.js:152-163 | a drawing of n points yields max(n-1, 0) segments |
| `Strokes.SegmentAt` | src/DrawingGame.js:155-162 | segment k runs from point k to point k+1 and takes point k+1's colour and size |
| `Strokes.NothingDrawnIffShort` | src/DrawingGame.js:153-154 | nothing is drawn exactly when the drawing has 0 or 1 points |
| `Strokes.AppendPoint` | src/DrawingGame.js:129-131 | adding a point keeps the earlier segments and adds one segment from the old last point to the new point |
| `Strokes.PrefixSegments` | src/DrawingGame.js:66-68 | replaying a prefix of a drawing draws a prefix of its segments, so a growing drawing mirrored update by update matches a replay of the final drawing |
| `Strokes.Replay` | src/DrawingGame.js:151-164 | the moveTo/lineTo/stroke walk over the points strokes exactly `Segments(points)`, in order |
| `Strokes.PaintCards` | src/DrawingGame.js:486-511 | each voting card canvas is cleared, then shows exactly the segments of that player's drawing, one card per player |
| `InputText.TrimStart` | src/DrawingGame.js:180 | the result is a suffix of the input, everything dropped is white space, and it does not start with white space |
| `InputText.TrimEnd` | src/DrawingGame.js:180 | the result is a prefix of the input, everything dropped is white space, and it does not end with white space |
| `InputText.Trim` | src/DrawingGame.js:180 | `s.trim()` is exactly the part of s between its leading and its trailing white space (everything cut off at either end is white space), and it neither starts nor ends with white space |
| `InputText.TrimKeepsTrimmed` | src/DrawingGame.js:197 | a text that neither starts nor ends with white space is its own trim |
| `InputText.BlankIffAllSpace` | src/DrawingGame.js:180-183 | `!s.trim()` holds exactly when every character of s is white space |
| `InputText.TrimIdempotent` | src/DrawingGame.js:197 | a trimmed name is unchanged by trimming again |
| `InputText.ToUpper` | src/DrawingGame.js:293 | upper-casing keeps the length |
| `InputText.ToUpperAt` | src/DrawingGame.js:293 | each character is upper-cased in place: the k-th result character is the k-th input character mapped |
| `InputText.ToUpperKeepsSpace` | src/DrawingGame.js:196 | upper-casing maps white space to white space and nothing else to it, so it cannot undo a trim |
| `InputText.ToUpperNormal` | src/DrawingGame.js:293 | upper-casing leaves no ASCII lower-case letter and is idempotent |
| `InputText.RoomCode` | src/DrawingGame.js:196 | `roomId.trim().toUpperCase()` has the length of the trimmed room id and each of its characters is the trimmed id's character upper-cased; it has no surrounding white space and no ASCII lower-case letter |
| `InputText.RoomCodeNormal` | src/DrawingGame.js:196 | the room code sent is trimmed, has no lower-case letter, is a fixed point of normalisation, and is empty only for an all-white-space input |
| `InputText.CheckJoin` | src/DrawingGame.js:190-198 | the join check refuses exactly when the name or the room id is all white space |
| `InputText.CheckJoinSound` | src/DrawingGame.js:190-198 | a join is refused exactly when the name or room id is all white space; an accepted one carries a non-empty trimmed name and a non-empty normalised room code |
| `Clock.NatToString` | src/DrawingGame.js:404 | the decimal text is non-empty, all digits, has at least two digits from 10 up, and starts with '0' only for 0 (no leading zero) |
| `Clock.JsRem` | src/DrawingGame.js:404 | the JavaScript remainder is what is left after the quotient truncated toward zero (a == b * TruncDiv(a, b) + r), lies strictly between -b and b and has the sign of the dividend |
| `Clock.PadStart2` | src/DrawingGame.js:404 | `padStart(2, '0')` gives at least two characters: s itself at the end, preceded only by '0' characters |
| `Clock.FormatClock` | src/DrawingGame.js:404 | the countdown text has at least four characters and starts with a minus sign exactly when the time is negative |
| `Clock.ClockText` | src/DrawingGame.js:404 | for a non-negative time the text is the minutes, a colon and the seconds padded to two digits |
| `Clock.ParseNatToString` | src/DrawingGame.js:404 | reading back the decimal text of n gives n |
| `Clock.SecondsField` | src/DrawingGame.js:404 | for 0 <= r < 60 the padded seconds field is exactly two digits that read back as r |
| `Clock.ClockRoundTrip` | src/DrawingGame.js:482 | for any non-negative number of seconds the `m:ss` text reads back as the same number, so distinct times show distinct texts |
| `DrawingGame.LogAppend` | src/DrawingGame.js:133 | appending one emitted message adds one to the vote count only for a vote and replaces the last drawing sent only for a drawing update |
| `DrawingGame.Client.constructor` | src/DrawingGame.js:9-33 | the initial state: home screen, waiting, no role, empty drawings, black pen of size 5, nothing sent |
| `DrawingGame.Client.Connect` | src/DrawingGame.js:36-38 | the mount effect creates the socket |
| `DrawingGame.Client.OnRoomCreated` | src/DrawingGame.js:40-45 | the creator becomes a player in the lobby of the new room id |
| `DrawingGame.Client.OnJoinedRoom` | src/DrawingGame.js:47-52 | the joiner takes the room id and the role the server granted and moves to the lobby |
| `DrawingGame.Client.OnGameStarted` | src/DrawingGame.js:57-64 | the game state becomes drawing, the screen becomes game, the prompt and time come from the event, and both drawings become empty |
| `DrawingGame.Client.OnOpponentDrawing` | src/DrawingGame.js:66-69 | the stored opponent drawing becomes the received one; the opponent canvas shows its segments when it is on screen and the drawing is non-empty, and is otherwise unchanged |
| `DrawingGame.Client.OnVotingStarted` | src/DrawingGame.js:71-77 | voting starts on the voting screen with the received drawings and time, and `hasVoted` is reset, opening a new voting phase |
| `DrawingGame.Client.OnGameEnded` | src/DrawingGame.js:81-85 | the results are stored, the results screen is shown and the game state becomes finished |
| `DrawingGame.Client.OnError` | src/DrawingGame.js:87-88 | the server's message becomes the error notice |
| `DrawingGame.Client.Tick` | src/DrawingGame.js:97-102 | time left drops by exactly one only while positive and drawing or voting; a non-negative count never becomes negative |
| `DrawingGame.Client.EditPlayerName` | src/DrawingGame.js:271 | the name field holds what was typed |
| `DrawingGame.Client.EditRoomId` | src/DrawingGame.js:293 | the room-id field holds what was typed, upper-cased |
| `DrawingGame.Client.PickColor` | src/DrawingGame.js:419 | the pen colour becomes the picked colour |
| `DrawingGame.Client.PickBrushSize` | src/DrawingGame.js:422-428 | the brush size becomes the slider value, from 1 to 20 |
| `DrawingGame.Client.StartDrawing` | src/DrawingGame.js:105-107 | a stroke starts only for a player in the drawing phase; otherwise nothing changes |
| `DrawingGame.Client.Draw` | src/DrawingGame.js:117-135 | during a player's stroke in the drawing phase, the drawing gains exactly one point (kind "draw", current colour and size) after an unchanged prefix, and the whole new drawing is sent; otherwise nothing changes |
| `DrawingGame.Client.StopDrawing` | src/DrawingGame.js:137-144 | the stroke ends |
| `DrawingGame.Client.ClearCanvas` | src/DrawingGame.js:167-176 | a player in the drawing phase empties the drawing and sends an empty drawing; otherwise nothing changes |
| `DrawingGame.Client.Send` | src/DrawingGame.js:185 | an emit of a request other than a vote or a drawing update appends exactly that request to the log and keeps the invariant |
| `DrawingGame.Client.CreateRoom` | src/DrawingGame.js:179-187 | a blank name sets the notice and sends nothing; otherwise the trimmed name is sent when the socket exists |
| `DrawingGame.Client.JoinRoomAsPlayer` | src/DrawingGame.js:189-200 | a blank name or room id sets the notice and sends nothing; otherwise the trimmed, upper-cased room id and trimmed name are sent |
| `DrawingGame.Client.JoinRoomAsVoter` | src/DrawingGame.js:202-213 | as for a player, with the name sent as the voter's name |
| `DrawingGame.Client.FinishJoin` | src/DrawingGame.js:191-199 | a refused join sets the notice and sends nothing; an accepted one sends exactly the given request when the socket exists |
| `DrawingGame.Client.MarkReady` | src/DrawingGame.js:215-220 | only a player with a socket sends `player_ready` and becomes ready |
| `DrawingGame.Client.CastVote` | src/DrawingGame.js:222-227 | only a voter who has not yet voted sends one vote and is marked as voted; at most one vote leaves per voting phase |
| `DrawingGame.Client.StartNewGame` | src/DrawingGame.js:242-249 | back to the lobby and waiting, not ready, with results, prompt and time cleared |
| `Scenarios.VoteTwiceSendsOnce` | src/DrawingGame.js:222-226 | two vote presses in one voting phase send only the first vote |
| `Scenarios.NewVotingPhaseAllowsVote` | src/DrawingGame.js:76 | a new `voting_started` allows one more vote |
| `Scenarios.MirrorLastUpdate` | src/DrawingGame.js:129-134 | for any two clients, the sender's last `drawing_data`, delivered to a client whose opponent canvas is on screen, makes that canvas show the segments of the sender's whole current drawing |
| `Scenarios.StrokesMirrored` | src/DrawingGame.js:129-134 | the last update a player sends, given to the opponent's client, makes the opponent canvas show that player's whole drawing |
| `Scenarios.StrokesJoinedAcrossPenUp` | src/DrawingGame.js:105-131 | two strokes of one point each replay as one segment joining them, since pressing the mouse records no point |
| `Scenarios.ClearLeavesOpponentView` | src/DrawingGame.js:147 | an empty update leaves the opponent canvas showing its earlier strokes |

The results cards (`src/DrawingGame.js:575-596`) walk the points in the same way as the
voting cards, so `Strokes.PaintCards` and the `Segments` lemmas describe them too.

## Left out

- Socket transport (`src/DrawingGame.js:36-38, 92-94`): network I/O. Inbound events are method calls, which require the socket to exist because events arrive only through it. Emits are appended to `outbox`. Closing the socket on unmount is not modelled.
- The `room` snapshot and the `player_joined`, `voter_joined`, `player_ready_status` and `vote_cast` handlers (`src/DrawingGame.js:16, 42, 49, 54-56, 79`). They only store the server's room object for rendering, or do nothing.
- Canvas geometry (`src/DrawingGame.js:108-128, 148-151`): `getBoundingClientRect`, the pixel arithmetic and the 2D context calls. Coordinates are opaque integers. The player's own canvas is not modelled, only the data it produces; the opponent canvas and the cards are lists of segments.
- The opponent canvas is taken to exist exactly when the game screen of a player is rendered (`src/DrawingGame.js:409, 454`). This assumes that React has committed the previous state before the next event arrives.
- `timeLimit / 1000` (`src/DrawingGame.js:61, 75`) is a floating-point division. Events carry whole seconds instead.
- Clock.FormatClock: covers whole seconds only; a fractional `timeLeft` would print decimals, which is not modelled.
- The error notice auto-clear (`src/DrawingGame.js:89`) is a timer side effect.
- `shareRoom` (`src/DrawingGame.js:229-240`): it uses the share sheet, the clipboard and `alert`.
- Rendering (`src/DrawingGame.js:253-628`), except for which canvases exist and what they draw. The UI gating of buttons (a disabled ready button, a hidden vote button) is not modelled; the handlers' own checks are.
- InputText.ToUpper: maps only the ASCII letters a–z. The full Unicode case mapping of `toUpperCase`, which can change a string's length, is not modelled.
- React's scheduling of state updates and timers is not modelled. Each handler is one atomic update of the current state, and `Tick` is one firing of the countdown timeout.
- `src/index.js` and `tailwind.config.js` are the React bootstrap and CSS configuration.
- The room server is not part of this model: the room registry, server-side phase timers, the vote tally and ranking, and the relaying of drawing updates.
