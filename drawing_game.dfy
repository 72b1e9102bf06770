/**
 * The browser client of the drawing duel: the component state as fields of one
 * object, the socket events that arrive as methods, the user's actions as methods,
 * and every `socket.emit` as a message appended to an outgoing log.
 */
module DrawingGame {
  import opened Wrappers
  import opened Strokes
  import InputText

  /** The screen the component renders. */
  datatype Screen = HomeScreen | LobbyScreen | GameScreen | VotingScreen | ResultsScreen

  /** The game phase as the client last heard it. */
  datatype GameState = Waiting | Drawing | Voting | Finished

  /** The role names the server hands out; the client compares `userRole` against them. */
  const PlayerRole: string := "player"
  const VoterRole: string := "voter"

  /** Initial pen settings and the range the brush-size slider allows. */
  const InitialColor: string := "#000000"
  const InitialBrushSize: int := 5
  const MinBrushSize: int := 1
  const MaxBrushSize: int := 20

  const NameMissing: string := "Please enter your name"
  const NameOrRoomMissing: string := "Please enter your name and room ID"

  /** One player's frozen drawing as `voting_started` delivers it. */
  datatype PlayerDrawing = PlayerDrawing(playerId: string, playerName: string, drawing: seq<Point>)

  /** One ranked entry of `game_ended`. */
  datatype RankedResult = RankedResult(playerId: string, playerName: string, votes: int, drawing: seq<Point>)

  /** The payload of `game_ended`, stored as it arrives. */
  datatype GameResults = GameResults(prompt: string, results: seq<RankedResult>)

  /** The messages the client emits, one constructor per event name. */
  datatype Message =
    | CreateRoomRequest(playerName: string)                  // 'create_room'
    | JoinAsPlayerRequest(roomId: string, playerName: string) // 'join_room_as_player'
    | JoinAsVoterRequest(roomId: string, voterName: string)   // 'join_room_as_voter'
    | ReadyRequest(roomId: string)                            // 'player_ready'
    | DrawingUpdate(roomId: string, drawingData: seq<Point>)  // 'drawing_data'
    | VoteRequest(roomId: string, playerId: string)           // 'vote'

  /** Number of votes in a message log. */
  function VoteCount(log: seq<Message>): nat {
    if log == [] then 0
    else VoteCount(log[..|log| - 1]) + (if log[|log| - 1].VoteRequest? then 1 else 0)
  }

  /** The drawing carried by the last `drawing_data` message of a log, if there is one. */
  function LastDrawingSent(log: seq<Message>): Option<seq<Point>> {
    if log == [] then None
    else if log[|log| - 1].DrawingUpdate? then Some(log[|log| - 1].drawingData)
    else LastDrawingSent(log[..|log| - 1])
  }

  /** How appending one message to a log moves the two summaries above. */
  lemma LogAppend(log: seq<Message>, from: nat, m: Message)
    requires from <= |log|
    ensures VoteCount((log + [m])[from..]) == VoteCount(log[from..]) + (if m.VoteRequest? then 1 else 0)
    ensures LastDrawingSent(log + [m]) == if m.DrawingUpdate? then Some(m.drawingData) else LastDrawingSent(log)
  {
    var ext := log + [m];
    assert ext[..|ext| - 1] == log;
    assert ext[from..][..|ext[from..]| - 1] == log[from..];
  }

  /** A point this client records: kind "draw" and a brush size the slider allows. */
  predicate OwnPoint(p: Point) {
    p.kind == DrawKind && MinBrushSize <= p.size <= MaxBrushSize
  }

  class Client {
    /** Whether the socket has been created (`socket` is non-null). */
    var socketOpen: bool
    var screen: Screen
    var playerName: string
    var roomId: string
    var userRole: string
    var gameState: GameState
    var currentPrompt: string
    var timeLeft: int
    var isReady: bool
    var error: string
    var gameResults: Option<GameResults>
    var playerDrawings: seq<PlayerDrawing>
    var hasVoted: bool
    var isDrawing: bool
    var currentColor: string
    var brushSize: int
    /** This player's own drawing, resent in full on every change. */
    var drawingData: seq<Point>
    /** The opponent's drawing as last received. */
    var opponentDrawingData: seq<Point>
    /** What the opponent canvas shows, as the segments stroked on it. */
    var opponentView: seq<Segment>
    /** Every message emitted on the socket, oldest first. */
    var outbox: seq<Message>
    /** Length of `outbox` when the current voting phase started. */
    ghost var votingMark: nat

    /** The opponent canvas exists only on the game screen of a player. */
    predicate OpponentCanvasMounted()
      reads this`screen, this`userRole
    {
      screen == GameScreen && userRole == PlayerRole
    }

    /**
     * The invariant the handlers keep:
     * - at most one vote has been emitted since voting started, and exactly one once `hasVoted` is set;
     * - any phase other than waiting was announced on the socket, so the socket exists;
     * - a non-empty own drawing is exactly what was last sent, so the opponent always has all of it;
     * - every recorded point is of kind "draw" with a brush size in the slider's range;
     * - an unmounted opponent canvas shows nothing.
     */
    ghost predicate Valid()
      reads this`votingMark, this`outbox, this`hasVoted, this`gameState, this`socketOpen
      reads this`drawingData, this`brushSize, this`screen, this`userRole, this`opponentView
    {
      && votingMark <= |outbox|
      && VoteCount(outbox[votingMark..]) == (if hasVoted then 1 else 0)
      && (gameState != Waiting ==> socketOpen)
      && (drawingData != [] ==> LastDrawingSent(outbox) == Some(drawingData))
      && MinBrushSize <= brushSize <= MaxBrushSize
      && (forall k :: 0 <= k < |drawingData| ==> OwnPoint(drawingData[k]))
      && (!OpponentCanvasMounted() ==> opponentView == [])
    }

    /** The component's initial state before the socket is created. */
    constructor ()
      ensures Valid()
      ensures !socketOpen && screen == HomeScreen && gameState == Waiting
      ensures playerName == "" && roomId == "" && userRole == "" && currentPrompt == ""
      ensures timeLeft == 0 && !isReady && error == "" && gameResults == None && playerDrawings == []
      ensures !hasVoted && !isDrawing && currentColor == InitialColor && brushSize == InitialBrushSize
      ensures drawingData == [] && opponentDrawingData == [] && opponentView == [] && outbox == []
    {
      socketOpen := false;
      screen := HomeScreen;
      playerName := "";
      roomId := "";
      userRole := "";
      gameState := Waiting;
      currentPrompt := "";
      timeLeft := 0;
      isReady := false;
      error := "";
      gameResults := None;
      playerDrawings := [];
      hasVoted := false;
      isDrawing := false;
      currentColor := InitialColor;
      brushSize := InitialBrushSize;
      drawingData := [];
      opponentDrawingData := [];
      opponentView := [];
      outbox := [];
      votingMark := 0;
    }

    /** The mount effect creates the socket. */
    method Connect()
      requires Valid()
      modifies this`socketOpen
      ensures Valid() && socketOpen
    {
      socketOpen := true;
    }

    // ---- Inbound socket events ----

    /** `room_created`: the creator is a player in the lobby of the new room. */
    method OnRoomCreated(newRoomId: string)
      requires Valid() && socketOpen
      modifies this`roomId, this`screen, this`userRole, this`opponentView
      ensures Valid()
      ensures roomId == newRoomId && screen == LobbyScreen && userRole == PlayerRole && opponentView == []
    {
      roomId := newRoomId;
      screen := LobbyScreen;
      userRole := PlayerRole;
      opponentView := [];
    }

    /** `joined_room`: the role is whatever the server granted. */
    method OnJoinedRoom(joinedRoomId: string, role: string)
      requires Valid() && socketOpen
      modifies this`roomId, this`screen, this`userRole, this`opponentView
      ensures Valid()
      ensures roomId == joinedRoomId && userRole == role && screen == LobbyScreen && opponentView == []
    {
      roomId := joinedRoomId;
      userRole := role;
      screen := LobbyScreen;
      opponentView := [];
    }

    /** `game_started`: drawing begins on the game screen with both drawings emptied. */
    method OnGameStarted(prompt: string, timeLimitSeconds: int)
      requires Valid() && socketOpen
      modifies this`currentPrompt, this`gameState, this`screen, this`timeLeft
      modifies this`drawingData, this`opponentDrawingData
      ensures Valid()
      ensures currentPrompt == prompt && gameState == Drawing && screen == GameScreen
      ensures timeLeft == timeLimitSeconds && drawingData == [] && opponentDrawingData == []
    {
      currentPrompt := prompt;
      gameState := Drawing;
      screen := GameScreen;
      timeLeft := timeLimitSeconds;
      drawingData := [];
      opponentDrawingData := [];
    }

    /**
     * `opponent_drawing`: the received drawing replaces the stored one. The canvas is
     * repainted from it only when the canvas exists and the drawing is not empty; an
     * empty drawing leaves what the canvas shows as it was.
     */
    method OnOpponentDrawing(points: seq<Point>)
      requires Valid() && socketOpen
      modifies this`opponentDrawingData, this`opponentView
      ensures Valid()
      ensures opponentDrawingData == points
      ensures opponentView == if OpponentCanvasMounted() && points != [] then Segments(points) else old(opponentView)
    {
      opponentDrawingData := points;
      if OpponentCanvasMounted() && |points| > 0 {
        opponentView := Replay(points);
      }
    }

    /** `voting_started`: a new voting phase in which this client has not voted. */
    method OnVotingStarted(drawings: seq<PlayerDrawing>, timeLimitSeconds: int)
      requires Valid() && socketOpen
      modifies this`gameState, this`screen, this`playerDrawings, this`timeLeft, this`hasVoted
      modifies this`votingMark, this`opponentView
      ensures Valid()
      ensures gameState == Voting && screen == VotingScreen && playerDrawings == drawings
      ensures timeLeft == timeLimitSeconds && !hasVoted && opponentView == []
      ensures votingMark == |outbox|
    {
      gameState := Voting;
      screen := VotingScreen;
      playerDrawings := drawings;
      timeLeft := timeLimitSeconds;
      hasVoted := false;
      votingMark := |outbox|;
      opponentView := [];
    }

    /** `game_ended`: the results are stored and shown. */
    method OnGameEnded(results: GameResults)
      requires Valid() && socketOpen
      modifies this`gameResults, this`screen, this`gameState, this`opponentView
      ensures Valid()
      ensures gameResults == Some(results) && screen == ResultsScreen && gameState == Finished
      ensures opponentView == []
    {
      gameResults := Some(results);
      screen := ResultsScreen;
      gameState := Finished;
      opponentView := [];
    }

    /** `error`: the server's message is shown. */
    method OnError(message: string)
      requires Valid() && socketOpen
      modifies this`error
      ensures Valid() && error == message
    {
      error := message;
    }

    /**
     * One second of the countdown: while drawing or voting and time is left,
     * one second less; otherwise nothing changes. A non-negative count stays non-negative.
     */
    method Tick()
      requires Valid()
      modifies this`timeLeft
      ensures Valid()
      ensures timeLeft == if old(timeLeft) > 0 && (gameState == Drawing || gameState == Voting)
                          then old(timeLeft) - 1 else old(timeLeft)
      ensures old(timeLeft) >= 0 ==> timeLeft >= 0
    {
      if timeLeft > 0 && (gameState == Drawing || gameState == Voting) {
        timeLeft := timeLeft - 1;
      }
    }

    // ---- Local input ----

    method EditPlayerName(text: string)
      requires Valid()
      modifies this`playerName
      ensures Valid() && playerName == text
    {
      playerName := text;
    }

    /** The room-id field upper-cases what is typed into it. */
    method EditRoomId(text: string)
      requires Valid()
      modifies this`roomId
      ensures Valid() && roomId == InputText.ToUpper(text)
    {
      roomId := InputText.ToUpper(text);
    }

    method PickColor(color: string)
      requires Valid()
      modifies this`currentColor
      ensures Valid() && currentColor == color
    {
      currentColor := color;
    }

    /** The brush-size slider only produces whole numbers from 1 to 20. */
    method PickBrushSize(size: int)
      requires Valid()
      requires MinBrushSize <= size <= MaxBrushSize
      modifies this`brushSize
      ensures Valid() && brushSize == size
    {
      brushSize := size;
    }

    // ---- Drawing ----

    /** Mouse button pressed on the own canvas: a player in the drawing phase starts a stroke. */
    method StartDrawing()
      requires Valid()
      modifies this`isDrawing
      ensures Valid()
      ensures isDrawing == (old(isDrawing) || (gameState == Drawing && userRole == PlayerRole))
    {
      if gameState != Drawing || userRole != PlayerRole {
        return;
      }
      isDrawing := true;
    }

    /**
     * Mouse moved: during a stroke of a player in the drawing phase, one point with
     * the current colour and brush size is appended and the whole drawing is sent.
     * Otherwise nothing changes.
     */
    method Draw(x: Coord, y: Coord)
      requires Valid()
      modifies this`drawingData, this`outbox
      ensures Valid()
      ensures if isDrawing && gameState == Drawing && userRole == PlayerRole then
                && drawingData == old(drawingData) + [Point(x, y, currentColor, brushSize, DrawKind)]
                && outbox == old(outbox) + [DrawingUpdate(roomId, drawingData)]
              else
                drawingData == old(drawingData) && outbox == old(outbox)
    {
      if !isDrawing || gameState != Drawing || userRole != PlayerRole {
        return;
      }
      var newPoint := Point(x, y, currentColor, brushSize, DrawKind);
      var newDrawingData := drawingData + [newPoint];
      drawingData := newDrawingData;
      if socketOpen {
        LogAppend(outbox, votingMark, DrawingUpdate(roomId, newDrawingData));
        outbox := outbox + [DrawingUpdate(roomId, newDrawingData)];
      }
    }

    /** Mouse button released or left the canvas: the stroke ends. */
    method StopDrawing()
      requires Valid()
      modifies this`isDrawing
      ensures Valid() && !isDrawing
    {
      if isDrawing {
        isDrawing := false;
      }
    }

    /** Clear button: a player in the drawing phase empties the drawing and sends the empty drawing. */
    method ClearCanvas()
      requires Valid()
      modifies this`drawingData, this`outbox
      ensures Valid()
      ensures if gameState == Drawing && userRole == PlayerRole then
                drawingData == [] && outbox == old(outbox) + [DrawingUpdate(roomId, [])]
              else
                drawingData == old(drawingData) && outbox == old(outbox)
    {
      if gameState != Drawing || userRole != PlayerRole {
        return;
      }
      drawingData := [];
      if socketOpen {
        LogAppend(outbox, votingMark, DrawingUpdate(roomId, []));
        outbox := outbox + [DrawingUpdate(roomId, [])];
      }
    }

    // ---- Room actions ----

    /** `socket.emit` of a request that is neither a vote nor a drawing update. */
    method Send(m: Message)
      requires Valid()
      requires !m.VoteRequest? && !m.DrawingUpdate?
      modifies this`outbox
      ensures Valid() && outbox == old(outbox) + [m]
    {
      LogAppend(outbox, votingMark, m);
      outbox := outbox + [m];
    }

    /** Create button: a blank name is refused with a notice; otherwise the trimmed name is sent. */
    method CreateRoom()
      requires Valid()
      modifies this`error, this`outbox
      ensures Valid()
      ensures if InputText.Trim(playerName) == [] then
                error == NameMissing && outbox == old(outbox)
              else
                error == old(error)
                && outbox == old(outbox) + (if socketOpen then [CreateRoomRequest(InputText.Trim(playerName))] else [])
    {
      if InputText.Trim(playerName) == "" {
        error := NameMissing;
        return;
      }
      if socketOpen {
        Send(CreateRoomRequest(InputText.Trim(playerName)));
      }
    }

    /** What both join buttons do once the check has run: refuse with a notice, or send the request if the socket exists. */
    method FinishJoin(refused: bool, m: Message)
      requires Valid()
      requires m.JoinAsPlayerRequest? || m.JoinAsVoterRequest?
      modifies this`error, this`outbox
      ensures Valid()
      ensures if refused then error == NameOrRoomMissing && outbox == old(outbox)
              else error == old(error) && outbox == old(outbox) + (if socketOpen then [m] else [])
    {
      if refused {
        error := NameOrRoomMissing;
        return;
      }
      if socketOpen {
        Send(m);
      }
    }

    /** Join-as-player button: the room code goes out trimmed and upper-cased, the name trimmed. */
    method JoinRoomAsPlayer()
      requires Valid()
      modifies this`error, this`outbox
      ensures Valid()
      ensures if InputText.CheckJoin(playerName, roomId).None? then
                error == NameOrRoomMissing && outbox == old(outbox)
              else
                var f := InputText.CheckJoin(playerName, roomId).value;
                error == old(error) && outbox == old(outbox) + (if socketOpen then [JoinAsPlayerRequest(f.roomCode, f.name)] else [])
    {
      var fields := InputText.CheckJoin(playerName, roomId);
      var f := if fields.Some? then fields.value else InputText.JoinFields("", "");
      FinishJoin(fields.None?, JoinAsPlayerRequest(f.roomCode, f.name));
    }

    /** Join-as-voter button: as for a player, with the name sent as the voter's name. */
    method JoinRoomAsVoter()
      requires Valid()
      modifies this`error, this`outbox
      ensures Valid()
      ensures if InputText.CheckJoin(playerName, roomId).None? then
                error == NameOrRoomMissing && outbox == old(outbox)
              else
                var f := InputText.CheckJoin(playerName, roomId).value;
                error == old(error) && outbox == old(outbox) + (if socketOpen then [JoinAsVoterRequest(f.roomCode, f.name)] else [])
    {
      var fields := InputText.CheckJoin(playerName, roomId);
      var f := if fields.Some? then fields.value else InputText.JoinFields("", "");
      FinishJoin(fields.None?, JoinAsVoterRequest(f.roomCode, f.name));
    }

    /** Ready button: only a player with a socket sends `player_ready` and becomes ready. */
    method MarkReady()
      requires Valid()
      modifies this`isReady, this`outbox
      ensures Valid()
      ensures if socketOpen && userRole == PlayerRole then
                isReady && outbox == old(outbox) + [ReadyRequest(roomId)]
              else
                isReady == old(isReady) && outbox == old(outbox)
    {
      if socketOpen && userRole == PlayerRole {
        Send(ReadyRequest(roomId));
        isReady := true;
      }
    }

    /**
     * Vote button: a voter who has not voted in this voting phase sends one vote and is
     * marked as having voted. Whatever happens, at most one vote has left since voting started.
     */
    method CastVote(playerId: string)
      requires Valid()
      modifies this`hasVoted, this`outbox
      ensures Valid()
      ensures if socketOpen && userRole == VoterRole && !old(hasVoted) then
                hasVoted && outbox == old(outbox) + [VoteRequest(roomId, playerId)]
              else
                hasVoted == old(hasVoted) && outbox == old(outbox)
      ensures VoteCount(outbox[votingMark..]) <= 1
    {
      if socketOpen && userRole == VoterRole && !hasVoted {
        LogAppend(outbox, votingMark, VoteRequest(roomId, playerId));
        outbox := outbox + [VoteRequest(roomId, playerId)];
        hasVoted := true;
      }
    }

    /** Play-again button: back to the lobby, waiting, not ready, with results, prompt and clock cleared. */
    method StartNewGame()
      requires Valid()
      modifies this`screen, this`gameState, this`isReady, this`gameResults, this`currentPrompt
      modifies this`timeLeft, this`opponentView
      ensures Valid()
      ensures screen == LobbyScreen && gameState == Waiting && !isReady && gameResults == None
      ensures currentPrompt == "" && timeLeft == 0 && opponentView == []
    {
      screen := LobbyScreen;
      gameState := Waiting;
      isReady := false;
      gameResults := None;
      currentPrompt := "";
      timeLeft := 0;
      opponentView := [];
    }
  }
}
