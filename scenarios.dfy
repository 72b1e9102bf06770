/**
 * Short runs of the client through its handlers, showing what the contracts of
 * the handlers guarantee together.
 */
module Scenarios {
  import opened Wrappers
  import opened Strokes
  import opened DrawingGame

  /** A voter's client on the voting screen of a voting phase that has just started, before any vote. */
  method VoterInVoting(roomId: string) returns (c: Client)
    ensures fresh(c) && c.Valid()
    ensures c.socketOpen && c.userRole == VoterRole && c.roomId == roomId
    ensures !c.hasVoted && c.outbox == []
  {
    c := new Client();
    c.Connect();
    c.OnJoinedRoom(roomId, VoterRole);
    c.OnVotingStarted([], 60);
  }

  /** A voter who presses two vote buttons in one voting phase sends only the first vote. */
  method VoteTwiceSendsOnce(first: string, second: string) returns (sent: seq<Message>)
    ensures sent == [VoteRequest("AB12", first)]
  {
    var c := VoterInVoting("AB12");
    c.CastVote(first);
    c.CastVote(second);
    sent := c.outbox;
  }

  /** A new voting phase allows one more vote. */
  method NewVotingPhaseAllowsVote(first: string, second: string) returns (sent: seq<Message>)
    ensures sent == [VoteRequest("AB12", first), VoteRequest("AB12", second)]
  {
    var c := VoterInVoting("AB12");
    c.CastVote(first);
    c.OnVotingStarted([], 60);
    c.CastVote(second);
    sent := c.outbox;
  }

  /** A player's client on the game screen of a game that has just started. */
  method PlayerInGame(roomId: string) returns (c: Client)
    ensures fresh(c) && c.Valid()
    ensures c.gameState == Drawing && c.userRole == PlayerRole && c.OpponentCanvasMounted()
    ensures c.brushSize == InitialBrushSize && c.currentColor == InitialColor
    ensures c.drawingData == [] && c.roomId == roomId
  {
    c := new Client();
    c.Connect();
    c.OnJoinedRoom(roomId, PlayerRole);
    c.OnGameStarted("cat", 60);
  }

  /** A player presses the mouse and moves it through two points, starting from an empty drawing with the initial pen. */
  method StrokeTwoPoints(c: Client, x0: Coord, y0: Coord, x1: Coord, y1: Coord)
    requires c.Valid() && c.gameState == Drawing && c.userRole == PlayerRole
    requires c.drawingData == [] && c.brushSize == InitialBrushSize && c.currentColor == InitialColor
    modifies c
    ensures c.Valid()
    ensures c.drawingData == [Point(x0, y0, InitialColor, InitialBrushSize, DrawKind), Point(x1, y1, InitialColor, InitialBrushSize, DrawKind)]
  {
    c.StartDrawing();
    c.Draw(x0, y0);
    c.Draw(x1, y1);
  }

  /**
   * Any two clients: the last drawing update a player's client has sent, delivered to a
   * client whose opponent canvas is on screen, makes that canvas show the sender's whole
   * current drawing.
   */
  method MirrorLastUpdate(a: Client, b: Client)
    requires a != b && a.Valid() && b.Valid()
    requires a.drawingData != [] && b.socketOpen && b.OpponentCanvasMounted()
    modifies b
    ensures b.opponentView == Segments(a.drawingData)
  {
    b.OnOpponentDrawing(LastDrawingSent(a.outbox).value);
  }

  /**
   * Two players in one game: the update the first player's client sends last, handed to
   * the second player's client, makes its opponent canvas show the first player's whole drawing.
   */
  method StrokesMirrored(x0: Coord, y0: Coord, x1: Coord, y1: Coord) returns (drawn: seq<Point>, shown: seq<Segment>)
    ensures drawn == [Point(x0, y0, InitialColor, InitialBrushSize, DrawKind), Point(x1, y1, InitialColor, InitialBrushSize, DrawKind)]
    ensures shown == Segments(drawn)
  {
    var a := PlayerInGame("AB12");
    var b := PlayerInGame("AB12");
    StrokeTwoPoints(a, x0, y0, x1, y1);
    MirrorLastUpdate(a, b);
    drawn, shown := a.drawingData, b.opponentView;
  }

  /**
   * Pressing the mouse records no point, so two strokes are one polyline on every replay:
   * the last point of the first stroke is joined to the first point of the second.
   */
  method StrokesJoinedAcrossPenUp(x0: Coord, y0: Coord, x1: Coord, y1: Coord) returns (shown: seq<Segment>)
    ensures shown == [Segment(x0, y0, x1, y1, InitialColor, InitialBrushSize)]
  {
    var a := PlayerInGame("AB12");
    a.StartDrawing();
    a.Draw(x0, y0);
    a.StopDrawing();
    a.StartDrawing();
    a.Draw(x1, y1);
    shown := Replay(a.drawingData);
  }

  /**
   * Clearing is not mirrored: an empty update leaves the opponent canvas showing the
   * strokes it showed before.
   */
  method ClearLeavesOpponentView(p: Point, q: Point) returns (shown: seq<Segment>)
    ensures shown == [Join(p, q)]
  {
    var c := new Client();
    c.Connect();
    c.OnRoomCreated("AB12");
    c.OnGameStarted("cat", 60);
    c.OnOpponentDrawing([p, q]);
    c.OnOpponentDrawing([]);
    shown := c.opponentView;
  }
}
