/**
 * Room completion: the set of completed room ids and the rule that decides
 * how each room marker is drawn.
 */
module Rooms {
  /** A room marker: its `data-floor` (a floor id) and `data-room-id`, "" when absent. */
  datatype Marker = Marker(floor: int, roomId: string)

  /** How a marker is drawn: displayed or hidden, with or without `completed`. */
  datatype MarkerView = MarkerView(shown: bool, completed: bool)

  /**
   * The set update of `completeRoom`: an empty id or an id already in the
   * set leaves it alone; otherwise exactly that id is added.
   */
  function AddCompleted(done: set<string>, roomId: string): (r: set<string>)
    ensures done <= r <= done + {roomId}
    ensures roomId != "" ==> roomId in r
    ensures roomId == "" ==> r == done
  {
    if roomId == "" || roomId in done then done else done + {roomId}
  }

  /** Whether `completeRoom` goes on to redraw the markers and report the room. */
  predicate Reports(done: set<string>, roomId: string): (b: bool)
    ensures b ==> roomId in AddCompleted(done, roomId) - done
    ensures !b ==> AddCompleted(done, roomId) == done
  {
    roomId != "" && roomId !in done
  }

  lemma ReportsExactlyOnNewRooms(done: set<string>, roomId: string)
    ensures Reports(done, roomId) <==> AddCompleted(done, roomId) != done
    ensures Reports(done, roomId) ==> |AddCompleted(done, roomId)| == |done| + 1
  {
  }

  /** Completing a room twice is the same as completing it once, and reports nothing. */
  lemma CompleteIdempotent(done: set<string>, roomId: string)
    ensures AddCompleted(AddCompleted(done, roomId), roomId) == AddCompleted(done, roomId)
    ensures !Reports(AddCompleted(done, roomId), roomId)
  {
  }

  /** Drawing rule of `updateRoomMarkers` for one marker. */
  function ViewOf(m: Marker, floorId: int, done: set<string>): (v: MarkerView)
    ensures v.shown <==> m.floor == floorId
    ensures v.completed <==> m.roomId in done
  {
    MarkerView(m.floor == floorId, m.roomId in done)
  }

  /**
   * After completing `roomId`, a marker is drawn completed iff it was
   * before or it carries that (non-empty) id; its visibility is unchanged.
   */
  lemma CompletionMarksOnlyThatRoom(m: Marker, floorId: int, done: set<string>, roomId: string)
    ensures ViewOf(m, floorId, AddCompleted(done, roomId)).completed <==>
            ViewOf(m, floorId, done).completed || (roomId != "" && m.roomId == roomId)
    ensures ViewOf(m, floorId, AddCompleted(done, roomId)).shown == ViewOf(m, floorId, done).shown
  {
  }
}
