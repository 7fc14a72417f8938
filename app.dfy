/**
 * The page around the viewport: the current floor, the set of completed
 * rooms and how each room marker is drawn.
 */
module App {
  import opened Bounds
  import opened Floors
  import opened Rooms
  import opened Viewer

  class MapApp {
    const viewport: Viewport
    /** The room markers of the page, in document order. */
    const markers: seq<Marker>
    /** How each marker is currently drawn; `views[i]` belongs to `markers[i]`. */
    const views: array<MarkerView>
    var currentFloorIndex: nat
    var completedRooms: set<string>

    ghost predicate Valid()
      reads this, viewport
    {
      viewport.Valid() && currentFloorIndex < |FLOORS| && views.Length == |markers|
    }

    /** Every marker is drawn by the rule of `updateRoomMarkers` for the current state. */
    ghost predicate Drawn()
      reads this, views
    {
      currentFloorIndex < |FLOORS| && views.Length == |markers| &&
      forall i :: 0 <= i < views.Length ==>
        views[i] == ViewOf(markers[i], FLOORS[currentFloorIndex].id, completedRooms)
    }

    /** The page as loaded: floor index 0, nothing completed, markers as the page drew them. */
    constructor (markers: seq<Marker>, initial: seq<MarkerView>)
      requires |initial| == |markers|
      ensures Valid() && fresh(viewport) && fresh(views)
      ensures this.markers == markers && views[..] == initial
      ensures currentFloorIndex == 0 && completedRooms == {}
      ensures viewport.Current() == Transform(1.0, 0.0, 0.0)
    {
      viewport := new Viewport();
      this.markers := markers;
      views := new MarkerView[|markers|](i requires 0 <= i < |markers| => initial[i]);
      currentFloorIndex := 0;
      completedRooms := {};
    }

    /** `updateRoomMarkers`: redraw every marker for the current floor and the completed set. */
    method UpdateRoomMarkers()
      requires currentFloorIndex < |FLOORS| && views.Length == |markers|
      modifies views
      ensures Drawn()
    {
      var floorId := FLOORS[currentFloorIndex].id;
      var i := 0;
      while i < views.Length
        invariant 0 <= i <= views.Length
        invariant forall j :: 0 <= j < i ==> views[j] == ViewOf(markers[j], floorId, completedRooms)
      {
        views[i] := MarkerView(markers[i].floor == floorId, markers[i].roomId in completedRooms);
        i := i + 1;
      }
    }

    /**
     * `setFloor` once the floor's image has loaded, `L` being the layout
     * with that image: scale 1 and centred (as far as the clamp allows),
     * and the markers redrawn for the new floor.
     */
    method SetFloor(L: Layout, index: nat)
      requires Valid() && index < |FLOORS|
      modifies this`currentFloorIndex, views
      modifies viewport`scale, viewport`translateX, viewport`translateY, viewport`zoomLabel
      ensures Valid() && Drawn()
      ensures currentFloorIndex == index && completedRooms == old(completedRooms)
      ensures viewport.Current() ==
              Transform(1.0, CenterAxis(L.width, L.naturalWidth), CenterAxis(L.height, L.naturalHeight))
      ensures viewport.zoomLabel == 100
    {
      currentFloorIndex := index;
      viewport.ResetView(L);
      viewport.CenterMap(L);
      assert viewport.scale == 1.0;
      assert 1.0 * 100.0 + 0.5 == 100.5;
      UpdateRoomMarkers();
    }

    /**
     * `init` once the first image has loaded: its own `onload` replaces the
     * one `setFloor(0)` installed, so the image is only centred at the
     * current scale; the view is not reset and the markers are not redrawn.
     */
    method Init(L: Layout)
      requires Valid()
      modifies this`currentFloorIndex
      modifies viewport`translateX, viewport`translateY, viewport`zoomLabel
      ensures Valid() && currentFloorIndex == 0
      ensures viewport.scale == old(viewport.scale)
      ensures viewport.translateX == CenterAxis(L.width, L.naturalWidth * viewport.scale)
      ensures viewport.translateY == CenterAxis(L.height, L.naturalHeight * viewport.scale)
      ensures viewport.zoomLabel == ZoomPercent(viewport.scale)
    {
      currentFloorIndex := 0;
      viewport.CenterMap(L);
    }

    /** `prevFloor`: the floor before the current one, the last before the first. */
    method PrevFloor(L: Layout)
      requires Valid()
      modifies this`currentFloorIndex, views
      modifies viewport`scale, viewport`translateX, viewport`translateY, viewport`zoomLabel
      ensures Valid() && Drawn()
      ensures currentFloorIndex == PrevIndex(old(currentFloorIndex), |FLOORS|)
      ensures completedRooms == old(completedRooms)
      ensures viewport.Current() ==
              Transform(1.0, CenterAxis(L.width, L.naturalWidth), CenterAxis(L.height, L.naturalHeight))
      ensures viewport.zoomLabel == 100
    {
      SetFloor(L, PrevIndex(currentFloorIndex, |FLOORS|));
    }

    /** `nextFloor`: the floor after the current one, the first after the last. */
    method NextFloor(L: Layout)
      requires Valid()
      modifies this`currentFloorIndex, views
      modifies viewport`scale, viewport`translateX, viewport`translateY, viewport`zoomLabel
      ensures Valid() && Drawn()
      ensures currentFloorIndex == NextIndex(old(currentFloorIndex), |FLOORS|)
      ensures completedRooms == old(completedRooms)
      ensures viewport.Current() ==
              Transform(1.0, CenterAxis(L.width, L.naturalWidth), CenterAxis(L.height, L.naturalHeight))
      ensures viewport.zoomLabel == 100
    {
      SetFloor(L, NextIndex(currentFloorIndex, |FLOORS|));
    }

    /**
     * `completeRoom` up to the report: an empty or already completed id
     * changes nothing; otherwise the id is added and the markers redrawn.
     * `posted` says that the completion is then reported to the server.
     */
    method CompleteRoom(roomId: string) returns (posted: bool)
      requires Valid()
      modifies this`completedRooms, views
      ensures Valid()
      ensures completedRooms == AddCompleted(old(completedRooms), roomId)
      ensures posted == Reports(old(completedRooms), roomId)
      ensures posted ==> Drawn()
      ensures !posted ==> views[..] == old(views[..])
    {
      if roomId == "" || roomId in completedRooms {
        return false;
      }
      completedRooms := completedRooms + {roomId};
      UpdateRoomMarkers();
      posted := true;
    }

    /** A click on marker `i` completes its room. */
    method ClickMarker(i: nat) returns (posted: bool)
      requires Valid() && i < |markers|
      modifies this`completedRooms, views
      ensures Valid()
      ensures completedRooms == AddCompleted(old(completedRooms), markers[i].roomId)
      ensures posted == Reports(old(completedRooms), markers[i].roomId)
      ensures posted ==> Drawn() && views[i].completed
      ensures !posted ==> views[..] == old(views[..])
    {
      posted := CompleteRoom(markers[i].roomId);
    }
  }
}
