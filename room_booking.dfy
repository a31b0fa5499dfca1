/**
 * The room-booking screen: a list of rooms whose occupancy changes in
 * place when a booking completes, the availability rule that decides
 * whether a booking is offered, and the text and colour of each list row.
 */
module RoomBooking {
  import opened Graphics
  import Text

  /** The value of a Room at one moment: all six of its fields. */
  datatype RoomData = RoomData(name: string, location: string, maxCapacity: int,
                               currentOccupancy: int, roomType: string, description: string)
  {
    /** Room.isAvailable: one more occupant still fits. */
    predicate IsAvailable()
      ensures IsAvailable() <==> currentOccupancy + 1 <= maxCapacity
      ensures Sound() ==> (IsAvailable() <==> Booked(this).Sound())
    {
      currentOccupancy < maxCapacity
    }

    /** The capacity invariant the seed data satisfies. */
    predicate Sound() { 0 < maxCapacity && 0 <= currentOccupancy <= maxCapacity }
  }

  /** What a completed booking does to a room: one more occupant, nothing else. */
  function Booked(r: RoomData): (b: RoomData)
    ensures b.currentOccupancy == r.currentOccupancy + 1
    ensures b.(currentOccupancy := r.currentOccupancy) == r
  {
    r.(currentOccupancy := r.currentOccupancy + 1)
  }

  /**
   * Room details, then the booking dialog when the room is available: the
   * room after the user answers the dialog with `confirm`. A full room
   * gets no dialog, so the answer does not matter.
   */
  function AfterSelection(r: RoomData, confirm: bool): RoomData
  {
    if r.IsAvailable() && confirm then Booked(r) else r
  }

  /** A room after the user has selected it once per answer, in order. */
  function AfterSelections(r: RoomData, answers: seq<bool>): RoomData
    decreases |answers|
  {
    if answers == [] then r else AfterSelections(AfterSelection(r, answers[0]), answers[1..])
  }

  /** The number of answers that completed a booking, starting from occupancy `r`. */
  function AcceptedBookings(r: RoomData, answers: seq<bool>): nat
    decreases |answers|
  {
    if answers == [] then 0
    else (if r.IsAvailable() && answers[0] then 1 else 0)
         + AcceptedBookings(AfterSelection(r, answers[0]), answers[1..])
  }

  /**
   * However many times a sound room is selected and booked, it stays
   * within its capacity, its occupancy has grown by exactly the number of
   * completed bookings, and no other field has changed.
   */
  lemma {:induction false} SelectionsKeepCapacity(r: RoomData, answers: seq<bool>)
    requires r.Sound()
    ensures AfterSelections(r, answers).Sound()
    ensures AfterSelections(r, answers).currentOccupancy == r.currentOccupancy + AcceptedBookings(r, answers)
    ensures AfterSelections(r, answers).(currentOccupancy := r.currentOccupancy) == r
    decreases |answers|
  {
    if answers != [] {
      SelectionsKeepCapacity(AfterSelection(r, answers[0]), answers[1..]);
    }
  }

  /** Room.toString: "name (current/max) - type". */
  function RoomLabel(r: RoomData): (row: string)
    ensures |row| == |r.name| + |Text.IntToString(r.currentOccupancy)| + |Text.IntToString(r.maxCapacity)|
                     + |r.roomType| + 7
  {
    r.name + " (" + Text.IntToString(r.currentOccupancy) + "/"
      + Text.IntToString(r.maxCapacity) + ") - " + r.roomType
  }

  lemma IntToStringHasNoSlash(i: int)
    ensures '/' !in Text.IntToString(i)
  {
    var s := Text.NatToString(if i < 0 then -i else i);
    assert forall k :: 0 <= k < |s| ==> s[k] != '/';
  }

  /**
   * A row shows the occupancy it was drawn with: two rows of the same room
   * that differ only in occupancy read differently, so a completed booking
   * is visible once the list is redrawn.
   */
  lemma RoomLabelShowsOccupancy(r: RoomData, occupancy: int)
    requires occupancy != r.currentOccupancy
    ensures RoomLabel(r.(currentOccupancy := occupancy)) != RoomLabel(r)
  {
    var s := r.(currentOccupancy := occupancy);
    if RoomLabel(s) == RoomLabel(r) {
      var p := r.name + " (";
      var rest := Text.IntToString(r.maxCapacity) + ") - " + r.roomType;
      assert RoomLabel(s) == p + Text.IntToString(occupancy) + ['/'] + rest;
      assert RoomLabel(r) == p + Text.IntToString(r.currentOccupancy) + ['/'] + rest;
      IntToStringHasNoSlash(occupancy);
      IntToStringHasNoSlash(r.currentOccupancy);
      Text.FieldBeforeDelimiter(p, Text.IntToString(occupancy), Text.IntToString(r.currentOccupancy), '/', rest, rest);
      Text.IntToStringInjective(occupancy, r.currentOccupancy);
    }
  }

  /** RoomArrayAdapter.getView: green for an available room, red for a full one. */
  function RowTextColor(r: RoomData): (c: Color)
    ensures c == GREEN <==> r.IsAvailable()
    ensures c == RED <==> !r.IsAvailable()
  {
    if r.IsAvailable() then GREEN else RED
  }

  /** The closing line of the details toast shown by showRoomDetails. */
  function AvailabilityVerdict(r: RoomData): (v: string)
    ensures v == "Available for booking!" <==> r.IsAvailable()
    ensures v == "Room is currently full." <==> !r.IsAvailable()
  {
    if r.currentOccupancy < r.maxCapacity then "Available for booking!" else "Room is currently full."
  }

  /** The full text of the details toast. */
  function RoomDetails(r: RoomData): (details: string)
    ensures |details| > 0 && (details[|details| - 1] == '!' <==> r.IsAvailable())
  {
    "Room: " + r.name + "\n"
      + "Location: " + r.location + "\n"
      + "Capacity: " + Text.IntToString(r.currentOccupancy) + "/" + Text.IntToString(r.maxCapacity) + "\n"
      + "Type: " + r.roomType + "\n"
      + "Description: " + r.description + "\n\n"
      + AvailabilityVerdict(r)
  }

  /** RoomBookingActivity.Room: a record whose occupancy is updated in place. */
  class Room {
    var name: string
    var location: string
    var maxCapacity: int
    var currentOccupancy: int
    var roomType: string
    var description: string

    constructor (name: string, location: string, maxCapacity: int, currentOccupancy: int,
                 roomType: string, description: string)
      ensures Snapshot() == RoomData(name, location, maxCapacity, currentOccupancy, roomType, description)
    {
      this.name := name;
      this.location := location;
      this.maxCapacity := maxCapacity;
      this.currentOccupancy := currentOccupancy;
      this.roomType := roomType;
      this.description := description;
    }

    /** The room's current value. */
    function Snapshot(): RoomData
      reads this
    {
      RoomData(name, location, maxCapacity, currentOccupancy, roomType, description)
    }

    /** Room.setCurrentOccupancy: the only field with a setter. */
    method SetCurrentOccupancy(occupancy: int)
      modifies this`currentOccupancy
      ensures Snapshot() == old(Snapshot()).(currentOccupancy := occupancy)
    {
      currentOccupancy := occupancy;
    }
  }

  /** The rooms loadAvailableRooms lists, in order. */
  const SEEDED_ROOMS: seq<RoomData> := [
    RoomData("Study Room A", "Library - Floor 1", 15, 8, "Study Space", "Quiet study area with individual desks"),
    RoomData("Computer Lab B", "Technology Building - Floor 2", 25, 12, "Computer Lab", "Windows and Mac computers available"),
    RoomData("Group Study Room C", "Library - Floor 2", 20, 15, "Group Study", "Large table for group projects"),
    RoomData("Silent Study Room D", "Library - Floor 3", 10, 3, "Silent Study", "Completely silent study environment"),
    RoomData("Presentation Room E", "Main Building - Floor 1", 30, 0, "Presentation", "Projector and whiteboard available"),
    RoomData("Meeting Room F", "Business School - Floor 2", 12, 5, "Meeting", "Professional meeting space")
  ]

  /** Every seeded room is within its capacity, and "Presentation Room E" starts empty. */
  lemma SeededRoomsAreSound()
    ensures |SEEDED_ROOMS| == 6
    ensures forall i :: 0 <= i < |SEEDED_ROOMS| ==> SEEDED_ROOMS[i].Sound()
    ensures SEEDED_ROOMS[4].name == "Presentation Room E" && SEEDED_ROOMS[4].currentOccupancy == 0
  {
  }

  /** The values of a list of rooms. */
  function Snapshots(rooms: seq<Room>): (s: seq<RoomData>)
    reads rooms
    ensures |s| == |rooms|
    ensures forall i :: 0 <= i < |rooms| ==> s[i] == rooms[i].Snapshot()
  {
    if rooms == [] then [] else [rooms[0].Snapshot()] + Snapshots(rooms[1..])
  }

  /** The state of RoomBookingActivity that is not UI: the list of rooms. */
  class RoomBookingScreen {
    var availableRooms: seq<Room>

    /** The list holds distinct Room objects, so a booking changes one row only. */
    ghost predicate Valid()
      reads this
    {
      forall i, j :: 0 <= i < j < |availableRooms| ==> availableRooms[i] != availableRooms[j]
    }

    /** onCreate's loadAvailableRooms: six fresh rooms added in order. */
    constructor ()
      ensures Valid()
      ensures forall i :: 0 <= i < |availableRooms| ==> fresh(availableRooms[i])
      ensures |availableRooms| == |SEEDED_ROOMS|
      ensures forall i :: 0 <= i < |availableRooms| ==> availableRooms[i].Snapshot() == SEEDED_ROOMS[i]
    {
      var a := new Room("Study Room A", "Library - Floor 1", 15, 8, "Study Space", "Quiet study area with individual desks");
      var b := new Room("Computer Lab B", "Technology Building - Floor 2", 25, 12, "Computer Lab", "Windows and Mac computers available");
      var c := new Room("Group Study Room C", "Library - Floor 2", 20, 15, "Group Study", "Large table for group projects");
      var d := new Room("Silent Study Room D", "Library - Floor 3", 10, 3, "Silent Study", "Completely silent study environment");
      var e := new Room("Presentation Room E", "Main Building - Floor 1", 30, 0, "Presentation", "Projector and whiteboard available");
      var f := new Room("Meeting Room F", "Business School - Floor 2", 12, 5, "Meeting", "Professional meeting space");
      assert a != b && a != c && a != d && a != e && a != f;
      assert b != c && b != d && b != e && b != f;
      assert c != d && c != e && c != f && d != e && d != f && e != f;
      availableRooms := [];
      availableRooms := availableRooms + [a];
      availableRooms := availableRooms + [b];
      availableRooms := availableRooms + [c];
      availableRooms := availableRooms + [d];
      availableRooms := availableRooms + [e];
      availableRooms := availableRooms + [f];
    }

    /**
     * bookRoom, once its confirmation arrives: the occupancy goes up by
     * one and nothing else about the room changes. The code has no
     * rejection here; a room that was available when the booking was
     * offered is still within its capacity afterwards.
     */
    method BookRoom(room: Room)
      modifies room`currentOccupancy
      ensures room.Snapshot() == Booked(old(room.Snapshot()))
      ensures old(room.Snapshot().IsAvailable()) ==> room.currentOccupancy <= room.maxCapacity
    {
      room.SetCurrentOccupancy(room.currentOccupancy + 1);
    }

    /**
     * showRoomDetails: the StringBuilder text of the details toast; its
     * last line tells whether the booking dialog is offered.
     */
    method ShowRoomDetails(room: Room) returns (details: string)
      ensures details == RoomDetails(room.Snapshot())
    {
      details := "Room: " + room.name + "\n";
      details := details + "Location: " + room.location + "\n";
      details := details + "Capacity: " + Text.IntToString(room.currentOccupancy) + "/"
                 + Text.IntToString(room.maxCapacity) + "\n";
      details := details + "Type: " + room.roomType + "\n";
      details := details + "Description: " + room.description + "\n\n";
      if room.currentOccupancy < room.maxCapacity {
        details := details + "Available for booking!";
      } else {
        details := details + "Room is currently full.";
      }
    }

    /**
     * A tap on the row at `position`: showRoomDetails builds the details
     * text and offers the booking dialog only while current < max; the
     * user's answer to that dialog is `confirm`.
     */
    method OnRoomClicked(position: nat, confirm: bool) returns (details: string, booked: bool)
      requires Valid() && position < |availableRooms|
      modifies availableRooms[position]
      ensures details == RoomDetails(old(availableRooms[position].Snapshot()))
      ensures booked <==> old(availableRooms[position].Snapshot().IsAvailable()) && confirm
      ensures Snapshots(availableRooms)
        == old(Snapshots(availableRooms))[position := AfterSelection(old(availableRooms[position].Snapshot()), confirm)]
    {
      var room := availableRooms[position];
      details := ShowRoomDetails(room);
      booked := false;
      if room.currentOccupancy < room.maxCapacity && confirm {
        BookRoom(room);
        booked := true;
      }
    }
  }
}
