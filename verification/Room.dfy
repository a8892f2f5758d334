// One room as the server keeps it, its audio clients, its screen publishers and its idle timer together, and
// the manager's map of rooms.

module RoomImpl {
  import opened AudioRoomImpl
  import opened Common
  import opened IdleTimer
  import opened RoomSpec
  import opened ScreenPublisherImpl
  import AudioSpec
  import ByteStrings
  import ScreenSpec

  class Room {
    const id: RoomId
    const idleTimer: Timer
    const audio: AudioRoom
    var token: string
    var screenPublishers: map<Conn, ScreenPublisher>

    constructor (id: RoomId, token: string)
      ensures this.id == id && this.token == token && fresh(idleTimer) && fresh(audio)
      ensures Valid() && View() == NewRoom()
    {
      this.id, this.token, screenPublishers := id, token, map[];
      var timer := new Timer();
      idleTimer := timer;
      audio := new AudioRoom(timer);
    }

    ghost predicate Valid()
      reads audio, audio.Repr
    {
      audio.Valid() && audio.idleTimer == idleTimer
    }

    ghost function View(): RoomState
      reads this, audio, idleTimer
    {
      RoomState(audio.clients.Keys, screenPublishers.Keys, idleTimer.armed)
    }

    /** The last section of JoinRoom. */
    method RegisterClient(c: Conn, user: ByteStrings.Bytes)
      requires Valid()
      modifies audio`clients, idleTimer
      ensures Valid() && View() == AddClient(old(View()), c)
      ensures audio.clients == old(audio.clients)[c := user] && !idleTimer.armed
      ensures audio.View() == AudioSpec.RegisterClient(old(audio.View()), c, user)
    {
      audio.Register(c, user);
    }

    /** Rejects a publisher at the cap, and leaves the timer alone then. */
    method AddScreenPublisher(conn: Conn, userID: ScreenSpec.UserId, cap: nat) returns (pub: ScreenPublisher?)
      modifies this`screenPublishers, idleTimer
      ensures |View().publishers| == |screenPublishers|
      ensures View() == AddPublisher(old(View()), conn, cap)
      ensures pub == null <==> |old(screenPublishers)| >= cap
      ensures pub == null ==> screenPublishers == old(screenPublishers)
      ensures pub != null ==> fresh(pub) && screenPublishers == old(screenPublishers)[conn := pub]
      ensures idleTimer.armed == (old(idleTimer.armed) && pub == null)
      ensures pub != null ==> pub.conn == conn && pub.userID == userID
      ensures pub != null ==> pub.Valid() && pub.View() == ScreenSpec.NewPublisher()
    {
      if |screenPublishers| >= cap {
        return null;
      }
      var p := new ScreenPublisher(conn, userID);
      screenPublishers := screenPublishers[conn := p];
      idleTimer.Stop();
      return p;
    }

    method RegisterScreenViewer(pub: ScreenPublisher, c: Conn, user: ScreenSpec.UserId)
      returns (initSeg: ByteStrings.Bytes)
      requires pub.Valid()
      modifies pub`viewers, pub`initPending, idleTimer
      ensures View() == AddViewer(old(View()))
      ensures pub.Valid() && pub.View() == ScreenSpec.RegisterViewer(old(pub.View()), c, user)
      ensures pub.viewers == old(pub.viewers)[c := user] && c in pub.initPending && !idleTimer.armed
      ensures initSeg == ScreenSpec.Handed(old(pub.View()))
    {
      initSeg := pub.AddViewer(c, user);
      idleTimer.Stop();
    }

    /** Whether a publisher is the one mapped to its connection. */
    predicate Maps(pub: ScreenPublisher)
      reads this
    {
      pub.conn in screenPublishers && screenPublishers[pub.conn] == pub
    }

    /** Does nothing for a publisher that is not, or no longer, mapped. */
    method ClearScreenPublisher(pub: ScreenPublisher) returns (closing: set<Conn>, closed: Option<nat>)
      requires pub.Valid()
      modifies this`screenPublishers, pub`viewers, pub`initPending, pub`sfu
      ensures pub.Valid()
      ensures View() == if old(Maps(pub)) then DeletePublisher(old(View()), pub.conn) else old(View())
      ensures !old(Maps(pub)) ==> screenPublishers == old(screenPublishers) && pub.View() == old(pub.View())
      ensures !old(Maps(pub)) ==> closing == {} && closed == None
      ensures old(Maps(pub)) ==> screenPublishers == old(screenPublishers) - {pub.conn}
      ensures old(Maps(pub)) ==> pub.View() == ScreenSpec.ClearPublisher(old(pub.View()))
      ensures old(Maps(pub)) ==> closing == old(pub.viewers.Keys) && closed == old(pub.sfu)
    {
      if pub.conn !in screenPublishers || screenPublishers[pub.conn] != pub {
        return {}, None;
      }
      screenPublishers := screenPublishers - {pub.conn};
      closing, closed := pub.Clear();
    }

    method IsFullyEmpty() returns (isEmpty: bool)
      ensures isEmpty == IsEmpty(View()) == (|audio.clients| == 0 && |screenPublishers| == 0)
    {
      isEmpty := |audio.clients| == 0 && |screenPublishers| == 0;
    }

    /** LeaveRoom's section; the caller resets the timer later if the room was found empty. */
    method Leave(c: Conn) returns (isEmpty: bool)
      requires Valid()
      modifies audio
      ensures Valid() && View() == DeleteClient(old(View()), c)
      ensures isEmpty == (|audio.clients| == 0 && |screenPublishers| == 0)
      ensures audio.View() == AudioSpec.Forget(old(audio.View()), c)
    {
      audio.Remove(c);
      isEmpty := IsFullyEmpty();
    }

    method ResetIdleIfEmpty()
      modifies idleTimer
      ensures View() == ResetIfEmpty(old(View()))
      ensures idleTimer.armed == (old(idleTimer.armed) || (|audio.clients| == 0 && |screenPublishers| == 0))
    {
      var isEmpty := IsFullyEmpty();
      if isEmpty {
        idleTimer.Reset();
      }
    }
  }

  class RoomManager {
    var rooms: map<RoomId, Room>

    constructor ()
      ensures rooms == map[]
    {
      rooms := map[];
    }

    /** An existing room is handed out only for its own token. */
    method CreateRoom(id: RoomId, token: string) returns (room: Room?)
      modifies this
      ensures id in old(rooms) ==> rooms == old(rooms)
      ensures id in old(rooms) ==> room == if old(rooms)[id].token == token then old(rooms)[id] else null
      ensures id !in old(rooms) ==> room != null && fresh(room) && rooms == old(rooms)[id := room]
      ensures id !in old(rooms) ==> room.id == id && room.token == token && room.Valid() && room.View() == NewRoom()
    {
      if id in rooms {
        return if rooms[id].token == token then rooms[id] else null;
      }
      var r := new Room(id, token);
      rooms := rooms[id := r];
      room := r;
    }

    /** The timer's callback. */
    method DestroyRoom(id: RoomId)
      modifies this
      ensures id in old(rooms) && |old(rooms)[id].audio.clients| == 0 && |old(rooms)[id].screenPublishers| == 0 ==>
                rooms == old(rooms) - {id}
      ensures id in old(rooms) && (|old(rooms)[id].audio.clients| > 0 || |old(rooms)[id].screenPublishers| > 0) ==>
                rooms == old(rooms)
      ensures id !in old(rooms) ==> rooms == old(rooms)
    {
      if id !in rooms {
        return;
      }
      var isEmpty := rooms[id].IsFullyEmpty();
      if isEmpty {
        rooms := rooms - {id};
      }
    }

    /** The first section of RemoveRoom. */
    method Unmap(id: RoomId) returns (room: Room?)
      modifies this
      ensures rooms == old(rooms) - {id}
      ensures room == if id in old(rooms) then old(rooms)[id] else null
    {
      if id !in rooms {
        return null;
      }
      room := rooms[id];
      rooms := rooms - {id};
    }
  }
}
