/** The shared chat-history store: a bounded log of chat entries, a bounded
    log of visited rooms, the counter that stamps chat entries with ids, and
    the reactions to the three session events that feed the logs. */
module ChatHistory {
  import opened Optional
  import BoundedLog

  const CHAT_HISTORY_MAX: nat := 1000
  const ROOM_HISTORY_MAX: nat := 10

  /** The id an entry carries before the store stamps it. */
  const UNSTAMPED_ID: int := -1

  datatype ChatEntryType = TypeChat | TypeRoomInfo

  /** One line of chat history. Room-info entries leave the profile look,
      the entity type and the message undefined (`None`). */
  datatype ChatEntry = ChatEntry(
    id: int,
    entityId: int,
    name: string,
    look: Option<string>,
    entityType: Option<int>,
    message: Option<string>,
    timestamp: string,
    kind: ChatEntryType,
    roomId: int)

  datatype RoomHistoryEntry = RoomHistoryEntry(id: int, name: string)

  /** An occupant's public profile, as the session's user directory gives it. */
  datatype UserData = UserData(webID: int, name: string, figure: string, userType: int)

  /** The active room session: its room id and its user directory, keyed by
      the occupant's local object index. */
  datatype RoomSession = RoomSession(roomId: int, users: map<int, UserData>)

  /** A chat message said in the room by the occupant with local index `objectId`. */
  datatype ChatEvent = ChatEvent(objectId: int, message: string)

  /** The room data carried by a guest-room result message. */
  datatype GuestRoomData = GuestRoomData(roomId: int, roomName: string)

  /** The entry a chat event produces, or `None` when there is no active
      session or the speaker is not in the session's user directory. */
  function ChatEntryFor(event: ChatEvent, session: Option<RoomSession>, timestamp: string): (r: Option<ChatEntry>)
    ensures r.None? <==> session.None? || event.objectId !in session.value.users
    ensures r.Some? ==>
      var user := session.value.users[event.objectId];
      r.value.kind == TypeChat && r.value.roomId == session.value.roomId &&
      r.value.message == Some(event.message) && r.value.timestamp == timestamp &&
      r.value.entityId == user.webID && r.value.name == user.name &&
      r.value.look == Some(user.figure) && r.value.entityType == Some(user.userType)
  {
    if session.None? then None
    else if event.objectId !in session.value.users then None
    else
      var user := session.value.users[event.objectId];
      Some(ChatEntry(UNSTAMPED_ID, user.webID, user.name, Some(user.figure), Some(user.userType),
                     Some(event.message), timestamp, TypeChat, session.value.roomId))
  }

  /** The room-info marker a recorded room visit adds to the chat history. */
  function RoomInfoEntry(data: GuestRoomData, timestamp: string): (r: ChatEntry)
    ensures r.kind == TypeRoomInfo && r.entityId == r.roomId == data.roomId && r.name == data.roomName
    ensures r.timestamp == timestamp
    ensures r.look.None? && r.entityType.None? && r.message.None?
  {
    ChatEntry(UNSTAMPED_ID, data.roomId, data.roomName, None, None, None, timestamp, TypeRoomInfo, data.roomId)
  }

  /** Whether a guest-room result for `roomId` is recorded as a visit: only
      while a visit is pending, and not when the most recent visit already
      is that room. */
  predicate RoomInsertNeeded(needsRoomInsert: bool, roomHistory: seq<RoomHistoryEntry>, roomId: int): (insert: bool)
    ensures !needsRoomInsert ==> !insert
    ensures |roomHistory| == 0 ==> insert == needsRoomInsert
    ensures |roomHistory| > 0 && roomHistory[|roomHistory| - 1].id == roomId ==> !insert
  {
    needsRoomInsert && !(|roomHistory| > 0 && roomHistory[|roomHistory| - 1].id == roomId)
  }

  /** Chat-entry ids are non-negative, strictly increasing along the log and
      below the next id the counter hands out. */
  predicate IdsIncreasing(log: seq<ChatEntry>, next: int)
  {
    (forall i, j :: 0 <= i < j < |log| ==> log[i].id < log[j].id) &&
    (forall i :: 0 <= i < |log| ==> 0 <= log[i].id < next)
  }

  /** Inserting an entry stamped with the counter, then advancing the
      counter, keeps the ids increasing. */
  lemma PushKeepsIdsIncreasing(log: seq<ChatEntry>, entry: ChatEntry, next: nat, cap: nat)
    requires IdsIncreasing(log, next) && entry.id == next
    ensures IdsIncreasing(BoundedLog.Push(log, entry, cap), next + 1)
  {
    var grown := log + [entry];
    assert IdsIncreasing(grown, next + 1);
    if |grown| > cap {
      var r := grown[1..];
      assert forall i :: 0 <= i < |r| ==> r[i] == grown[i + 1];
    }
  }

  /** Once a room has been recorded, a second result for the same room is
      not recorded again, whatever the pending flag says. */
  lemma SameRoomRecordedOnce(needsRoomInsert: bool, roomHistory: seq<RoomHistoryEntry>, data: GuestRoomData)
    ensures !RoomInsertNeeded(needsRoomInsert,
      BoundedLog.Push(roomHistory, RoomHistoryEntry(data.roomId, data.roomName), ROOM_HISTORY_MAX),
      data.roomId)
  {
    BoundedLog.PushEvictsOldest(roomHistory, RoomHistoryEntry(data.roomId, data.roomName), ROOM_HISTORY_MAX);
  }

  /** De-duplication looks only at the most recent visit: a room visited
      before some other room is recorded again. */
  lemma RevisitIsRecorded(roomHistory: seq<RoomHistoryEntry>, roomId: int)
    requires exists i :: 0 <= i < |roomHistory| - 1 && roomHistory[i].id == roomId
    requires roomHistory[|roomHistory| - 1].id != roomId
    ensures RoomInsertNeeded(true, roomHistory, roomId)
  {
  }

  class ChatHistoryStore {
    var chatHistory: seq<ChatEntry>
    var roomHistory: seq<RoomHistoryEntry>
    var needsRoomInsert: bool
    /** The next id to stamp a chat entry with. */
    var counter: nat

    ghost predicate Valid()
      reads this
      ensures Valid() ==> forall i, j :: 0 <= i < |chatHistory| && 0 <= j < |chatHistory| && i != j ==>
        chatHistory[i].id != chatHistory[j].id
    {
      |chatHistory| <= CHAT_HISTORY_MAX && |roomHistory| <= ROOM_HISTORY_MAX &&
      IdsIncreasing(chatHistory, counter)
    }

    constructor ()
      ensures Valid()
      ensures chatHistory == [] && roomHistory == [] && !needsRoomInsert && counter == 0
    {
      chatHistory, roomHistory := [], [];
      needsRoomInsert := false;
      counter := 0;
    }

    /** Stamps `entry` with the counter, advances the counter and inserts the
        stamped entry into the chat log. */
    method AddChatEntry(entry: ChatEntry) returns (stamped: ChatEntry)
      requires Valid()
      modifies this
      ensures Valid()
      ensures stamped == entry.(id := old(counter)) && counter == old(counter) + 1
      ensures chatHistory == BoundedLog.Push(old(chatHistory), stamped, CHAT_HISTORY_MAX)
      ensures roomHistory == old(roomHistory) && needsRoomInsert == old(needsRoomInsert)
    {
      stamped := entry.(id := counter);
      PushKeepsIdsIncreasing(chatHistory, stamped, counter, CHAT_HISTORY_MAX);
      counter := counter + 1;
      var newValue := chatHistory + [stamped];
      if |newValue| > CHAT_HISTORY_MAX {
        newValue := newValue[1..];
      }
      chatHistory := newValue;
    }

    /** Inserts `entry` into the room log. */
    method AddRoomHistoryEntry(entry: RoomHistoryEntry)
      requires Valid()
      modifies this
      ensures Valid()
      ensures roomHistory == BoundedLog.Push(old(roomHistory), entry, ROOM_HISTORY_MAX)
      ensures chatHistory == old(chatHistory) && counter == old(counter)
      ensures needsRoomInsert == old(needsRoomInsert)
    {
      var newValue := roomHistory + [entry];
      if |newValue| > ROOM_HISTORY_MAX {
        newValue := newValue[1..];
      }
      roomHistory := newValue;
    }

    /** Reaction to a chat event: ignored without a session or without the
        speaker's profile, otherwise one chat entry is added. */
    method OnChat(event: ChatEvent, session: Option<RoomSession>, timestamp: string)
      requires Valid()
      modifies this
      ensures Valid()
      ensures roomHistory == old(roomHistory) && needsRoomInsert == old(needsRoomInsert)
      ensures match ChatEntryFor(event, session, timestamp)
        case None => chatHistory == old(chatHistory) && counter == old(counter)
        case Some(entry) =>
          chatHistory == BoundedLog.Push(old(chatHistory), entry.(id := old(counter)), CHAT_HISTORY_MAX) &&
          counter == old(counter) + 1
    {
      if session.None? {
        return;
      }
      var roomSession := session.value;
      if event.objectId !in roomSession.users {
        return;
      }
      var userData := roomSession.users[event.objectId];
      var _ := AddChatEntry(ChatEntry(UNSTAMPED_ID, userData.webID, userData.name, Some(userData.figure),
        Some(userData.userType), Some(event.message), timestamp, TypeChat, roomSession.roomId));
    }

    /** Reaction to the session-started event: the next room result is to be
        recorded as a visit. */
    method OnSessionStarted()
      requires Valid()
      modifies this
      ensures Valid()
      ensures needsRoomInsert
      ensures chatHistory == old(chatHistory) && roomHistory == old(roomHistory) && counter == old(counter)
    {
      needsRoomInsert := true;
    }

    /** Reaction to a guest-room result: when a visit is pending and the room
        is not the most recent visit, adds a room-info chat entry and a room
        log entry and clears the pending flag; otherwise changes nothing. */
    method OnGuestRoomResult(data: GuestRoomData, timestamp: string)
      requires Valid()
      modifies this
      ensures Valid()
      ensures if RoomInsertNeeded(old(needsRoomInsert), old(roomHistory), data.roomId) then
          chatHistory == BoundedLog.Push(old(chatHistory), RoomInfoEntry(data, timestamp).(id := old(counter)), CHAT_HISTORY_MAX) &&
          counter == old(counter) + 1 &&
          roomHistory == BoundedLog.Push(old(roomHistory), RoomHistoryEntry(data.roomId, data.roomName), ROOM_HISTORY_MAX) &&
          !needsRoomInsert
        else
          unchanged(this)
    {
      if !needsRoomInsert {
        return;
      }
      if |roomHistory| > 0 {
        if roomHistory[|roomHistory| - 1].id == data.roomId {
          return;
        }
      }
      var _ := AddChatEntry(RoomInfoEntry(data, timestamp));
      AddRoomHistoryEntry(RoomHistoryEntry(data.roomId, data.roomName));
      needsRoomInsert := false;
    }
  }
}
