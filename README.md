# Chat history, room-settings reducer and user-count condition editor

This project models three small pieces of state logic from a browser client
for a virtual world. The client is built with React.

- **Chat-history store** (`src/hooks/chat-history/useChatHistory.ts`). The
  client shares one instance of it. It keeps two bounded FIFO logs: chat
  entries (capacity 1000) and visited rooms (capacity 10). A counter stamps
  every chat entry with the next id. The store reacts to three session
  events: a chat message, session started, and a guest-room result. A
  `needsRoomInsert` flag decides whether a guest-room result counts as a
  visit. An insert appends to a copy of the log. Then, if the copy is over
  capacity, it drops the oldest entry once. Modelled as the class
  `ChatHistory.ChatHistoryStore`. Its invariant `Valid()` says both logs are
  within capacity and the chat ids are non-negative, strictly increasing and
  below the counter. Each event handler is a method whose postcondition
  gives the whole new state in terms of the old one.
- **Room-settings field reducer** (`handleChange` in
  `NavigatorRoomSettingsBasicTabView.tsx`). It makes a shallow copy of the
  draft, dispatches on the field name, applies the two-slot tag rules, hands
  the new draft to the parent and calls the save callback unless the field
  is the name or the description. The draft is the datatype `RoomSettings`.
  Its `tags` field is a reference to a `TagList` object, so the shallow copy
  shares the tag list with the original draft, as `Object.assign` does. A
  tag edit is therefore seen through the old draft too, and through every
  draft already passed to the save callback. `HandleChange` states this as
  `roomSettingsData.tags == old(roomSettingsData.tags)`. The parent's
  setter becomes an assignment to `roomSettingsData`. The save callback is
  the append-only log `saved`.
- **User-count condition editor** (`WiredConditionUserCountInRoomView.tsx`).
  It holds a (min, max) pair. It adopts the first two integer parameters of
  the trigger being edited, or resets to (1, 1) when there are fewer than
  two. `save` writes back exactly `[min, max]`.

The pure layer carries the properties: `BoundedLog` proves that any run of
inserts leaves exactly the most recent `cap` entries, in order. That is,
push-then-shift agrees with the reference definition `LastN`. The tag edits
`Tag1Edit` and `Tag2Edit` are defined slot by slot, separately from the
push and index-assignment code in `HandleChange`. The method's
postcondition then links the two definitions.

Points where the code's behaviour is easy to misread:

- A room-info chat entry leaves the look, the entity type and the message
  undefined. It does not set the message to an empty string. Here those
  fields are `None`.
- `tradeState` is stored as whatever number the form gives. It is not
  limited to the three options.
- The reducer does not return a fresh draft. The tag list is shared and
  changed in place.

## Model

| member | source | states |
|---|---|---|
| BoundedLog.Push | src/hooks/chat-history/useChatHistory.ts:24-28 | an insert into a log within capacity stays within capacity; below capacity it is exactly `log + [x]` |
| BoundedLog.PushEvictsOldest | src/hooks/chat-history/useChatHistory.ts:38-42 | the new entry is last; the oldest entry is dropped exactly when the log was full; every other entry keeps its value and relative order |
| BoundedLog.PushIsLastN | src/hooks/chat-history/useChatHistory.ts:24-28 | for a log within capacity, push-then-shift equals the reference "last `cap` elements of `log + [x]`" |
| BoundedLog.PushAllIsLastN | src/hooks/chat-history/useChatHistory.ts:18-46 | any run of inserts into a log within capacity leaves exactly the last `cap` elements of `log + xs`, in insertion order |
| BoundedLog.HistoryKeepsMostRecent | src/hooks/chat-history/useChatHistory.ts:7-8 | from an empty log, N inserts leave the most recent min(N, cap) entries in insertion order |
| ChatHistory.ChatEntryFor | src/hooks/chat-history/useChatHistory.ts:50-58 | a chat event yields no entry if and only if there is no session or no user data for the speaker; otherwise a chat-type entry with the session's room id, the event's message and the speaker's profile fields |
| ChatHistory.RoomInfoEntry | src/hooks/chat-history/useChatHistory.ts:74 | the room-info entry carries the room's id (as entity id and room id), its name and the given timestamp, and leaves look, entity type and message undefined |
| ChatHistory.RoomInsertNeeded | src/hooks/chat-history/useChatHistory.ts:65-72 | no visit is recorded while none is pending or when the most recent visit has the incoming room id; with an empty room log the pending flag alone decides |
| ChatHistory.ChatHistoryStore.Valid | src/hooks/chat-history/useChatHistory.ts:7-20 | the store invariant: chat log at most 1000, room log at most 10, ids non-negative, strictly increasing and below the counter; hence no two chat entries share an id |
| ChatHistory.PushKeepsIdsIncreasing | src/hooks/chat-history/useChatHistory.ts:10-20 | inserting an entry stamped with the counter and advancing the counter keeps ids non-negative, strictly increasing and below the counter |
| ChatHistory.SameRoomRecordedOnce | src/hooks/chat-history/useChatHistory.ts:69-76 | once a room has been recorded, a further result for the same room id is not recorded, whatever the flag |
| ChatHistory.RevisitIsRecorded | src/hooks/chat-history/useChatHistory.ts:69-72 | the duplicate check compares only with the most recent visit: a pending result for a room visited earlier, but not last, is recorded again |
| ChatHistory.ChatHistoryStore.constructor | src/hooks/chat-history/useChatHistory.ts:10-16 | both logs start empty, the flag false and the counter 0 |
| ChatHistory.ChatHistoryStore.AddChatEntry | src/hooks/chat-history/useChatHistory.ts:18-32 | the entry is stamped with the current counter, the counter grows by exactly 1, the chat log becomes the bounded push of the stamped entry, nothing else changes, and the invariant is kept |
| ChatHistory.ChatHistoryStore.AddRoomHistoryEntry | src/hooks/chat-history/useChatHistory.ts:34-46 | the room log becomes the bounded push of the entry (length at most 10); chat log, counter and flag unchanged |
| ChatHistory.ChatHistoryStore.OnChat | src/hooks/chat-history/useChatHistory.ts:48-59 | without a session or user data nothing changes; otherwise exactly one chat entry is added with the next id; room log and flag never change |
| ChatHistory.ChatHistoryStore.OnSessionStarted | src/hooks/chat-history/useChatHistory.ts:61 | sets `needsRoomInsert` and changes nothing else |
| ChatHistory.ChatHistoryStore.OnGuestRoomResult | src/hooks/chat-history/useChatHistory.ts:63-79 | a complete no-op when no visit is pending or the last visit is the same room; otherwise one room-info chat entry and one room-log entry for that room are added and the flag is cleared |
| NavigatorRoomSettings.TagList.Push | src/views/navigator/views/room-settings/views/tab-basic/NavigatorRoomSettingsBasicTabView.tsx:52 | appends the given tags at the end, in order, in place |
| NavigatorRoomSettings.TagList.Set | src/views/navigator/views/room-settings/views/tab-basic/NavigatorRoomSettingsBasicTabView.tsx:60 | overwrites one existing index in place, nothing else |
| NavigatorRoomSettings.Slot | src/views/navigator/views/room-settings/views/tab-basic/NavigatorRoomSettingsBasicTabView.tsx:112-113 | a tag input shows the tag at its index, or the empty string when the list is shorter |
| NavigatorRoomSettings.SavesImmediately | src/views/navigator/views/room-settings/views/tab-basic/NavigatorRoomSettingsBasicTabView.tsx:18-29 | name and description edits are not saved at once; category, max visitors, trade state, both tags and walkthrough are, and so is any unrecognised field, because the flag defaults to true |
| NavigatorRoomSettings.Tag1Edit | src/views/navigator/views/room-settings/views/tab-basic/NavigatorRoomSettingsBasicTabView.tsx:39-48 | on empty tags gives `[v]`; otherwise replaces index 0 only, keeping the length; two slots stay at most two |
| NavigatorRoomSettings.Tag2Edit | src/views/navigator/views/room-settings/views/tab-basic/NavigatorRoomSettingsBasicTabView.tsx:49-62 | gives `['', v]` on empty tags, `[t0, v]` on one tag, replaces index 1 only on two or more; at most two slots become exactly two |
| NavigatorRoomSettings.TagEditsAreSlotwise | src/views/navigator/views/room-settings/views/tab-basic/NavigatorRoomSettingsBasicTabView.tsx:112-113 | each tag input's edit changes what that input shows and not what the other shows; after a second-slot edit the first slot exists |
| NavigatorRoomSettings.BasicTab.constructor | src/views/navigator/views/room-settings/views/tab-basic/NavigatorRoomSettingsBasicTabView.tsx:9 | the tab starts from the draft it is given, with nothing saved yet |
| NavigatorRoomSettings.BasicTab.HandleChange | src/views/navigator/views/room-settings/views/tab-basic/NavigatorRoomSettingsBasicTabView.tsx:14-71 | only the named field changes (tags by the tag rules, on the shared list); an unknown field changes nothing; the new draft always replaces the parent's; it is saved exactly once unless the field is name or description |
| NavigatorRoomSettings.BasicTab.CommitDraft | src/views/navigator/views/room-settings/views/tab-basic/NavigatorRoomSettingsBasicTabView.tsx:77-81 | losing focus saves the current draft once and leaves it unchanged |
| WiredUserCountCondition.AdoptedRange | src/views/wired/views/conditions/user-count-in-room/WiredConditionUserCountInRoomView.tsx:14-26 | at least two int params give (intData[0], intData[1]); fewer give (1, 1) |
| WiredUserCountCondition.AdoptIgnoresLaterParams | src/views/wired/views/conditions/user-count-in-room/WiredConditionUserCountInRoomView.tsx:16-20 | params after the first two do not affect what is adopted |
| WiredUserCountCondition.UserCountInRoomView.constructor | src/views/wired/views/conditions/user-count-in-room/WiredConditionUserCountInRoomView.tsx:10-11 | the editor starts at min = 1, max = 1 |
| WiredUserCountCondition.UserCountInRoomView.OnTriggerChanged | src/views/wired/views/conditions/user-count-in-room/WiredConditionUserCountInRoomView.tsx:14-26 | the editor's pair becomes the range adopted from the trigger's int params |
| WiredUserCountCondition.UserCountInRoomView.SetMin | src/views/wired/views/conditions/user-count-in-room/WiredConditionUserCountInRoomView.tsx:41 | the minimum slider sets min and leaves max |
| WiredUserCountCondition.UserCountInRoomView.SetMax | src/views/wired/views/conditions/user-count-in-room/WiredConditionUserCountInRoomView.tsx:49 | the maximum slider sets max and leaves min |
| WiredUserCountCondition.UserCountInRoomView.Save | src/views/wired/views/conditions/user-count-in-room/WiredConditionUserCountInRoomView.tsx:28-31 | writes exactly two params, min then max, with no ordering check between them |
| WiredUserCountCondition.SaveThenAdopt | src/views/wired/views/conditions/user-count-in-room/WiredConditionUserCountInRoomView.tsx:14-31 | re-adopting the saved params restores the editor's (min, max) |

## Left out

- The chat-entry counter is a module-level variable in the source. Here it is a field of the store. The client shares one store instance, so the two agree.
- React hook scheduling is not modelled: deferred `useState` updates, `useEffect`, `useCallback`, stale closures and the instance sharing. Each handler is a sequential method that sees the current state.
- Subscribing to and unsubscribing from events is not modelled: it is framework plumbing.
- The hook's return of both logs to its consumers is not a separate member. The logs are immutable sequence values, so readers cannot change the store through them.
- The session lookup, the user-data lookup and the parsing of the guest-room result are external. They become inputs: an optional `RoomSession` that holds a user-directory map, and a plain `GuestRoomData` record.
- The current-date helper reads the clock. Each handler takes the timestamp as a string parameter instead.
- `FieldValue` gives the string, number and boolean coercions of a field value as inputs. JavaScript's own coercion rules, including NaN and non-integral numbers, are left out.
- The chat id counter is unbounded here. In the source it is a floating-point number, whose precision runs out only after 2^53 entries.
- The stamped entry is returned as a new value. The source assigns its `id` in place on the object it was given. Both callers pass a fresh object literal, so the difference cannot be seen.
- `RoomSettings` has only the seven fields the tab edits. Other fields of the draft are copied unchanged by the shallow copy, and no rule reads them.
- Rendering is not modelled: markup, CSS classes, localized text, the visitor-count and category option lists, and the delete button, which has no handler.
- The components are taken as mounted with their inputs present: the trigger, the room-settings draft and the save callback. Their `null` defaults in the source would make the handlers fail; that case is not modelled.
- The sliders' [1, 50] bounds are enforced by the widget, not by the state logic. Adopted trigger values are not clamped, and neither are the values here.
