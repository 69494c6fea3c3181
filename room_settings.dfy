/** The basic tab of the room-settings editor: a draft of the room's
    metadata, the field-change reducer that edits it, and the save callback
    it drives. */
module NavigatorRoomSettings {

  /** The list object behind a draft's `tags`. It is a reference: the
      shallow copy the change handler makes of a draft shares it with the
      draft it was copied from, so a tag edit is seen through both. */
  class TagList {
    var items: seq<string>

    constructor (initial: seq<string>)
      ensures items == initial
    {
      items := initial;
    }

    /** Appends `more` at the end, in order. */
    method Push(more: seq<string>)
      modifies this
      ensures items == old(items) + more
    {
      items := items + more;
    }

    /** Overwrites the element at `index`. */
    method Set(index: nat, tag: string)
      requires index < |items|
      modifies this
      ensures items == old(items)[index := tag]
    {
      items := items[index := tag];
    }
  }

  /** The room-settings draft. `tradeState` is 0 (not allowed), 1 (not with
      rights holders) or 2 (allowed) in the form, but any number is stored. */
  datatype RoomSettings = RoomSettings(
    roomName: string,
    roomDescription: string,
    categoryId: int,
    userCount: int,
    tradeState: int,
    tags: TagList,
    allowWalkthrough: bool)

  /** A field value as the form delivers it, together with what the
      string, number and boolean coercions make of it. */
  datatype FieldValue = FieldValue(asString: string, asNumber: int, asBoolean: bool)

  /** The text a tag input shows for slot `i`: the tag there, or the empty
      string when the list is shorter. */
  function Slot(tags: seq<string>, i: nat): (shown: string)
    ensures i < |tags| ==> shown == tags[i]
    ensures |tags| <= i ==> shown == ""
  {
    if i < |tags| then tags[i] else ""
  }

  /** The tags after editing the first tag input: slot 0 becomes `tag`,
      everything after it is kept. */
  function Tag1Edit(tags: seq<string>, tag: string): (r: seq<string>)
    ensures |tags| == 0 ==> r == [tag]
    ensures |tags| > 0 ==> r == tags[0 := tag]
    ensures |tags| <= 2 ==> |r| <= 2
  {
    [tag] + (if |tags| == 0 then [] else tags[1..])
  }

  /** The tags after editing the second tag input: slot 0 keeps what the
      first input shows (an empty placeholder when there is none yet), slot
      1 becomes `tag`, everything after it is kept. */
  function Tag2Edit(tags: seq<string>, tag: string): (r: seq<string>)
    ensures |tags| == 0 ==> r == ["", tag]
    ensures |tags| == 1 ==> r == [tags[0], tag]
    ensures |tags| >= 2 ==> r == tags[1 := tag]
    ensures |tags| <= 2 ==> |r| == 2
  {
    [Slot(tags, 0), tag] + (if |tags| <= 2 then [] else tags[2..])
  }

  /** The two tag inputs edit independent slots: each edit changes what its
      own input shows and leaves what the other shows alone, and after an
      edit of the second input the first slot exists. */
  lemma TagEditsAreSlotwise(tags: seq<string>, tag: string)
    ensures Slot(Tag1Edit(tags, tag), 0) == tag && Slot(Tag1Edit(tags, tag), 1) == Slot(tags, 1)
    ensures Slot(Tag2Edit(tags, tag), 0) == Slot(tags, 0) && Slot(Tag2Edit(tags, tag), 1) == tag
    ensures |Tag2Edit(tags, tag)| >= 2
  {
  }

  /** Name and description edits wait for the input to lose focus; every
      other field, including an unknown one, is saved at once. */
  predicate SavesImmediately(field: string): (save: bool)
    ensures field == "name" || field == "description" ==> !save
    ensures field in ["category", "max_visitors", "trade_state", "tag_1", "tag_2", "allow_walkthrough"] ==> save
    ensures field != "name" && field != "description" ==> save
  {
    field != "name" && field != "description"
  }

  /** The tab's view of its parent: the draft it is given and the drafts it
      has passed to the save callback, oldest first. */
  class BasicTab {
    var roomSettingsData: RoomSettings
    var saved: seq<RoomSettings>

    constructor (data: RoomSettings)
      ensures roomSettingsData == data && saved == []
    {
      roomSettingsData := data;
      saved := [];
    }

    /** The field-change reducer: applies `value` to the named field of a
        shallow copy of the draft, hands the copy back as the new draft and,
        unless the field is the name or the description, saves it. */
    method HandleChange(field: string, value: FieldValue)
      modifies this, roomSettingsData.tags
      ensures roomSettingsData.tags == old(roomSettingsData.tags)
      ensures roomSettingsData.roomName ==
        if field == "name" then value.asString else old(roomSettingsData.roomName)
      ensures roomSettingsData.roomDescription ==
        if field == "description" then value.asString else old(roomSettingsData.roomDescription)
      ensures roomSettingsData.categoryId ==
        if field == "category" then value.asNumber else old(roomSettingsData.categoryId)
      ensures roomSettingsData.userCount ==
        if field == "max_visitors" then value.asNumber else old(roomSettingsData.userCount)
      ensures roomSettingsData.tradeState ==
        if field == "trade_state" then value.asNumber else old(roomSettingsData.tradeState)
      ensures roomSettingsData.allowWalkthrough ==
        if field == "allow_walkthrough" then value.asBoolean else old(roomSettingsData.allowWalkthrough)
      ensures roomSettingsData.tags.items ==
        if field == "tag_1" then Tag1Edit(old(roomSettingsData.tags.items), value.asString)
        else if field == "tag_2" then Tag2Edit(old(roomSettingsData.tags.items), value.asString)
        else old(roomSettingsData.tags.items)
      ensures saved == old(saved) + if SavesImmediately(field) then [roomSettingsData] else []
    {
      var roomSettings := roomSettingsData;
      var save := true;
      var tags := roomSettings.tags;
      if field == "name" {
        roomSettings := roomSettings.(roomName := value.asString);
        save := false;
      } else if field == "description" {
        roomSettings := roomSettings.(roomDescription := value.asString);
        save := false;
      } else if field == "category" {
        roomSettings := roomSettings.(categoryId := value.asNumber);
      } else if field == "max_visitors" {
        roomSettings := roomSettings.(userCount := value.asNumber);
      } else if field == "trade_state" {
        roomSettings := roomSettings.(tradeState := value.asNumber);
      } else if field == "tag_1" {
        if |tags.items| == 0 {
          tags.Push([value.asString]);
        } else {
          tags.Set(0, value.asString);
        }
      } else if field == "tag_2" {
        if |tags.items| == 0 {
          tags.Push(["", value.asString]);
        } else if |tags.items| == 1 {
          tags.Push([value.asString]);
        } else {
          tags.Set(1, value.asString);
        }
      } else if field == "allow_walkthrough" {
        roomSettings := roomSettings.(allowWalkthrough := value.asBoolean);
      }
      roomSettingsData := roomSettings;
      if save {
        saved := saved + [roomSettings];
      }
    }

    /** The focus-loss handler of the name, description and tag inputs:
        saves the current draft as it is. */
    method CommitDraft()
      modifies this
      ensures roomSettingsData == old(roomSettingsData)
      ensures saved == old(saved) + [roomSettingsData]
    {
      saved := saved + [roomSettingsData];
    }
  }
}
