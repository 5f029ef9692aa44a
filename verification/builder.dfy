/** The code builder session: one view per /setcode invocation, owned by the
    user who ran the command. Its icon buttons append glyphs to the code being
    built; Clear, Confirm and Cancel act on the whole code. */
module Builder {
  import opened Slots
  import opened Layout
  import opened Store

  /** What a press answers with. The text of each message is not modelled; a
      refreshed or saved view carries its slot rendering. */
  datatype Reply =
    | OnlyStarter            // the press came from someone other than the owner
    | CodeAlreadyFull        // an icon press with MAX_CODE_LEN icons already picked
    | PickAllFirst           // Confirm with fewer or more than MAX_CODE_LEN icons
    | Refreshed(slots: string)  // the view is redrawn with the current code
    | Saved(slots: string)   // the code was stored; the controls are removed
    | Cancelled              // the controls are removed, nothing stored
    | Unanswered             // the handler failed before answering; the controls stay

  /** The emojis of a list of buttons. */
  function Glyphs(buttons: seq<IconButton>): (r: set<string>) {
    set b | b in buttons :: b.emoji
  }

  class CodeBuilderView {
    const ownerId: int
    const icons: seq<IconButton>
    /** The icons picked so far, in order. */
    var current: seq<string>
    /** Whether the message still carries this view's controls. Confirm and
        Cancel edit the message with no view, after which no press reaches
        this session. */
    ghost var live: bool

    /** The code never exceeds MAX_CODE_LEN and holds only this view's glyphs. */
    ghost predicate Valid()
      reads this
    {
      && |current| <= MAX_CODE_LEN
      && (forall i :: 0 <= i < |current| ==> current[i] in Glyphs(icons))
      && (forall b :: b in icons ==> b.row < CONTROL_ROW)
    }

    /** A new, empty session for `owner` with buttons for the catalog. */
    constructor (owner: int, catalog: seq<Icon>)
      ensures Valid() && live
      ensures ownerId == owner && current == []
      ensures icons == Placement(catalog)
    {
      var buttons := LayOutIcons(catalog);
      ownerId, icons := owner, buttons;
      current := [];
      live := true;
    }

    /** IconButton's callback: only the owner may pick, and only while the
        code is not full; an accepted pick appends the button's emoji. */
    method PressIcon(user: int, button: IconButton) returns (reply: Reply)
      requires Valid() && live && button in icons
      modifies this`current
      ensures Valid() && live
      ensures user != ownerId ==> reply == OnlyStarter && current == old(current)
      ensures user == ownerId && |old(current)| >= MAX_CODE_LEN ==>
                reply == CodeAlreadyFull && current == old(current)
      ensures user == ownerId && |old(current)| < MAX_CODE_LEN ==>
                current == old(current) + [button.emoji] && reply == Refreshed(SlotsRender(current))
    {
      if user != ownerId {
        return OnlyStarter;
      }
      if |current| >= MAX_CODE_LEN {
        return CodeAlreadyFull;
      }
      current := current + [button.emoji];
      reply := Refreshed(SlotsRender(current));
    }

    /** ClearButton's callback: the owner empties the code. */
    method PressClear(user: int) returns (reply: Reply)
      requires Valid() && live
      modifies this`current
      ensures Valid() && live
      ensures user != ownerId ==> reply == OnlyStarter && current == old(current)
      ensures user == ownerId ==> current == [] && reply == Refreshed(SlotsRender([]))
    {
      if user != ownerId {
        return OnlyStarter;
      }
      current := [];
      reply := Refreshed(SlotsRender(current));
    }

    /** ConfirmButton's callback: with exactly MAX_CODE_LEN icons picked, the
        owner stores a copy of the code under `guild` (the text of the
        interaction's server id, "None" outside a server) and saves the store.
        The answer names the server, so it is sent, and the controls removed,
        only when the server object is known (`inServer`); otherwise the
        handler fails after the save and the message keeps its controls. */
    method PressConfirm(user: int, guild: GuildId, inServer: bool, store: CodeStore) returns (reply: Reply)
      requires Valid() && live && store.Valid()
      modifies this`live, store
      ensures Valid() && store.Valid() && current == old(current)
      ensures user != ownerId ==>
                reply == OnlyStarter && live && store.db == old(store.db)
      ensures user == ownerId && |current| != MAX_CODE_LEN ==>
                reply == PickAllFirst && live && store.db == old(store.db)
      ensures user == ownerId && |current| == MAX_CODE_LEN ==>
                store.db == old(store.db)[guild := current]
      ensures user == ownerId && |current| == MAX_CODE_LEN && inServer ==>
                reply == Saved(SlotsRender(current)) && !live
      ensures user == ownerId && |current| == MAX_CODE_LEN && !inServer ==>
                reply == Unanswered && live
      ensures AllComplete(old(store.db)) ==> AllComplete(store.db)
    {
      if user != ownerId {
        return OnlyStarter;
      }
      if |current| != MAX_CODE_LEN {
        return PickAllFirst;
      }
      store.db := store.db[guild := current];
      store.Save();
      if !inServer {
        return Unanswered;
      }
      reply := Saved(SlotsRender(current));
      live := false;
    }

    /** CancelButton's callback: the owner removes the controls. The store is
        not a parameter, so it cannot change. */
    method PressCancel(user: int) returns (reply: Reply)
      requires Valid() && live
      modifies this`live
      ensures Valid() && current == old(current)
      ensures user != ownerId ==> reply == OnlyStarter && live
      ensures user == ownerId ==> reply == Cancelled && !live
    {
      if user != ownerId {
        return OnlyStarter;
      }
      reply := Cancelled;
      live := false;
    }
  }
}
