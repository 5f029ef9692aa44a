/** The slash commands that touch the builder and the store: /setcode opens
    a builder session, /code shows the stored code, /resetcode removes it. */
module Commands {
  import opened Slots
  import opened Layout
  import opened Store
  import opened Builder

  /** What /code answers: no usable code, or the code's slot rendering. */
  datatype CodeReply = NoCodeSet | Shown(slots: string)

  /** What /resetcode answers. */
  datatype ResetReply =
    | NeedsManageServer  // the invoker lacks the Manage Server permission
    | ResetDone          // the stored code was removed
    | NoCodeToReset      // nothing was stored for this server

  /** /setcode: a new session owned by the invoker, shown with empty slots. */
  method SetCode(invoker: int, catalog: seq<Icon>) returns (view: CodeBuilderView, prompt: string)
    ensures fresh(view) && view.Valid() && view.live
    ensures view.ownerId == invoker && view.current == [] && view.icons == Placement(catalog)
    ensures prompt == SlotsRender([])
  {
    view := new CodeBuilderView(invoker, catalog);
    prompt := SlotsRender([]);
  }

  /** /code: a missing entry, an empty one or one of the wrong length is
      reported as no code; otherwise exactly the stored list is shown. */
  function Inspect(db: map<GuildId, Code>, guild: GuildId): (r: CodeReply)
    ensures r == NoCodeSet <==> guild !in db || |db[guild]| != MAX_CODE_LEN
    ensures r.Shown? ==> r.slots == Join(db[guild])
  {
    if guild !in db || db[guild] == [] || |db[guild]| != MAX_CODE_LEN then NoCodeSet
    else Shown(SlotsRender(db[guild]))
  }

  /** /resetcode: with the permission (decided outside this model), removes
      the server's entry if there is one and saves; other entries stay. */
  method ResetCode(store: CodeStore, guild: GuildId, canManage: bool) returns (reply: ResetReply)
    requires store.Valid()
    modifies store
    ensures store.Valid()
    ensures !canManage ==> reply == NeedsManageServer && store.db == old(store.db)
    ensures canManage && guild in old(store.db) ==>
              reply == ResetDone && store.db == old(store.db) - {guild}
    ensures canManage && guild !in old(store.db) ==>
              reply == NoCodeToReset && store.db == old(store.db)
    ensures AllComplete(old(store.db)) ==> AllComplete(store.db)
  {
    if !canManage {
      return NeedsManageServer;
    }
    if guild in store.db {
      store.db := store.db - {guild};
      store.Save();
      reply := ResetDone;
    } else {
      reply := NoCodeToReset;
    }
  }

  /** After a confirm has stored a code of space-free glyphs, /code shows that
      code, and splitting what it shows gives back exactly the stored list. */
  lemma {:induction false} InspectAfterConfirm(db: map<GuildId, Code>, guild: GuildId, code: Code)
    requires |code| == MAX_CODE_LEN && AllSpaceFree(code)
    ensures Inspect(db[guild := code], guild).Shown?
    ensures Split(Inspect(db[guild := code], guild).slots) == code
  {
    SplitJoin(code);
  }

  /** After a reset, /code finds nothing for that server and answers for
      every other server as before. */
  lemma InspectAfterReset(db: map<GuildId, Code>, guild: GuildId, other: GuildId)
    ensures Inspect(db - {guild}, guild) == NoCodeSet
    ensures other != guild ==> Inspect(db - {guild}, other) == Inspect(db, other)
  {
  }

  /** A whole session: a stranger's press changes nothing, the owner picks
      four icons (with a repeat), a fifth pick is refused, a stranger's
      Confirm stores nothing, and the owner's Confirm stores the four in
      order. */
  method OwnerBuildsAndSavesCode(owner: int, stranger: int, guild: GuildId, x: string, y: string, z: string)
    requires owner != stranger
  {
    var catalog := [Icon("book_and_quill", x), Icon("balloon", y), Icon("rail", z)];
    var store := new CodeStore.Load(map[]);
    var view, prompt := SetCode(owner, catalog);
    var a, b, c := view.icons[0], view.icons[1], view.icons[2];

    var reply := view.PressIcon(stranger, a);
    assert reply == OnlyStarter && view.current == [];

    reply := view.PressIcon(owner, c);
    reply := view.PressIcon(owner, a);
    reply := view.PressIcon(owner, b);
    reply := view.PressIcon(owner, c);
    assert view.current == [z, x, y, z];

    reply := view.PressIcon(owner, a);
    assert reply == CodeAlreadyFull;

    reply := view.PressConfirm(stranger, guild, true, store);
    assert reply == OnlyStarter && store.db == map[];

    reply := view.PressConfirm(owner, guild, true, store);
    assert store.db == map[guild := [z, x, y, z]];
    assert reply.Saved? && !view.live;
  }

  /** Resets of a stored code: refused without the permission, then done,
      then nothing left to reset; /code follows each step. */
  method ResetStoredCode(guild: GuildId, code: Code)
    requires |code| == MAX_CODE_LEN
  {
    var store := new CodeStore.Load(map[guild := code]);
    assert Inspect(store.db, guild).Shown?;

    var reset := ResetCode(store, guild, false);
    assert reset == NeedsManageServer && guild in store.db;
    reset := ResetCode(store, guild, true);
    assert reset == ResetDone && Inspect(store.db, guild) == NoCodeSet;
    reset := ResetCode(store, guild, true);
    assert reset == NoCodeToReset;
  }
}
