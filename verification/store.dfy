/** The per-server code store: a map from a server (guild) id, as a string,
    to the stored code, a list of emoji strings. The map lives in memory and
    every change is followed by a save of the whole map to the data file. */
module Store {
  import opened Slots

  type GuildId = string
  type Code = seq<string>

  /** Every stored code is complete: what the builder writes always is, but
      codes loaded from the data file are not checked. */
  ghost predicate AllComplete(db: map<GuildId, Code>) {
    forall g :: g in db ==> |db[g]| == MAX_CODE_LEN
  }

  class CodeStore {
    /** The in-memory map. */
    var db: map<GuildId, Code>
    /** What the data file holds (the last map written by a save). */
    ghost var saved: map<GuildId, Code>

    /** Between handlers the file mirrors the map. */
    ghost predicate Valid()
      reads this
    {
      saved == db
    }

    /** Loading at start-up: `loaded` is what was read from the data file
        (the empty map when the file is missing or its JSON cannot be
        decoded). */
    constructor Load(loaded: map<GuildId, Code>)
      ensures Valid() && db == loaded
    {
      db := loaded;
      saved := loaded;
    }

    /** save_db: the whole map is written out (atomically replacing the file). */
    method Save()
      modifies this`saved
      ensures Valid() && db == old(db)
    {
      saved := db;
    }
  }
}
