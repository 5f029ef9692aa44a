# Join-code builder of the Minecraft Education join-code bot

This project models the core of a Discord bot that stores one Minecraft
Education join code per server. A join code is four pictorial icons in a set
order. `/setcode` opens a builder session. Its icon buttons append glyphs to
the code being built, and its Clear, Confirm and Cancel buttons act on the
whole code. Confirm stores the code in a per-server map, which is saved to a
data file after every change. `/code` shows the stored code, and
`/resetcode` removes it.

Files:

- `slots.dfy` (module `Slots`): `MAX_CODE_LEN` (4), the placeholder glyph,
  Python's `" ".join` and `str.split(" ")` over strings, and `slots_render`.
  `SlotsRender` pads a code with placeholders (`Slots`) and joins the slots
  with spaces. The lemmas show that the result splits back into exactly four
  slots: first the picked glyphs in order, then the placeholders.
- `layout.dfy` (module `Layout`): the button-layout loop of the view's
  constructor. `LayOutIcons` is an imperative loop with a row counter, a
  column counter and an early `break`. It is proved equal to `Placement`:
  catalog entry `i` goes to row `i / 5`, and only the first 20 entries are
  kept, because row 4 holds the control buttons.
- `store.dfy` (module `Store`): the global `db` map, as class `CodeStore`.
  The ghost field `saved` stands for the data file. Its invariant `Valid()`
  says the file mirrors the map between handlers, because every change is
  followed by `Save`.
- `builder.dfy` (module `Builder`): class `CodeBuilderView`, with its owner,
  its icon buttons and the mutable list `current`. The four button callbacks
  are its methods `PressIcon`, `PressClear`, `PressConfirm` and
  `PressCancel`. The invariant `Valid()` says that `current` never holds
  more than four entries, and that each entry is the emoji of one of this
  view's buttons.
- `commands.dfy` (module `Commands`): the handlers `SetCode`, `Inspect` (for
  `/code`) and `ResetCode`. The lemmas connect a confirm or a reset with what
  `/code` shows next. `OwnerBuildsAndSavesCode` and `ResetStoredCode` are
  verified clients. They walk one whole session and a series of resets
  using only the method contracts.

A press by anyone other than the owner changes nothing. `PressIcon`,
`PressClear` and `PressCancel` cannot reach the store: it is not among
their parameters, and their `modifies` clauses name only the view.
`PressConfirm` states outright that the store is unchanged in that case. The
stored value is a `seq`, so storing it is a copy: later changes to the
view's list cannot reach the stored code. Two sessions for the same server
may both confirm. The later write replaces the earlier one, as the map update
in `PressConfirm` states.

The source has no "closed" flag. After Confirm or Cancel, it edits the
message so that it no longer carries the view's controls. The model shows
this with the ghost field `live`. Every press requires `live`, and a
successful Confirm or an owner's Cancel sets it to false. So no press
reaches a finished session, and no "session closed" error exists, because
the code raises none.

Two points of the code's own behaviour shape the model:

- The loader does not check the entries it reads: it keeps whatever map
  the file holds, and `/code` checks the length of an entry before showing
  it. So `CodeStore.Load` accepts any map. `PressConfirm` and `ResetCode`
  keep every stored code at length 4 when that already held (`AllComplete`),
  but the model never assumes it.
- Confirm takes its store key from the text of the interaction's server id,
  which is `"None"` outside a server, and it builds its answer from the
  server's name. When the server object is not available, the code is
  stored and saved under that key, and the handler then fails before it
  answers. The message keeps its controls. `PressConfirm` models this with
  the input `inServer` and the reply `Unanswered`.

## Model

| member | source | states |
|---|---|---|
| `Slots.Join` | bot.py:70 | `" ".join`: no parts give the empty string; the first part opens the result, and a space follows it when more parts come; `SplitJoin` proves the parts are recovered by splitting |
| `Slots.SlotsRender` | bot.py:69-70 | `slots_render`: for space-free glyphs, splitting the rendering at spaces gives exactly `Slots(emojis)`: 4 slots, with the glyphs first and then placeholders, for up to 4 glyphs (`SlotsRenderHasFourSlots`), and the whole code for more than 4 (`SlotsRenderLongCode`) |
| `Slots.Padding` | bot.py:70 | `["▢"] * n` has `max(n, 0)` entries, and every one of them is the placeholder |
| `Slots.Slots` | bot.py:69-70 | a code of at most 4 glyphs gives exactly 4 slots: the glyphs in order, then placeholders; a longer code is kept whole, untruncated |
| `Slots.SplitJoin` | bot.py:70 | splitting the space-joined list of space-free parts at spaces gives back exactly the parts (round trip of the join) |
| `Slots.SlotsRenderHasFourSlots` | bot.py:69-70 | for at most 4 space-free glyphs, the rendering has exactly 4 space-separated slots: the inputs in order, then `4 - len` placeholders |
| `Slots.SlotsRenderLongCode` | bot.py:69-70 | more than 4 glyphs are shown in full, with no placeholder (a negative repeat count gives no copies) |
| `Layout.Placement` | bot.py:143-153 | the intended layout: `min(len, 20)` buttons in catalog order, with matching name and emoji, each in a row below the control row 4 |
| `Layout.PlacementRows` | bot.py:144-153 | rows fill in catalog order, and two icons in the same row are fewer than 5 positions apart |
| `Layout.LayOutIcons` | bot.py:144-153 | the row/column loop with its early break produces exactly `Placement(catalog)`: icon `i` is in row `i / 5`, and entries beyond 20 are dropped |
| `Store.CodeStore.Load` | bot.py:63 | the store starts as the map read from the data file, with the file mirroring it |
| `Store.CodeStore.Save` | bot.py:57-61 | saving leaves the map unchanged and makes the file mirror it |
| `Builder.CodeBuilderView.constructor` | bot.py:138-157 | a new session has the invoker as its owner, an empty code, and buttons laid out as `Placement(catalog)` |
| `Builder.CodeBuilderView.PressIcon` | bot.py:79-91 | a non-owner's press, or a press while 4 are picked, is refused and leaves `current` unchanged; otherwise the button's emoji is appended at the end, with earlier entries kept in order; `len(current) <= 4` is preserved |
| `Builder.CodeBuilderView.PressClear` | bot.py:96-103 | the owner's Clear empties `current` and shows 4 empty slots; a non-owner's press changes nothing |
| `Builder.CodeBuilderView.PressConfirm` | bot.py:108-124 | only the owner with exactly 4 picked writes the store: `db[guild]` becomes the code, all other entries are unchanged, and the file is saved; inside a server the answer shows the code and the controls are removed; outside one the handler fails after the save, with no answer and the controls kept; in every other case `db` is unchanged; complete stores stay complete |
| `Builder.CodeBuilderView.PressCancel` | bot.py:129-135 | the owner's Cancel removes the controls and keeps the code; a non-owner's press changes nothing; the store is not reachable |
| `Commands.SetCode` | bot.py:166-173 | `/setcode` opens a fresh session owned by the invoker, with an empty code, and shows 4 empty slots |
| `Commands.Inspect` | bot.py:186-198 | `/code` reports no code exactly when the entry is missing or its length is not 4; otherwise it shows exactly the stored list, joined |
| `Commands.ResetCode` | bot.py:200-209 | without the permission, nothing changes; with it, a present key is removed (all other keys intact) and the file is saved; an absent key leaves `db` unchanged and reports that there is nothing to reset |
| `Commands.InspectAfterConfirm` | bot.py:114-119 | after a confirm stores 4 space-free glyphs, `/code` shows them, and its display splits back into exactly the stored list |
| `Commands.InspectAfterReset` | bot.py:204-205 | after a reset, `/code` reports no code for that server and answers for every other server as before |

## Left out

- The 300-second view timeout is not modelled. It is time-driven, and the
  Discord library enforces it.
- The data file's I/O and JSON decoding are not modelled. `Load` receives
  the decoded map. That map is `{}` when the file is missing or the JSON
  cannot be decoded (`json.JSONDecodeError`). `Save` stands for the
  temp-file write and the atomic replace.
- `Store.CodeStore.Load` does not model a data file whose bytes are not
  valid UTF-8. Reading it raises an error that the loader does not catch,
  which stops the bot at start-up.
- `Store.CodeStore.Load` does not model valid JSON whose top level is not
  an object, such as `[]`. The loader returns it as it is, and `/code` then
  fails when it looks up the server.
- `Store.CodeStore.Load` models values only as lists of strings. A JSON file
  could hold other values, such as a string of length 4, which would make
  `slots_render` fail in `/code`.
- The `manage_guild` permission check is decided by Discord. It is the
  boolean `canManage` of `ResetCode`. The `/setcode` and `/resetcode` error
  handlers only send messages, and `/setcode` has no permission check.
- Message texts, embeds, colours and ephemeral flags are not modelled.
  Replies are the outcome datatypes `Reply`, `CodeReply` and `ResetReply`,
  which carry the slot rendering where the message shows it.
- A guild id is taken as the string the handlers compute (`str(guild_id)`,
  `"None"` outside a server). How Discord numbers servers and users is not
  modelled. Whether the server object is available is the input `inServer`
  of `PressConfirm`.
- The `/ping` and `/help` commands are not modelled: they send static text.
- Also not modelled: bot setup, command sync in `on_ready`, the token check
  and `bot.run`.
- The `ICONS` catalog contents are input data: the catalog is a parameter.
