/** The slot display of a join code: a partial or complete code is shown as
    MAX_CODE_LEN space-separated slots, the picked glyphs first and a
    placeholder box in every slot not yet picked. */
module Slots {

  /** Number of icons in a join code. */
  const MAX_CODE_LEN: nat := 4

  /** The placeholder shown in an empty slot (U+25A2, WHITE SQUARE WITH ROUNDED CORNERS). */
  const PLACEHOLDER: string := "\U{25A2}"

  /** True when `w` holds no space, so that it survives a split at spaces. */
  predicate SpaceFree(w: string) {
    ' ' !in w
  }

  predicate AllSpaceFree(parts: seq<string>) {
    forall i :: 0 <= i < |parts| ==> SpaceFree(parts[i])
  }

  /** The separator join: the parts with one space between neighbours. The
      first part opens the result and, when more parts follow, a space comes
      right after it. */
  function Join(parts: seq<string>): (r: string)
    ensures |parts| == 0 ==> r == ""
    ensures |parts| >= 1 ==> |parts[0]| <= |r| && r[..|parts[0]|] == parts[0]
    ensures |parts| >= 2 ==> |parts[0]| < |r| && r[|parts[0]|] == ' '
  {
    if |parts| == 0 then ""
    else if |parts| == 1 then parts[0]
    else parts[0] + " " + Join(parts[1..])
  }

  /** Splitting at every single space; the empty string is one empty field. */
  function Split(s: string): (r: seq<string>)
    ensures |r| >= 1
  {
    if s == [] then [""]
    else
      var rest := Split(s[1..]);
      if s[0] == ' ' then [""] + rest
      else [[s[0]] + rest[0]] + rest[1..]
  }

  /** List repetition `[PLACEHOLDER] * n`: a count of zero or less gives no copies. */
  function Padding(n: int): (r: seq<string>)
    ensures |r| == if n <= 0 then 0 else n
    ensures forall i :: 0 <= i < |r| ==> r[i] == PLACEHOLDER
  {
    if n <= 0 then [] else [PLACEHOLDER] + Padding(n - 1)
  }

  /** The slots shown for a code: the picked glyphs in order, then placeholders. */
  function Slots(emojis: seq<string>): (r: seq<string>)
    ensures |emojis| <= MAX_CODE_LEN ==> |r| == MAX_CODE_LEN
    ensures |emojis| >= MAX_CODE_LEN ==> r == emojis
    ensures |emojis| <= |r| && r[..|emojis|] == emojis
    ensures forall i :: |emojis| <= i < |r| ==> r[i] == PLACEHOLDER
  {
    emojis + Padding(MAX_CODE_LEN - |emojis|)
  }

  /** slots_render: the slots joined by single spaces. For space-free
      glyphs, splitting the rendering at spaces gives back exactly the
      slots. */
  function SlotsRender(emojis: seq<string>): (r: string)
    ensures AllSpaceFree(emojis) ==> Split(r) == Slots(emojis)
  {
    SlotsSplitBack(emojis);
    Join(Slots(emojis))
  }

  /** The slots of space-free glyphs survive a join and a split. */
  lemma SlotsSplitBack(emojis: seq<string>)
    ensures AllSpaceFree(emojis) ==> Split(Join(Slots(emojis))) == Slots(emojis)
  {
    if AllSpaceFree(emojis) {
      var s := Slots(emojis);
      assert AllSpaceFree(s) by {
        forall i | 0 <= i < |s| ensures SpaceFree(s[i]) {
          if i < |emojis| {
            assert s[i] == s[..|emojis|][i] == emojis[i];
          } else {
            assert s[i] == PLACEHOLDER;
          }
        }
      }
      SplitJoin(s);
    }
  }

  /** Splitting a space-free word followed by anything glues the word onto
      the first field of the rest. */
  lemma {:induction false} SplitWordPrefix(w: string, t: string)
    requires SpaceFree(w)
    ensures Split(w + t) == [w + Split(t)[0]] + Split(t)[1..]
  {
    if w == [] {
      assert w + t == t && w + Split(t)[0] == Split(t)[0];
      assert Split(t) == [Split(t)[0]] + Split(t)[1..];
    } else {
      assert (w + t)[1..] == w[1..] + t;
      SplitWordPrefix(w[1..], t);
      assert [w[0]] + (w[1..] + Split(t)[0]) == w + Split(t)[0];
    }
  }

  /** Splitting a joined list of space-free parts gives the parts back. */
  lemma {:induction false} SplitJoin(parts: seq<string>)
    requires |parts| >= 1 && AllSpaceFree(parts)
    ensures Split(Join(parts)) == parts
  {
    assert SpaceFree(parts[0]);
    if |parts| == 1 {
      SplitWordPrefix(parts[0], "");
      assert parts[0] + "" == parts[0];
    } else {
      var tail := " " + Join(parts[1..]);
      assert AllSpaceFree(parts[1..]) by {
        forall i | 0 <= i < |parts| - 1 ensures SpaceFree(parts[1..][i]) {
          assert parts[1..][i] == parts[i + 1];
        }
      }
      SplitJoin(parts[1..]);
      assert tail[1..] == Join(parts[1..]);
      assert Split(tail) == [""] + parts[1..];
      assert Join(parts) == parts[0] + tail;
      SplitWordPrefix(parts[0], tail);
      assert parts[0] + "" == parts[0];
    }
  }

  /** For a code of at most MAX_CODE_LEN space-free glyphs the rendering splits
      into exactly MAX_CODE_LEN slots: the glyphs in order, then
      MAX_CODE_LEN - |emojis| placeholders. */
  lemma SlotsRenderHasFourSlots(emojis: seq<string>)
    requires |emojis| <= MAX_CODE_LEN && AllSpaceFree(emojis)
    ensures |Split(SlotsRender(emojis))| == MAX_CODE_LEN
    ensures Split(SlotsRender(emojis))[..|emojis|] == emojis
    ensures forall i :: |emojis| <= i < MAX_CODE_LEN ==> Split(SlotsRender(emojis))[i] == PLACEHOLDER
  {
  }

  /** A code longer than MAX_CODE_LEN is shown in full, with no placeholder
      and no truncation. */
  lemma SlotsRenderLongCode(emojis: seq<string>)
    requires |emojis| > MAX_CODE_LEN && AllSpaceFree(emojis)
    ensures Split(SlotsRender(emojis)) == emojis
  {
  }
}
