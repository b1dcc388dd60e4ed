/**
 * The quiz's fixed constants (`ui` and `os` in consts.rs) and the rule that
 * decides whether the last checked box of a selection must be blocked.
 */
module Consts {
  import opened Common

  /** Number of candidate answers shown per question. */
  const ANSWER_NUM: nat := 4

  /** Difficulty tier indices. */
  const PLAY_10: int := 0
  const PLAY_25: int := 1
  const PLAY_HARD: int := 2

  /** Round caps, one per tier (99 stands for "unlimited"). */
  const PLAY_10_CNT: int := 10
  const PLAY_25_CNT: int := 25
  const PLAY_HARD_CNT: int := 99

  /** Button colour indices. */
  const C_GRAY: int := 0
  const C_FREEDOM: int := 1
  const C_LAVENDER: int := 2
  const C_BLUE_SKY: int := 3
  const C_MANDARIN: int := 4
  const C_RIPE_LIME: int := 5

  /** Language indices. */
  const I_EN: int := 0
  const I_RU: int := 1
  const I_CN: int := 2

  /** Directory prefix of the flag images (the Linux/macOS debug-build value). */
  const LOAD_IMAGE: string := "assets/flags/4x3/"

  /** Number of continent checkboxes and of mode checkboxes. */
  const CONTINENT_BOXES: nat := 6
  const MODE_BOXES: nat := 3

  /** The tier table: tier index paired with its round cap, in tier order. */
  const TIERS: seq<(int, int)> := [(PLAY_10, PLAY_10_CNT), (PLAY_25, PLAY_25_CNT), (PLAY_HARD, PLAY_HARD_CNT)]

  /** The colour indices in palette order. */
  const COLOR_INDICES: seq<int> := [C_GRAY, C_FREEDOM, C_LAVENDER, C_BLUE_SKY, C_MANDARIN, C_RIPE_LIME]

  /** The palette (`pallet`) as ARGB words, in colour-index order. */
  const PALETTE: seq<bv32> := [0xff80_8080, 0xffe7_86d2, 0xffab_86e7, 0xff5f_79ef, 0xffef_bd5f, 0xff45_f931]

  /** The language indices. */
  const LANGUAGE_INDICES: seq<int> := [I_EN, I_RU, I_CN]

  /**
   * The tables above are well formed: tier `k` has index `k` and caps grow
   * with the tier, and colour and language indices are pairwise distinct
   * and dense from 0.
   */
  lemma ConstantTables()
    ensures forall k :: 0 <= k < |TIERS| ==> TIERS[k].0 == k
    ensures TIERS[PLAY_10].1 == 10 && TIERS[PLAY_25].1 == 25 && TIERS[PLAY_HARD].1 == 99
    ensures forall i, j :: 0 <= i < j < |TIERS| ==> TIERS[i].1 < TIERS[j].1
    ensures forall k :: 0 <= k < |COLOR_INDICES| ==> COLOR_INDICES[k] == k
    ensures forall k :: 0 <= k < |LANGUAGE_INDICES| ==> LANGUAGE_INDICES[k] == k
  {
  }

  /**
   * `block_checkbox!(checkbox, len)`: true when at most one of the first
   * `len` boxes is checked, so that the presentation layer keeps the last
   * checked box from being cleared. The slice `[..len]` panics when
   * `len` exceeds the vector, hence the precondition.
   */
  function BlockCheckbox(checkbox: seq<bool>, len: nat): (blocked: bool)
    requires len <= |checkbox|
    ensures blocked <==> AtMostOneChecked(checkbox[..len])
  {
    CountTrueAtMostOne(checkbox[..len]);
    CountTrue(checkbox[..len]) <= 1
  }

  /** Exactly one checked box among the first `len` blocks it; so does none. */
  lemma BlockCheckboxCases(checkbox: seq<bool>, len: nat)
    requires len <= |checkbox|
    ensures (exists k :: 0 <= k < len && checkbox[k] && forall i :: 0 <= i < len && i != k ==> !checkbox[i])
            ==> BlockCheckbox(checkbox, len)
    ensures (forall i :: 0 <= i < len ==> !checkbox[i]) ==> BlockCheckbox(checkbox, len)
    ensures (exists i, j :: 0 <= i < j < len && checkbox[i] && checkbox[j]) ==> !BlockCheckbox(checkbox, len)
  {
    var s := checkbox[..len];
    if exists i, j :: 0 <= i < j < len && checkbox[i] && checkbox[j] {
      var i, j :| 0 <= i < j < len && checkbox[i] && checkbox[j];
      assert s[i] && s[j];
    }
  }

  /** Boxes at positions `len` and beyond never change the verdict. */
  lemma BlockCheckboxIgnoresTail(v: seq<bool>, w: seq<bool>, len: nat)
    requires len <= |v| && len <= |w|
    requires forall i :: 0 <= i < len ==> v[i] == w[i]
    ensures BlockCheckbox(v, len) == BlockCheckbox(w, len)
  {
    assert v[..len] == w[..len];
  }
}
