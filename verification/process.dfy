/**
 * The quiz's selection logic (`gamelogic` in process.rs): the continent
 * filter, the two random samplers, the checkbox-to-list selectors and the
 * colour and language name/index tables.
 */
module GameLogic {
  import opened Common
  import opened Configure
  import opened GameModes
  import opened Consts

  /** A country passes the filter when its continent is present and targeted. */
  predicate Kept(c: Country, targets: seq<Continent>)
  {
    match c.continent
    case Some(k) => k in targets
    case None => false
  }

  /** `sub` is `s` with some elements dropped, the rest kept in order. */
  ghost predicate IsSubsequence<T>(sub: seq<T>, s: seq<T>)
    decreases |s|
  {
    if sub == [] then true
    else if s == [] then false
    else (sub[0] == s[0] && IsSubsequence(sub[1..], s[1..])) || IsSubsequence(sub, s[1..])
  }

  /**
   * `filter_by_continents`: the countries whose continent is `Some(c)` with
   * `c` among the targets, in input order, each as often as it occurs.
   */
  function FilterByContinents(countries: seq<Country>, targets: seq<Continent>): (r: seq<Country>)
    ensures forall c :: c in r <==> c in countries && Kept(c, targets)
    ensures forall c :: c in r ==> c.continent.Some? && c.continent.value in targets
    ensures forall c :: multiset(r)[c] == if Kept(c, targets) then multiset(countries)[c] else 0
    ensures IsSubsequence(r, countries)
  {
    if countries == [] then []
    else
      var rest := FilterByContinents(countries[1..], targets);
      assert countries == [countries[0]] + countries[1..];
      if Kept(countries[0], targets) then [countries[0]] + rest else rest
  }

  /** Filtering by the same targets twice changes nothing the second time. */
  lemma {:induction false} FilterIdempotent(countries: seq<Country>, targets: seq<Continent>)
    ensures FilterByContinents(FilterByContinents(countries, targets), targets) == FilterByContinents(countries, targets)
  {
    if countries != [] {
      FilterIdempotent(countries[1..], targets);
      var rest := FilterByContinents(countries[1..], targets);
      if Kept(countries[0], targets) {
        assert ([countries[0]] + rest)[1..] == rest;
      }
    }
  }

  /** A country with no continent is in no filter result, whatever the targets. */
  lemma FilterDropsUnknownContinent(countries: seq<Country>, targets: seq<Continent>, c: Country)
    requires c.continent.None?
    ensures c !in FilterByContinents(countries, targets)
  {
  }

  /**
   * Whatever the checkboxes, the worker's selection keeps only countries on
   * one of the six named continents: a continent string that decoded to
   * `Other` never reaches a question.
   */
  lemma SelectionNeverKeepsOther(countries: seq<Country>, checkbox: seq<bool>)
    requires |checkbox| >= CONTINENT_BOXES
    ensures forall c :: c in FilterByContinents(countries, CreateContinentsList(checkbox)) ==>
      && c in countries && c.continent.Some? && c.continent.value != Other
      && checkbox[ContinentRank(c.continent.value)]
  {
    var targets := CreateContinentsList(checkbox);
    forall c | c in FilterByContinents(countries, targets)
      ensures c in countries && c.continent.Some? && c.continent.value != Other
      ensures checkbox[ContinentRank(c.continent.value)]
    {
      assert c.continent.value in targets;
      assert CONTINENT_ORDER[ContinentRank(c.continent.value)] in targets;
    }
  }

  function Min(a: nat, b: nat): nat
  {
    if a <= b then a else b
  }

  /**
   * What `choose_multiple(count)` may return over a list of `n` items,
   * given as positions: `min(count, n)` pairwise-distinct positions.
   */
  predicate ValidSample(positions: seq<nat>, n: nat, count: nat)
  {
    && |positions| == Min(count, n)
    && (forall i :: 0 <= i < |positions| ==> positions[i] < n)
    && (forall i, j :: 0 <= i < j < |positions| ==> positions[i] != positions[j])
  }

  /** The items at the given positions, in the order of the positions. */
  function Pick(xs: seq<Country>, positions: seq<nat>): (r: seq<Country>)
    requires forall i :: 0 <= i < |positions| ==> positions[i] < |xs|
    ensures |r| == |positions|
    ensures forall i :: 0 <= i < |r| ==> r[i] == xs[positions[i]]
  {
    seq(|positions|, i requires 0 <= i < |positions| => xs[positions[i]])
  }

  /**
   * `get_random_countries`: a random choice of `min(count, |countries|)`
   * distinct positions, and the countries at them. It never fails, even
   * when fewer than `count` countries are available.
   */
  method GetRandomCountries(countries: seq<Country>, count: nat) returns (positions: seq<nat>, chosen: seq<Country>)
    ensures ValidSample(positions, |countries|, count)
    ensures |chosen| == |positions|
    ensures forall i :: 0 <= i < |chosen| ==> chosen[i] == countries[positions[i]]
  {
    var n := |countries|;
    var target := Min(count, n);
    positions := [];
    var i := 0;
    while i < n
      invariant i <= n
      invariant |positions| <= target
      invariant target - |positions| <= n - i
      invariant forall k :: 0 <= k < |positions| ==> positions[k] < i
      invariant forall k, l :: 0 <= k < l < |positions| ==> positions[k] < positions[l]
    {
      var needed := target - |positions|;
      var take: bool :| (needed == n - i ==> take) && (needed == 0 ==> !take);
      if take {
        positions := positions + [i];
      }
      i := i + 1;
    }
    chosen := Pick(countries, positions);
  }

  /** `get_rand_universal`: a random number in `[0, count)`; an empty range panics. */
  method GetRandUniversal(count: nat) returns (r: nat)
    requires count > 0
    ensures r < count
  {
    r :| r < count;
  }

  /** The continents in checkbox order. */
  const CONTINENT_ORDER: seq<Continent> := [Europe, Asia, Africa, NorthAmerica, SouthAmerica, Oceania]

  /** A continent's checkbox position; `Other` has none and sorts last. */
  function ContinentRank(c: Continent): (k: nat)
    ensures k <= |CONTINENT_ORDER|
    ensures k < |CONTINENT_ORDER| <==> c != Other
    ensures k < |CONTINENT_ORDER| ==> CONTINENT_ORDER[k] == c
  {
    match c
    case Europe => 0
    case Asia => 1
    case Africa => 2
    case NorthAmerica => 3
    case SouthAmerica => 4
    case Oceania => 5
    case Other => 6
  }

  lemma RankOfOrder()
    ensures forall k :: 0 <= k < |CONTINENT_ORDER| ==> ContinentRank(CONTINENT_ORDER[k]) == k
  {
    forall k | 0 <= k < |CONTINENT_ORDER|
      ensures ContinentRank(CONTINENT_ORDER[k]) == k
    {
      assert ContinentRank(CONTINENT_ORDER[k]) < |CONTINENT_ORDER|;
    }
  }

  /** Strictly increasing checkbox positions: canonical order, no repeats. */
  ghost predicate ContinentsAscending(cs: seq<Continent>)
  {
    forall i, j :: 0 <= i < j < |cs| ==> ContinentRank(cs[i]) < ContinentRank(cs[j])
  }

  /** The enabled continents among positions `i..6`, in canonical order. */
  function ContinentsFrom(checkbox: seq<bool>, i: nat): seq<Continent>
    requires |checkbox| >= CONTINENT_BOXES && i <= CONTINENT_BOXES
    decreases CONTINENT_BOXES - i
  {
    if i == CONTINENT_BOXES then []
    else (if checkbox[i] then [CONTINENT_ORDER[i]] else []) + ContinentsFrom(checkbox, i + 1)
  }

  /** What `ContinentsFrom` collects: exactly the enabled positions from `i` on, ascending. */
  lemma {:induction false} ContinentsFromSound(checkbox: seq<bool>, i: nat)
    requires |checkbox| >= CONTINENT_BOXES && i <= CONTINENT_BOXES
    ensures forall c :: c in ContinentsFrom(checkbox, i) ==>
      i <= ContinentRank(c) < CONTINENT_BOXES && checkbox[ContinentRank(c)]
    ensures forall k :: i <= k < CONTINENT_BOXES && checkbox[k] ==> CONTINENT_ORDER[k] in ContinentsFrom(checkbox, i)
    ensures ContinentsAscending(ContinentsFrom(checkbox, i))
    decreases CONTINENT_BOXES - i
  {
    RankOfOrder();
    if i < CONTINENT_BOXES {
      ContinentsFromSound(checkbox, i + 1);
    }
  }

  /**
   * `create_continents_list`: the continents whose checkbox is on, in the
   * order Europe, Asia, Africa, North America, South America, Oceania.
   * Indexing panics on a vector shorter than six, hence the precondition.
   */
  function CreateContinentsList(checkbox: seq<bool>): (r: seq<Continent>)
    requires |checkbox| >= CONTINENT_BOXES
    ensures forall k :: 0 <= k < CONTINENT_BOXES ==> (CONTINENT_ORDER[k] in r <==> checkbox[k])
    ensures Other !in r
    ensures ContinentsAscending(r)
  {
    RankOfOrder();
    ContinentsFromSound(checkbox, 0);
    ContinentsFrom(checkbox, 0)
  }

  lemma {:induction false} ContinentsFromAll(checkbox: seq<bool>, i: nat)
    requires |checkbox| >= CONTINENT_BOXES && i <= CONTINENT_BOXES
    requires forall k :: 0 <= k < CONTINENT_BOXES ==> checkbox[k]
    ensures ContinentsFrom(checkbox, i) == CONTINENT_ORDER[i..]
    decreases CONTINENT_BOXES - i
  {
    if i < CONTINENT_BOXES {
      ContinentsFromAll(checkbox, i + 1);
      assert CONTINENT_ORDER[i..] == [CONTINENT_ORDER[i]] + CONTINENT_ORDER[i + 1..];
    }
  }

  /** All six boxes on gives all six continents, in order. */
  lemma ContinentsAllChecked(checkbox: seq<bool>)
    requires |checkbox| >= CONTINENT_BOXES
    requires forall k :: 0 <= k < CONTINENT_BOXES ==> checkbox[k]
    ensures CreateContinentsList(checkbox) == CONTINENT_ORDER
  {
    ContinentsFromAll(checkbox, 0);
  }

  lemma {:induction false} ContinentsFromSingle(checkbox: seq<bool>, k: nat, i: nat)
    requires |checkbox| >= CONTINENT_BOXES && i <= CONTINENT_BOXES && k < CONTINENT_BOXES
    requires forall m :: 0 <= m < CONTINENT_BOXES ==> (checkbox[m] <==> m == k)
    ensures ContinentsFrom(checkbox, i) == if i <= k then [CONTINENT_ORDER[k]] else []
    decreases CONTINENT_BOXES - i
  {
    if i < CONTINENT_BOXES {
      ContinentsFromSingle(checkbox, k, i + 1);
    }
  }

  /** Exactly one box on gives exactly that continent. */
  lemma ContinentsOneChecked(checkbox: seq<bool>, k: nat)
    requires |checkbox| >= CONTINENT_BOXES && k < CONTINENT_BOXES
    requires forall m :: 0 <= m < CONTINENT_BOXES ==> (checkbox[m] <==> m == k)
    ensures CreateContinentsList(checkbox) == [CONTINENT_ORDER[k]]
  {
    ContinentsFromSingle(checkbox, k, 0);
  }

  /** The quiz modes in checkbox order. */
  const MODE_ORDER: seq<GameMode> := [Flags, Capitals, Fandc]

  function ModeRank(m: GameMode): (k: nat)
    ensures k < |MODE_ORDER| && MODE_ORDER[k] == m
  {
    match m
    case Flags => 0
    case Capitals => 1
    case Fandc => 2
  }

  /** Strictly increasing checkbox positions. */
  ghost predicate ModesAscending(ms: seq<GameMode>)
  {
    forall i, j :: 0 <= i < j < |ms| ==> ModeRank(ms[i]) < ModeRank(ms[j])
  }

  /** The enabled modes among positions `i..3`, in canonical order. */
  function ModesFrom(checkbox: seq<bool>, i: nat): (r: seq<GameMode>)
    requires |checkbox| >= MODE_BOXES && i <= MODE_BOXES
    ensures forall m :: m in r ==> i <= ModeRank(m) && checkbox[ModeRank(m)]
    ensures forall k :: i <= k < MODE_BOXES && checkbox[k] ==> MODE_ORDER[k] in r
    ensures ModesAscending(r)
    decreases MODE_BOXES - i
  {
    if i == MODE_BOXES then []
    else
      assert ModeRank(MODE_ORDER[i]) == i;
      (if checkbox[i] then [MODE_ORDER[i]] else []) + ModesFrom(checkbox, i + 1)
  }

  /**
   * `create_mode_list`: the modes whose checkbox is on, in the order Flags,
   * Capitals, flag-and-capital. A vector shorter than three panics.
   */
  function CreateModeList(checkbox: seq<bool>): (r: seq<GameMode>)
    requires |checkbox| >= MODE_BOXES
    ensures forall k :: 0 <= k < MODE_BOXES ==> (MODE_ORDER[k] in r <==> checkbox[k])
    ensures ModesAscending(r)
  {
    assert forall k :: 0 <= k < MODE_BOXES ==> ModeRank(MODE_ORDER[k]) == k;
    ModesFrom(checkbox, 0)
  }

  /** The mode list is empty exactly when none of the three boxes is on. */
  lemma ModeListEmpty(checkbox: seq<bool>)
    requires |checkbox| >= MODE_BOXES
    ensures CreateModeList(checkbox) == [] <==> forall k :: 0 <= k < MODE_BOXES ==> !checkbox[k]
  {
    var r := CreateModeList(checkbox);
    if r != [] {
      assert r[0] in r;
      assert MODE_ORDER[ModeRank(r[0])] in r;
    }
  }

  /** The colour names, indexed by colour index. */
  const COLOR_NAMES: seq<string> := ["gray", "freedom", "lavender", "blue_sky", "mandarin", "ripe_lime"]

  /** `ret_button_color_index`: a colour name's index; an unknown name is gray's. */
  function ButtonColorIndex(name: string): (index: int)
    ensures 0 <= index < |COLOR_NAMES|
    ensures name in COLOR_NAMES ==> COLOR_NAMES[index] == name
    ensures name !in COLOR_NAMES ==> index == C_GRAY
  {
    if name == "gray" then C_GRAY
    else if name == "freedom" then C_FREEDOM
    else if name == "lavender" then C_LAVENDER
    else if name == "blue_sky" then C_BLUE_SKY
    else if name == "mandarin" then C_MANDARIN
    else if name == "ripe_lime" then C_RIPE_LIME
    else C_GRAY
  }

  /** `ret_button_color_string`: a colour index's name; an unknown index is "gray". */
  function ButtonColorString(index: int): (name: string)
    ensures name in COLOR_NAMES
    ensures 0 <= index < |COLOR_NAMES| ==> name == COLOR_NAMES[index]
    ensures !(0 <= index < |COLOR_NAMES|) ==> name == "gray"
  {
    if index == C_GRAY then "gray"
    else if index == C_FREEDOM then "freedom"
    else if index == C_LAVENDER then "lavender"
    else if index == C_BLUE_SKY then "blue_sky"
    else if index == C_MANDARIN then "mandarin"
    else if index == C_RIPE_LIME then "ripe_lime"
    else "gray"
  }

  /**
   * The colour tables are inverse on the palette: each index survives the
   * trip through its name, each palette name the trip through its index,
   * and anything else lands on gray.
   */
  lemma ColorTablesRoundTrip(index: int, name: string)
    ensures 0 <= index < |COLOR_NAMES| ==> ButtonColorIndex(ButtonColorString(index)) == index
    ensures name in COLOR_NAMES ==> ButtonColorString(ButtonColorIndex(name)) == name
    ensures name !in COLOR_NAMES ==> ButtonColorString(ButtonColorIndex(name)) == "gray"
  {
    if 0 <= index < |COLOR_NAMES| {
      var i := ButtonColorIndex(ButtonColorString(index));
      assert COLOR_NAMES[i] == COLOR_NAMES[index];
    }
  }

  /** `ret_button_color`: a colour index's palette entry; an unknown index is gray. */
  function ButtonColor(index: int): (argb: bv32)
    ensures 0 <= index < |PALETTE| ==> argb == PALETTE[index]
    ensures !(0 <= index < |PALETTE|) ==> argb == PALETTE[C_GRAY]
  {
    if index == C_GRAY then 0xff80_8080
    else if index == C_FREEDOM then 0xffe7_86d2
    else if index == C_LAVENDER then 0xffab_86e7
    else if index == C_BLUE_SKY then 0xff5f_79ef
    else if index == C_MANDARIN then 0xffef_bd5f
    else if index == C_RIPE_LIME then 0xff45_f931
    else 0xff80_8080
  }

  /**
   * Saving the colour by name and reading it back shows the same colour:
   * the index the name maps to has the palette entry the original index had.
   */
  lemma SavedColorRestores(index: int)
    ensures ButtonColor(ButtonColorIndex(ButtonColorString(index))) == ButtonColor(index)
  {
    ColorTablesRoundTrip(index, ButtonColorString(index));
  }

  /** The language codes, indexed by language index; index 2 has no entry. */
  const LANGUAGE_NAMES: seq<string> := ["en", "ru"]

  /** `ret_language_index`: "ru" is 1, anything else (including "cn") is English. */
  function LanguageIndex(name: string): (index: int)
    ensures 0 <= index < |LANGUAGE_NAMES|
    ensures name in LANGUAGE_NAMES ==> LANGUAGE_NAMES[index] == name
    ensures name !in LANGUAGE_NAMES ==> index == I_EN
  {
    if name == "en" then I_EN
    else if name == "ru" then I_RU
    else I_EN
  }

  /** `ret_language_string`: index 1 is "ru", anything else (including `I_CN`) is "en". */
  function LanguageString(index: int): (name: string)
    ensures name in LANGUAGE_NAMES
    ensures 0 <= index < |LANGUAGE_NAMES| ==> name == LANGUAGE_NAMES[index]
    ensures !(0 <= index < |LANGUAGE_NAMES|) ==> name == "en"
  {
    if index == I_EN then "en"
    else if index == I_RU then "ru"
    else "en"
  }

  /** The language tables are inverse on {0, 1}; "cn" and `I_CN` fall back to English. */
  lemma LanguageTablesRoundTrip(index: int, name: string)
    ensures 0 <= index < |LANGUAGE_NAMES| ==> LanguageIndex(LanguageString(index)) == index
    ensures name in LANGUAGE_NAMES ==> LanguageString(LanguageIndex(name)) == name
    ensures name !in LANGUAGE_NAMES ==> LanguageString(LanguageIndex(name)) == "en"
    ensures LanguageIndex("cn") == I_EN && LanguageString(I_CN) == "en"
  {
    if 0 <= index < |LANGUAGE_NAMES| {
      var i := LanguageIndex(LanguageString(index));
      assert LANGUAGE_NAMES[i] == LANGUAGE_NAMES[index];
    }
  }
}
