/**
 * The worker's message types and the question builder
 * (`load_data_from_thread` in threadfn.rs).
 *
 * The two random draws a question needs are an explicit `Roll`; the flag
 * image store is a function from path to bytes (`None` when the file cannot
 * be read). A Rust panic is an outcome, `Panicked`, so every input has a
 * defined result.
 */
module ThreadFn {
  import opened Common
  import opened Configure
  import opened GameModes
  import opened Consts
  import opened GameLogic

  datatype Action = Update | Load

  type Bytes = seq<bv8>

  /** The flag image store: a path's bytes, or `None` when it cannot be read. */
  type FileSystem = string -> Option<Bytes>

  /** A question as sent to the UI: the mode, the prompt (image or text) and the labels. */
  datatype ThreadData = ThreadData(mode: GameMode, img: Option<Bytes>, text: Option<string>, names: seq<string>)

  /** A command to the worker; which optional parts are set depends on the action. */
  datatype ThreadIn = ThreadIn(mode: Option<seq<GameMode>>, action: Action, checkbox: Option<seq<bool>>, random: Option<nat>)

  /** Why the builder (or the worker) panics. */
  datatype Panic =
    | EmptyRange          // a random number drawn from an empty range
    | UnwrapNone          // `unwrap()` on `None`
    | IndexOutOfBounds    // indexing past the end of a vector
    | ImageUnreadable     // the flag file could not be read

  /** What one `Load` produces: one question, nothing at all, or a panic. */
  datatype LoadOutcome = Sent(data: ThreadData) | NothingSent | Panicked(reason: Panic)

  /** The worker's random draws for one question: sample positions and a mode pick. */
  datatype Roll = Roll(sample: seq<nat>, modePick: nat)

  /** Draws the generator can make for `n` filtered countries and `m` enabled modes. */
  predicate RollFits(roll: Roll, n: nat, m: nat)
  {
    ValidSample(roll.sample, n, ANSWER_NUM) && (m > 0 ==> roll.modePick < m)
  }

  /** Path of a country's flag image. */
  function FlagPath(c: Country): string
  {
    LOAD_IMAGE + c.flag4x3
  }

  /** The label a country shows in Capitals mode: its capital, or "None". */
  function CapitalLabel(c: Country): (shown: string)
    ensures c.capital.Some? ==> shown == c.capital.value
    ensures c.capital.None? ==> shown == "None"
  {
    match c.capital
    case None => "None"
    case Some(capital) => capital
  }

  /** The hint, when present and pointing at one of the four candidates. */
  predicate HintUsable(input: ThreadIn)
  {
    input.random.Some? && input.random.value < ANSWER_NUM
  }

  /**
   * `load_data_from_thread`: sample up to four countries, pick a mode, then
   * assemble four labels and a prompt for the candidate at the hint index.
   * Flags: the labels are the candidates' names and the prompt is the flag
   * image of the hinted candidate. Capitals: the labels are the capitals
   * ("None" when absent) and the prompt is the hinted candidate's name.
   * The flag-and-capital mode sends nothing.
   */
  function LoadDataFromThread(filtered: seq<Country>, modes: seq<GameMode>, input: ThreadIn, fs: FileSystem, roll: Roll): (out: LoadOutcome)
    requires RollFits(roll, |filtered|, |modes|)
    ensures |modes| == 0 <==> out == Panicked(EmptyRange)
    ensures out.NothingSent? <==> |modes| > 0 && modes[roll.modePick] == Fandc
    ensures out.Sent? <==>
              && |modes| > 0 && modes[roll.modePick] != Fandc
              && HintUsable(input) && |filtered| >= ANSWER_NUM
              && (modes[roll.modePick] == Flags ==> fs(FlagPath(filtered[roll.sample[input.random.value]])).Some?)
    ensures out.Sent? ==> out.data.mode in modes && |out.data.names| == ANSWER_NUM
  {
    var out4 := Pick(filtered, roll.sample);
    if |modes| == 0 then Panicked(EmptyRange)
    else
      match modes[roll.modePick]
      case Flags =>
        if input.random.None? then Panicked(UnwrapNone)
        else if input.random.value >= |out4| then Panicked(IndexOutOfBounds)
        else
          var image := fs(FlagPath(out4[input.random.value]));
          if image.None? then Panicked(ImageUnreadable)
          else if |out4| < ANSWER_NUM then Panicked(IndexOutOfBounds)
          else Sent(ThreadData(Flags, image, None, seq(ANSWER_NUM, i requires 0 <= i < ANSWER_NUM => out4[i].name)))
      case Capitals =>
        if input.random.None? then Panicked(UnwrapNone)
        else if input.random.value >= |out4| then Panicked(IndexOutOfBounds)
        else
          var text := out4[input.random.value].name;
          if |out4| < ANSWER_NUM then Panicked(IndexOutOfBounds)
          else Sent(ThreadData(Capitals, None, Some(text), seq(ANSWER_NUM, i requires 0 <= i < ANSWER_NUM => CapitalLabel(out4[i]))))
      case Fandc => NothingSent
  }

  /**
   * The candidates of a sent question: four pairwise-distinct positions of
   * the filtered list, whose countries the labels describe in sample order.
   * In Flags mode the labels are names, the image is the flag of the
   * candidate at the hint and there is no text; in Capitals mode the labels
   * are capitals and the text is the hinted candidate's name.
   */
  lemma QuestionContents(filtered: seq<Country>, modes: seq<GameMode>, input: ThreadIn, fs: FileSystem, roll: Roll)
    requires RollFits(roll, |filtered|, |modes|)
    requires LoadDataFromThread(filtered, modes, input, fs, roll).Sent?
    ensures var d := LoadDataFromThread(filtered, modes, input, fs, roll).data;
            var h := input.random.value;
            && |roll.sample| == ANSWER_NUM && h < ANSWER_NUM
            && (forall i, j :: 0 <= i < j < ANSWER_NUM ==> roll.sample[i] != roll.sample[j])
            && (d.mode == Flags ==>
                  && d.text == None
                  && d.img == fs(FlagPath(filtered[roll.sample[h]]))
                  && forall i :: 0 <= i < ANSWER_NUM ==> d.names[i] == filtered[roll.sample[i]].name)
            && (d.mode == Capitals ==>
                  && d.img == None
                  && d.text == Some(filtered[roll.sample[h]].name)
                  && forall i :: 0 <= i < ANSWER_NUM ==> d.names[i] == CapitalLabel(filtered[roll.sample[i]]))
  {
  }

  /**
   * The label at the hint index answers the prompt: some filtered country
   * is both the prompt (its flag, or its name) and the hinted label (its
   * name, or its capital).
   */
  lemma HintedLabelAnswersPrompt(filtered: seq<Country>, modes: seq<GameMode>, input: ThreadIn, fs: FileSystem, roll: Roll)
    requires RollFits(roll, |filtered|, |modes|)
    requires LoadDataFromThread(filtered, modes, input, fs, roll).Sent?
    ensures var d := LoadDataFromThread(filtered, modes, input, fs, roll).data;
            var h := input.random.value;
            exists c :: c in filtered
              && (d.mode == Flags ==> d.img == fs(FlagPath(c)) && d.names[h] == c.name)
              && (d.mode == Capitals ==> d.text == Some(c.name) && d.names[h] == CapitalLabel(c))
  {
    QuestionContents(filtered, modes, input, fs, roll);
    var c := filtered[roll.sample[input.random.value]];
    assert c in filtered;
  }

  /**
   * The builder with its own random draws: `get_random_countries(filtered, 4)`
   * first, then a mode index from `get_rand_universal`, which the source
   * calls on an empty range (and so panics) when no mode is enabled.
   */
  method LoadData(filtered: seq<Country>, modes: seq<GameMode>, input: ThreadIn, fs: FileSystem) returns (out: LoadOutcome)
    ensures exists roll :: RollFits(roll, |filtered|, |modes|) && out == LoadDataFromThread(filtered, modes, input, fs, roll)
    ensures out.Sent? ==> |out.data.names| == ANSWER_NUM && out.data.mode in modes
  {
    var positions, _ := GetRandomCountries(filtered, ANSWER_NUM);
    var pick := 0;
    if |modes| > 0 {
      pick := GetRandUniversal(|modes|);
    }
    var roll := Roll(positions, pick);
    assert RollFits(roll, |filtered|, |modes|);
    out := LoadDataFromThread(filtered, modes, input, fs, roll);
  }
}
