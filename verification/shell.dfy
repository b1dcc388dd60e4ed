/**
 * The UI thread's logic in main.rs, without the window: loading the
 * configuration, the startup `Update`, the run and answer-button callbacks
 * (judging a click against the stored correct index and requesting the next
 * question), the checkbox callback and the configuration saved on close.
 * The stored correct index is the `random_number` cell shared by the
 * callbacks; its fresh values are parameters (`roll`).
 */
module Shell {
  import opened Common
  import opened Configure
  import opened GameModes
  import opened Consts
  import opened GameLogic
  import opened ThreadFn
  import opened Worker

  const I32_MIN: int := -0x8000_0000
  const I32_MAX: int := 0x7fff_ffff
  const U32_MAX: int := 0xffff_ffff

  predicate IsI32(x: int) { I32_MIN <= x <= I32_MAX }
  predicate IsU32(x: int) { 0 <= x <= U32_MAX }

  /** Two's-complement wrap-around into `i32`. */
  function WrapI32(x: int): (r: int)
    ensures IsI32(r)
    ensures (r - x) % 0x1_0000_0000 == 0
    ensures IsI32(x) ==> r == x
  {
    (x - I32_MIN) % 0x1_0000_0000 + I32_MIN
  }

  /** The catalogue parser: JSON text to a tree, then the tree decoded as a list of countries. */
  function ParseCatalogue(parseJson: string -> Result<Json, DecodeError>, text: string): Result<seq<Country>, DecodeError>
  {
    match parseJson(text)
    case Ok(j) => DecodeCatalogue(j)
    case Err(e) => Err(e)
  }

  /**
   * The country catalogue at startup: the file's contents when they read,
   * parse as JSON and decode as a list of countries, and `None` (the
   * application stops with "Failed to load app data") otherwise.
   * `parseJson` is the text-to-tree step.
   */
  function LoadCatalogue(read: Option<string>, parseJson: string -> Result<Json, DecodeError>): (r: Option<seq<Country>>)
    ensures r.None? <==>
              || read.None? || IsBlank(read.value) || parseJson(read.value).Err?
              || DecodeCatalogue(parseJson(read.value).value).Err?
    ensures r.Some? ==> DecodeCatalogue(parseJson(read.value).value) == Ok(r.value)
  {
    match ReadFromFile(read, text => ParseCatalogue(parseJson, text))
    case Ok(countries) => Some(countries)
    case Err(_) => None
  }

  /**
   * The configuration at startup: the file's contents when they read and
   * parse, otherwise the defaults (a missing file included).
   */
  function LoadConfig(read: Option<string>, parse: string -> Result<InputConfig, DecodeError>): (config: InputConfig)
    ensures read.None? ==> config == DEFAULT_CONFIG
    ensures read.Some? && IsBlank(read.value) ==> config == DEFAULT_CONFIG
    ensures read.Some? && !IsBlank(read.value) ==>
              config == (match parse(read.value) case Ok(c) => c case Err(_) => DEFAULT_CONFIG)
  {
    match ReadFromFile(read, parse)
    case Ok(c) => c
    case Err(_) => DEFAULT_CONFIG
  }

  /**
   * The first command the UI sends: an `Update` carrying the configured
   * continent vector and the modes enabled in the configured mode vector.
   * A configuration with fewer than three mode entries makes
   * `create_mode_list` index past its end, and the application panics
   * before sending anything (`None`).
   */
  function StartupUpdate(config: InputConfig): (cmd: Option<ThreadIn>)
    ensures cmd.None? <==> |config.mode| < MODE_BOXES
    ensures cmd.Some? ==> cmd.value.action == Update && cmd.value.random.None?
    ensures cmd.Some? ==> cmd.value.checkbox == Some(config.continents)
    ensures cmd.Some? ==>
              cmd.value.mode.Some? && forall k :: 0 <= k < MODE_BOXES ==> (MODE_ORDER[k] in cmd.value.mode.value <==> config.mode[k])
  {
    if |config.mode| < MODE_BOXES then None
    else Some(ThreadIn(Some(CreateModeList(config.mode)), Update, Some(config.continents), None))
  }

  /** The stored correct index. */
  datatype UiState = UiState(correct: nat)

  /** A `Load` request carrying the correct index as its hint. */
  function LoadRequest(hint: nat): ThreadIn
  {
    ThreadIn(None, Load, None, Some(hint))
  }

  /** The run button: store a fresh correct index and request a question with it. */
  function OnRunGame(roll: nat): (r: (UiState, ThreadIn))
    requires roll < ANSWER_NUM
    ensures r.0.correct == roll && r.1.action == Load && r.1.random == Some(r.0.correct)
  {
    (UiState(roll), LoadRequest(roll))
  }

  datatype Color = Red | Green

  /** What the answer panel shows after a click. */
  datatype AnswerData = AnswerData(answer: string, color: Color, selected: string, visible: bool)

  datatype Click = Click(shown: AnswerData, next: UiState, request: ThreadIn)

  /**
   * An answer button: green exactly when the clicked index is the stored
   * correct index, otherwise red; the panel shows the clicked label as
   * selected and the label at the correct index as the answer. Then a fresh
   * correct index is stored and sent as the hint of the next `Load`.
   */
  function OnButtonClicked(ui: UiState, index: int, labels: seq<string>, roll: nat): (r: Click)
    requires 0 <= index < |labels| && ui.correct < |labels|
    requires roll < ANSWER_NUM
    ensures r.shown.color == Green <==> index == ui.correct
    ensures r.shown.selected == labels[index] && r.shown.answer == labels[ui.correct] && r.shown.visible
    ensures r.next.correct == roll && r.request.action == Load && r.request.random == Some(r.next.correct)
  {
    var color := if index == ui.correct then Green else Red;
    Click(AnswerData(labels[ui.correct], color, labels[index], true), UiState(roll), LoadRequest(roll))
  }

  /**
   * A checkbox: the UI sends an `Update` with the current continent vector
   * and the modes enabled in the current mode vector.
   */
  function OnCheckboxClicked(continents: seq<bool>, modes: seq<bool>): (cmd: ThreadIn)
    requires |modes| >= MODE_BOXES
    ensures cmd.action == Update && cmd.random.None? && cmd.checkbox == Some(continents)
    ensures cmd.mode.Some? && forall k :: 0 <= k < MODE_BOXES ==> (MODE_ORDER[k] in cmd.mode.value <==> modes[k])
  {
    ThreadIn(Some(CreateModeList(modes)), Update, Some(continents), None)
  }

  /**
   * The configuration written on close: the current checkboxes, half the
   * physical window size (rounded down), the window position with 56 added
   * to y (wrapping as `i32`), English, and the current colour.
   */
  function OnClose(continents: seq<bool>, modes: seq<bool>, width: int, height: int, x: int, y: int, color: string): (saved: InputConfig)
    requires IsU32(width) && IsU32(height) && IsI32(x) && IsI32(y)
    ensures saved.continents == continents && saved.mode == modes && saved.color == color
    ensures saved.language == "en"
    ensures 2 * saved.size.0 <= width <= 2 * saved.size.0 + 1
    ensures 2 * saved.size.1 <= height <= 2 * saved.size.1 + 1
    ensures saved.position.0 == x && IsI32(saved.position.1)
    ensures (saved.position.1 - (y + 56)) % 0x1_0000_0000 == 0
    ensures y + 56 <= I32_MAX ==> saved.position.1 == y + 56
  {
    InputConfig((width / 2, height / 2), (x, WrapI32(y + 56)), continents, modes, "en", color)
  }

  /** A user action that sends a command to the worker. */
  datatype UiEvent =
    | RunGame(roll: nat)
    | ButtonClicked(index: int, labels: seq<string>, roll: nat)
    | CheckboxClicked(continents: seq<bool>, modes: seq<bool>)

  /** Four answer buttons, fresh indices in range, full mode vectors. */
  predicate EventOk(e: UiEvent)
  {
    match e
    case RunGame(roll) => roll < ANSWER_NUM
    case ButtonClicked(index, labels, roll) => |labels| == ANSWER_NUM && 0 <= index < ANSWER_NUM && roll < ANSWER_NUM
    case CheckboxClicked(_, modes) => |modes| >= MODE_BOXES
  }

  /** The command one action sends, and the stored correct index afterwards. */
  function HandleEvent(ui: UiState, e: UiEvent): (r: (UiState, ThreadIn))
    requires ui.correct < ANSWER_NUM && EventOk(e)
    ensures r.0.correct < ANSWER_NUM
    ensures r.1.action == Load ==> HintUsable(r.1) && r.1.random == Some(r.0.correct)
    ensures r.1.action == Update <==> e.CheckboxClicked?
    ensures r.1.action == Update ==> r.0 == ui && r.1.checkbox == Some(e.continents) && r.1.mode.Some?
  {
    match e
    case RunGame(roll) => OnRunGame(roll)
    case ButtonClicked(index, labels, roll) =>
      var c := OnButtonClicked(ui, index, labels, roll);
      (c.next, c.request)
    case CheckboxClicked(continents, modes) => (ui, OnCheckboxClicked(continents, modes))
  }

  /** The stored correct index after a sequence of actions. */
  function UiStateAfter(ui: UiState, events: seq<UiEvent>): (after: UiState)
    requires ui.correct < ANSWER_NUM
    requires forall i :: 0 <= i < |events| ==> EventOk(events[i])
    ensures after.correct < ANSWER_NUM
    decreases |events|
  {
    if events == [] then ui
    else
      var n := |events| - 1;
      HandleEvent(UiStateAfter(ui, events[..n]), events[n]).0
  }

  /** The command the action at position `k` sends, from the state the earlier actions left. */
  function RequestAt(ui: UiState, events: seq<UiEvent>, k: nat): ThreadIn
    requires ui.correct < ANSWER_NUM
    requires forall i :: 0 <= i < |events| ==> EventOk(events[i])
    requires k < |events|
  {
    HandleEvent(UiStateAfter(ui, events[..k]), events[k]).1
  }

  datatype UiRun = UiRun(ui: UiState, requests: seq<ThreadIn>)

  /**
   * The commands the UI sends for a sequence of actions, and the stored
   * correct index afterwards. Every `Load` carries a hint below four; an
   * `Update` is sent exactly for a checkbox action and carries its continent
   * vector and a mode list.
   */
  function UiRequests(ui: UiState, events: seq<UiEvent>): (r: UiRun)
    requires ui.correct < ANSWER_NUM
    requires forall i :: 0 <= i < |events| ==> EventOk(events[i])
    ensures |r.requests| == |events|
    ensures r.ui.correct < ANSWER_NUM
    ensures forall i :: 0 <= i < |r.requests| ==>
              && (r.requests[i].action == Load ==> HintUsable(r.requests[i]))
              && (r.requests[i].action == Update <==> events[i].CheckboxClicked?)
              && (r.requests[i].action == Update ==>
                    r.requests[i].checkbox == Some(events[i].continents) && r.requests[i].mode.Some?)
  {
    UiRun(UiStateAfter(ui, events),
          seq(|events|, k requires 0 <= k < |events| => RequestAt(ui, events, k)))
  }

  /** An `Update` leaves the stored correct index as it was. */
  lemma {:induction false} UpdatesKeepState(ui: UiState, events: seq<UiEvent>, lo: nat, hi: nat)
    requires ui.correct < ANSWER_NUM
    requires forall i :: 0 <= i < |events| ==> EventOk(events[i])
    requires lo <= hi <= |events|
    requires forall j :: lo <= j < hi ==> events[j].CheckboxClicked?
    ensures UiStateAfter(ui, events[..hi]) == UiStateAfter(ui, events[..lo])
    decreases hi - lo
  {
    if lo < hi {
      UpdatesKeepState(ui, events, lo, hi - 1);
      assert events[..hi][..hi - 1] == events[..hi - 1];
    }
  }

  /** The state before the action at `k` leads, through it, to the state after the first `k + 1`. */
  lemma StepAt(ui: UiState, events: seq<UiEvent>, k: nat)
    requires ui.correct < ANSWER_NUM
    requires forall i :: 0 <= i < |events| ==> EventOk(events[i])
    requires k < |events|
    ensures UiStateAfter(ui, events[..k + 1]) == HandleEvent(UiStateAfter(ui, events[..k]), events[k]).0
  {
    assert events[..k + 1][..k] == events[..k];
  }

  /** When only `Update`s were sent, the stored correct index is the starting one. */
  lemma OnlyUpdatesKeepHint(ui: UiState, events: seq<UiEvent>)
    requires ui.correct < ANSWER_NUM
    requires forall i :: 0 <= i < |events| ==> EventOk(events[i])
    requires forall i :: 0 <= i < |events| ==> UiRequests(ui, events).requests[i].action == Update
    ensures UiRequests(ui, events).ui == ui
  {
    var r := UiRequests(ui, events);
    forall j | 0 <= j < |events| ensures events[j].CheckboxClicked? {
      assert r.requests[j].action == Update;
    }
    UpdatesKeepState(ui, events, 0, |events|);
    assert events[..|events|] == events;
  }

  /**
   * The stored correct index after a sequence of actions is the hint of the
   * latest `Load` sent: the next click is judged against the question last
   * requested.
   */
  lemma LatestLoadHint(ui: UiState, events: seq<UiEvent>, k: nat)
    requires ui.correct < ANSWER_NUM
    requires forall i :: 0 <= i < |events| ==> EventOk(events[i])
    requires k < |events| && UiRequests(ui, events).requests[k].action == Load
    requires forall j :: k < j < |events| ==> UiRequests(ui, events).requests[j].action == Update
    ensures UiRequests(ui, events).requests[k].random == Some(UiRequests(ui, events).ui.correct)
  {
    var r := UiRequests(ui, events);
    assert r.requests[k] == HandleEvent(UiStateAfter(ui, events[..k]), events[k]).1;
    StepAt(ui, events, k);
    UpdatesKeepState(ui, events, k + 1, |events|);
    assert events[..|events|] == events;
  }

  /**
   * A whole session's command stream: the startup `Update` from the loaded
   * configuration comes first, so no `Load` is sent before it. `None` when
   * the application panics while building that `Update`.
   */
  function SessionRequests(config: InputConfig, firstRoll: nat, events: seq<UiEvent>): (cmds: Option<seq<ThreadIn>>)
    requires firstRoll < ANSWER_NUM
    requires forall i :: 0 <= i < |events| ==> EventOk(events[i])
    ensures cmds.None? <==> |config.mode| < MODE_BOXES
    ensures cmds.Some? ==> |cmds.value| == |events| + 1
    ensures cmds.Some? ==> Some(cmds.value[0]) == StartupUpdate(config) && cmds.value[0].action == Update
  {
    match StartupUpdate(config)
    case None => None
    case Some(first) => Some([first] + UiRequests(UiState(firstRoll), events).requests)
  }

  /** Commands paired with the worker's draws. */
  function Attach(inputs: seq<ThreadIn>, rolls: seq<Roll>): (cmds: seq<Command>)
    requires |rolls| == |inputs|
    ensures |cmds| == |inputs| && forall i :: 0 <= i < |cmds| ==> cmds[i] == Command(inputs[i], rolls[i])
  {
    seq(|inputs|, i requires 0 <= i < |inputs| => Command(inputs[i], rolls[i]))
  }

  /** With full continent vectors everywhere, every command of a session is well formed. */
  lemma {:induction false} SessionWellFormed(config: InputConfig, firstRoll: nat, events: seq<UiEvent>)
    requires |config.mode| >= MODE_BOXES && |config.continents| >= CONTINENT_BOXES && firstRoll < ANSWER_NUM
    requires forall i :: 0 <= i < |events| ==> EventOk(events[i])
    requires forall i :: 0 <= i < |events| && events[i].CheckboxClicked? ==> |events[i].continents| >= CONTINENT_BOXES
    ensures var inputs := SessionRequests(config, firstRoll, events).value;
            forall i :: 0 <= i < |inputs| ==> WellFormedInput(inputs[i])
  {
    var inputs := SessionRequests(config, firstRoll, events).value;
    var tail := UiRequests(UiState(firstRoll), events).requests;
    forall i | 0 <= i < |inputs|
      ensures WellFormedInput(inputs[i])
    {
      if i > 0 {
        assert inputs[i] == tail[i - 1];
      }
    }
  }

  /** Well-formed commands, whatever the worker's draws, never make it unwrap `None`. */
  lemma {:induction false} AttachedNeverUnwrapsNone(catalogue: seq<Country>, fs: FileSystem, inputs: seq<ThreadIn>, rolls: seq<Roll>)
    requires |rolls| == |inputs|
    requires forall i :: 0 <= i < |inputs| ==> WellFormedInput(inputs[i])
    requires RunFits(catalogue, fs, INITIAL_STATE, Attach(inputs, rolls))
    ensures Run(catalogue, fs, INITIAL_STATE, Attach(inputs, rolls)).crash != Some(UnwrapNone)
  {
    var cmds := Attach(inputs, rolls);
    assert forall i :: 0 <= i < |cmds| ==> cmds[i].input == inputs[i];
    WellFormedRunNeverUnwrapsNone(catalogue, fs, INITIAL_STATE, cmds);
  }

  /**
   * With full continent vectors everywhere, the worker never panics on an
   * `Update` or a missing hint during a session.
   */
  lemma {:induction false} SessionNeverUnwrapsNone(catalogue: seq<Country>, fs: FileSystem, config: InputConfig, firstRoll: nat,
                                events: seq<UiEvent>, rolls: seq<Roll>)
    requires |config.mode| >= MODE_BOXES && |config.continents| >= CONTINENT_BOXES && firstRoll < ANSWER_NUM
    requires forall i :: 0 <= i < |events| ==> EventOk(events[i])
    requires forall i :: 0 <= i < |events| && events[i].CheckboxClicked? ==> |events[i].continents| >= CONTINENT_BOXES
    requires |rolls| == |events| + 1
    requires RunFits(catalogue, fs, INITIAL_STATE, Attach(SessionRequests(config, firstRoll, events).value, rolls))
    ensures Run(catalogue, fs, INITIAL_STATE, Attach(SessionRequests(config, firstRoll, events).value, rolls)).crash != Some(UnwrapNone)
  {
    SessionWellFormed(config, firstRoll, events);
    AttachedNeverUnwrapsNone(catalogue, fs, SessionRequests(config, firstRoll, events).value, rolls);
  }
}
