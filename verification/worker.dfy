/**
 * The background worker (the thread body in main.rs): it owns the filtered
 * country list and the enabled-mode list, and handles its commands in
 * arrival order. `Update` rebuilds both lists; `Load` builds a question.
 * The worker is modelled as a fold over the command sequence. A panic
 * ends the worker thread, so the fold stops at the first one.
 */
module Worker {
  import opened Common
  import opened Configure
  import opened GameModes
  import opened Consts
  import opened GameLogic
  import opened ThreadFn

  /** The worker's private state. */
  datatype WorkerState = WorkerState(filtered: seq<Country>, modes: seq<GameMode>)

  /** Both lists start out empty. */
  const INITIAL_STATE: WorkerState := WorkerState([], [])

  /** A received command together with the draws the worker's generator makes while handling it. */
  datatype Command = Command(input: ThreadIn, roll: Roll)

  datatype StepResult = Running(state: WorkerState, sent: seq<ThreadData>) | Crashed(reason: Panic)

  /** The draws of a `Load` are ones the generator can make in the current state. */
  predicate CommandFits(st: WorkerState, cmd: Command)
  {
    cmd.input.action == Load ==> RollFits(cmd.roll, |st.filtered|, |st.modes|)
  }

  /** An `Update` that carries both payloads and a full continent vector. */
  predicate UpdateComplete(input: ThreadIn)
  {
    input.checkbox.Some? && |input.checkbox.value| >= CONTINENT_BOXES && input.mode.Some?
  }

  /** `c` belongs to a continent whose box is on in `checkbox`. */
  predicate EnabledBy(c: Country, checkbox: seq<bool>)
    requires |checkbox| >= CONTINENT_BOXES
  {
    c.continent.Some? && c.continent.value != Other && checkbox[ContinentRank(c.continent.value)]
  }

  /**
   * One command. `Update` replaces the filtered list by the catalogue
   * filtered through the checked continents and replaces the mode list; it
   * sends nothing, and panics on a missing payload or a short vector.
   * `Load` keeps the state and sends what the question builder sends.
   */
  function Step(catalogue: seq<Country>, fs: FileSystem, st: WorkerState, cmd: Command): (res: StepResult)
    requires CommandFits(st, cmd)
    ensures cmd.input.action == Update ==> (res.Running? <==> UpdateComplete(cmd.input))
    ensures cmd.input.action == Update && res.Running? ==>
              && res.sent == []
              && res.state.modes == cmd.input.mode.value
              && IsSubsequence(res.state.filtered, catalogue)
              && (forall c :: c in res.state.filtered <==> c in catalogue && EnabledBy(c, cmd.input.checkbox.value))
              && forall c :: multiset(res.state.filtered)[c]
                               == if EnabledBy(c, cmd.input.checkbox.value) then multiset(catalogue)[c] else 0
    ensures cmd.input.action == Load ==>
              var out := LoadDataFromThread(st.filtered, st.modes, cmd.input, fs, cmd.roll);
              && (res.Running? <==> !out.Panicked?)
              && (res.Running? ==> res.state == st && res.sent == (if out.Sent? then [out.data] else []))
  {
    match cmd.input.action
    case Update =>
      if cmd.input.checkbox.None? then Crashed(UnwrapNone)
      else if |cmd.input.checkbox.value| < CONTINENT_BOXES then Crashed(IndexOutOfBounds)
      else
        var continents := CreateContinentsList(cmd.input.checkbox.value);
        var filtered := FilterByContinents(catalogue, continents);
        if cmd.input.mode.None? then Crashed(UnwrapNone)
        else Running(WorkerState(filtered, cmd.input.mode.value), [])
    case Load =>
      match LoadDataFromThread(st.filtered, st.modes, cmd.input, fs, cmd.roll)
      case Sent(data) => Running(st, [data])
      case NothingSent => Running(st, [])
      case Panicked(reason) => Crashed(reason)
  }

  /** Every `Load` of the run fits the state it is handled in. */
  predicate RunFits(catalogue: seq<Country>, fs: FileSystem, st: WorkerState, cmds: seq<Command>)
    decreases |cmds|
  {
    cmds == [] ||
    (CommandFits(st, cmds[0]) &&
      match Step(catalogue, fs, st, cmds[0])
      case Running(next, _) => RunFits(catalogue, fs, next, cmds[1..])
      case Crashed(_) => true)
  }

  datatype RunResult = RunResult(final: WorkerState, sent: seq<ThreadData>, crash: Option<Panic>)

  /** The filtered list holds only catalogue countries of one of the six named continents. */
  ghost predicate StateInvariant(catalogue: seq<Country>, st: WorkerState)
  {
    forall c :: c in st.filtered ==> c in catalogue && c.continent.Some? && c.continent.value != Other
  }

  /**
   * The worker loop over a command sequence. At most one question per
   * command is sent, every question carries four labels in Flags or
   * Capitals mode, and the state invariant is kept.
   */
  function Run(catalogue: seq<Country>, fs: FileSystem, st: WorkerState, cmds: seq<Command>): (r: RunResult)
    requires RunFits(catalogue, fs, st, cmds)
    ensures |r.sent| <= |cmds|
    ensures forall d :: d in r.sent ==> |d.names| == ANSWER_NUM && d.mode != Fandc
    ensures StateInvariant(catalogue, st) ==> StateInvariant(catalogue, r.final)
    decreases |cmds|
  {
    if cmds == [] then RunResult(st, [], None)
    else
      match Step(catalogue, fs, st, cmds[0])
      case Crashed(reason) => RunResult(st, [], Some(reason))
      case Running(next, sent) =>
        var rest := Run(catalogue, fs, next, cmds[1..]);
        RunResult(rest.final, sent + rest.sent, rest.crash)
  }

  /** The empty starting state satisfies the invariant. */
  lemma InitialStateInvariant(catalogue: seq<Country>)
    ensures StateInvariant(catalogue, INITIAL_STATE)
    ensures INITIAL_STATE.filtered == [] && INITIAL_STATE.modes == []
  {
  }

  /** A command the user interface can send: a complete `Update`, or a `Load` with a usable hint. */
  predicate WellFormedInput(input: ThreadIn)
  {
    match input.action
    case Update => UpdateComplete(input)
    case Load => HintUsable(input)
  }

  /**
   * When every command is well formed the worker never panics on a missing
   * payload, and never on an `Update`; it can still panic in `Load` on an
   * empty mode list, a filtered list shorter than four, or an unreadable
   * flag.
   */
  lemma {:induction false} WellFormedRunNeverUnwrapsNone(catalogue: seq<Country>, fs: FileSystem, st: WorkerState, cmds: seq<Command>)
    requires RunFits(catalogue, fs, st, cmds)
    requires forall i :: 0 <= i < |cmds| ==> WellFormedInput(cmds[i].input)
    ensures Run(catalogue, fs, st, cmds).crash != Some(UnwrapNone)
    decreases |cmds|
  {
    if cmds != [] {
      match Step(catalogue, fs, st, cmds[0])
      case Crashed(reason) =>
        assert cmds[0].input.action == Load;
      case Running(next, sent) =>
        assert forall i :: 1 <= i < |cmds| ==> cmds[1..][i - 1] == cmds[i];
        WellFormedRunNeverUnwrapsNone(catalogue, fs, next, cmds[1..]);
    }
  }

  /** The countries of the catalogue that belong to one of the six named continents. */
  ghost predicate NamedContinentCountry(catalogue: seq<Country>, c: Country)
  {
    c in catalogue && c.continent.Some? && c.continent.value != Other
  }

  /**
   * Every label the worker sends names (or gives the capital of) a catalogue
   * country with a named continent: countries with no continent or an
   * unrecognised one never reach a question.
   */
  lemma {:induction false} SentLabelsFromCatalogue(catalogue: seq<Country>, fs: FileSystem, st: WorkerState, cmds: seq<Command>)
    requires RunFits(catalogue, fs, st, cmds)
    requires StateInvariant(catalogue, st)
    ensures forall d :: d in Run(catalogue, fs, st, cmds).sent ==>
              forall i :: 0 <= i < |d.names| ==>
                exists c :: NamedContinentCountry(catalogue, c)
                  && (d.mode == Flags ==> d.names[i] == c.name)
                  && (d.mode == Capitals ==> d.names[i] == CapitalLabel(c))
    decreases |cmds|
  {
    if cmds != [] {
      match Step(catalogue, fs, st, cmds[0])
      case Crashed(_) =>
      case Running(next, sent) =>
        if cmds[0].input.action == Load && sent != [] {
          var out := LoadDataFromThread(st.filtered, st.modes, cmds[0].input, fs, cmds[0].roll);
          QuestionContents(st.filtered, st.modes, cmds[0].input, fs, cmds[0].roll);
          var d := out.data;
          forall i | 0 <= i < |d.names|
            ensures exists c :: NamedContinentCountry(catalogue, c)
                      && (d.mode == Flags ==> d.names[i] == c.name)
                      && (d.mode == Capitals ==> d.names[i] == CapitalLabel(c))
          {
            var c := st.filtered[cmds[0].roll.sample[i]];
            assert c in st.filtered;
            assert NamedContinentCountry(catalogue, c);
          }
        }
        SentLabelsFromCatalogue(catalogue, fs, next, cmds[1..]);
    }
  }

  /** Only the Europe box on. */
  const EUROPE_ONLY: seq<bool> := [true, false, false, false, false, false]

  /** The commands of the scenario: the startup `Update` for Europe and Flags, then one `Load`. */
  function EuropeCommands(update: Roll, load: Roll, h: nat): seq<Command>
  {
    [Command(ThreadIn(Some([Flags]), Update, Some(EUROPE_ONLY), None), update),
     Command(ThreadIn(None, Load, None, Some(h)), load)]
  }

  /** A run of one command, unfolded. */
  lemma RunSingle(catalogue: seq<Country>, fs: FileSystem, st: WorkerState, cmd: Command)
    requires RunFits(catalogue, fs, st, [cmd])
    ensures CommandFits(st, cmd)
    ensures var r := Run(catalogue, fs, st, [cmd]);
            var res := Step(catalogue, fs, st, cmd);
            && (res.Running? ==> r.sent == res.sent && r.crash.None?)
            && (res.Crashed? ==> r.sent == [] && r.crash == Some(res.reason))
  {
    assert [cmd][1..] == [];
  }

  /** A run of an `Update` followed by more commands, unfolded. */
  lemma RunAfterUpdate(catalogue: seq<Country>, fs: FileSystem, st: WorkerState, cmds: seq<Command>, mid: WorkerState)
    requires cmds != [] && RunFits(catalogue, fs, st, cmds)
    requires Step(catalogue, fs, st, cmds[0]) == Running(mid, [])
    ensures RunFits(catalogue, fs, mid, cmds[1..])
    ensures Run(catalogue, fs, st, cmds).sent == Run(catalogue, fs, mid, cmds[1..]).sent
    ensures Run(catalogue, fs, st, cmds).crash == Run(catalogue, fs, mid, cmds[1..]).crash
  {
    var tail := Run(catalogue, fs, mid, cmds[1..]);
    assert Run(catalogue, fs, st, cmds) == RunResult(tail.final, [] + tail.sent, tail.crash);
  }

  /** The startup `Update` for Europe and Flags leaves exactly the European countries and Flags. */
  lemma EuropeUpdateStep(catalogue: seq<Country>, fs: FileSystem, update: Roll)
    ensures Step(catalogue, fs, INITIAL_STATE, Command(ThreadIn(Some([Flags]), Update, Some(EUROPE_ONLY), None), update))
            == Running(WorkerState(FilterByContinents(catalogue, [Europe]), [Flags]), [])
  {
    ContinentsOneChecked(EUROPE_ONLY, 0);
  }

  /** A question built from the European countries in Flags mode. */
  lemma EuropeQuestion(catalogue: seq<Country>, fs: FileSystem, load: Roll, h: nat)
    requires h < ANSWER_NUM
    requires RollFits(load, |FilterByContinents(catalogue, [Europe])|, 1)
    ensures var out := LoadDataFromThread(FilterByContinents(catalogue, [Europe]), [Flags], ThreadIn(None, Load, None, Some(h)), fs, load);
            && (out.Sent? || out.Panicked?)
            && (|FilterByContinents(catalogue, [Europe])| < ANSWER_NUM ==> out.Panicked?)
            && (out.Sent? ==>
                 && out.data.mode == Flags
                 && (forall i :: 0 <= i < ANSWER_NUM ==> exists c :: c in catalogue && c.continent == Some(Europe) && out.data.names[i] == c.name)
                 && exists c :: c in catalogue && c.continent == Some(Europe) && out.data.names[h] == c.name && out.data.img == fs(FlagPath(c)))
  {
    var europe := FilterByContinents(catalogue, [Europe]);
    var input := ThreadIn(None, Load, None, Some(h));
    var out := LoadDataFromThread(europe, [Flags], input, fs, load);
    if out.Sent? {
      QuestionContents(europe, [Flags], input, fs, load);
      var d := out.data;
      forall i | 0 <= i < ANSWER_NUM
        ensures exists c :: c in catalogue && c.continent == Some(Europe) && d.names[i] == c.name
      {
        var c := europe[load.sample[i]];
        assert c in europe;
      }
      var c := europe[load.sample[h]];
      assert c in europe;
    }
  }

  /**
   * Europe only, Flags only, then one `Load` with hint `h`: the worker sends
   * one Flags question or panics, every label is the name of a European
   * catalogue country, the image is the flag of the country named at the
   * hint, and fewer than four European countries always ends in a panic.
   */
  lemma EuropeFlagsScenario(catalogue: seq<Country>, fs: FileSystem, update: Roll, load: Roll, h: nat)
    requires h < ANSWER_NUM
    requires RunFits(catalogue, fs, INITIAL_STATE, EuropeCommands(update, load, h))
    ensures var r := Run(catalogue, fs, INITIAL_STATE, EuropeCommands(update, load, h));
            && (|r.sent| == 1 || r.crash.Some?)
            && (|FilterByContinents(catalogue, [Europe])| < ANSWER_NUM ==> r.crash.Some?)
            && forall d :: d in r.sent ==>
                 && d.mode == Flags
                 && (forall i :: 0 <= i < ANSWER_NUM ==> exists c :: c in catalogue && c.continent == Some(Europe) && d.names[i] == c.name)
                 && exists c :: c in catalogue && c.continent == Some(Europe) && d.names[h] == c.name && d.img == fs(FlagPath(c))
  {
    var cmds := EuropeCommands(update, load, h);
    var st := WorkerState(FilterByContinents(catalogue, [Europe]), [Flags]);
    EuropeUpdateStep(catalogue, fs, update);
    RunAfterUpdate(catalogue, fs, INITIAL_STATE, cmds, st);
    assert cmds[1..] == [cmds[1]];
    RunSingle(catalogue, fs, st, cmds[1]);
    EuropeQuestion(catalogue, fs, load, h);
  }
}
