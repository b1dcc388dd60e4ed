# GeoGame quiz core in Dafny

GeoGame is a desktop geography quiz. The player ticks the continents and the
quiz modes they want. A background worker keeps the catalogue countries on
the ticked continents. On request it builds a question: four distinct
countries, a mode (guess the country from its flag, or the capital from the
country's name), four labels and a prompt. The UI thread stores which of the
four buttons is correct and colours a click green or red. On close it saves
the checkbox state, window geometry and colour choice.

This project models that core as pure Dafny functions and proves properties
about them:

- `Common`: `Option`, `Result` and counting of checked boxes.
- `Consts`: the constants and the `block_checkbox!` rule.
- `Configure`: the country record, its JSON decoding with the `Other`
  continent fallback, and file reading.
- `GameModes` and `ThreadFn`: the worker's message types and the question
  builder `load_data_from_thread`.
- `GameLogic`: the continent filter, the sampler, the continent and mode
  selectors, and the colour and language tables.
- `Worker`: the worker thread as a fold over its commands.
- `Shell`: the UI callbacks. This covers loading the catalogue and the
  configuration, the startup `Update`, the run, answer and checkbox
  callbacks, the command stream of a whole session, and the configuration
  saved on close.

The panics of the question builder, the worker and the startup `Update` are
explicit outcomes (`Panicked`, `Crashed`, `None`). A few helpers instead
require the input their callers always supply, and the "## Left out" section
names each of them. Random draws are parameters: a `Roll` for the worker
and a `roll` for the UI. `GetRandomCountries`, `GetRandUniversal` and
`LoadData` are nondeterministic methods that tie the parameters to what the
generator can produce. The flag image store is a parameter
`fs: string -> Option<bytes>`. File contents and the JSON parser are also
parameters.

Some behaviour of the code is easy to miss:

- `block_checkbox!` blocks when at most one box is checked, so a vector with
  no box checked is blocked too.
- Sampling returns `min(4, n)` countries and never fails by itself. With
  `n` below four, a Flags or Capitals pick panics: the hint indexes past
  the sample, or the label loop reaches index `n`, which is at most 3. A
  FandC pick only prints a note and sends nothing, whatever `n` and the
  hint are.
- A Flags or Capitals pick also panics on a missing hint
  (src/threadfn.rs:55, src/threadfn.rs:70), and a Flags pick on a flag
  file that cannot be read (src/threadfn.rs:60-63).
- A catalogue record decodes from a JSON object or from a seven-element
  array in field order. A continent decodes from its name or from a
  one-key object `{"Asia": null}`.
- The language tables know only "en" and "ru". "cn" and index 2 fall back to
  English.
- The `InputConfig` struct in src/configure.rs has only a `continents`
  field. src/main.rs reads and writes six fields (size, position,
  continents, mode, language, colour). The model follows src/main.rs.

## Model

| member | source | states |
|---|---|---|
| Common.CountTrue | src/consts.rs:130-131 | the count of checked entries is at most the vector's length, and equals it exactly when every entry is checked |
| Common.CountTrueAtMostOne | src/consts.rs:130-132 | counting the true entries of a slice gives at most one exactly when no two distinct positions are both true |
| Consts.BlockCheckbox | src/consts.rs:127-134 | the last box is blocked exactly when at most one of the first `len` boxes is checked |
| Consts.BlockCheckboxCases | src/consts.rs:127-134 | a single checked box is blocked, no checked box is blocked, two checked boxes are not blocked |
| Consts.BlockCheckboxIgnoresTail | src/consts.rs:129-130 | only the first `len` entries decide blocking |
| Consts.ConstantTables | src/consts.rs:83-100 | tier `k` has index `k` and caps 10, 25, 99 in increasing order; colour and language indices are dense from 0 |
| Configure.DecodeContinent | src/configure.rs:5-17 | a continent string decodes to `Other` exactly when it is not one of the six names (with "North America" and "South America" spelled with a space), and otherwise to the continent of that name |
| Configure.DecodeContinentName | src/configure.rs:5-17 | every continent's name decodes back to it |
| Configure.RequiredString | src/configure.rs:24 | a required text field decodes exactly when present and a string, to that string |
| Configure.RequiredBool | src/configure.rs:31 | a required boolean field decodes exactly when present and a boolean |
| Configure.OptionalString | src/configure.rs:22 | an optional text field decodes exactly when it is absent, null or a string; absent or null gives `None`, a string gives itself |
| Configure.ContinentValue | src/configure.rs:5-17 | a continent decodes exactly from a string or a one-key object with a null value, to the continent that string or key names, with the `Other` fallback |
| Configure.OptionalContinent | src/configure.rs:25 | a continent field decodes exactly when it is absent, null, a string or a one-key object with a null value; absent or null is `None`, and a name in either form is decoded with the `Other` fallback |
| Configure.DecodeCountry | src/configure.rs:19-34 | a record decodes exactly when it is an object whose required fields are present with the right types and whose optional fields are absent, null or well formed, or an array of seven elements of the field types in declaration order; every field of the result is the one at that name or position, and the continent goes through the `Other` fallback |
| Configure.DecodeEncodeCountry | src/configure.rs:19-34 | encoding a country as an object and decoding it gives the same country back |
| Configure.DecodeEncodeCountryArray | src/configure.rs:19-34 | encoding a country as a positional array, with the continent in the one-key object form, and decoding it gives the same country back |
| Configure.AlternativeFormsDecode | src/configure.rs:5-34 | a positional record and a one-key continent object decode, an unknown key gives `Other`, and a one-key object with a non-null value fails |
| Configure.DecodeCatalogue | src/main.rs:31-37 | the catalogue decodes exactly when the document is an array of decodable countries, element by element in order |
| Configure.ReadFromFile | src/configure.rs:44-51 | an unreadable file counts as empty text; empty text is an end-of-input error; other text goes to the parser |
| GameLogic.FilterByContinents | src/process.rs:11-21 | keeps exactly the countries whose continent is present and among the targets, each with its multiplicity, in catalogue order |
| GameLogic.FilterIdempotent | src/process.rs:11-21 | filtering twice by the same continents equals filtering once |
| GameLogic.FilterDropsUnknownContinent | src/process.rs:15-18 | a country with no continent never survives the filter |
| GameLogic.SelectionNeverKeepsOther | src/main.rs:71-72 | a country kept by the worker's selection is a catalogue country on a named continent (never `Other`) whose box is checked |
| GameLogic.GetRandomCountries | src/process.rs:23-31 | returns `min(count, n)` pairwise-distinct catalogue positions and the countries at them, and never fails, even with fewer than `count` countries |
| GameLogic.GetRandUniversal | src/process.rs:33-37 | draws from `0..count`, which must be non-empty |
| GameLogic.ContinentRank | src/process.rs:41 | the named continents sit at their index in the selector order, and `Other` has none |
| GameLogic.CreateContinentsList | src/process.rs:39-51 | the continent at selector position `k` is listed exactly when box `k` is checked; `Other` never is; the list follows selector order |
| GameLogic.ContinentsAllChecked | src/process.rs:39-51 | with every box checked the list is the whole selector order |
| GameLogic.ContinentsOneChecked | src/process.rs:39-51 | with only box `k` checked the list is that one continent |
| GameLogic.CreateModeList | src/process.rs:53-65 | the mode at position `k` is listed exactly when box `k` is checked, in Flags, Capitals, FandC order |
| GameLogic.ModeListEmpty | src/process.rs:53-65 | the mode list is empty exactly when no mode box is checked |
| GameLogic.ButtonColor | src/process.rs:67-78 | a colour index in range gives its palette entry, and any other index gives gray |
| GameLogic.ButtonColorIndex | src/process.rs:80-90 | a palette name gives its index, and any other name gives gray's index |
| GameLogic.ButtonColorString | src/process.rs:92-102 | an index in range gives its palette name, and any other index gives "gray" |
| GameLogic.ColorTablesRoundTrip | src/process.rs:80-102 | index to name to index, and palette name to index to name, are identities; unknown names come back as "gray" |
| GameLogic.SavedColorRestores | src/process.rs:67-102 | saving a colour by name and reading it back shows the same palette colour |
| GameLogic.LanguageIndex | src/process.rs:104-110 | "ru" is 1, and every other name (including "cn") is English |
| GameLogic.LanguageString | src/process.rs:112-118 | 1 is "ru", and every other index (including 2) is "en" |
| GameLogic.LanguageTablesRoundTrip | src/process.rs:104-118 | the tables are inverse on "en" and "ru", and everything else falls back to English |
| ThreadFn.CapitalLabel | src/threadfn.rs:73-76 | a capital labels as itself, and a missing capital as "None" |
| ThreadFn.LoadDataFromThread | src/threadfn.rs:39-87 | with no mode enabled it panics; a FandC pick sends nothing and never panics; a Flags or Capitals pick panics exactly when the hint is missing or past the sample, when (Flags only) the flag cannot be read, or when fewer than four countries were sampled, and otherwise sends one question of that mode with four labels |
| ThreadFn.QuestionContents | src/threadfn.rs:47-82 | a sent question's four labels describe four distinct sampled countries in order; its prompt is the flag image (Flags) or the name (Capitals) of the country at the hint |
| ThreadFn.HintedLabelAnswersPrompt | src/threadfn.rs:53-81 | the label at the hint index belongs to the same country as the prompt |
| ThreadFn.LoadData | src/threadfn.rs:47-49 | with its own draws the builder produces one of the outcomes of the draw-parameterised builder |
| Worker.Step | src/main.rs:67-78 | an `Update` succeeds exactly when it carries both payloads and a full continent vector; it then sends nothing, stores the mode list, and keeps exactly the catalogue countries on checked continents, each with its multiplicity, in catalogue order; a `Load` keeps the state and sends what the builder sends, or crashes when the builder panics |
| Worker.Run | src/main.rs:62-81 | the worker sends at most one question per command, every question has four labels in Flags or Capitals mode, and the filtered list keeps holding only catalogue countries on named continents |
| Worker.InitialStateInvariant | src/main.rs:63-64 | the worker starts with empty lists, which satisfy the state invariant |
| Worker.WellFormedRunNeverUnwrapsNone | src/main.rs:69-77 | when every `Update` carries its payloads and every `Load` a hint below four, the worker never unwraps `None` |
| Worker.SentLabelsFromCatalogue | src/main.rs:70-77 | every label sent names a catalogue country on a named continent (or gives its capital) |
| Worker.EuropeFlagsScenario | src/main.rs:66-80 | Europe and Flags only, then one `Load`: one Flags question or a panic; the labels name European countries and the image is the flag of the country at the hint; fewer than four European countries always panics |
| Shell.WrapI32 | src/main.rs:257-262 | the result is the `i32` congruent to the input modulo 2^32, so it equals the input when the input already fits |
| Shell.LoadCatalogue | src/main.rs:31-37 | the catalogue is available exactly when the file reads, is non-blank, parses as JSON and decodes as a list of countries, and is then the decoded list; otherwise the application panics at startup |
| Shell.LoadConfig | src/main.rs:40-46 | a missing, empty or unparsable configuration gives the defaults, and otherwise the parsed configuration |
| Shell.StartupUpdate | src/main.rs:87-93 | building the startup `Update` panics exactly when the configured mode vector has fewer than three entries; otherwise the first command is an `Update` with the configured continent vector, unchecked in length, and exactly the configured modes |
| Shell.OnRunGame | src/main.rs:103-117 | the run button stores the fresh correct index and requests a question with it as the hint |
| Shell.OnButtonClicked | src/main.rs:120-149 | a click is green exactly when it hits the stored correct index; it shows the clicked label and the correct label, then stores a fresh index and requests a question with it |
| Shell.OnCheckboxClicked | src/main.rs:152-170 | a checkbox sends an `Update` with the current continent vector and exactly the checked modes |
| Shell.OnClose | src/main.rs:223-245 | the saved configuration holds half the window size (rounded down), the x position, y plus 56 (the `i32` congruent to it modulo 2^32), English, and the current checkboxes and colour |
| Shell.HandleEvent | src/main.rs:102-170 | every `Load` carries the stored index as its hint; an `Update` is sent exactly for a checkbox click and leaves the stored index unchanged |
| Shell.UiStateAfter | src/main.rs:102-170 | the stored correct index stays below four through any sequence of actions |
| Shell.UiRequests | src/main.rs:102-170 | one command per action; every `Load` has a hint below four; an `Update` is sent exactly for a checkbox click and carries its vector and a mode list |
| Shell.UpdatesKeepState | src/main.rs:152-170 | checkbox clicks leave the stored correct index unchanged |
| Shell.OnlyUpdatesKeepHint | src/main.rs:152-170 | when only `Update`s were sent the stored index is the starting one |
| Shell.LatestLoadHint | src/main.rs:103-149 | the stored correct index is the hint of the latest `Load` sent; the next click is judged against that hint, which matches the buttons only when that `Load` produced a question |
| Shell.SessionRequests | src/main.rs:84-93 | a session sends nothing exactly when the startup `Update` panics; otherwise its first command is that `Update`, followed by one command per action |
| Shell.SessionWellFormed | src/main.rs:84-170 | with full continent vectors, every command of a session carries what the worker unwraps |
| Shell.AttachedNeverUnwrapsNone | src/main.rs:62-81 | well-formed commands never make the worker unwrap `None`, whatever its draws |
| Shell.SessionNeverUnwrapsNone | src/main.rs:62-170 | during a session with full continent vectors the worker never unwraps `None` |

## Left out

- The Slint window, widgets, image decoding (`to_img`), `on_update_window` and the `set::` helpers: presentation only. `set` is not part of this model.
- Threads and channels: the worker is a fold over its commands in arrival order. Reply timing and `tx.send(...).unwrap()` on a closed channel are not modelled.
- File I/O: file contents, the flag image store and the JSON text parser are parameters. The JSON grammar is abstract, and so is the configuration decoder.
- Release-build paths (`load_file_ways`, `image_path_string`) and the Windows constants: the model uses the Linux/macOS debug image directory.
- The welcome icon read at src/main.rs:51-54: the application panics when the icon cannot be read. This happens before the startup `Update` is sent, like the catalogue panic at src/main.rs:36. The session members start after both loads succeeded.
- `open::that` links and `println!` output: side effects with no model state.
- src/translation.rs, src/loadconfig.rs, src/uipart.rs and windows/build_app.py: outside the core.
- Uniformity of the random draws: the methods only guarantee that a draw is one the generator can make.
- GameLogic.GetRandomCountries: its body picks positions in increasing order, while `choose_multiple` may return them in any order. The question builder takes the sample as a parameter and accepts any order.
- Session and round counting, the timer and the tier caps beyond their constants: not present in the core code.
- `InputConfig::default`: its code is not part of this model. `Configure.DEFAULT_CONFIG` assumes a 500×500 window at the origin, every continent on, only Flags, "en" and "gray".
- Shell.OnButtonClicked: requires the clicked index and the stored index to lie inside the label list. The source indexes the list directly (a negative `i32` index becomes a huge `usize`) and would panic otherwise; the four-button panel never produces such an index.
- Shell.OnClose: a debug build panics on `i32` overflow of `y + 56`, while a release build wraps. The model wraps as a release build does, while its image paths follow the debug build, so the model mixes the two build profiles.
- Shell.UiRequests: the `roll` of each action is given by the caller, not drawn from `get_rand_universal(4)`.
- Consts.BlockCheckbox: requires `len` to be at most the vector's length. The slice `[..len]` panics otherwise. Its callers are `set::` helpers, which are not part of this model; at startup (src/main.rs:97-98) they receive the configured `continents` and `mode` vectors, whose length nothing checks, so a short configured vector would reach that panic.
- GameLogic.CreateContinentsList: requires at least six entries, where the source indexes past the end and panics. `Worker.Step` checks the length itself and crashes with `IndexOutOfBounds` on a short vector.
- GameLogic.CreateModeList: requires at least three entries, where the source indexes past the end and panics. `Shell.StartupUpdate` models that panic as `None`.
- GameLogic.GetRandUniversal: requires a non-empty range, where `random_range(0..0)` panics. `ThreadFn.LoadDataFromThread` models that panic as `Panicked(EmptyRange)`.
- Shell.OnCheckboxClicked: requires three mode entries. The UI always supplies its three mode checkboxes, so the panic in `create_mode_list` cannot occur there.
- Configure.DecodeCountry: which error a malformed record reports is not modelled; serde reports the first problem in document order. Duplicate keys and key order are not representable in the `Json` tree.
- Shell.SessionWellFormed, Shell.SessionNeverUnwrapsNone: state properties of sessions whose startup `Update` is sent, so they require three configured mode entries.
