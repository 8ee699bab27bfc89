# Data Profiling App: upload/report controller

This project models the controller of a single-screen data-profiling app
(`app1.py`). The user picks a CSV file. The app loads it into a table and
shows a download section. The user then picks a save destination, and the app
writes an HTML profiling report there. The app's own logic is the state that
the two file-picker callbacks update:

- the shared dataset variable `df`;
- the value and visibility of the error text and of the success text;
- the visibility of the download button, of the download section and of the
  two progress indicators.

The model has three modules:

- `Paths` (`paths.dfy`): Python's case-sensitive `str.endswith` and the
  normalisation that appends `.html` to a save destination.
- `Controller` (`controller.dfy`): the state as a `Ui` value and as the
  mutable fields of the class `Controller.Controller`. Pure transition
  functions give the state after each callback: `FilePicked` and
  `SavePicked`, with `SavePicked` split into `Generating` (the snapshot
  rendered while the report is produced) and `Finished`. Each class method
  performs the source's assignments in order and is proved to end in the state
  its function gives. `Settled` is the invariant that every state between
  callbacks keeps.
- `Session` (`session.dfy`): sequences of picker events. Lemmas by induction
  show what holds in every reachable state.

The two library calls are parameters of the callbacks: the CSV loader yields
`LoadOutcome` (a table, or the exception's text) and report generation yields
`GenOutcome`. A table is empty when it has no rows or no columns, as the
loader's `empty` flag defines it. A cancelled open dialog is an empty list of
files. A cancelled save dialog is `None` or the empty string; the source
tests `e.path` for truthiness, which treats both alike.

Some behaviours of the code a reader might not expect; the model follows the
code:

- The `.csv` test is case-sensitive (`Paths.CsvSuffixIsCaseSensitive`).
- A load failure does not clear the dataset. An exception keeps the previous
  table (`Session.FailedLoadKeepsEarlierTable`). An empty table is stored in
  `df`.
- A wrong suffix does not hide the download button or the success text. So
  the error and the success message can both be visible
  (`Session.ErrorAndSuccessCanBothShow`). No mutual-exclusion invariant is
  claimed.
- Every visible flag means "visible if its container is". The error text sits
  inside the download section, which stays hidden until the first non-empty
  load. So an error raised before that load sets the error's visible flag but
  does not reach the screen (`Session.WrongSuffixBeforeLoadIsOffScreen`).
  The table below says "shows" for "sets the visible flag".

## Model

| member | source | states |
|---|---|---|
| `Paths.NormalizeSavePath` | app1.py:65-67 | the result ends in ".html"; a path already ending in ".html" is returned unchanged, any other gets ".html" appended; the input is a prefix of the result |
| `Paths.NormalizeSavePathIdempotent` | app1.py:66-67 | normalising an already normalised path changes nothing |
| `Paths.NormalizeSavePathExamples` | app1.py:66-67 | "report" becomes "report.html", "report.html" stays, "report.HTML" gets a second suffix (the test is case-sensitive) |
| `Paths.CsvSuffixIsCaseSensitive` | app1.py:35 | "data.csv" passes the suffix test, "data.CSV" does not |
| `Controller.Initial` | app1.py:20-26 | at start there is no dataset, both texts are empty, and every widget of the download section (and the section, line 142) is hidden |
| `Controller.FilePicked` | app1.py:29-61 | cancel changes nothing; a wrong suffix sets the error to "Please upload a CSV file." with its visible flag and leaves df, success and download flags alone; a non-empty table replaces df, shows "CSV file loaded successfully.", shows the button and the section, hides the error and keeps its text; an empty table still replaces df, shows "Loaded file is empty or invalid.", hides the button, leaves success alone; a loader exception keeps df, shows "Error loading CSV file: " + detail, hides success and button; progress flags never change and the section never hides |
| `Paths.EndsWith` | app1.py:35 | Python's case-sensitive `str.endswith`, as the ".csv" test (line 35) and the ".html" test (line 66) use it: true exactly when the string is some prefix followed by the suffix |
| `Controller.Dataset.IsEmpty` | app1.py:44 | the loader's `empty` flag: true exactly when the table has no cell, that is no rows or no columns |
| `Controller.SaveAccepted` | app1.py:64 | the save guard `e.path and df is not None`: it holds only with a dataset and a non-empty path, fails for a missing or empty path or a missing dataset, and holds whenever a dataset and a non-empty path are both present |
| `Controller.Generating` | app1.py:69-73 | both progress indicators visible, error and success hidden, df, button, section and both texts' values unchanged |
| `Controller.Finished` | app1.py:75-89 | both progress indicators hidden whatever the outcome; success shows "Data profiling report saved successfully."; failure shows "Error generating report: " + detail; df, button and section unchanged |
| `Controller.SavePicked` | app1.py:63-89 | with no path or no dataset nothing changes; otherwise progress ends hidden, success shows only the success message and keeps the error text, failure shows only the error message with its detail and keeps the success text; df, button and section never change |
| `Controller.InitialSettled` | app1.py:20-26 | the start state satisfies the settled invariant |
| `Controller.FilePickedSettled` | app1.py:29-61 | the file callback preserves the settled invariant (button only with a non-empty table in a visible section, no success message without a dataset) |
| `Controller.SavePickedSettled` | app1.py:63-89 | the save callback preserves the settled invariant, progress hidden again when it returns |
| `Controller.FilePickedIdempotent` | app1.py:29-61 | picking the same file with the same load outcome twice gives the state the first pick gave |
| `Controller.Controller.constructor` | app1.py:20-26 | the fields start as `Initial()` and are settled |
| `Controller.Controller.ShowDownloadSection` | app1.py:164-166 | the section becomes visible and nothing else changes |
| `Controller.Controller.OnFilePickerResult` | app1.py:29-61 | the new fields are `FilePicked` of the old ones; the loader is called on the first path exactly when it ends in ".csv"; the settled invariant is kept |
| `Controller.Controller.BeginSave` | app1.py:64-73 | when the guard holds, the fields become `Generating` of the old ones and the normalised destination is returned; otherwise nothing changes and no destination is returned |
| `Controller.Controller.FinishSave` | app1.py:75-89 | the fields become `Finished` of the old ones for the given generation outcome |
| `Controller.Controller.OnSavePickerResult` | app1.py:63-89 | the new fields are `SavePicked` of the old ones; the report is written to the normalised destination exactly when the guard holds; the settled invariant is kept |
| `Session.Apply` | app1.py:92-93 | dispatching an event never turns a loaded dataset back into None and never hides the section |
| `Session.ApplySettled` | app1.py:29-89 | either callback preserves the settled invariant |
| `Session.RunSettled` | app1.py:29-89 | any sequence of events preserves the settled invariant |
| `Session.ReachableSettled` | app1.py:20-26 | every state reachable from the start page by callbacks run one at a time has progress hidden, the button only with a non-empty table, and no success message before a dataset exists |
| `Session.SectionStaysVisible` | app1.py:164-165 | once visible, the download section stays visible after any events |
| `Session.DatasetStaysLoaded` | app1.py:41-60 | once some table was loaded, no sequence of events makes df None again |
| `Session.SavesKeepDataset` | app1.py:63-89 | a run of save events leaves df and the download button unchanged |
| `Session.SaveBeforeLoadIsNoOp` | app1.py:64 | a save event before any load leaves the start state unchanged |
| `Session.ErrorAndSuccessCanBothShow` | app1.py:35-49 | a good load followed by a non-CSV pick shows the error and the success message together, with the download button still visible |
| `Session.WrongSuffixBeforeLoadIsOffScreen` | app1.py:35-39 | a first pick of a non-CSV file sets the error and its visible flag while the download section holding it is still hidden |
| `Session.PickWhileGeneratingIsUnsettled` | app1.py:69-77 | a file pick handled between the save callback's first render and the end of report generation leaves the progress indicators shown, so that state is not settled |
| `Session.FailedLoadKeepsEarlierTable` | app1.py:55-60 | a loader exception after a good load keeps the earlier table and hides the button, with the section still visible |

## Left out

- Widget construction, layout, theme, fonts and the page title (app1.py lines 6-17 and 97-161): configuration with no behaviour.
- The CSV loader and the profiling-report library: their internals are not part of this model. Only their outcome is modelled, as a parameter. A table's cells are not modelled, only its columns and its row count.
- The loader's `df is not None` test: the loader never returns None, so the model keeps only the emptiness test.
- The text "Processing..." of the progress label: it is set when the page is built and never changes.
- The open and save dialogs, the page overlay, button wiring and app start-up: these are event plumbing. The events reach the model as `Session.Event` values.
- `page.update()`: a render point, not state. The one intermediate render of the save callback is `Controller.Generating`. An exception raised by rendering itself is not modelled.
- The debug `print` calls: console output only.
- Concurrency: the model assumes the callbacks run one at a time, each to completion, and `Session.Run` applies events in sequence. Nothing in the program enforces this: the buttons stay usable while a report is being generated. An event handled during generation is not a `Run` step, so `Session.ReachableSettled` does not cover it; `Session.PickWhileGeneratingIsUnsettled` shows such an interleaving leaves the progress indicators shown.
