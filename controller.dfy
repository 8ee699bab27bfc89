/** The upload/report controller of app1.py: the widget flags that the two
    file-picker callbacks assign, the dataset variable they share, and the
    transitions each callback performs.

    The pure functions on `Ui` snapshots state what one callback does to the
    whole visible state; the class `Controller` holds the same state in mutable
    fields and its methods perform the assignments step by step, each proved to
    end in the state the corresponding function gives. */
module Controller {
  import opened Paths

  datatype Option<T> = None | Some(value: T)

  /** What the tabular loader returns: a table with named columns and a number
      of rows. Cell contents are not modelled. */
  datatype Dataset = Dataset(columns: seq<string>, rows: nat)
  {
    /** A table is empty when either axis has length zero. */
    predicate IsEmpty()
      // empty means the table holds no cell at all
      ensures IsEmpty() <==> |columns| * rows == 0
    {
      columns == [] || rows == 0
    }
  }

  /** Outcome of reading the picked CSV file: a table, or the text of the
      exception the loader raised. */
  datatype LoadOutcome = Loaded(data: Dataset) | LoadFailed(detail: string)

  /** Outcome of generating and writing the profiling report. */
  datatype GenOutcome = GenOk | GenFailed(detail: string)

  const WrongTypeMessage := "Please upload a CSV file."
  const LoadedMessage := "CSV file loaded successfully."
  const EmptyMessage := "Loaded file is empty or invalid."
  const LoadErrorPrefix := "Error loading CSV file: "
  const SavedMessage := "Data profiling report saved successfully."
  const GenErrorPrefix := "Error generating report: "

  /** A snapshot of everything the callbacks read or write. */
  datatype Ui = Ui(
    df: Option<Dataset>,
    errorVisible: bool,
    errorValue: string,
    successVisible: bool,
    successValue: string,
    downloadVisible: bool,
    sectionVisible: bool,
    progressBarVisible: bool,
    progressTextVisible: bool)

  /** The state right after the page is built: no dataset, every text empty and
      every widget of the download section (and the section) hidden. */
  function Initial(): (r: Ui)
    ensures r.df == None && r.errorValue == "" && r.successValue == ""
    ensures !r.errorVisible && !r.successVisible && !r.downloadVisible
    ensures !r.sectionVisible && !r.progressBarVisible && !r.progressTextVisible
  {
    Ui(None, false, "", false, "", false, false, false, false)
  }

  /** The file-picker callback. `files` are the picked paths (empty when the
      dialog was cancelled); `load` is what reading the first of them yields,
      consulted only when that path ends in ".csv". */
  function FilePicked(s: Ui, files: seq<string>, load: LoadOutcome): (r: Ui)
    // a cancelled dialog changes nothing
    ensures files == [] ==> r == s
    // a path without the exact ".csv" suffix only raises the error message
    ensures files != [] && !EndsWith(files[0], CsvSuffix) ==>
              r.errorVisible && r.errorValue == WrongTypeMessage &&
              r.df == s.df && r.successVisible == s.successVisible &&
              r.successValue == s.successValue &&
              r.downloadVisible == s.downloadVisible && r.sectionVisible == s.sectionVisible
    // a non-empty table replaces the dataset and opens the download section
    ensures files != [] && EndsWith(files[0], CsvSuffix) && load.Loaded? && !load.data.IsEmpty() ==>
              r.df == Some(load.data) &&
              r.successVisible && r.successValue == LoadedMessage &&
              r.downloadVisible && !r.errorVisible && r.sectionVisible &&
              r.errorValue == s.errorValue
    // an empty table is still stored, but the download button is hidden
    ensures files != [] && EndsWith(files[0], CsvSuffix) && load.Loaded? && load.data.IsEmpty() ==>
              r.df == Some(load.data) &&
              r.errorVisible && r.errorValue == EmptyMessage && !r.downloadVisible &&
              r.successVisible == s.successVisible && r.successValue == s.successValue &&
              r.sectionVisible == s.sectionVisible
    // a loader exception keeps the previous dataset and hides success and download
    ensures files != [] && EndsWith(files[0], CsvSuffix) && load.LoadFailed? ==>
              r.df == s.df &&
              r.errorVisible && r.errorValue == LoadErrorPrefix + load.detail &&
              !r.successVisible && !r.downloadVisible &&
              r.successValue == s.successValue && r.sectionVisible == s.sectionVisible
    // picking a file never touches the progress indicators nor hides the section
    ensures r.progressBarVisible == s.progressBarVisible
    ensures r.progressTextVisible == s.progressTextVisible
    ensures s.sectionVisible ==> r.sectionVisible
  {
    if files == [] then s
    else if !EndsWith(files[0], CsvSuffix) then
      s.(errorValue := WrongTypeMessage, errorVisible := true)
    else
      match load
      case LoadFailed(detail) =>
        s.(errorValue := LoadErrorPrefix + detail, errorVisible := true,
           successVisible := false, downloadVisible := false)
      case Loaded(d) =>
        if !d.IsEmpty() then
          s.(df := Some(d), successValue := LoadedMessage, successVisible := true,
             downloadVisible := true, errorVisible := false, sectionVisible := true)
        else
          s.(df := Some(d), errorValue := EmptyMessage, errorVisible := true,
             downloadVisible := false)
  }

  /** The save callback acts only on a non-empty destination and a present
      dataset: Python's truthiness test on the path treats None and "" alike. */
  predicate SaveAccepted(s: Ui, path: Option<string>)
    ensures SaveAccepted(s, path) ==> s.df.Some? && path.Some? && |path.value| > 0
    ensures s.df.None? || path == None || path == Some("") ==> !SaveAccepted(s, path)
    ensures s.df.Some? && path.Some? && |path.value| > 0 ==> SaveAccepted(s, path)
  {
    path.Some? && path.value != "" && s.df.Some?
  }

  /** The "Generating" snapshot: the state rendered once the save callback has
      shown its progress indicators, before the report is produced. */
  function Generating(s: Ui): (r: Ui)
    ensures r.progressBarVisible && r.progressTextVisible
    ensures !r.errorVisible && !r.successVisible
    ensures r.df == s.df && r.downloadVisible == s.downloadVisible
    ensures r.sectionVisible == s.sectionVisible
    ensures r.errorValue == s.errorValue && r.successValue == s.successValue
  {
    s.(progressBarVisible := true, progressTextVisible := true,
       errorVisible := false, successVisible := false)
  }

  /** The end of the save callback, once report generation returned or raised. */
  function Finished(s: Ui, gen: GenOutcome): (r: Ui)
    ensures !r.progressBarVisible && !r.progressTextVisible
    ensures gen.GenOk? ==>
              r.successVisible && r.successValue == SavedMessage &&
              r.errorVisible == s.errorVisible && r.errorValue == s.errorValue
    ensures gen.GenFailed? ==>
              r.errorVisible && r.errorValue == GenErrorPrefix + gen.detail &&
              r.successVisible == s.successVisible && r.successValue == s.successValue
    ensures r.df == s.df && r.downloadVisible == s.downloadVisible
    ensures r.sectionVisible == s.sectionVisible
  {
    match gen
    case GenOk =>
      s.(progressTextVisible := false, progressBarVisible := false,
         successValue := SavedMessage, successVisible := true)
    case GenFailed(detail) =>
      s.(progressTextVisible := false, progressBarVisible := false,
         errorValue := GenErrorPrefix + detail, errorVisible := true)
  }

  /** The whole save callback, as seen at the render point after it returns. */
  function SavePicked(s: Ui, path: Option<string>, gen: GenOutcome): (r: Ui)
    // no destination, or nothing loaded: nothing changes
    ensures !SaveAccepted(s, path) ==> r == s
    ensures SaveAccepted(s, path) ==> !r.progressBarVisible && !r.progressTextVisible
    // success shows exactly the success message
    ensures SaveAccepted(s, path) && gen.GenOk? ==>
              r.successVisible && r.successValue == SavedMessage && !r.errorVisible &&
              r.errorValue == s.errorValue
    // failure shows exactly the error message, with the detail
    ensures SaveAccepted(s, path) && gen.GenFailed? ==>
              r.errorVisible && r.errorValue == GenErrorPrefix + gen.detail && !r.successVisible &&
              r.successValue == s.successValue
    // the dataset, the download button and the section are never touched
    ensures r.df == s.df && r.downloadVisible == s.downloadVisible
    ensures r.sectionVisible == s.sectionVisible
  {
    if SaveAccepted(s, path) then Finished(Generating(s), gen) else s
  }

  /** The flags every state keeps once a callback has returned (see
      Session.ReachableSettled for the proof that every reachable state does):
      the progress indicators are hidden; the download button is shown only with
      a non-empty dataset and inside the visible section; the section is shown
      only once a dataset exists; and no success message appears before a
      dataset exists. */
  predicate Settled(s: Ui)
  {
    && !s.progressBarVisible && !s.progressTextVisible
    && (s.downloadVisible ==> s.sectionVisible && s.df.Some? && !s.df.value.IsEmpty())
    && (s.sectionVisible ==> s.df.Some?)
    && (s.df.None? ==> !s.successVisible)
    && (s.successVisible ==> s.successValue == LoadedMessage || s.successValue == SavedMessage)
  }

  lemma InitialSettled()
    ensures Settled(Initial())
  {
  }

  lemma FilePickedSettled(s: Ui, files: seq<string>, load: LoadOutcome)
    requires Settled(s)
    ensures Settled(FilePicked(s, files, load))
  {
  }

  lemma SavePickedSettled(s: Ui, path: Option<string>, gen: GenOutcome)
    requires Settled(s)
    ensures Settled(SavePicked(s, path, gen))
  {
  }

  /** Picking the same file with the same outcome twice leaves the state the
      first pick produced: nothing accumulates. */
  lemma FilePickedIdempotent(s: Ui, files: seq<string>, load: LoadOutcome)
    ensures FilePicked(FilePicked(s, files, load), files, load) == FilePicked(s, files, load)
  {
  }

  /** The controller with its widget flags as mutable fields. */
  class Controller {
    var df: Option<Dataset>
    var errorVisible: bool
    var errorValue: string
    var successVisible: bool
    var successValue: string
    var downloadVisible: bool
    var sectionVisible: bool
    var progressBarVisible: bool
    var progressTextVisible: bool

    /** The fields as one `Ui` value. */
    function Snapshot(): (r: Ui)
      reads this
    {
      Ui(df, errorVisible, errorValue, successVisible, successValue,
         downloadVisible, sectionVisible, progressBarVisible, progressTextVisible)
    }

    /** The widgets as the page builds them. */
    constructor ()
      ensures Snapshot() == Initial()
      ensures Settled(Snapshot())
    {
      progressBarVisible := false;
      progressTextVisible := false;
      errorValue, errorVisible := "", false;
      successValue, successVisible := "", false;
      downloadVisible := false;
      df := None;
      sectionVisible := false;
    }

    /** Makes the download section visible; nothing else changes. */
    method ShowDownloadSection()
      modifies this
      ensures sectionVisible
      ensures Snapshot() == old(Snapshot()).(sectionVisible := true)
    {
      sectionVisible := true;
    }

    /** The file-picker callback. Returns the path handed to the CSV loader, or
        None when the loader is not called (cancelled dialog, wrong suffix). */
    method OnFilePickerResult(files: seq<string>, load: LoadOutcome) returns (read: Option<string>)
      modifies this
      ensures Snapshot() == FilePicked(old(Snapshot()), files, load)
      ensures read == if files != [] && EndsWith(files[0], CsvSuffix) then Some(files[0]) else None
      ensures old(Settled(Snapshot())) ==> Settled(Snapshot())
    {
      if Settled(Snapshot()) {
        FilePickedSettled(Snapshot(), files, load);
      }
      read := None;
      if files != [] {
        var filePath := files[0];
        if !EndsWith(filePath, CsvSuffix) {
          errorValue := WrongTypeMessage;
          errorVisible := true;
          return;
        }
        read := Some(filePath);
        match load {
          case Loaded(d) =>
            df := Some(d);
            if !d.IsEmpty() {
              successValue := LoadedMessage;
              successVisible := true;
              downloadVisible := true;
              errorVisible := false;
              ShowDownloadSection();
            } else {
              errorValue := EmptyMessage;
              errorVisible := true;
              downloadVisible := false;
            }
          case LoadFailed(detail) =>
            errorValue := LoadErrorPrefix + detail;
            errorVisible := true;
            successVisible := false;
            downloadVisible := false;
        }
      }
    }

    /** First half of the save callback, up to the first render point: checks
        the guard, normalises the destination and shows the progress
        indicators. Returns the destination the report will be written to, or
        None when the guard fails and nothing changes. */
    method BeginSave(path: Option<string>) returns (target: Option<string>)
      modifies this
      ensures old(SaveAccepted(Snapshot(), path)) ==>
                Snapshot() == Generating(old(Snapshot())) &&
                target == Some(NormalizeSavePath(path.value))
      ensures !old(SaveAccepted(Snapshot(), path)) ==> Snapshot() == old(Snapshot()) && target == None
    {
      target := None;
      if path.Some? && path.value != "" && df.Some? {
        var savePath := path.value;
        if !EndsWith(savePath, HtmlSuffix) {
          savePath := savePath + HtmlSuffix;
        }
        progressBarVisible := true;
        progressTextVisible := true;
        errorVisible := false;
        successVisible := false;
        target := Some(savePath);
      }
    }

    /** Second half of the save callback: hides the progress indicators and
        reports the outcome of generating the report. */
    method FinishSave(gen: GenOutcome)
      modifies this
      ensures Snapshot() == Finished(old(Snapshot()), gen)
    {
      match gen {
        case GenOk =>
          progressTextVisible := false;
          progressBarVisible := false;
          successValue := SavedMessage;
          successVisible := true;
        case GenFailed(detail) =>
          progressTextVisible := false;
          progressBarVisible := false;
          errorValue := GenErrorPrefix + detail;
          errorVisible := true;
      }
    }

    /** The save callback. `gen` is what generating the report to the returned
        destination yields. */
    method OnSavePickerResult(path: Option<string>, gen: GenOutcome) returns (target: Option<string>)
      modifies this
      ensures Snapshot() == SavePicked(old(Snapshot()), path, gen)
      ensures target == if old(SaveAccepted(Snapshot(), path)) then Some(NormalizeSavePath(path.value)) else None
      ensures old(Settled(Snapshot())) ==> Settled(Snapshot())
    {
      if Settled(Snapshot()) {
        SavePickedSettled(Snapshot(), path, gen);
      }
      target := BeginSave(path);
      if target.Some? {
        FinishSave(gen);
      }
    }
  }
}
