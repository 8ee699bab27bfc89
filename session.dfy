/** A session of app1.py: the sequence of picker results the event loop
    delivers to the two callbacks, and what holds in every state it reaches. */
module Session {
  import opened Paths
  import opened Controller

  /** One picker result, together with what its collaborator call yields. */
  datatype Event =
    | FilePick(files: seq<string>, load: LoadOutcome)
    | SavePick(path: Option<string>, gen: GenOutcome)

  /** Dispatches one event to its callback. */
  function Apply(s: Ui, e: Event): (r: Ui)
    ensures r.df.None? ==> s.df.None?
    ensures s.sectionVisible ==> r.sectionVisible
  {
    match e
    case FilePick(files, load) => FilePicked(s, files, load)
    case SavePick(path, gen) => SavePicked(s, path, gen)
  }

  /** The state after the callbacks have handled `events` in order. */
  function Run(s: Ui, events: seq<Event>): (r: Ui)
    decreases |events|
  {
    if events == [] then s else Run(Apply(s, events[0]), events[1..])
  }

  lemma ApplySettled(s: Ui, e: Event)
    requires Settled(s)
    ensures Settled(Apply(s, e))
  {
  }

  /** Every sequence of events keeps the settled flags. */
  lemma {:induction false} RunSettled(s: Ui, events: seq<Event>)
    requires Settled(s)
    ensures Settled(Run(s, events))
    decreases |events|
  {
    if events != [] {
      ApplySettled(s, events[0]);
      RunSettled(Apply(s, events[0]), events[1..]);
    }
  }

  /** Every state reachable from the start page is settled: after any sequence
      of picks the progress indicators are hidden, the download button is shown
      only with a non-empty dataset, and no success message appears before some
      dataset was loaded. This assumes the callbacks run one at a time, each to
      completion; a file pick handled while a report is being generated is not
      a `Run` step (see PickWhileGeneratingIsUnsettled). */
  lemma ReachableSettled(events: seq<Event>)
    ensures Settled(Run(Initial(), events))
  {
    InitialSettled();
    RunSettled(Initial(), events);
  }

  /** Once shown, the download section is never hidden again. */
  lemma {:induction false} SectionStaysVisible(s: Ui, events: seq<Event>)
    requires s.sectionVisible
    ensures Run(s, events).sectionVisible
    decreases |events|
  {
    if events != [] {
      SectionStaysVisible(Apply(s, events[0]), events[1..]);
    }
  }

  /** Once some table was loaded, the dataset variable never becomes empty again:
      no failure clears it. */
  lemma {:induction false} DatasetStaysLoaded(s: Ui, events: seq<Event>)
    requires s.df.Some?
    ensures Run(s, events).df.Some?
    decreases |events|
  {
    if events != [] {
      DatasetStaysLoaded(Apply(s, events[0]), events[1..]);
    }
  }

  /** The save callback never rebinds the dataset: a run of save events leaves it
      (and the download button) as it was. */
  lemma {:induction false} SavesKeepDataset(s: Ui, events: seq<Event>)
    requires forall i :: 0 <= i < |events| ==> events[i].SavePick?
    ensures Run(s, events).df == s.df
    ensures Run(s, events).downloadVisible == s.downloadVisible
    decreases |events|
  {
    if events != [] {
      SavesKeepDataset(Apply(s, events[0]), events[1..]);
    }
  }

  /** Before any file was loaded, the save callback does nothing, whatever
      destination is chosen and whatever generation would yield. */
  lemma SaveBeforeLoadIsNoOp(path: Option<string>, gen: GenOutcome)
    ensures Run(Initial(), [SavePick(path, gen)]) == Initial()
  {
  }

  /** The error and the success message are not exclusive: a good load followed
      by a pick of a non-CSV file shows both. */
  lemma ErrorAndSuccessCanBothShow(table: Dataset, other: LoadOutcome)
    requires !table.IsEmpty()
    ensures var r := Run(Initial(), [FilePick(["a.csv"], Loaded(table)), FilePick(["a.txt"], other)]);
            r.errorVisible && r.successVisible && r.downloadVisible &&
            r.errorValue == WrongTypeMessage && r.successValue == LoadedMessage
  {
    var events := [FilePick(["a.csv"], Loaded(table)), FilePick(["a.txt"], other)];
    assert EndsWith("a.csv", CsvSuffix);
    assert "a.txt"[1..] != CsvSuffix;
    assert !EndsWith("a.txt", CsvSuffix);
    var s1 := FilePicked(Initial(), ["a.csv"], Loaded(table));
    assert events[1..] == [FilePick(["a.txt"], other)];
    assert Run(Initial(), events) == Run(s1, events[1..]);
    assert Run(s1, events[1..]) == Run(FilePicked(s1, ["a.txt"], other), []);
  }

  /** A failed load after a good one leaves the earlier table in place: the
      dataset is not cleared on a loader exception. */
  lemma FailedLoadKeepsEarlierTable(table: Dataset, detail: string)
    requires !table.IsEmpty()
    ensures var r := Run(Initial(), [FilePick(["a.csv"], Loaded(table)), FilePick(["b.csv"], LoadFailed(detail))]);
            r.df == Some(table) && !r.downloadVisible && r.sectionVisible &&
            r.errorValue == LoadErrorPrefix + detail
  {
    var events := [FilePick(["a.csv"], Loaded(table)), FilePick(["b.csv"], LoadFailed(detail))];
    assert EndsWith("a.csv", CsvSuffix);
    assert EndsWith("b.csv", CsvSuffix);
    var s1 := FilePicked(Initial(), ["a.csv"], Loaded(table));
    assert events[1..] == [FilePick(["b.csv"], LoadFailed(detail))];
    assert Run(Initial(), events) == Run(s1, events[1..]);
    assert Run(s1, events[1..]) == Run(FilePicked(s1, ["b.csv"], LoadFailed(detail)), []);
  }

  /** The download section holds the error text, so before the first non-empty
      load an error only sets the visible flag: the section around it is still
      hidden and nothing reaches the screen. */
  lemma WrongSuffixBeforeLoadIsOffScreen(other: LoadOutcome)
    ensures var r := Run(Initial(), [FilePick(["a.txt"], other)]);
            r.errorVisible && r.errorValue == WrongTypeMessage && !r.sectionVisible
  {
  }

  /** Nothing in the program serialises the callbacks: a file pick handled
      while the save callback is generating a report finds the progress
      indicators shown and leaves them shown, so the resulting state is not
      settled. */
  lemma PickWhileGeneratingIsUnsettled(s: Ui, table: Dataset)
    requires !table.IsEmpty()
    ensures var r := FilePicked(Generating(s), ["b.csv"], Loaded(table));
            r.progressBarVisible && r.progressTextVisible && !Settled(r)
  {
  }
}
