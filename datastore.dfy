/**
 * The backend's persistent state: the request counter `data_counter` and the
 * `data/` directory it numbers files in (typesnipe-backend/main.py).
 * Files are entries of a map from path to content.
 */
module DataStore {
  import opened Wrappers
  import opened Keystrokes
  import Decimal

  /** What a file holds: text such as `counter.txt`, or the JSON dump of a filtered batch. */
  datatype FileContent = Text(text: string) | KeystrokeDump(records: seq<Keystroke>)

  const CounterPath: string := "data/counter.txt"

  /** `data/{n}.json`, the file the request with counter value `n` is stored in. */
  function DataPath(n: int): string
  {
    "data/" + Decimal.Show(n) + ".json"
  }

  /**
   * The counter at process start: the integer in `data/counter.txt`, or 0 when
   * the file is missing or `int()` rejects its text.
   */
  function InitialCounter(files: map<string, FileContent>): int
  {
    if CounterPath in files && files[CounterPath].Text? then
      match Decimal.Parse(files[CounterPath].text)
      case Some(n) => n
      case None => 0
    else 0
  }

  datatype Store = Store(counter: int, files: map<string, FileContent>)

  /**
   * Why a request ends with a server error: the filter raised, or `str()`
   * refused a counter beyond CPython's digit limit.
   */
  datatype PostError = Rejected(cause: FilterError) | DigitLimitExceeded

  /**
   * One `POST /data` request: filter the batch; on success dump it to
   * `data/{counter}.json`, advance the counter, truncate `counter.txt` and
   * write the new counter into it.  A filter error, or a counter `str()`
   * cannot spell when the data file is named, leaves everything unchanged; a
   * new counter `str()` cannot spell leaves `counter.txt` empty.
   */
  function Post(s: Store, batch: seq<Keystroke>): (Outcome<PostError>, Store)
  {
    match Filter(batch)
    case Err(e) => (Fail(Rejected(e)), s)
    case Ok(out) =>
      if !Decimal.WithinDigitLimit(s.counter) then (Fail(DigitLimitExceeded), s)
      else
        var next := s.counter + 1;
        var truncated := s.files[DataPath(s.counter) := KeystrokeDump(out)][CounterPath := Text("")];
        if Decimal.WithinDigitLimit(next) then (Pass, Store(next, truncated[CounterPath := Text(Decimal.Show(next))]))
        else (Fail(DigitLimitExceeded), Store(next, truncated))
  }

  /** Successive requests, each on the state the previous one left. */
  function PostAll(s: Store, batches: seq<seq<Keystroke>>): Store
    decreases |batches|
  {
    if batches == [] then s else PostAll(Post(s, batches[0]).1, batches[1..])
  }

  /** How many of the batches the filter accepts. */
  function Successes(batches: seq<seq<Keystroke>>): nat
    decreases |batches|
  {
    if batches == [] then 0 else (if Filter(batches[0]).Ok? then 1 else 0) + Successes(batches[1..])
  }

  function Min(a: int, b: int): int
  {
    if a <= b then a else b
  }

  /**
   * A restart would resume the count: the persisted counter reads back as
   * the counter in memory, or as 0 once that is beyond the digit limit.
   */
  predicate CounterRecoverable(s: Store)
  {
    InitialCounter(s.files) == if Decimal.WithinDigitLimit(s.counter) then s.counter else 0
  }

  /** Different counter values name different data files. */
  lemma DataPathInjective(m: int, n: int)
    requires DataPath(m) == DataPath(n)
    ensures m == n
  {
    var p := DataPath(m);
    assert Decimal.Show(m) == p[5..|p| - 5];
    assert Decimal.Show(n) == p[5..|p| - 5];
    Decimal.ShowInjective(m, n);
  }

  /** A data file is never the counter file. */
  lemma DataPathIsNotCounter(n: int)
    ensures DataPath(n) != CounterPath
  {
    var d := Decimal.Show(n);
    assert |d| > 0 && (d[0] == '-' || Decimal.IsDigit(d[0])) by {
      if n < 0 {
        assert d[0] == '-';
      } else {
        assert d == Decimal.ShowNat(n);
      }
    }
    assert DataPath(n)[5] == d[0];
    assert CounterPath[5] == 'c';
  }

  /** Start-up reads a counter that `str()` can write back. */
  lemma StartIsRecoverable(files: map<string, FileContent>)
    ensures Decimal.WithinDigitLimit(InitialCounter(files))
    ensures CounterRecoverable(Store(InitialCounter(files), files))
  {
    if CounterPath in files && files[CounterPath].Text? && Decimal.Parse(files[CounterPath].text).Some? {
      Decimal.ParseWithinLimit(files[CounterPath].text);
    }
  }

  /**
   * A request keeps the persisted counter in step with the counter in memory:
   * a restart after any number of requests resumes where the process stopped.
   */
  lemma PostKeepsCounterRecoverable(s: Store, batch: seq<Keystroke>)
    requires CounterRecoverable(s)
    ensures CounterRecoverable(Post(s, batch).1)
  {
    var t := Post(s, batch).1;
    if Filter(batch).Ok? && Decimal.WithinDigitLimit(s.counter) {
      var text := if Decimal.WithinDigitLimit(s.counter + 1) then Decimal.Show(s.counter + 1) else "";
      assert t.files[CounterPath] == Text(text);
      if Decimal.WithinDigitLimit(s.counter + 1) {
        Decimal.ParseShow(s.counter + 1);
      } else {
        assert Decimal.Parse(text).None?;
      }
    }
  }

  /**
   * A filter error fails the request and changes nothing.  An accepted batch
   * advances the counter by one unless the counter is already beyond the digit
   * limit, in which case nothing changes.  The request succeeds exactly when
   * the batch is accepted and both the old and new counters are within the limit.
   */
  lemma PostOutcome(s: Store, batch: seq<Keystroke>)
    ensures Filter(batch).Err? ==> Post(s, batch) == (Fail(Rejected(Filter(batch).error)), s)
    ensures Post(s, batch).0.Pass? <==>
      Filter(batch).Ok? && Decimal.WithinDigitLimit(s.counter) && Decimal.WithinDigitLimit(s.counter + 1)
    ensures Post(s, batch).1 == s <==> !(Filter(batch).Ok? && Decimal.WithinDigitLimit(s.counter))
    ensures Post(s, batch).1 != s ==> Post(s, batch).1.counter == s.counter + 1
  {
  }

  /**
   * An accepted batch with a counter `str()` can spell writes exactly two
   * files: its own data file, and the counter file holding the new counter
   * (left empty when that is beyond the digit limit).
   */
  lemma PostWrites(s: Store, batch: seq<Keystroke>)
    requires Filter(batch).Ok?
    ensures var t := Post(s, batch).1;
      Decimal.WithinDigitLimit(s.counter) ==>
        && t.files.Keys == s.files.Keys + {DataPath(s.counter), CounterPath}
        && t.files[DataPath(s.counter)] == KeystrokeDump(Filter(batch).value)
        && t.files[CounterPath] == Text(if Decimal.WithinDigitLimit(s.counter + 1) then Decimal.Show(s.counter + 1) else "")
        && forall p :: p in s.files && p != DataPath(s.counter) && p != CounterPath ==> t.files[p] == s.files[p]
  {
    if Decimal.WithinDigitLimit(s.counter) {
      DataPathIsNotCounter(s.counter);
    }
  }

  /**
   * The counter after k increments that each need the current value to be
   * within the digit limit: it stops at the first value `str()` refuses.
   */
  function Advance(c: int, k: nat): int
    decreases k
  {
    if k == 0 || !Decimal.WithinDigitLimit(c) then c else Advance(c + 1, k - 1)
  }

  /** Within the digit limit, k increments add k. */
  lemma {:induction false} AdvanceWithinLimit(c: int, k: nat)
    requires Decimal.WithinDigitLimit(c) && Decimal.WithinDigitLimit(c + k - 1)
    ensures Advance(c, k) == c + k
    decreases k
  {
    if k > 1 {
      Decimal.WithinDigitLimitBetween(c, c + 1, c + k - 1);
      AdvanceWithinLimit(c + 1, k - 1);
    }
  }

  /** One request moves the counter by one exactly when it writes a data file. */
  lemma PostCounter(s: Store, batch: seq<Keystroke>)
    ensures Post(s, batch).1.counter ==
      if Filter(batch).Ok? && Decimal.WithinDigitLimit(s.counter) then s.counter + 1 else s.counter
  {
  }

  /**
   * After k requests the counter has advanced once per accepted batch, up to
   * the first value beyond the digit limit.
   */
  lemma {:induction false} PostAllCounter(s: Store, batches: seq<seq<Keystroke>>)
    ensures PostAll(s, batches).counter == Advance(s.counter, Successes(batches))
    decreases |batches|
  {
    if batches != [] {
      var t := Post(s, batches[0]).1;
      var k := Successes(batches[1..]);
      assert PostAll(s, batches) == PostAll(t, batches[1..]);
      assert Successes(batches) == (if Filter(batches[0]).Ok? then 1 else 0) + k;
      PostCounter(s, batches[0]);
      PostAllCounter(t, batches[1..]);
      if Filter(batches[0]).Ok? && Decimal.WithinDigitLimit(s.counter) {
        assert Advance(s.counter, 1 + k) == Advance(s.counter + 1, k);
      }
    }
  }

  /** Within the digit limit the counter ends at its initial value plus the number of accepted batches. */
  lemma PostAllCounterWithinLimit(s: Store, batches: seq<seq<Keystroke>>)
    requires Decimal.WithinDigitLimit(s.counter) && Decimal.WithinDigitLimit(s.counter + Successes(batches) - 1)
    ensures PostAll(s, batches).counter == s.counter + Successes(batches)
  {
    PostAllCounter(s, batches);
    AdvanceWithinLimit(s.counter, Successes(batches));
  }

  /** Later requests never overwrite (nor create) a data file numbered below the current counter. */
  lemma {:induction false} PostAllKeepsEarlierFiles(s: Store, batches: seq<seq<Keystroke>>, m: int)
    requires m < s.counter
    ensures DataPath(m) in PostAll(s, batches).files <==> DataPath(m) in s.files
    ensures DataPath(m) in s.files ==> PostAll(s, batches).files[DataPath(m)] == s.files[DataPath(m)]
    decreases |batches|
  {
    if batches != [] {
      var t := Post(s, batches[0]).1;
      if Filter(batches[0]).Ok? && Decimal.WithinDigitLimit(s.counter) {
        DataPathIsNotCounter(m);
        if DataPath(m) == DataPath(s.counter) {
          DataPathInjective(m, s.counter);
        }
      }
      PostAllKeepsEarlierFiles(t, batches[1..], m);
    }
  }

  lemma SuccessesOfPrefix(batches: seq<seq<Keystroke>>, i: nat)
    requires 0 < i <= |batches|
    ensures Successes(batches[..i]) == (if Filter(batches[0]).Ok? then 1 else 0) + Successes(batches[1..][..i - 1])
  {
    assert batches[..i][1..] == batches[1..][..i - 1];
    assert batches[..i][0] == batches[0];
  }

  /** An accepted first batch, with a counter within the digit limit, stays in the file it was written to. */
  lemma FirstBatchStored(s: Store, batches: seq<seq<Keystroke>>)
    requires |batches| > 0 && Filter(batches[0]).Ok? && Decimal.WithinDigitLimit(s.counter)
    ensures DataPath(s.counter) in PostAll(s, batches).files
    ensures PostAll(s, batches).files[DataPath(s.counter)] == KeystrokeDump(Filter(batches[0]).value)
  {
    var t := Post(s, batches[0]).1;
    assert PostAll(s, batches) == PostAll(t, batches[1..]);
    PostWrites(s, batches[0]);
    PostCounter(s, batches[0]);
    PostAllKeepsEarlierFiles(t, batches[1..], s.counter);
  }

  /**
   * Every accepted batch ends up in its own file: the i-th batch, if accepted,
   * is in `data/{c}.json` where c is the initial counter plus the number of
   * earlier batches accepted, and it is still there after all requests,
   * provided the counter started, and c is, within the digit limit.
   */
  lemma {:induction false} PostAllStoresEveryBatch(s: Store, batches: seq<seq<Keystroke>>, i: nat)
    requires i < |batches| && Filter(batches[i]).Ok?
    ensures var c := s.counter + Successes(batches[..i]);
      Decimal.WithinDigitLimit(s.counter) && Decimal.WithinDigitLimit(c) ==>
        DataPath(c) in PostAll(s, batches).files && PostAll(s, batches).files[DataPath(c)] == KeystrokeDump(Filter(batches[i]).value)
    decreases |batches|
  {
    var c := s.counter + Successes(batches[..i]);
    if Decimal.WithinDigitLimit(s.counter) && Decimal.WithinDigitLimit(c) {
      if i == 0 {
        assert batches[..0] == [];
        FirstBatchStored(s, batches);
      } else {
        var t := Post(s, batches[0]).1;
        assert PostAll(s, batches) == PostAll(t, batches[1..]);
        SuccessesOfPrefix(batches, i);
        PostCounter(s, batches[0]);
        assert t.counter + Successes(batches[1..][..i - 1]) == c;
        Decimal.WithinDigitLimitBetween(s.counter, t.counter, c);
        PostAllStoresEveryBatch(t, batches[1..], i - 1);
      }
    }
  }

  /** The backend process: its global counter and the `data/` directory. */
  class Backend {
    var dataCounter: int
    var files: map<string, FileContent>

    /** Module start-up: read `data/counter.txt`, falling back to 0 on any failure. */
    constructor (disk: map<string, FileContent>)
      ensures files == disk && dataCounter == InitialCounter(disk)
      ensures Decimal.WithinDigitLimit(dataCounter) && CounterRecoverable(Store(dataCounter, files))
    {
      files := disk;
      var counter := 0;
      if CounterPath in disk && disk[CounterPath].Text? {
        var parsed := Decimal.Parse(disk[CounterPath].text);
        if parsed.Some? {
          counter := parsed.value;
        }
      }
      dataCounter := counter;
      StartIsRecoverable(disk);
    }

    /** The `POST /data` handler. */
    method PostData(keystrokes: seq<Keystroke>) returns (outcome: Outcome<PostError>)
      modifies this
      ensures (outcome, Store(dataCounter, files)) == Post(Store(old(dataCounter), old(files)), keystrokes)
    {
      var filtered := FilterKeystrokes(keystrokes);
      if filtered.Err? {
        return Fail(Rejected(filtered.error));
      }
      if !Decimal.WithinDigitLimit(dataCounter) {
        return Fail(DigitLimitExceeded);
      }
      files := files[DataPath(dataCounter) := KeystrokeDump(filtered.value)];
      dataCounter := dataCounter + 1;
      files := files[CounterPath := Text("")];
      if !Decimal.WithinDigitLimit(dataCounter) {
        return Fail(DigitLimitExceeded);
      }
      files := files[CounterPath := Text(Decimal.Show(dataCounter))];
      outcome := Pass;
    }
  }
}
