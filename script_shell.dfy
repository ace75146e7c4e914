/**
 * The decision logic of the script shell's base class: property fallback to
 * user defaults, the option map handed to the command-line operations, input
 * file decoding, the retry loop, the movie / series / episode detection
 * fallbacks and the choice of rename function. Calls into code outside this
 * class (file-list coercion, folder listing, media detection, extended
 * attributes) are function-typed parameters.
 */
module ScriptShell {
  import opened Wrappers

  datatype File = File(path: string)

  /** The script-level values this core inspects; anything else is `Other`. */
  datatype Value =
    | Null
    | Bool(b: bool)
    | Text(s: string)
    | MapValue(entries: seq<(Value, Value)>)
    | Other(id: nat)

  datatype ShellError =
    | MissingProperty(property: string)
    | NoSuchField(field: string)
    | IllegalFileMapping(key: Value, value: Value)
    | ClassCast
    | NullPointer

  /** `parameters.get(key)`: `Null` for a missing key. */
  function Get(parameters: map<string, Value>, key: string): Value
  {
    if key in parameters then parameters[key] else Null
  }

  // ---------------------------------------------------------------------
  // Properties and their user-defined defaults
  // ---------------------------------------------------------------------

  class ScriptShellBase {
    /** `defaultValues`: user-defined values for otherwise missing properties. */
    var defaultValues: map<string, Value>

    constructor ()
      ensures defaultValues == map[]
    {
      defaultValues := map[];
    }

    /** `setDefaultValues(values)`: later values replace earlier ones, other keys stay. */
    method SetDefaultValues(values: map<string, Value>)
      modifies this
      ensures defaultValues.Keys == old(defaultValues).Keys + values.Keys
      ensures forall p :: p in values ==> defaultValues[p] == values[p]
      ensures forall p :: p in old(defaultValues) && p !in values ==> defaultValues[p] == old(defaultValues)[p]
      ensures forall properties: map<string, Value>, p :: p in values && p !in properties ==>
        GetProperty(properties, p) == Success(values[p])
    {
      defaultValues := defaultValues + values;
    }

    /**
     * `getProperty(property)`: the script's own property if it has one;
     * else the default value, a stored `Null` included; else the original
     * `MissingPropertyException`.
     */
    function GetProperty(properties: map<string, Value>, property: string): (r: Result<Value, ShellError>)
      reads this
      ensures property in properties ==> r == Success(properties[property])
      ensures property !in properties && property in defaultValues ==> r == Success(defaultValues[property])
      ensures r.Failure? <==> property !in properties && property !in defaultValues
      ensures r.Failure? ==> r.error == MissingProperty(property)
    {
      if property in properties then Success(properties[property])
      else if property in defaultValues then Success(defaultValues[property])
      else Failure(MissingProperty(property))
    }
  }

  // ---------------------------------------------------------------------
  // Options
  // ---------------------------------------------------------------------

  /** The closed set of option names, in declaration (ordinal) order. */
  datatype OptionKey =
    Action | Conflict | Query | Filter | Format | Db | Order | Lang | Output | Encoding | Strict | ForceExtractAll

  const AllOptions: seq<OptionKey> :=
    [Action, Conflict, Query, Filter, Format, Db, Order, Lang, Output, Encoding, Strict, ForceExtractAll]

  lemma AllOptionsListed(o: OptionKey)
    ensures o in AllOptions
  {
    match o
    case Action => assert AllOptions[0] == o;
    case Conflict => assert AllOptions[1] == o;
    case Query => assert AllOptions[2] == o;
    case Filter => assert AllOptions[3] == o;
    case Format => assert AllOptions[4] == o;
    case Db => assert AllOptions[5] == o;
    case Order => assert AllOptions[6] == o;
    case Lang => assert AllOptions[7] == o;
    case Output => assert AllOptions[8] == o;
    case Encoding => assert AllOptions[9] == o;
    case Strict => assert AllOptions[10] == o;
    case ForceExtractAll => assert AllOptions[11] == o;
  }

  /** `Option.name()`. */
  function Name(o: OptionKey): string
  {
    match o
    case Action => "action"
    case Conflict => "conflict"
    case Query => "query"
    case Filter => "filter"
    case Format => "format"
    case Db => "db"
    case Order => "order"
    case Lang => "lang"
    case Output => "output"
    case Encoding => "encoding"
    case Strict => "strict"
    case ForceExtractAll => "forceExtractAll"
  }

  /** `Option.valueOf(s)`: the option with exactly that name; `None` where Java throws. */
  function OptionValueOf(s: string): (r: Option<OptionKey>)
    ensures r.Some? ==> Name(r.value) == s
    ensures forall o :: Name(o) == s ==> r == Some(o)
  {
    if s == "action" then Some(Action)
    else if s == "conflict" then Some(Conflict)
    else if s == "query" then Some(Query)
    else if s == "filter" then Some(Filter)
    else if s == "format" then Some(Format)
    else if s == "db" then Some(Db)
    else if s == "order" then Some(Order)
    else if s == "lang" then Some(Lang)
    else if s == "output" then Some(Output)
    else if s == "encoding" then Some(Encoding)
    else if s == "strict" then Some(Strict)
    else if s == "forceExtractAll" then Some(ForceExtractAll)
    else None
  }

  /** The parsed command line: its public fields by name, and the non-strict flag. */
  datatype ArgumentBean = ArgumentBean(fields: map<string, Value>, nonStrict: bool)

  /** The value an option takes when the caller did not give one; `None` if there is no such field. */
  function DefaultOption(o: OptionKey, args: ArgumentBean): Option<Value>
  {
    match o
    case ForceExtractAll => Some(Bool(false))
    case Strict => Some(Bool(!args.nonStrict))
    case _ => if Name(o) in args.fields then Some(args.fields[Name(o)]) else None
  }

  /** An option the caller left out and for which no default exists. */
  predicate Unresolvable(o: OptionKey, parameters: map<string, Value>, args: ArgumentBean)
  {
    Name(o) !in parameters && DefaultOption(o, args).None?
  }

  /**
   * `getDefaultOptions(parameters)`: every option gets a value; the caller's
   * value wins (a `Null` included), other keys are ignored, and a missing
   * option is back-filled from the argument bean. Without a default the call
   * fails on the first such option in declaration order.
   */
  method GetDefaultOptions(parameters: map<string, Value>, args: ArgumentBean)
    returns (r: Result<map<OptionKey, Value>, ShellError>)
    ensures r.Success? <==> forall o :: !Unresolvable(o, parameters, args)
    ensures r.Success? ==> forall o :: o in r.value
    ensures r.Success? ==> forall o :: Name(o) in parameters ==> r.value[o] == parameters[Name(o)]
    ensures r.Success? ==> forall o :: Name(o) !in parameters ==> Some(r.value[o]) == DefaultOption(o, args)
    ensures r.Failure? ==> exists i ::
      && 0 <= i < |AllOptions|
      && r.error == NoSuchField(Name(AllOptions[i]))
      && Unresolvable(AllOptions[i], parameters, args)
      && forall j :: 0 <= j < i ==> !Unresolvable(AllOptions[j], parameters, args)
  {
    var options := CallerOptions(parameters);
    var present := options.Keys;
    var i := 0;
    while i < |AllOptions|
      invariant 0 <= i <= |AllOptions|
      invariant forall o :: o in options <==> o in present || o in AllOptions[..i]
      invariant forall o :: o in present ==> Name(o) in parameters && options[o] == parameters[Name(o)]
      invariant forall o :: o !in present ==> Name(o) !in parameters
      invariant forall o :: o in options && o !in present ==> Some(options[o]) == DefaultOption(o, args)
      invariant forall j :: 0 <= j < i ==> !Unresolvable(AllOptions[j], parameters, args)
    {
      var missing := AllOptions[i];
      if missing !in present {
        // the switch over forceExtractAll, strict and the bean's fields
        var value := DefaultOption(missing, args);
        if value.None? {
          assert Unresolvable(missing, parameters, args);
          return Failure(NoSuchField(Name(missing)));
        }
        options := options[missing := value.value];
      }
      i := i + 1;
    }
    assert AllOptions[..i] == AllOptions;
    EveryOptionResolved(options, present, parameters, args);
    r := Success(options);
  }

  /**
   * The first loop of `getDefaultOptions`: the caller's entries whose key
   * names an option, under that option; other keys are ignored.
   */
  method CallerOptions(parameters: map<string, Value>) returns (options: map<OptionKey, Value>)
    ensures forall o :: o in options <==> Name(o) in parameters
    ensures forall o :: o in options ==> options[o] == parameters[Name(o)]
  {
    options := map[];
    var keys := parameters.Keys;
    while keys != {}
      invariant keys <= parameters.Keys
      invariant forall o :: o in options <==> Name(o) in parameters && Name(o) !in keys
      invariant forall o :: o in options ==> options[o] == parameters[Name(o)]
      decreases |keys|
    {
      var key :| key in keys;
      var option := OptionValueOf(key);
      if option.Some? {
        options := options[option.value := parameters[key]];
      }
      keys := keys - {key};
    }
  }

  /** Once every option of the list is back-filled, every option is in the map and none is unresolvable. */
  lemma EveryOptionResolved(options: map<OptionKey, Value>, present: set<OptionKey>,
                            parameters: map<string, Value>, args: ArgumentBean)
    requires forall o :: o in options <==> o in present || o in AllOptions
    requires forall o :: o in present ==> Name(o) in parameters
    requires forall j :: 0 <= j < |AllOptions| ==> !Unresolvable(AllOptions[j], parameters, args)
    ensures forall o :: o in options && !Unresolvable(o, parameters, args)
  {
    forall o ensures o in options && !Unresolvable(o, parameters, args) {
      AllOptionsListed(o);
      var j :| 0 <= j < |AllOptions| && AllOptions[j] == o;
    }
  }

  // ---------------------------------------------------------------------
  // Input files
  // ---------------------------------------------------------------------

  /** The files of every folder, folder after folder. */
  function FolderContents(folders: seq<File>, children: File -> seq<File>): seq<File>
  {
    if folders == [] then []
    else FolderContents(folders[..|folders| - 1], children) + children(folders[|folders| - 1])
  }

  /** A file is listed exactly when some given folder contains it. */
  lemma {:induction false} FolderContentsMembers(folders: seq<File>, children: File -> seq<File>, f: File)
    ensures f in FolderContents(folders, children) <==> exists i :: 0 <= i < |folders| && f in children(folders[i])
  {
    if folders != [] {
      var init := folders[..|folders| - 1];
      FolderContentsMembers(init, children, f);
      assert forall i :: 0 <= i < |init| ==> init[i] == folders[i];
      if f in children(folders[|folders| - 1]) {
        assert f in FolderContents(folders, children);
      }
    }
  }

  /**
   * `getInputFileList(parameters)`: "file" wins over "folder" (whose folders
   * are expanded to their files); with neither, no files.
   */
  method GetInputFileList(parameters: map<string, Value>, asFileList: Value -> seq<File>, children: File -> seq<File>)
    returns (files: seq<File>)
    ensures Get(parameters, "file") != Null ==> files == asFileList(Get(parameters, "file"))
    ensures Get(parameters, "file") == Null && Get(parameters, "folder") != Null ==>
      files == FolderContents(asFileList(Get(parameters, "folder")), children)
    ensures Get(parameters, "file") == Null && Get(parameters, "folder") == Null ==> files == []
  {
    var file := Get(parameters, "file");
    if file != Null {
      return asFileList(file);
    }
    var folder := Get(parameters, "folder");
    if folder != Null {
      var folders := asFileList(folder);
      files := [];
      var i := 0;
      while i < |folders|
        invariant 0 <= i <= |folders|
        invariant files == FolderContents(folders[..i], children)
      {
        assert folders[..i + 1][..i] == folders[..i];
        files := files + children(folders[i]);
        i := i + 1;
      }
      assert folders[..i] == folders;
      return files;
    }
    files := [];
  }

  /** A `LinkedHashMap<File, File>` as its entries in insertion order. */
  type FileMap = seq<(File, File)>

  predicate HasKey(m: FileMap, k: File)
  {
    exists i :: 0 <= i < |m| && m[i].0 == k
  }

  predicate UniqueKeys(m: FileMap)
  {
    forall i, j :: 0 <= i < j < |m| ==> m[i].0 != m[j].0
  }

  /** `put(k, v)`: a present key keeps its place and takes the new value; a new key goes last. */
  function Put(m: FileMap, k: File, v: File): (r: FileMap)
    ensures |r| == if HasKey(m, k) then |m| else |m| + 1
    ensures forall i :: 0 <= i < |m| ==> r[i] == if m[i].0 == k then (k, v) else m[i]
    ensures !HasKey(m, k) ==> r[|m|] == (k, v)
    ensures UniqueKeys(m) ==> UniqueKeys(r)
  {
    if HasKey(m, k) then seq(|m|, i requires 0 <= i < |m| => if m[i].0 == k then (k, v) else m[i])
    else m + [(k, v)]
  }

  /** A map entry that resolves to exactly one file on each side. */
  predicate Resolves(entry: (Value, Value), asFileList: Value -> seq<File>)
  {
    |asFileList(entry.0)| == 1 && |asFileList(entry.1)| == 1
  }

  /** The file map the entries build, one `put` per entry, in entry order. */
  function BuildFileMap(entries: seq<(Value, Value)>, asFileList: Value -> seq<File>): FileMap
    requires forall i :: 0 <= i < |entries| ==> Resolves(entries[i], asFileList)
  {
    if entries == [] then []
    else
      var last := entries[|entries| - 1];
      assert Resolves(last, asFileList);
      Put(BuildFileMap(entries[..|entries| - 1], asFileList), asFileList(last.0)[0], asFileList(last.1)[0])
  }

  /** One more resolved entry is one more `put` on the map built so far. */
  lemma BuildFileMapStep(entries: seq<(Value, Value)>, i: nat, asFileList: Value -> seq<File>)
    requires i < |entries|
    requires forall j :: 0 <= j <= i ==> Resolves(entries[j], asFileList)
    ensures BuildFileMap(entries[..i + 1], asFileList)
      == Put(BuildFileMap(entries[..i], asFileList), asFileList(entries[i].0)[0], asFileList(entries[i].1)[0])
  {
    assert entries[..i + 1][..i] == entries[..i];
  }

  /** When the keys resolve to distinct files, the map is the entries themselves, in order. */
  lemma {:induction false} BuildFileMapKeepsOrder(entries: seq<(Value, Value)>, asFileList: Value -> seq<File>)
    requires forall i :: 0 <= i < |entries| ==> Resolves(entries[i], asFileList)
    requires forall i, j :: 0 <= i < j < |entries| ==> asFileList(entries[i].0) != asFileList(entries[j].0)
    ensures |BuildFileMap(entries, asFileList)| == |entries|
    ensures forall i :: 0 <= i < |entries| ==>
      BuildFileMap(entries, asFileList)[i] == (asFileList(entries[i].0)[0], asFileList(entries[i].1)[0])
  {
    if entries != [] {
      var init := entries[..|entries| - 1];
      BuildFileMapKeepsOrder(init, asFileList);
      var m := BuildFileMap(init, asFileList);
      var last := entries[|entries| - 1];
      var k := asFileList(last.0)[0];
      var v := asFileList(last.1)[0];
      forall i | 0 <= i < |m| ensures m[i].0 != k {
        assert m[i].0 == asFileList(entries[i].0)[0];
        assert asFileList(entries[i].0) != asFileList(last.0);
      }
      assert !HasKey(m, k);
      var r := BuildFileMap(entries, asFileList);
      assert r == Put(m, k, v) == m + [(k, v)];
      forall i | 0 <= i < |entries|
        ensures r[i] == (asFileList(entries[i].0)[0], asFileList(entries[i].1)[0])
      {
        if i < |m| {
          assert r[i] == m[i] && init[i] == entries[i];
        }
      }
    }
  }

  /** Whatever the entries, no file appears twice as a key. */
  lemma {:induction false} BuildFileMapUniqueKeys(entries: seq<(Value, Value)>, asFileList: Value -> seq<File>)
    requires forall i :: 0 <= i < |entries| ==> Resolves(entries[i], asFileList)
    ensures UniqueKeys(BuildFileMap(entries, asFileList))
  {
    if entries != [] {
      var init := entries[..|entries| - 1];
      BuildFileMapUniqueKeys(init, asFileList);
    }
  }

  /**
   * `getInputFileMap(parameters)`: the "map" parameter's entries, each side
   * resolved to one file, in entry order; an entry that does not resolve to
   * exactly one file on each side is an `IllegalArgumentException`, and a
   * "map" value that is not a map a `ClassCastException`.
   */
  method GetInputFileMap(parameters: map<string, Value>, asFileList: Value -> seq<File>)
    returns (r: Result<FileMap, ShellError>)
    ensures Get(parameters, "map") == Null ==> r == Success([])
    ensures !Get(parameters, "map").Null? && !Get(parameters, "map").MapValue? ==> r == Failure(ClassCast)
    ensures Get(parameters, "map").MapValue? ==>
      var entries := Get(parameters, "map").entries;
      && (r.Success? <==> forall i :: 0 <= i < |entries| ==> Resolves(entries[i], asFileList))
      && (r.Success? ==> r.value == BuildFileMap(entries, asFileList))
      && (r.Failure? ==> exists i ::
            && 0 <= i < |entries|
            && !Resolves(entries[i], asFileList)
            && r.error == IllegalFileMapping(entries[i].0, entries[i].1)
            && forall j :: 0 <= j < i ==> Resolves(entries[j], asFileList))
  {
    var value := Get(parameters, "map");
    if value.Null? {
      return Success([]);
    }
    if !value.MapValue? {
      return Failure(ClassCast);
    }
    var entries := value.entries;
    var files: FileMap := [];
    var i := 0;
    while i < |entries|
      invariant 0 <= i <= |entries|
      invariant forall j :: 0 <= j < i ==> Resolves(entries[j], asFileList)
      invariant files == BuildFileMap(entries[..i], asFileList)
    {
      var key := asFileList(entries[i].0);
      var val := asFileList(entries[i].1);
      if |key| == 1 && |val| == 1 {
        BuildFileMapStep(entries, i, asFileList);
        files := Put(files, key[0], val[0]);
      } else {
        return Failure(IllegalFileMapping(entries[i].0, entries[i].1));
      }
      i := i + 1;
    }
    assert entries[..i] == entries;
    r := Success(files);
  }

  // ---------------------------------------------------------------------
  // Retry
  // ---------------------------------------------------------------------

  /** What a closure call throws: an `Exception`, which `retry` catches, or an `Error`, which it does not. */
  datatype Thrown<+E> =
    | ExceptionThrown(cause: E)
    | ErrorThrown(cause: E)

  /** How `retry` ends when no attempt succeeds. */
  datatype RetryFailure<+E> =
    | Rethrown(thrown: Thrown<E>)  // what the last call threw, unchanged
    | NegativeWaitTime             // Thread.sleep rejected a negative wait

  /**
   * `retry(retryCountLimit, retryWaitTime, c)`, with `call(i)` the outcome of
   * the (i+1)-th call of the closure. It returns the first success; it calls
   * at most limit+1 times and rethrows the last exception; it sleeps only
   * between calls. A negative limit rethrows the first exception. Only
   * exceptions are caught: an `Error` leaves at once, without a sleep.
   */
  method Retry<T, E>(retryCountLimit: int, retryWaitTime: int, call: nat -> Result<T, Thrown<E>>)
    returns (r: Result<T, RetryFailure<E>>, calls: nat, sleeps: nat)
    ensures 1 <= calls && sleeps == calls - 1
    ensures forall j :: 0 <= j < calls - 1 ==> call(j).Failure? && call(j).error.ExceptionThrown?
    ensures call(calls - 1).Success? ==> r == Success(call(calls - 1).value)
    ensures call(calls - 1).Failure? ==> r.Failure?
    ensures call(calls - 1).Failure? && call(calls - 1).error.ErrorThrown? ==>
      r == Failure(Rethrown(call(calls - 1).error))
    ensures r.Failure? && r.error.Rethrown? ==> r.error.thrown == call(calls - 1).error
    ensures r.Failure? && r.error.Rethrown? && r.error.thrown.ExceptionThrown? ==> calls - 1 >= retryCountLimit
    ensures r.Failure? && r.error.NegativeWaitTime? ==>
      retryWaitTime < 0 && calls - 1 < retryCountLimit && call(calls - 1).error.ExceptionThrown?
    ensures r.Failure? && retryWaitTime >= 0 ==> r.error.Rethrown?
    ensures retryCountLimit < 0 || retryWaitTime < 0 ==> calls == 1
    ensures retryCountLimit >= 0 ==> calls <= retryCountLimit + 1
  {
    var i := 0;
    calls, sleeps := 0, 0;
    while true
      invariant 0 <= i && calls == i && sleeps == i
      invariant retryCountLimit < 0 || retryWaitTime < 0 ==> i == 0
      invariant retryCountLimit >= 0 ==> i <= retryCountLimit
      invariant forall j :: 0 <= j < i ==> call(j).Failure? && call(j).error.ExceptionThrown?
      decreases (if retryCountLimit < 0 then 0 else retryCountLimit) - i
    {
      calls := calls + 1;
      var outcome := call(i);
      if outcome.Success? {
        return Success(outcome.value), calls, sleeps;
      }
      if outcome.error.ErrorThrown? {
        return Failure(Rethrown(outcome.error)), calls, sleeps;
      }
      if i >= 0 && i >= retryCountLimit {
        return Failure(Rethrown(outcome.error)), calls, sleeps;
      }
      if retryWaitTime < 0 {
        return Failure(NegativeWaitTime), calls, sleeps;
      }
      sleeps := sleeps + 1;
      i := i + 1;
    }
  }

  /** Two retries of a closure that always throws an exception: three calls, then that exception. */
  method RetryAlwaysFailing<E>(error: E) returns (r: Result<int, RetryFailure<E>>, calls: nat)
    ensures r == Failure(Rethrown(ExceptionThrown(error))) && calls == 3
  {
    var always: nat -> Result<int, Thrown<E>> := (j: nat) => Failure(ExceptionThrown(error));
    var sleeps;
    r, calls, sleeps := Retry(2, 0, always);
    assert always(calls - 1) == Failure(ExceptionThrown(error));
  }

  /** A closure that throws an `Error` (a failed script `assert`) is not retried, whatever the limit. */
  method RetryErrorEscapes<E>(error: E, retryCountLimit: int) returns (r: Result<int, RetryFailure<E>>, calls: nat, sleeps: nat)
    ensures r == Failure(Rethrown(ErrorThrown(error))) && calls == 1 && sleeps == 0
  {
    var always: nat -> Result<int, Thrown<E>> := (j: nat) => Failure(ErrorThrown(error));
    r, calls, sleeps := Retry(retryCountLimit, 0, always);
    assert always(0) == Failure(ErrorThrown(error));
  }

  // ---------------------------------------------------------------------
  // Detection fallbacks
  // ---------------------------------------------------------------------

  datatype Movie = Movie(name: string, year: int, tmdbId: int)

  /** What the extended attributes of a file hold. */
  datatype MetaInfo = MovieInfo(movie: Movie) | OtherInfo | NoInfo

  /** A season/episode pair as the episode-number parser returns it. */
  datatype SxE = SxE(season: int, episode: int)

  /** The first element of a list that may be `null`; `None` for `null` or empty. */
  function FirstOrNull<T>(matches: Option<seq<T>>): (r: Option<T>)
    ensures r.Some? <==> matches.Some? && matches.value != []
    ensures r.Some? ==> r.value == matches.value[0]
  {
    if matches.None? || matches.value == [] then None else Some(matches.value[0])
  }

  /** The answer of `detectMovie` and how many of its stages were consulted. */
  datatype Detection = Detection(movie: Option<Movie>, stagesRun: nat)

  /** The movie stage 2 or 3 of `detectMovie` yields: a thrown exception counts as nothing. */
  function ExactStage(outcome: Result<Option<Movie>, string>): Option<Movie>
  {
    if outcome.Success? then outcome.value else None
  }

  function FuzzyStage(outcome: Result<seq<Movie>, string>): Option<Movie>
  {
    if outcome.Success? && |outcome.value| > 0 then Some(outcome.value[0]) else None
  }

  /**
   * `detectMovie(file, strict)`: the movie stored in the file's extended
   * attributes; else the exact file-name match (look-back depth 4); else the
   * first result of the full detection; else `null`. Exceptions of the last
   * two stages are swallowed.
   */
  function DetectMovie(
    file: File, strict: bool,
    xattr: File -> MetaInfo,
    matchMovie: (File, int) -> Result<Option<Movie>, string>,
    detectMovies: (File, bool) -> Result<seq<Movie>, string>): (d: Detection)
    ensures 1 <= d.stagesRun <= 3
    ensures d.stagesRun == 1 <==> xattr(file).MovieInfo?
    ensures xattr(file).MovieInfo? ==> d.movie == Some(xattr(file).movie)
    ensures d.stagesRun > 1 ==> (d.stagesRun == 2 <==> ExactStage(matchMovie(file, 4)).Some?)
    ensures d.stagesRun == 2 ==> d.movie == ExactStage(matchMovie(file, 4))
    ensures d.stagesRun == 3 ==> d.movie == FuzzyStage(detectMovies(file, strict))
  {
    var meta := xattr(file);
    if meta.MovieInfo? then Detection(Some(meta.movie), 1)
    else
      var exact := ExactStage(matchMovie(file, 4));
      if exact.Some? then Detection(exact, 2)
      else Detection(FuzzyStage(detectMovies(file, strict)), 3)
  }

  /** `null` exactly when no stage found a movie; otherwise the movie of the first stage that did. */
  lemma DetectMovieFirstStageWins(
    file: File, strict: bool,
    xattr: File -> MetaInfo,
    matchMovie: (File, int) -> Result<Option<Movie>, string>,
    detectMovies: (File, bool) -> Result<seq<Movie>, string>)
    ensures var d := DetectMovie(file, strict, xattr, matchMovie, detectMovies);
      d.movie.None? <==>
        !xattr(file).MovieInfo? && ExactStage(matchMovie(file, 4)).None? && FuzzyStage(detectMovies(file, strict)).None?
    ensures var d := DetectMovie(file, strict, xattr, matchMovie, detectMovies);
      d.movie.Some? ==>
        || (xattr(file).MovieInfo? && d.movie.value == xattr(file).movie)
        || d.movie == ExactStage(matchMovie(file, 4))
        || d.movie == FuzzyStage(detectMovies(file, strict))
  {
  }

  /** `matchMovie(name)`: the first movie matching the name alone, or `null`. */
  function MatchMovie(name: string, matchMovieName: (set<string>, bool, int) -> Option<seq<Movie>>): (r: Option<Movie>)
    ensures var matches := matchMovieName({name}, true, 0);
      r.Some? <==> matches.Some? && matches.value != []
    ensures r.Some? ==> r.value == matchMovieName({name}, true, 0).value[0]
  {
    FirstOrNull(matchMovieName({name}, true, 0))
  }

  /**
   * `detectSeriesName(files, anime)`: `null` for no input files without asking; else the first name found.
   * `detectSeriesName(files)` and `detectAnimeName(files)` pass `anime` as false and true.
   */
  function DetectSeriesName(
    files: Value, anime: bool,
    asFileList: Value -> seq<File>,
    detectSeriesNames: (seq<File>, bool) -> Option<seq<string>>): (r: Option<string>)
    ensures asFileList(files) == [] ==> r == None
    ensures asFileList(files) != [] ==>
      var names := detectSeriesNames(asFileList(files), anime);
      (r.Some? <==> names.Some? && names.value != []) && (r.Some? ==> r.value == names.value[0])
  {
    var input := asFileList(files);
    if input == [] then None else FirstOrNull(detectSeriesNames(input, anime))
  }

  /** `parseEpisodeNumber(object)`: the first season/episode pattern of its text, or `null`. */
  function ParseEpisodeNumber(text: string, parse: (string, bool) -> Option<seq<SxE>>): (r: Option<SxE>)
    ensures r.Some? <==> parse(text, true).Some? && parse(text, true).value != []
    ensures r.Some? ==> r.value == parse(text, true).value[0]
  {
    FirstOrNull(parse(text, true))
  }

  // ---------------------------------------------------------------------
  // Rename function
  // ---------------------------------------------------------------------

  /** A script closure `{ from, to -> ... }`: the text of what it returns, or `None` for `null`. */
  datatype Closure = Closure(call: (File, File) -> Option<string>)

  /** What a script passes as the rename action. */
  datatype RenameSpec =
    | ActionObject(id: nat)        // already a RenameAction
    | ActionName(name: string)     // a CharSequence
    | Callback(closure: Closure)   // a Closure
    | OtherObject(obj: Value)      // anything else

  /** The rename action chosen. */
  datatype RenameAction =
    | GivenAction(id: nat)
    | StandardAction(name: string)   // StandardRenameAction.forName(name)
    | ClosureAction(closure: Closure)
    | CastAction(obj: Value)         // DefaultTypeTransformation.castToType(obj, RenameAction)

  /** `getRenameFunction(obj)`: one rename action per kind of object. */
  function GetRenameFunction(obj: RenameSpec): (r: RenameAction)
    ensures obj.ActionObject? <==> r.GivenAction?
    ensures obj.ActionName? <==> r.StandardAction?
    ensures obj.Callback? <==> r.ClosureAction?
    ensures obj.OtherObject? <==> r.CastAction?
    ensures obj.ActionName? ==> r.name == obj.name
    ensures obj.Callback? ==> r.closure == obj.closure
    ensures obj.ActionObject? ==> r.id == obj.id
    ensures obj.OtherObject? ==> r.obj == obj.obj
  {
    match obj
    case ActionObject(id) => GivenAction(id)
    case ActionName(name) => StandardAction(name)
    case Callback(closure) => ClosureAction(closure)
    case OtherObject(v) => CastAction(v)
  }

  /**
   * The closure action's `rename(from, to)`: always a file named by the text
   * of the closure's result; a `null` result is a `NullPointerException`.
   */
  function ClosureRename(closure: Closure, from: File, to: File): (r: Result<File, ShellError>)
    ensures closure.call(from, to).None? <==> r == Failure(NullPointer)
    ensures closure.call(from, to).Some? ==> r == Success(File(closure.call(from, to).value))
  {
    match closure.call(from, to)
    case None => Failure(NullPointer)
    case Some(text) => Success(File(text))
  }

  /** The destination is never substituted: a closure answering "true" renames to a file named "true". */
  lemma ClosureRenameHasNoFallback(from: File, to: File)
    requires to.path != "true"
    ensures ClosureRename(Closure((f: File, t: File) => Some("true")), from, to) != Success(to)
  {
  }

  // ---------------------------------------------------------------------
  // execute: the command line handed to the process builder
  // ---------------------------------------------------------------------

  /** `cmd /c` on Windows, `sh -c` for a single argument elsewhere, nothing otherwise. */
  function ShellPrefix(windows: bool, argumentCount: nat): seq<string>
  {
    if windows then ["cmd", "/c"] else if argumentCount == 1 then ["sh", "-c"] else []
  }

  /** The argument vector `execute(args)` starts: the shell prefix, then the arguments in order. */
  method ExecuteCommandLine(windows: bool, args: seq<string>) returns (cmd: seq<string>)
    ensures cmd == ShellPrefix(windows, |args|) + args
    ensures windows ==> cmd[..2] == ["cmd", "/c"]
    ensures !windows && |args| != 1 ==> cmd == args
  {
    cmd := [];
    if windows {
      cmd := cmd + ["cmd", "/c"];
    } else if |args| == 1 {
      cmd := cmd + ["sh", "-c"];
    }
    var prefix := cmd;
    var i := 0;
    while i < |args|
      invariant 0 <= i <= |args|
      invariant cmd == prefix + args[..i]
    {
      assert args[..i + 1] == args[..i] + [args[i]];
      cmd := cmd + [args[i]];
      i := i + 1;
    }
    assert args[..i] == args;
  }
}
