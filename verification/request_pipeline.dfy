/**
  The demo program's fallible operations and its two-stage request pipeline:
  `loadAppConfig`, `fetchData` and `processRequest`, as total functions that
  return the error (or none) the Go code returns, and the five fixed scenarios
  its `main` runs.
*/
module RequestPipeline {
  import opened Wrappers
  import opened ErrorChain

  const ConfigStagePrefix: string := "failed during config stage: "
  const DataStagePrefix: string := "failed during data fetching stage: "

  /** `loadAppConfig(filePath)`: "missing.json" fails to open with a cause that
      wraps `os.ErrNotExist`, "invalid.json" fails to parse with a plain leaf
      cause, and every other path loads. */
  function LoadAppConfig(filePath: string): (err: Option<Error>)
    ensures err.None? <==> filePath != "missing.json" && filePath != "invalid.json"
    ensures err.Some? ==> err.value.Config? && As(err) == Some(err.value.ce)
    ensures err.Some? ==> err.value.ce.fileName == filePath
    ensures err.Some? ==> err.value.ce.op == (if filePath == "missing.json" then "open file" else "parse content")
    ensures err.Some? ==> (Is(err.value.ce.Unwrap(), NotExist) <==> filePath == "missing.json")
    ensures filePath == "invalid.json" ==>
      err.value.ce.Unwrap().Some? && err.value.ce.Unwrap().value.Leaf? && Unwrap(err.value.ce.Unwrap().value).None?
    ensures !Is(err, NoRows) && !Is(err, ResourceNotFound)
  {
    if filePath == "missing.json" then
      Some(Config(ConfigError(filePath, "open file", Some(Wrap("failed to open: ", SentinelError(NotExist))))))
    else if filePath == "invalid.json" then
      Some(Config(ConfigError(filePath, "parse content", Some(Leaf("invalid JSON structure")))))
    else
      None
  }

  /** What `fetchData` returns: the data string and the error, if any. */
  datatype Fetched = Fetched(data: string, err: Option<Error>)

  /** `fetchData(queryID)`: "123" yields the sample data; every other query
      yields "" and an error, whose chain holds `sql.ErrNoRows` only for
      "notfound_db", `ErrResourceNotFound` only for "custom_resource_err",
      and no sentinel at all for any other query. */
  function FetchData(queryID: string): (r: Fetched)
    ensures r.err.None? <==> queryID == "123"
    ensures r.data == (if queryID == "123" then "Sample Data" else "")
    ensures Is(r.err, NoRows) <==> queryID == "notfound_db"
    ensures Is(r.err, ResourceNotFound) <==> queryID == "custom_resource_err"
    ensures !Is(r.err, NotExist) && As(r.err).None?
  {
    if queryID == "123" then
      Fetched("Sample Data", None)
    else if queryID == "notfound_db" then
      Fetched("", Some(Wrap("database query for ID '" + queryID + "' failed: ", SentinelError(NoRows))))
    else if queryID == "custom_resource_err" then
      Fetched("", Some(Wrap("could not retrieve resource data: ", SentinelError(ResourceNotFound))))
    else
      Fetched("", Some(Leaf("unknown query ID: " + queryID)))
  }

  /** `processRequest(configPath, dataQueryID)`: a config failure short-circuits
      and is returned under one `%w` wrap naming the config stage; otherwise a
      fetch failure is returned under one `%w` wrap naming the data stage;
      otherwise no error. Each wrap unwraps to exactly the stage's error, so
      `errors.Is` and `errors.As` see through it. */
  function ProcessRequest(configPath: string, dataQueryID: string): (err: Option<Error>)
    ensures err.None? <==> LoadAppConfig(configPath).None? && FetchData(dataQueryID).err.None?
    ensures LoadAppConfig(configPath).Some? ==>
      && err.Some? && err.value.Wrap? && err.value.prefix == ConfigStagePrefix
      && Unwrap(err.value) == LoadAppConfig(configPath)
      && As(err) == As(LoadAppConfig(configPath))
      && As(err).Some?
    ensures LoadAppConfig(configPath).None? && FetchData(dataQueryID).err.Some? ==>
      && err.Some? && err.value.Wrap? && err.value.prefix == DataStagePrefix
      && Unwrap(err.value) == FetchData(dataQueryID).err
    ensures LoadAppConfig(configPath).None? ==>
      forall s :: Is(err, s) == Is(FetchData(dataQueryID).err, s)
  {
    var configErr := LoadAppConfig(configPath);
    if configErr.Some? then
      Some(Wrap(ConfigStagePrefix, configErr.value))
    else
      var fetched := FetchData(dataQueryID);
      if fetched.err.Some? then
        Some(Wrap(DataStagePrefix, fetched.err.value))
      else
        None
  }

  /** Which diagnostic branch `processRequest` takes before it returns (the
      text it prints is not modelled). */
  datatype Diagnosis =
    | ConfigDetail(op: string, fileName: string, fileMissing: bool)  // errors.As found a ConfigError
    | ConfigUnexpected                                                // errors.As found none
    | DataNoRows                                                      // errors.Is(err, sql.ErrNoRows)
    | DataResourceNotFound                                            // errors.Is(err, ErrResourceNotFound)
    | DataUnknown                                                     // neither sentinel
    | Processed(data: string)                                         // both stages succeeded

  /** The branch conditions of `processRequest`: `errors.As` on a config
      failure always finds the `ConfigError` (the "unexpected error" branch is
      dead), the fallback condition `errors.Is(ce.Unwrap(), os.ErrNotExist)`
      holds exactly for "missing.json", and the data-stage branches tell the
      two sentinels apart. */
  function Diagnose(configPath: string, dataQueryID: string): (d: Diagnosis)
    ensures d != ConfigUnexpected
    ensures d.ConfigDetail? <==> LoadAppConfig(configPath).Some?
    ensures d.ConfigDetail? ==> d.fileName == configPath && (d.fileMissing <==> configPath == "missing.json")
    ensures d.Processed? <==> ProcessRequest(configPath, dataQueryID).None?
    ensures d.Processed? ==> d.data == "Sample Data"
    ensures d == DataNoRows <==> LoadAppConfig(configPath).None? && dataQueryID == "notfound_db"
    ensures d == DataResourceNotFound <==> LoadAppConfig(configPath).None? && dataQueryID == "custom_resource_err"
    ensures d == DataUnknown <==>
      LoadAppConfig(configPath).None? && dataQueryID !in {"123", "notfound_db", "custom_resource_err"}
  {
    var configErr := LoadAppConfig(configPath);
    if configErr.Some? then
      match As(configErr)
      case Some(ce) => ConfigDetail(ce.op, ce.fileName, Is(ce.Unwrap(), NotExist))
      case None => ConfigUnexpected
    else
      var fetched := FetchData(dataQueryID);
      if fetched.err.Some? then
        if Is(fetched.err, NoRows) then DataNoRows
        else if Is(fetched.err, ResourceNotFound) then DataResourceNotFound
        else DataUnknown
      else
        Processed(fetched.data)
  }

  /** A failed config stage decides the result alone: the data query is never
      consulted. */
  lemma ConfigFailureIgnoresQuery(configPath: string, query1: string, query2: string)
    requires LoadAppConfig(configPath).Some?
    ensures ProcessRequest(configPath, query1) == ProcessRequest(configPath, query2)
  {
  }

  /** Every config path other than the two reserved ones, with query "123",
      processes without error. */
  lemma KnownQuerySucceeds(configPath: string)
    requires configPath != "missing.json" && configPath != "invalid.json"
    ensures ProcessRequest(configPath, "123").None?
  {
  }

  /** Scenario 1 of `main`: the config file is missing. */
  lemma Scenario1MissingConfig()
    ensures var err := ProcessRequest("missing.json", "123");
      && As(err) == Some(ConfigError("missing.json", "open file", Some(Wrap("failed to open: ", SentinelError(NotExist)))))
      && Is(err, NotExist) && !Is(err, NoRows) && !Is(err, ResourceNotFound)
      && Message(err.value) == "failed during config stage: " + "config error during '" + "open file"
                               + "' for file '" + "missing.json" + "': " + "failed to open: " + "file does not exist"
    ensures Diagnose("missing.json", "123") == ConfigDetail("open file", "missing.json", true)
  {
    var cause := Wrap("failed to open: ", SentinelError(NotExist));
    var ce := Config(ConfigError("missing.json", "open file", Some(cause)));
    var err := ProcessRequest("missing.json", "123");
    assert err == Some(Wrap(ConfigStagePrefix, ce));
    assert Is(Some(cause), NotExist) && !Is(Some(cause), NoRows) && !Is(Some(cause), ResourceNotFound);
    assert Is(Some(ce), NotExist) && !Is(Some(ce), NoRows) && !Is(Some(ce), ResourceNotFound);
  }

  /** Scenario 2 of `main`: the config content is invalid. */
  lemma Scenario2InvalidConfig()
    ensures var err := ProcessRequest("invalid.json", "123");
      && As(err) == Some(ConfigError("invalid.json", "parse content", Some(Leaf("invalid JSON structure"))))
      && !Is(err, NotExist) && !Is(err, NoRows) && !Is(err, ResourceNotFound)
      && Message(err.value) == "failed during config stage: " + "config error during '" + "parse content"
                               + "' for file '" + "invalid.json" + "': " + "invalid JSON structure"
    ensures Diagnose("invalid.json", "123") == ConfigDetail("parse content", "invalid.json", false)
  {
    var ce := Config(ConfigError("invalid.json", "parse content", Some(Leaf("invalid JSON structure"))));
    assert ProcessRequest("invalid.json", "123") == Some(Wrap(ConfigStagePrefix, ce));
  }

  /** Scenario 3 of `main`: the database query finds no rows. */
  lemma Scenario3NoRows()
    ensures var err := ProcessRequest("valid.json", "notfound_db");
      && err.Some? && As(err).None?
      && Is(err, NoRows) && !Is(err, ResourceNotFound) && !Is(err, NotExist)
      && Message(err.value) == "failed during data fetching stage: " + "database query for ID '" + "notfound_db"
                               + "' failed: " + "sql: no rows in result set"
    ensures Diagnose("valid.json", "notfound_db") == DataNoRows
  {
    var fetchErr := Wrap("database query for ID '" + "notfound_db" + "' failed: ", SentinelError(NoRows));
    assert FetchData("notfound_db").err == Some(fetchErr);
    assert ProcessRequest("valid.json", "notfound_db") == Some(Wrap(DataStagePrefix, fetchErr));
  }

  /** Scenario 4 of `main`: the custom resource is not found. */
  lemma Scenario4ResourceNotFound()
    ensures var err := ProcessRequest("valid.json", "custom_resource_err");
      && err.Some? && As(err).None?
      && Is(err, ResourceNotFound) && !Is(err, NoRows) && !Is(err, NotExist)
      && Message(err.value) == "failed during data fetching stage: " + "could not retrieve resource data: "
                               + "resource not found"
    ensures Diagnose("valid.json", "custom_resource_err") == DataResourceNotFound
  {
    var fetchErr := Wrap("could not retrieve resource data: ", SentinelError(ResourceNotFound));
    assert ProcessRequest("valid.json", "custom_resource_err") == Some(Wrap(DataStagePrefix, fetchErr));
  }

  /** Scenario 5 of `main`: both stages succeed. */
  lemma Scenario5Success()
    ensures ProcessRequest("valid.json", "123").None?
    ensures Diagnose("valid.json", "123") == Processed("Sample Data")
  {
  }
}
