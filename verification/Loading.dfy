/**
 * The load-and-recover pipeline: resolve the configuration file's location,
 * read it (writing the embedded default there first when it does not exist),
 * decode it, and fall back to decoding the embedded default on any failure.
 *
 * The file system is a map from paths to contents with fixed sets of paths on
 * which reading, writing or directory creation fails. JSON decoding is the
 * parameter `decode`, and the embedded default text is the parameter `embedded`.
 */
module Loading {
  import opened Wrappers
  import KeyCodes
  import opened Settings
  import opened Paths

  datatype ErrorKind = NotFound | PermissionDenied | Other

  /** An I/O error: one reported by the operating system, or one the pipeline
      makes itself with a kind and a message. */
  datatype IoError = Os(kind: ErrorKind) | Custom(kind: ErrorKind, message: string)

  const NoLocationMessage: string := "Config file location could not be generated!"
  const UnreadableMessage: string := "Config file location not found!"
  const ParseMessage: string := "JSON could not be parsed"

  /** Where the file system refuses: reading these files, writing these files,
      creating these directories. */
  datatype Faults = Faults(unreadable: set<string>, unwritable: set<string>, uncreatable: set<string>)

  /** One file-system call made by the pipeline. */
  datatype Op = ReadOp(path: string) | CreateDirOp(dir: string) | WriteOp(path: string, contents: string)

  function ReadFile(files: map<string, string>, faults: Faults, path: string): Result<string, IoError> {
    if path !in files then Err(Os(NotFound))
    else if path in faults.unreadable then Err(Os(PermissionDenied))
    else Ok(files[path])
  }

  function CreateDirAllResult(faults: Faults, dir: string): Result<(), IoError> {
    if dir in faults.uncreatable then Err(Os(PermissionDenied)) else Ok(())
  }

  function WriteResult(faults: Faults, path: string): Result<(), IoError> {
    if path in faults.unwritable then Err(Os(PermissionDenied)) else Ok(())
  }

  /** Decoding a text into a configuration: the decoder's result with the
      defaults of omitted keys filled in. */
  function Parse(decode: string -> Option<RawConfig>, text: string): Option<Config> {
    match decode(text)
    case None => None
    case Some(raw) => Some(WithDefaults(raw))
  }

  /** The user's file exists at the resolved location, can be read, and decodes. */
  predicate UserFileUsable(pd: Option<ProjectDirs>, files: map<string, string>, faults: Faults,
                           decode: string -> Option<RawConfig>)
  {
    && pd.Some?
    && var loc := ConfigLocation(pd.value.configDir);
    && loc in files
    && loc !in faults.unreadable
    && Parse(decode, files[loc]).Some?
  }

  /** No file exists at the resolved location, and creating the directory,
      writing the default and reading it back all succeed. */
  predicate BootstrapSucceeds(pd: Option<ProjectDirs>, files: map<string, string>, faults: Faults) {
    && pd.Some?
    && var loc := ConfigLocation(pd.value.configDir);
    && loc !in files
    && pd.value.configDir !in faults.uncreatable
    && loc !in faults.unwritable
    && loc !in faults.unreadable
  }

  /** What reading the configuration text leaves behind: the text or the first
      error, the files and directories afterwards, and the calls made in order. */
  datatype ReadRun = ReadRun(text: Result<string, IoError>, files: map<string, string>, dirs: set<string>, trace: seq<Op>)

  /** The longest sequence of calls loading makes: read the file, create its
      directory, write the embedded default there, read the file again. */
  function BootstrapTrace(loc: string, configDir: string, embedded: string): seq<Op> {
    [ReadOp(loc), CreateDirOp(configDir), WriteOp(loc, embedded), ReadOp(loc)]
  }

  /**
   * Reading the configuration text at `loc`, a file in `configDir`. An existing
   * file is read once and never overwritten; one that cannot be read gives the
   * pipeline's own error. A missing file is bootstrapped: the directory is
   * created (and added to the directories), the embedded default is written
   * there verbatim and read back once. The first of these steps that fails
   * ends the stage with its error: no further call is made, and a failed
   * creation or write leaves the files as they were. The calls made are always
   * a prefix of read, create, write, read.
   */
  function ReadStage(loc: string, configDir: string, files: map<string, string>, dirs: set<string>, faults: Faults,
                     embedded: string): (rr: ReadRun)
    ensures loc in files ==> rr.files == files && rr.dirs == dirs && rr.trace == [ReadOp(loc)]
    ensures loc in files && loc !in faults.unreadable ==> rr.text == Ok(files[loc])
    ensures loc in files && loc in faults.unreadable ==> rr.text == Err(Custom(Other, UnreadableMessage))
    ensures loc !in files ==> (rr.text.Ok? <==>
      configDir !in faults.uncreatable && loc !in faults.unwritable && loc !in faults.unreadable)
    ensures loc !in files && rr.text.Ok? ==> rr.text.value == embedded
    ensures loc !in files && configDir !in faults.uncreatable && loc !in faults.unwritable ==>
      rr.files == files[loc := embedded]
    ensures rr.files == files || (loc !in files && rr.files == files[loc := embedded])
    ensures loc !in files && configDir !in faults.uncreatable ==> rr.dirs == dirs + {configDir}
    ensures loc in files || configDir in faults.uncreatable ==> rr.dirs == dirs
    ensures loc !in files && configDir in faults.uncreatable ==>
      rr.files == files && rr.trace == [ReadOp(loc), CreateDirOp(configDir)]
    ensures loc !in files && configDir !in faults.uncreatable && loc in faults.unwritable ==>
      rr.files == files && rr.trace == [ReadOp(loc), CreateDirOp(configDir), WriteOp(loc, embedded)]
    ensures rr.trace <= BootstrapTrace(loc, configDir, embedded)
    ensures loc !in files && configDir !in faults.uncreatable && loc !in faults.unwritable ==>
      rr.trace == BootstrapTrace(loc, configDir, embedded)
  {
    var read := ReadFile(files, faults, loc);
    if read.Ok? then ReadRun(read, files, dirs, [ReadOp(loc)])
    else if read.error.kind != NotFound then ReadRun(Err(Custom(Other, UnreadableMessage)), files, dirs, [ReadOp(loc)])
    else
      var created := CreateDirAllResult(faults, configDir);
      if created.Err? then ReadRun(Err(created.error), files, dirs, [ReadOp(loc), CreateDirOp(configDir)])
      else
        var dirs' := dirs + {configDir};
        var written := WriteResult(faults, loc);
        if written.Err? then
          ReadRun(Err(written.error), files, dirs', [ReadOp(loc), CreateDirOp(configDir), WriteOp(loc, embedded)])
        else
          var files' := files[loc := embedded];
          ReadRun(ReadFile(files', faults, loc), files', dirs', BootstrapTrace(loc, configDir, embedded))
  }

  /** What one run of the pipeline's fallible part leaves behind: its outcome,
      the files and directories afterwards, and the calls it made in order. */
  datatype Run = Run(outcome: Result<Config, IoError>, files: map<string, string>, dirs: set<string>, trace: seq<Op>)

  /**
   * The fallible part of loading, as a function of the initial file system.
   * Without a location nothing on disk is touched. Otherwise the text is read
   * (bootstrapping a missing file) and decoded. It succeeds exactly when the
   * user's file is usable, or when the bootstrap succeeds and the embedded
   * default decodes; the only file it may write is a missing configuration file,
   * and what it writes there is the embedded default. When creating the
   * directory and writing succeed, the file is read back exactly once.
   */
  function InnerRun(pd: Option<ProjectDirs>, files: map<string, string>, dirs: set<string>, faults: Faults,
                    decode: string -> Option<RawConfig>, embedded: string): (run: Run)
    ensures pd.None? ==> run == Run(Err(Custom(Other, NoLocationMessage)), files, dirs, [])
    ensures run.outcome.Ok? <==>
      UserFileUsable(pd, files, faults, decode) || (BootstrapSucceeds(pd, files, faults) && Parse(decode, embedded).Some?)
    ensures UserFileUsable(pd, files, faults, decode) ==>
      Some(run.outcome.value) == Parse(decode, files[ConfigLocation(pd.value.configDir)])
    ensures BootstrapSucceeds(pd, files, faults) && Parse(decode, embedded).Some? ==>
      Some(run.outcome.value) == Parse(decode, embedded)
    ensures run.files == files ||
      (pd.Some? && ConfigLocation(pd.value.configDir) !in files && run.files == files[ConfigLocation(pd.value.configDir) := embedded])
    ensures pd.Some? && ConfigLocation(pd.value.configDir) !in files && pd.value.configDir !in faults.uncreatable ==>
      run.dirs == dirs + {pd.value.configDir}
    ensures pd.None? || ConfigLocation(pd.value.configDir) in files || pd.value.configDir in faults.uncreatable ==>
      run.dirs == dirs
    ensures pd.Some? ==>
      var loc, dir := ConfigLocation(pd.value.configDir), pd.value.configDir;
      && (loc in files ==> run.files == files && run.trace == [ReadOp(loc)])
      && (loc !in files && dir in faults.uncreatable ==>
            run.files == files && run.trace == [ReadOp(loc), CreateDirOp(dir)])
      && (loc !in files && dir !in faults.uncreatable && loc in faults.unwritable ==>
            run.files == files && run.trace == [ReadOp(loc), CreateDirOp(dir), WriteOp(loc, embedded)])
    ensures pd.Some? ==> run.trace <= BootstrapTrace(ConfigLocation(pd.value.configDir), pd.value.configDir, embedded)
    ensures (pd.Some? && ConfigLocation(pd.value.configDir) !in files && pd.value.configDir !in faults.uncreatable
             && ConfigLocation(pd.value.configDir) !in faults.unwritable) ==>
      && run.files == files[ConfigLocation(pd.value.configDir) := embedded]
      && run.trace == BootstrapTrace(ConfigLocation(pd.value.configDir), pd.value.configDir, embedded)
  {
    match pd
    case None => Run(Err(Custom(Other, NoLocationMessage)), files, dirs, [])
    case Some(projectDir) =>
      var rr := ReadStage(ConfigLocation(projectDir.configDir), projectDir.configDir, files, dirs, faults, embedded);
      match rr.text
      case Err(e) => Run(Err(e), rr.files, rr.dirs, rr.trace)
      case Ok(text) =>
        match Parse(decode, text)
        case None => Run(Err(Custom(Other, ParseMessage)), rr.files, rr.dirs, rr.trace)
        case Some(c) => Run(Ok(c), rr.files, rr.dirs, rr.trace)
  }

  /**
   * The configuration loading yields; never an error. It is the decoding of
   * the user's file when that file is usable, and the decoding of the embedded
   * default in every other case: no location, an unreadable file, a first run
   * (whether or not the bootstrap succeeds), or a file that does not decode.
   * The embedded default needs to decode only when that fallback is taken.
   */
  function Loaded(pd: Option<ProjectDirs>, files: map<string, string>, dirs: set<string>, faults: Faults,
                  decode: string -> Option<RawConfig>, embedded: string): (c: Config)
    requires UserFileUsable(pd, files, faults, decode) || Parse(decode, embedded).Some?
    ensures UserFileUsable(pd, files, faults, decode) ==> Some(c) == Parse(decode, files[ConfigLocation(pd.value.configDir)])
    ensures !UserFileUsable(pd, files, faults, decode) ==> Some(c) == Parse(decode, embedded)
  {
    match InnerRun(pd, files, dirs, faults, decode, embedded).outcome
    case Ok(c) => c
    case Err(_) => Parse(decode, embedded).value
  }

  /** A usable user file that omits the pause key loads with pause unbound. */
  lemma OmittedPauseIsUnbound(pd: Option<ProjectDirs>, files: map<string, string>, dirs: set<string>, faults: Faults,
                              decode: string -> Option<RawConfig>, embedded: string)
    requires UserFileUsable(pd, files, faults, decode)
    requires decode(files[ConfigLocation(pd.value.configDir)]).value.pause.None?
    ensures Loaded(pd, files, dirs, faults, decode, embedded).pause == KeyCodes.Null
  {
  }

  /** When every text the decoder accepts names only keys a file can name,
      the loaded configuration does too, so no key the file format cannot
      express (`Other`) triggers any of its bindings. */
  lemma LoadedNameable(pd: Option<ProjectDirs>, files: map<string, string>, dirs: set<string>, faults: Faults,
                       decode: string -> Option<RawConfig>, embedded: string)
    requires UserFileUsable(pd, files, faults, decode) || Parse(decode, embedded).Some?
    requires forall t :: decode(t).Some? ==> RawNameable(decode(t).value)
    ensures ConfigNameable(Loaded(pd, files, dirs, faults, decode, embedded))
  {
    var c := Loaded(pd, files, dirs, faults, decode, embedded);
    if UserFileUsable(pd, files, faults, decode) {
      var text := files[ConfigLocation(pd.value.configDir)];
      assert c == WithDefaults(decode(text).value);
      assert RawNameable(decode(text).value);
    } else {
      assert c == WithDefaults(decode(embedded).value);
      assert RawNameable(decode(embedded).value);
    }
  }

  /** The file system the pipeline works on; `log` records every call made. */
  class FileSystem {
    var files: map<string, string>
    var dirs: set<string>
    ghost var log: seq<Op>
    const faults: Faults

    constructor (files: map<string, string>, dirs: set<string>, faults: Faults)
      ensures this.files == files && this.dirs == dirs && this.faults == faults && log == []
    {
      this.files := files;
      this.dirs := dirs;
      this.faults := faults;
      log := [];
    }

    method ReadToString(path: string) returns (r: Result<string, IoError>)
      modifies this`log
      ensures r == ReadFile(files, faults, path)
      ensures log == old(log) + [ReadOp(path)]
    {
      if path !in files {
        r := Err(Os(NotFound));
      } else if path in faults.unreadable {
        r := Err(Os(PermissionDenied));
      } else {
        r := Ok(files[path]);
      }
      log := log + [ReadOp(path)];
    }

    method CreateDirAll(dir: string) returns (r: Result<(), IoError>)
      modifies this`dirs, this`log
      ensures r == CreateDirAllResult(faults, dir)
      ensures dirs == if r.Ok? then old(dirs) + {dir} else old(dirs)
      ensures log == old(log) + [CreateDirOp(dir)]
    {
      if dir in faults.uncreatable {
        r := Err(Os(PermissionDenied));
      } else {
        dirs := dirs + {dir};
        r := Ok(());
      }
      log := log + [CreateDirOp(dir)];
    }

    method Write(path: string, contents: string) returns (r: Result<(), IoError>)
      modifies this`files, this`log
      ensures r == WriteResult(faults, path)
      ensures files == if r.Ok? then old(files)[path := contents] else old(files)
      ensures log == old(log) + [WriteOp(path, contents)]
    {
      if path in faults.unwritable {
        r := Err(Os(PermissionDenied));
      } else {
        files := files[path := contents];
        r := Ok(());
      }
      log := log + [WriteOp(path, contents)];
    }
  }

  /** Reads the text at `confLocation`; when the file is missing, creates the
      directory, writes the embedded default and reads it back. */
  method ReadOrBootstrap(fs: FileSystem, confLocation: string, configDir: string, embedded: string)
    returns (jsonString: Result<string, IoError>)
    modifies fs`files, fs`dirs, fs`log
    ensures var rr := ReadStage(confLocation, configDir, old(fs.files), old(fs.dirs), fs.faults, embedded);
      && jsonString == rr.text
      && fs.files == rr.files
      && fs.dirs == rr.dirs
      && fs.log == old(fs.log) + rr.trace
  {
    jsonString := fs.ReadToString(confLocation);
    if jsonString.Ok? {
      return;
    }
    if jsonString.error.kind != NotFound {
      return Err(Custom(Other, UnreadableMessage));
    }
    ghost var log0 := old(fs.log);
    var created := fs.CreateDirAll(configDir);
    if created.Err? {
      assert fs.log == log0 + [ReadOp(confLocation), CreateDirOp(configDir)];
      return Err(created.error);
    }
    var written := fs.Write(confLocation, embedded);
    if written.Err? {
      assert fs.log == log0 + [ReadOp(confLocation), CreateDirOp(configDir), WriteOp(confLocation, embedded)];
      return Err(written.error);
    }
    jsonString := fs.ReadToString(confLocation);
    assert fs.log == log0 + BootstrapTrace(confLocation, configDir, embedded);
  }

  /** Resolves the location, reads the text (bootstrapping a missing file), and
      decodes it, returning the first error met. */
  method FallibleInner(fs: FileSystem, pd: Option<ProjectDirs>, decode: string -> Option<RawConfig>, embedded: string)
    returns (r: Result<Config, IoError>)
    modifies fs`files, fs`dirs, fs`log
    ensures var run := InnerRun(pd, old(fs.files), old(fs.dirs), fs.faults, decode, embedded);
      && r == run.outcome
      && fs.files == run.files
      && fs.dirs == run.dirs
      && fs.log == old(fs.log) + run.trace
  {
    if pd.None? {
      return Err(Custom(Other, NoLocationMessage));
    }
    var projectDir := pd.value;
    var confLocation := GetConfigLocation(projectDir);
    var jsonString := ReadOrBootstrap(fs, confLocation, projectDir.configDir, embedded);
    if jsonString.Err? {
      return Err(jsonString.error);
    }
    var parsed := Parse(decode, jsonString.value);
    if parsed.None? {
      return Err(Custom(Other, ParseMessage));
    }
    return Ok(parsed.value);
  }

  /** Loads the configuration; on any error of the fallible part, decodes the
      embedded default instead; the caller guarantees the default decodes
      whenever that fallback is taken. */
  method Get(fs: FileSystem, pd: Option<ProjectDirs>, decode: string -> Option<RawConfig>, embedded: string)
    returns (c: Config)
    requires UserFileUsable(pd, fs.files, fs.faults, decode) || Parse(decode, embedded).Some?
    modifies fs`files, fs`dirs, fs`log
    ensures c == Loaded(pd, old(fs.files), old(fs.dirs), fs.faults, decode, embedded)
    ensures var run := InnerRun(pd, old(fs.files), old(fs.dirs), fs.faults, decode, embedded);
      && fs.files == run.files
      && fs.dirs == run.dirs
      && fs.log == old(fs.log) + run.trace
  {
    var r := FallibleInner(fs, pd, decode, embedded);
    if r.Ok? {
      c := r.value;
    } else {
      c := Parse(decode, embedded).value;
    }
  }
}
