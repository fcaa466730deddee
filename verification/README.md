# Tetris TUI configuration core in Dafny

This project models the configuration engine of a terminal Tetris client
(`src/config.rs`). The engine has these parts:

- **Key codes** (`KeyCodes`). The closed set of keys a configuration file can
  name: `Left`, `Right`, `Up`, `Down`, `Char(c)`, `Null`, `Esc` and `Enter`.
  An extra `Other` stands for every remaining key of the terminal library.
  `ToChar` gives each key the single glyph the help text shows.
- **Bindings** (`Bindings`). A `KeyWithAlt` is an action's primary key and
  alternate key. `Matches` decides whether an input event triggers the
  action. `Render` is the binding's display text. The `Fmt` method writes that
  text into a `Formatter` piece by piece, the way `Display::fmt` does.
- **Location** (`Paths`). `PathBuf.Push` follows Unix `push` semantics.
  `GetConfigLocation` appends `tetris.json` to the application's
  configuration directory. `Components` views a path as its list of name
  segments. The main proved fact is that a relative push appends exactly the
  pushed segments.
- **Configuration and help text** (`Settings`). `Config` is the record of five
  bindings plus pause, quit, continue and restart. `WithDefaults` fills in the
  keys a file leaves out: `Null`, or `Char('r')` for restart.
  `CreateHelpMessage` builds the nine help lines.
- **Load and fallback** (`Loading`). `FileSystem` is a class holding files and
  directories. Fixed fault sets say where reading, writing or directory
  creation fails, and a ghost log records every call. The pipeline is
  specified by pure functions:
  - `ReadStage` reads the file, or bootstraps a missing one.
  - `InnerRun` is `fallible_inner`.
  - `Loaded` is `Config::get`.

  The methods `ReadOrBootstrap`, `FallibleInner` and `Get` are proved to
  perform exactly those runs. `Loaded` never fails. It returns the decoding of
  the user's file when that file exists, can be read and decodes. In every
  other case it returns the decoding of the embedded default.

The pipeline takes three things as parameters:

- the platform's directory lookup, as an `Option<ProjectDirs>`;
- JSON decoding, as a function `decode: string -> Option<RawConfig>`, whose
  omitted keys `WithDefaults` then fills in;
- the embedded default text, as `embedded`.

Two facts about the code that a reader may not expect:

- The help text has nine lines (blank, seven action lines, blank).
- A `Null` event matches every binding whose alternate is `Null`
  (`Bindings.NullMatchesUnsetAlt`).

## Model

| member | source | states |
|---|---|---|
| KeyCodes.ToAsciiUpper | src/config.rs:186 | only 'a'..'z' change, each to the capital at the same alphabet position; the result is never an ASCII lower-case letter, and every other character, non-ASCII lower case included, is kept |
| KeyCodes.ToChar | src/config.rs:176-189 | total; Enter, Esc and the four arrows show their fixed glyphs (↵ ␛ ← → ↑ ↓); `Char(' ')` shows the middle dot, ahead of the general character arm; any other character shows as its ASCII capital; `Null` and unnamed keys show the placeholder; never an ASCII lower-case letter; non-character glyphs lie outside ASCII |
| KeyCodes.ToCharFoldsCase | src/config.rs:186 | a character key shows like its ASCII capital; a lower-case letter shows as its capital |
| KeyCodes.PlaceholderExactly | src/config.rs:187 | the replacement glyph is shown exactly for `Null`, the unnamed keys, and the replacement character itself |
| Bindings.Matches | src/config.rs:165-170 | an event triggers a binding exactly when it equals the primary or the alternate key (exact variant and payload) |
| Bindings.OtherMatchesNoNameableBinding | src/config.rs:117-144 | a key the file format cannot name never triggers a binding made of nameable keys |
| Bindings.New | src/config.rs:155-159 | the built binding has primary `a` and alternate `b`; it is triggered by both and by no other key |
| Bindings.CaseSensitiveButSameGlyph | src/config.rs:165-170 | a lower-case letter does not trigger a binding of its capital alone, yet both show the same glyph |
| Bindings.NullMatchesUnsetAlt | src/config.rs:165-170 | a `Null` event triggers every binding whose alternate is `Null` |
| Bindings.MatchesIgnoresOrder | src/config.rs:167-169 | swapping primary and alternate does not change which events trigger a binding |
| Bindings.Render | src/config.rs:192-201 | one character (the primary's glyph) when the alternate is `Null`; otherwise four: primary glyph, ", ", alternate glyph |
| Bindings.RenderDeterminedByGlyphs | src/config.rs:192-201 | two bindings render alike if and only if their primary glyphs agree, both or neither have an alternate, and set alternates' glyphs agree |
| Bindings.Formatter.WriteStr | src/config.rs:194-197 | a working sink appends the text and reports success; a failing one reports an error and keeps its text |
| Bindings.Fmt | src/config.rs:192-201 | on a working sink appends exactly `Render(binding)` and succeeds; on a failing one stops at the first write with an error |
| Paths.ComponentsAfterSep | src/config.rs:56 | joining a path that ends in a separator with another concatenates their segment lists |
| Paths.PushPath | src/config.rs:56 | an absolute path replaces the buffer; a relative one keeps the buffer as a prefix and adds exactly its own segments after the buffer's |
| Paths.PathBuf.constructor | src/config.rs:55 | the buffer starts as a copy of the configuration directory |
| Paths.PathBuf.Push | src/config.rs:56 | the buffer becomes `PushPath` of its old text and the pushed path |
| Paths.PathBuf.ToStr | src/config.rs:57 | the conversion to text always succeeds, so the unwrap never panics, and yields the buffer unchanged |
| Paths.ConfigLocation | src/config.rs:51-58 | the location's segments are the directory's followed by exactly one `tetris.json`; the directory is a prefix and the text ends with `tetris.json` |
| Paths.GetConfigLocation | src/config.rs:54-58 | returns the configuration location of the project's configuration directory: its segments plus `tetris.json` |
| Settings.WithBindingDefault | src/config.rs:146-153 | the primary key is kept; an omitted alternate becomes `Null`, a given one is kept |
| Settings.WithDefaults | src/config.rs:60-98 | omitted pause, quit and continue become `Null`, omitted restart becomes `Char('r')`, given keys are kept; file-nameable input stays file-nameable |
| Settings.CreateHelpMessage | src/config.rs:100-114 | nine lines, first and last blank; lines 1 to 7 begin with the labels Left, Right, Rotate, Soft Drop, Hard Drop, Pause, Quit, in that order; bindings follow as `Render`, pause and quit as one glyph |
| Settings.HelpLineLengths | src/config.rs:104-113 | a bound action's line is its label plus 1 character, or plus 4 when an alternate is set; pause and quit lines are their label plus 1 |
| Loading.ReadStage | src/config.rs:26-42 | an existing readable file yields its text after one read and no writes; an unreadable one yields the fixed error; a failed directory creation or write ends the stage at once with the files unchanged and no further call (calls: read, create; or read, create, write); a missing file is otherwise created from the embedded default verbatim, its directory is added to the directories exactly when creation succeeds (otherwise they are unchanged), and it succeeds iff directory creation, write and reread all do; calls are a prefix of read, create, write, read, and are exactly that sequence (one reread) when creation and write succeed |
| Loading.InnerRun | src/config.rs:18-47 | no location means no disk access and the fixed error; an existing file is read exactly once and nothing else is called or written; a failed directory creation or write stops the calls there with the files unchanged; success exactly when the user's file is usable or the bootstrap succeeds and the default decodes; the only file ever written is the missing configuration file, with the embedded default; the configuration directory is added exactly when the file is missing and its creation succeeds; when creation and write succeed it is written and read back exactly once |
| Loading.Loaded | src/config.rs:11-15 | always a configuration: the user's file's decoding when usable, otherwise the embedded default's decoding (no location, unreadable, first run, undecodable); the default must decode only when the fallback is taken |
| Loading.LoadedNameable | src/config.rs:11-15 | when the decoder yields only nameable keys, every key of the loaded configuration is nameable, defaults included |
| Loading.OmittedPauseIsUnbound | src/config.rs:84-85 | a usable user file without a pause key loads with pause `Null` |
| Loading.FileSystem.ReadToString | src/config.rs:26 | a missing file gives NotFound, a protected one PermissionDenied, otherwise its contents; logs one read |
| Loading.FileSystem.CreateDirAll | src/config.rs:31 | fails on a protected directory, otherwise records it; logs one creation |
| Loading.FileSystem.Write | src/config.rs:33 | fails on a protected path, otherwise stores the contents there; logs one write |
| Loading.ReadOrBootstrap | src/config.rs:26-42 | returns the text `ReadStage` gives and leaves files, directories and log exactly as it says |
| Loading.FallibleInner | src/config.rs:18-47 | returns the outcome `InnerRun` gives and leaves files, directories and log exactly as it says |
| Loading.Get | src/config.rs:11-15 | returns `Loaded` of the initial file system, with the side effects of `InnerRun`; requires the default to decode only when the user's file is not usable |

## Left out

- Diagnostics printed to standard error (`src/config.rs:13`, `src/config.rs:29`) are side effects only and are not modelled.
- JSON decoding is the parameter `decode`. Which texts decode, and which a missing mandatory binding rejects, belongs to the serde library, which is not part of this model. Nothing forces `decode` to yield only keys the file format can name; `Loading.LoadedNameable` shows what follows when it does.
- KeyCodes.KeyCode: `Other` collapses every key the file format cannot name (Tab, F1, ...) into one value, so two different unnamed keys compare equal in the model. `Bindings.OtherMatchesNoNameableBinding` shows this never makes an event trigger a binding a file can express.
- The contents of the embedded `default_config.json` are not part of this model; the embedded text is a parameter. The source decodes it only on the fallback path and panics if that decoding fails, so `Get` and `Loaded` require it to decode only when the user's file is not usable.
- Both `continue_key` and `restart` are renamed to the same JSON key `"continue"` (`src/config.rs:89`, `src/config.rs:95`). This is likely a defect. What the deserializer then does is not modelled: the model treats `continue` and `restart` as two independent optional keys.
- Platform directory lookup is the input `Option<ProjectDirs>`, and only its configuration directory is used. Windows path prefixes are not modelled; paths follow Unix rules with `/` as the separator.
- Paths.Components: lists name segments only. It ignores the root marker and the `.` normalisation of a real path's components.
- Paths.PathBuf.ToStr: always returns a value. The source's `to_str().unwrap()` would panic on a path that is not valid UTF-8, which Dafny strings cannot represent.
- The file system is a map plus fixed fault sets. In the model a missing file always reads as NotFound and is always bootstrapped; a real read of a missing file in an unsearchable directory fails with PermissionDenied and takes the fallback without creating or writing anything, which loads the same configuration. Writing into a directory that does not exist yet does not fail, and concurrent changes by other processes are not modelled.
- The formatting machinery behind `write!` is reduced to appending text to a sink that refuses either every write or none; a sink failing only on a later write is not modelled.
- `src/main.rs` is not modelled: the command-line checks, the terminal-size check and the write-once global cells for the configuration and the help lines. `src/sqlite.rs`, the score store, is not modelled either.
