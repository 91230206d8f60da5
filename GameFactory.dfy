/**
 * The registry of game configurations: it loads every game configuration file found in
 * the configuration file system, registers each configuration under its name together
 * with two preference paths, answers lookups by name, and saves the compilation and game
 * engine profiles of a game back to the file system.
 */
module Games {
  import opened Wrappers

  /** A path, with `/` between its components. */
  type Path = string

  /** The writable configuration file system: the contents of each file by path. */
  type FileSystem = map<Path, string>

  /** The preference store: the value set for each preference path. */
  type Preferences = map<Path, Path>

  /** The compilation profiles of a game; only their equality matters here. */
  datatype CompilationConfig = CompilationConfig(profiles: seq<string>)

  /** The game engine profiles of a game; only their equality matters here. */
  datatype GameEngineConfig = GameEngineConfig(profiles: seq<string>)

  /** The parts of a game configuration the registry reads or writes. */
  datatype GameConfig = GameConfig(
    name: string,
    compilationConfig: CompilationConfig,
    gameEngineConfig: GameEngineConfig,
    compilationConfigParseFailed: bool,
    gameEngineConfigParseFailed: bool)

  /** A parser of file contents read from a path; it fails with a message. */
  type GameConfigParser = (string, Path) -> Result<GameConfig>
  type CompilationConfigParser = string -> Result<CompilationConfig>
  type GameEngineConfigParser = string -> Result<GameEngineConfig>

  function Join(a: Path, b: Path): Path {
    a + "/" + b
  }

  function GamePathPreference(name: string): Path {
    Join(Join("Games", name), "Path")
  }

  function DefaultEnginePreference(name: string): Path {
    Join(Join("Games", name), "Default Engine")
  }

  function CompilationProfilesPath(name: string): Path {
    Join(name, "CompilationProfiles.cfg")
  }

  function GameEngineProfilesPath(name: string): Path {
    Join(name, "GameEngineProfiles.cfg")
  }

  /** The path with the extension `bak` added. */
  function BackupPath(p: Path): Path {
    p + ".bak"
  }

  function UnknownGame(name: string): string {
    "Unknown game: " + name
  }

  function LoadError(path: Path, what: string): string {
    "Could not load game configuration file " + path + ": " + what
  }

  /**
   * `loadCompilationConfig`: when the profiles file exists it is parsed; success stores
   * the profiles and clears the failure flag, failure sets the flag and keeps the rest.
   */
  function LoadCompilationConfig(c: GameConfig, fs: FileSystem, parse: CompilationConfigParser): (r: GameConfig)
    ensures r.name == c.name && r.gameEngineConfig == c.gameEngineConfig
    ensures r.gameEngineConfigParseFailed == c.gameEngineConfigParseFailed
    ensures CompilationProfilesPath(c.name) !in fs ==> r == c
    ensures r.compilationConfigParseFailed <==>
      if CompilationProfilesPath(c.name) in fs then parse(fs[CompilationProfilesPath(c.name)]).Err?
      else c.compilationConfigParseFailed
    ensures r.compilationConfig != c.compilationConfig ==>
      parse(fs[CompilationProfilesPath(c.name)]) == Ok(r.compilationConfig)
  {
    var path := CompilationProfilesPath(c.name);
    if path in fs then
      match parse(fs[path])
      case Ok(cc) => c.(compilationConfig := cc, compilationConfigParseFailed := false)
      case Err(_) => c.(compilationConfigParseFailed := true)
    else c
  }

  /** `loadGameEngineConfig`, the same rule for the game engine profiles file. */
  function LoadGameEngineConfig(c: GameConfig, fs: FileSystem, parse: GameEngineConfigParser): (r: GameConfig)
    ensures r.name == c.name && r.compilationConfig == c.compilationConfig
    ensures r.compilationConfigParseFailed == c.compilationConfigParseFailed
    ensures GameEngineProfilesPath(c.name) !in fs ==> r == c
    ensures r.gameEngineConfigParseFailed <==>
      if GameEngineProfilesPath(c.name) in fs then parse(fs[GameEngineProfilesPath(c.name)]).Err?
      else c.gameEngineConfigParseFailed
    ensures r.gameEngineConfig != c.gameEngineConfig ==>
      parse(fs[GameEngineProfilesPath(c.name)]) == Ok(r.gameEngineConfig)
  {
    var path := GameEngineProfilesPath(c.name);
    if path in fs then
      match parse(fs[path])
      case Ok(ec) => c.(gameEngineConfig := ec, gameEngineConfigParseFailed := false)
      case Err(_) => c.(gameEngineConfigParseFailed := true)
    else c
  }

  /** What writing a profiles file leaves: the stored game configuration and the file system. */
  datatype Written = Written(config: GameConfig, fs: FileSystem)

  /** `fs` with `path` copied to its backup path, overwriting an older backup. */
  function Backup(fs: FileSystem, path: Path): FileSystem {
    if path in fs then fs[BackupPath(path) := fs[path]] else fs
  }

  /**
   * `writeCompilationConfig`: nothing happens when the stored profiles parsed and equal
   * the new ones; otherwise a malformed file is backed up first, the flag is cleared,
   * `text` (what the writer produced for `cc`) is written and `cc` is stored.
   */
  function CompilationWrite(c: GameConfig, cc: CompilationConfig, text: string, fs: FileSystem): (w: Written)
    ensures !c.compilationConfigParseFailed && c.compilationConfig == cc ==> w == Written(c, fs)
    ensures w.config.compilationConfig == cc && !w.config.compilationConfigParseFailed
    ensures w.config.name == c.name && w.config.gameEngineConfig == c.gameEngineConfig
    ensures w.config.gameEngineConfigParseFailed == c.gameEngineConfigParseFailed
    ensures c.compilationConfigParseFailed || c.compilationConfig != cc ==>
      var path := CompilationProfilesPath(c.name);
      && w.fs.Keys == fs.Keys + {path} + (if c.compilationConfigParseFailed && path in fs then {BackupPath(path)} else {})
      && w.fs[path] == text
      && (c.compilationConfigParseFailed && path in fs ==> w.fs[BackupPath(path)] == fs[path])
      && (forall p :: p in fs && p != path && (p == BackupPath(path) ==> !c.compilationConfigParseFailed) ==> w.fs[p] == fs[p])
  {
    if !c.compilationConfigParseFailed && c.compilationConfig == cc then Written(c, fs)
    else
      var path := CompilationProfilesPath(c.name);
      var backedUp := if c.compilationConfigParseFailed then Backup(fs, path) else fs;
      Written(c.(compilationConfig := cc, compilationConfigParseFailed := false), backedUp[path := text])
  }

  /** `writeGameEngineConfig`, the same rule for the game engine profiles. */
  function GameEngineWrite(c: GameConfig, ec: GameEngineConfig, text: string, fs: FileSystem): (w: Written)
    ensures !c.gameEngineConfigParseFailed && c.gameEngineConfig == ec ==> w == Written(c, fs)
    ensures w.config.gameEngineConfig == ec && !w.config.gameEngineConfigParseFailed
    ensures w.config.name == c.name && w.config.compilationConfig == c.compilationConfig
    ensures w.config.compilationConfigParseFailed == c.compilationConfigParseFailed
    ensures c.gameEngineConfigParseFailed || c.gameEngineConfig != ec ==>
      var path := GameEngineProfilesPath(c.name);
      && w.fs.Keys == fs.Keys + {path} + (if c.gameEngineConfigParseFailed && path in fs then {BackupPath(path)} else {})
      && w.fs[path] == text
      && (c.gameEngineConfigParseFailed && path in fs ==> w.fs[BackupPath(path)] == fs[path])
      && (forall p :: p in fs && p != path && (p == BackupPath(path) ==> !c.gameEngineConfigParseFailed) ==> w.fs[p] == fs[p])
  {
    if !c.gameEngineConfigParseFailed && c.gameEngineConfig == ec then Written(c, fs)
    else
      var path := GameEngineProfilesPath(c.name);
      var backedUp := if c.gameEngineConfigParseFailed then Backup(fs, path) else fs;
      Written(c.(gameEngineConfig := ec, gameEngineConfigParseFailed := false), backedUp[path := text])
  }

  /** Saving the same profiles a second time finds them unchanged and writes nothing. */
  lemma CompilationWriteIdempotent(c: GameConfig, cc: CompilationConfig, text: string, fs: FileSystem)
    ensures var w := CompilationWrite(c, cc, text, fs);
      CompilationWrite(w.config, cc, text, w.fs) == w
  {
  }

  lemma GameEngineWriteIdempotent(c: GameConfig, ec: GameEngineConfig, text: string, fs: FileSystem)
    ensures var w := GameEngineWrite(c, ec, text, fs);
      GameEngineWrite(w.config, ec, text, w.fs) == w
  {
  }

  /** Every path of `files` is a file of `fs`. */
  predicate Listed(files: seq<Path>, fs: FileSystem) {
    forall i :: 0 <= i < |files| ==> files[i] in fs
  }

  /** The configuration `doLoadGameConfig` registers for a parsed configuration. */
  function Completed(c: GameConfig, fs: FileSystem, parseCompilation: CompilationConfigParser, parseGameEngine: GameEngineConfigParser): GameConfig {
    LoadGameEngineConfig(LoadCompilationConfig(c, fs, parseCompilation), fs, parseGameEngine)
  }

  /** The error message `loadGameConfigs` records for the file at `p`, if it failed. */
  function ErrorOf(p: Path, parsed: Result<GameConfig>): seq<string> {
    if parsed.Err? then [LoadError(p, parsed.message)] else []
  }

  /** The name a parsed file adds to the game list, if it parsed. */
  function NameOf(parsed: Result<GameConfig>): seq<string> {
    if parsed.Ok? then [parsed.value.name] else []
  }

  /** One error message per file of `files` that does not parse, in order. */
  function LoadErrors(files: seq<Path>, fs: FileSystem, parse: GameConfigParser): seq<string>
    requires Listed(files, fs)
  {
    if files == [] then []
    else
      var init := files[..|files| - 1];
      var p := files[|files| - 1];
      LoadErrors(init, fs, parse) + ErrorOf(p, parse(fs[p], p))
  }

  /** The name of each file of `files` that parses, in order. */
  function LoadedNames(files: seq<Path>, fs: FileSystem, parse: GameConfigParser): seq<string>
    requires Listed(files, fs)
  {
    if files == [] then []
    else
      var init := files[..|files| - 1];
      var p := files[|files| - 1];
      LoadedNames(init, fs, parse) + NameOf(parse(fs[p], p))
  }

  /**
   * The registry `loadGameConfigs` leaves behind, file by file: a file that does not
   * parse changes nothing, and a parsed configuration is registered, completed with its
   * two profile files, only when no earlier one took its name.
   */
  function ConfigsAfter(files: seq<Path>, configs0: map<string, GameConfig>, fs: FileSystem, parse: GameConfigParser,
                        parseCompilation: CompilationConfigParser, parseGameEngine: GameEngineConfigParser): map<string, GameConfig>
    requires Listed(files, fs)
  {
    if files == [] then configs0
    else
      var init := files[..|files| - 1];
      var p := files[|files| - 1];
      var before := ConfigsAfter(init, configs0, fs, parse, parseCompilation, parseGameEngine);
      match parse(fs[p], p)
      case Err(_) => before
      case Ok(c) =>
        if c.name in before then before
        else before[c.name := Completed(c, fs, parseCompilation, parseGameEngine)]
  }

  /** Loading one more file adds its error or its name at the end. */
  lemma LoadPrefixStep(files: seq<Path>, i: nat, fs: FileSystem, parse: GameConfigParser)
    requires Listed(files, fs) && i < |files|
    ensures Listed(files[..i], fs) && Listed(files[..i + 1], fs)
    ensures LoadErrors(files[..i + 1], fs, parse) == LoadErrors(files[..i], fs, parse) + ErrorOf(files[i], parse(fs[files[i]], files[i]))
    ensures LoadedNames(files[..i + 1], fs, parse) == LoadedNames(files[..i], fs, parse) + NameOf(parse(fs[files[i]], files[i]))
  {
    assert files[..i + 1][..i] == files[..i];
  }

  /** Loading one more file applies `doLoadGameConfig`'s rule for that file to the registry. */
  lemma ConfigsAfterStep(files: seq<Path>, i: nat, configs0: map<string, GameConfig>, fs: FileSystem, parse: GameConfigParser,
                         parseCompilation: CompilationConfigParser, parseGameEngine: GameEngineConfigParser)
    requires Listed(files, fs) && i < |files|
    ensures Listed(files[..i], fs) && Listed(files[..i + 1], fs)
    ensures var before := ConfigsAfter(files[..i], configs0, fs, parse, parseCompilation, parseGameEngine);
      ConfigsAfter(files[..i + 1], configs0, fs, parse, parseCompilation, parseGameEngine) ==
        match parse(fs[files[i]], files[i])
        case Err(_) => before
        case Ok(c) =>
          if c.name in before then before
          else before[c.name := Completed(c, fs, parseCompilation, parseGameEngine)]
  {
    assert files[..i + 1][..i] == files[..i];
  }

  /** The file at `i` parses to a configuration named `k`. */
  predicate DeclaresGame(files: seq<Path>, i: nat, fs: FileSystem, parse: GameConfigParser, k: string)
    requires Listed(files, fs) && i < |files|
  {
    parse(fs[files[i]], files[i]).Ok? && parse(fs[files[i]], files[i]).value.name == k
  }

  /**
   * After loading, every parsed name is registered, and a name that was not registered
   * before holds the completed configuration of the first file declaring it: a later
   * file with the same name does not replace it.
   */
  lemma {:induction false} FirstDeclarationWins(files: seq<Path>, configs0: map<string, GameConfig>, fs: FileSystem,
                                                 parse: GameConfigParser, parseCompilation: CompilationConfigParser,
                                                 parseGameEngine: GameEngineConfigParser, k: string)
    requires Listed(files, fs)
    ensures var r := ConfigsAfter(files, configs0, fs, parse, parseCompilation, parseGameEngine);
      && (forall i :: 0 <= i < |files| && DeclaresGame(files, i, fs, parse, k) ==> k in r)
      && (k in configs0 ==> k in r && r[k] == configs0[k])
      && (k in r && k !in configs0 ==>
            exists i :: 0 <= i < |files| && DeclaresGame(files, i, fs, parse, k)
              && (forall j :: 0 <= j < i ==> !DeclaresGame(files, j, fs, parse, k))
              && r[k] == Completed(parse(fs[files[i]], files[i]).value, fs, parseCompilation, parseGameEngine))
  {
    if files != [] {
      var init := files[..|files| - 1];
      var last := |files| - 1;
      assert Listed(init, fs);
      FirstDeclarationWins(init, configs0, fs, parse, parseCompilation, parseGameEngine, k);
      var before := ConfigsAfter(init, configs0, fs, parse, parseCompilation, parseGameEngine);
      var r := ConfigsAfter(files, configs0, fs, parse, parseCompilation, parseGameEngine);
      assert forall i :: 0 <= i < |init| ==> init[i] == files[i];
      assert forall i :: 0 <= i < |init| ==> (DeclaresGame(init, i, fs, parse, k) <==> DeclaresGame(files, i, fs, parse, k));
      assert forall x :: x in before ==> x in r && r[x] == before[x];
      if k in r && k !in configs0 {
        if k in before {
          var i :| 0 <= i < |init| && DeclaresGame(init, i, fs, parse, k)
            && (forall j :: 0 <= j < i ==> !DeclaresGame(init, j, fs, parse, k))
            && before[k] == Completed(parse(fs[init[i]], init[i]).value, fs, parseCompilation, parseGameEngine);
          assert DeclaresGame(files, i, fs, parse, k);
        } else {
          assert DeclaresGame(files, last, fs, parse, k);
          assert forall j :: 0 <= j < last ==> !DeclaresGame(files, j, fs, parse, k);
        }
      }
    }
  }

  /** Every file either registers a name or adds one error: loading never skips a file silently. */
  lemma {:induction false} EveryFileAccountedFor(files: seq<Path>, fs: FileSystem, parse: GameConfigParser)
    requires Listed(files, fs)
    ensures |LoadErrors(files, fs, parse)| + |LoadedNames(files, fs, parse)| == |files|
    ensures LoadErrors(files, fs, parse) == [] <==>
      forall i :: 0 <= i < |files| ==> parse(fs[files[i]], files[i]).Ok?
  {
    if files != [] {
      var init := files[..|files| - 1];
      assert Listed(init, fs);
      EveryFileAccountedFor(init, fs, parse);
      assert forall i :: 0 <= i < |init| ==> files[i] == init[i];
    }
  }

  /** `a` comes before `b` in `string_less`: character by character, a proper prefix first. */
  predicate StringLess(a: string, b: string) {
    if a == [] then b != []
    else if b == [] then false
    else if a[0] != b[0] then a[0] < b[0]
    else StringLess(a[1..], b[1..])
  }

  lemma {:induction false} StringLessTotal(a: string, b: string)
    ensures a == b || StringLess(a, b) || StringLess(b, a)
  {
    if a != [] && b != [] && a[0] == b[0] {
      StringLessTotal(a[1..], b[1..]);
      if a[1..] == b[1..] {
        assert a == [a[0]] + a[1..] && b == [b[0]] + b[1..];
      }
    }
  }

  lemma {:induction false} StringLessAsymmetric(a: string, b: string)
    requires StringLess(a, b)
    ensures !StringLess(b, a)
  {
    if a != [] && b != [] && a[0] == b[0] {
      StringLessAsymmetric(a[1..], b[1..]);
    }
  }

  lemma {:induction false} StringLessTransitive(a: string, b: string, c: string)
    requires StringLess(a, b) && StringLess(b, c)
    ensures StringLess(a, c)
  {
    if a != [] && b != [] && c != [] && a[0] == b[0] && b[0] == c[0] {
      StringLessTransitive(a[1..], b[1..], c[1..]);
    }
  }

  /** Each name is not after the next one. */
  predicate Sorted(s: seq<string>) {
    forall i :: 0 < i < |s| ==> !StringLess(s[i], s[i - 1])
  }

  /** `x` put into the sorted `s` before the first name not before it. */
  function InsertName(s: seq<string>, x: string): (r: seq<string>)
    requires Sorted(s)
    ensures Sorted(r)
    ensures multiset(r) == multiset(s) + multiset{x}
    ensures r[0] == x || (s != [] && r[0] == s[0])
  {
    if s == [] then [x]
    else if !StringLess(s[0], x) then
      StringLessTotal(s[0], x);
      [x] + s
    else
      assert s == [s[0]] + s[1..];
      StringLessAsymmetric(s[0], x);
      [s[0]] + InsertName(s[1..], x)
  }

  /** `kdl::col_sort` with `string_less`: the names sorted, each kept as often as it occurs. */
  function SortNames(s: seq<string>): (r: seq<string>)
    ensures Sorted(r)
    ensures multiset(r) == multiset(s)
  {
    if s == [] then []
    else
      assert s == [s[0]] + s[1..];
      InsertName(SortNames(s[1..]), s[0])
  }

  /** Being not after is transitive. */
  lemma NotLessTransitive(a: string, b: string, c: string)
    requires !StringLess(b, a) && !StringLess(c, b)
    ensures !StringLess(c, a)
  {
    StringLessTotal(a, b);
    StringLessTotal(b, c);
    if a != b && b != c {
      StringLessTransitive(a, b, c);
      StringLessAsymmetric(a, c);
    }
  }

  /** Sorted by adjacent pairs means no name is after a later one. */
  lemma {:induction false} SortedAllPairs(s: seq<string>, i: nat, j: nat)
    requires Sorted(s) && i < j < |s|
    ensures !StringLess(s[j], s[i])
    decreases j - i
  {
    if i + 1 < j {
      SortedAllPairs(s, i + 1, j);
      NotLessTransitive(s[i], s[i + 1], s[j]);
    }
  }

  lemma {:induction false} DistinctCount(s: seq<string>)
    ensures |set x | x in s| <= |s|
  {
    if s != [] {
      DistinctCount(s[1..]);
      assert (set x | x in s) == (set x | x in s[1..]) + {s[0]};
    }
  }

  /** When the game list grew by `loaded`, so did the set of registered names. */
  lemma RegisteredNames(configs0: map<string, GameConfig>, names0: seq<string>,
                        gamePaths0: map<string, Path>, defaultEngines0: map<string, Path>,
                        configs: map<string, GameConfig>, names: seq<string>,
                        gamePaths: map<string, Path>, defaultEngines: map<string, Path>, loaded: seq<string>)
    requires Registry(configs0, names0, gamePaths0, defaultEngines0)
    requires Registry(configs, names, gamePaths, defaultEngines)
    requires multiset(names) == multiset(names0 + loaded)
    ensures forall k :: k in configs <==> k in configs0 || k in loaded
  {
    forall k
      ensures k in configs <==> k in configs0 || k in loaded
    {
      calc {
        k in configs;
        k in names;
        k in multiset(names);
        k in multiset(names0 + loaded);
        k in names0 + loaded;
        k in configs0 || k in loaded;
      }
    }
  }

  lemma AppendAssociative(a: seq<string>, b: seq<string>, c: seq<string>)
    ensures a + b + c == a + (b + c)
  {
  }

  lemma SameMembers(a: seq<string>, b: seq<string>)
    requires multiset(a) == multiset(b)
    ensures forall i :: 0 <= i < |a| ==> a[i] in b
    ensures forall x :: x in b ==> x in a
  {
    forall i | 0 <= i < |a|
      ensures a[i] in b
    {
      assert a[i] in multiset(a);
    }
    forall x | x in b
      ensures x in a
    {
      assert x in multiset(b);
    }
  }

  /**
   * Each configuration is registered under its own name, with its two preference
   * paths, and the game list names exactly the registered games.
   */
  ghost predicate Registry(configs: map<string, GameConfig>, names: seq<string>,
                           gamePaths: map<string, Path>, defaultEngines: map<string, Path>)
  {
    && (forall k :: k in configs ==> configs[k].name == k)
    && gamePaths.Keys == configs.Keys && defaultEngines.Keys == configs.Keys
    && (forall k :: k in gamePaths ==> gamePaths[k] == GamePathPreference(k))
    && (forall k :: k in defaultEngines ==> defaultEngines[k] == DefaultEnginePreference(k))
    && (forall i :: 0 <= i < |names| ==> names[i] in configs)
    && (forall k :: k in configs ==> k in names)
  }

  lemma RegisterKeepsRegistry(configs: map<string, GameConfig>, names: seq<string>,
                              gamePaths: map<string, Path>, defaultEngines: map<string, Path>, c: GameConfig)
    requires Registry(configs, names, gamePaths, defaultEngines)
    ensures Registry(configs[c.name := c], names + [c.name],
                     gamePaths[c.name := GamePathPreference(c.name)],
                     defaultEngines[c.name := DefaultEnginePreference(c.name)])
  {
    var names' := names + [c.name];
    forall k | k in configs[c.name := c]
      ensures k in names'
    {
      if k != c.name {
        assert k in names;
        var i :| 0 <= i < |names| && names[i] == k;
        assert names'[i] == k;
      }
    }
  }

  class GameFactory {
    var configs: map<string, GameConfig>
    var names: seq<string>
    var gamePaths: map<string, Path>
    var defaultEngines: map<string, Path>
    var fs: FileSystem
    var prefs: Preferences
    const parseGameConfig: GameConfigParser
    const parseCompilationConfig: CompilationConfigParser
    const parseGameEngineConfig: GameEngineConfigParser
    const writeCompilationConfig: CompilationConfig -> string
    const writeGameEngineConfig: GameEngineConfig -> string

    ghost predicate Valid()
      reads this
    {
      Registry(configs, names, gamePaths, defaultEngines)
    }

    constructor (fs: FileSystem, prefs: Preferences,
                 parseGameConfig: GameConfigParser,
                 parseCompilationConfig: CompilationConfigParser,
                 parseGameEngineConfig: GameEngineConfigParser,
                 writeCompilationConfig: CompilationConfig -> string,
                 writeGameEngineConfig: GameEngineConfig -> string)
      ensures Valid()
      ensures configs == map[] && names == [] && this.fs == fs && this.prefs == prefs
      ensures this.parseGameConfig == parseGameConfig
      ensures this.parseCompilationConfig == parseCompilationConfig
      ensures this.parseGameEngineConfig == parseGameEngineConfig
      ensures this.writeCompilationConfig == writeCompilationConfig
      ensures this.writeGameEngineConfig == writeGameEngineConfig
    {
      configs := map[];
      names := [];
      gamePaths := map[];
      defaultEngines := map[];
      this.fs := fs;
      this.prefs := prefs;
      this.parseGameConfig := parseGameConfig;
      this.parseCompilationConfig := parseCompilationConfig;
      this.parseGameEngineConfig := parseGameEngineConfig;
      this.writeCompilationConfig := writeCompilationConfig;
      this.writeGameEngineConfig := writeGameEngineConfig;
    }

    /** The number of registered games: the number of distinct names in the game list. */
    function GameCount(): (n: nat)
      reads this
      requires Valid()
      ensures n == |set x | x in names|
    {
      assert configs.Keys == set x | x in names;
      |configs|
    }

    /** `gameConfig`: the stored configuration, or an error for a name never registered. */
    function GameConfigOf(name: string): (r: Result<GameConfig>)
      reads this
      ensures r.Ok? <==> name in configs
      ensures r.Ok? ==> r.value == configs[name]
      ensures r.Err? ==> r.message == UnknownGame(name)
    {
      if name in configs then Ok(configs[name]) else Err(UnknownGame(name))
    }

    /** The value of a preference, or the empty path when it was never set. */
    function PreferenceValue(p: Path): Path
      reads this
    {
      if p in prefs then prefs[p] else ""
    }

    /** `gamePath`: the value of the game's path preference; an error for an unknown game. */
    function GamePath(name: string): (r: Result<Path>)
      reads this
      ensures r.Ok? <==> name in gamePaths
      ensures r.Ok? ==> r.value == PreferenceValue(gamePaths[name])
      ensures r.Err? ==> r.message == UnknownGame(name)
    {
      if name in gamePaths then Ok(PreferenceValue(gamePaths[name])) else Err(UnknownGame(name))
    }

    /** `isGamePathPreference`: whether `p` is the game's path preference; an error for an unknown game. */
    function IsGamePathPreference(name: string, p: Path): (r: Result<bool>)
      reads this
      ensures r.Ok? <==> name in gamePaths
      ensures r.Ok? ==> (r.value <==> gamePaths[name] == p)
      ensures r.Err? ==> r.message == UnknownGame(name)
    {
      if name in gamePaths then Ok(gamePaths[name] == p) else Err(UnknownGame(name))
    }

    /** `setGamePath`: stores the path in the game's path preference; an error for an unknown game. */
    method SetGamePath(name: string, path: Path) returns (error: Option<string>)
      modifies this`prefs
      ensures error.None? <==> name in gamePaths
      ensures error.Some? ==> error.value == UnknownGame(name) && prefs == old(prefs)
      ensures error.None? ==> prefs == old(prefs)[gamePaths[name] := path]
    {
      if name !in gamePaths {
        return Some(UnknownGame(name));
      }
      prefs := prefs[gamePaths[name] := path];
      error := None;
    }

    /** The game name `detectGame` reports for the name in a map file's comment. */
    function DetectedGameName(commentName: string): (r: string)
      reads this
      ensures r == "" || r in configs
      ensures commentName in configs ==> r == commentName
      ensures commentName !in configs ==> r == ""
    {
      if commentName in configs then commentName else ""
    }

    /**
     * What `doLoadGameConfig` does with a configuration whose name is new: the three
     * `emplace` calls register it, and its name is appended to the game list.
     */
    method Register(c: GameConfig)
      requires Valid() && c.name !in configs
      modifies this`configs, this`names, this`gamePaths, this`defaultEngines
      ensures Valid()
      ensures configs == old(configs)[c.name := c]
      ensures names == old(names) + [c.name]
    {
      configs := configs[c.name := c];
      gamePaths := gamePaths[c.name := GamePathPreference(c.name)];
      defaultEngines := defaultEngines[c.name := DefaultEnginePreference(c.name)];
      names := names + [c.name];
      RegisterKeepsRegistry(old(configs), old(names), old(gamePaths), old(defaultEngines), c);
    }

    /**
     * What `doLoadGameConfig` does with a configuration whose name is taken: the three
     * `emplace` calls keep the earlier entries, yet the name is appended to the game list.
     */
    method RegisterAgain(name: string)
      requires Valid() && name in configs
      modifies this`names
      ensures Valid()
      ensures names == old(names) + [name]
    {
      names := names + [name];
    }

    /** Sorts the game list with `string_less`. */
    method SortGameList()
      requires Valid()
      modifies this`names
      ensures Valid()
      ensures Sorted(names) && multiset(names) == multiset(old(names))
    {
      ghost var unsorted := names;
      names := SortNames(names);
      SameMembers(names, unsorted);
    }

    /**
     * `doLoadGameConfig`: parses the file, loads the two profile files of the game, and
     * registers the configuration with its two preference paths unless its name is taken;
     * the name is appended to the game list either way.
     */
    method DoLoadGameConfig(path: Path) returns (error: Option<string>)
      requires Valid()
      requires path in fs
      modifies this`configs, this`names, this`gamePaths, this`defaultEngines
      ensures Valid()
      ensures error.Some? <==> parseGameConfig(fs[path], path).Err?
      ensures error.Some? ==> error.value == parseGameConfig(fs[path], path).message
      ensures names == old(names) + NameOf(parseGameConfig(fs[path], path))
      ensures forall k :: k in old(configs) ==> k in configs && configs[k] == old(configs)[k]
      ensures configs == match parseGameConfig(fs[path], path)
        case Err(_) => old(configs)
        case Ok(c) =>
          if c.name in old(configs) then old(configs)
          else old(configs)[c.name := Completed(c, fs, parseCompilationConfig, parseGameEngineConfig)]
    {
      var parsed := parseGameConfig(fs[path], path);
      if parsed.Err? {
        return Some(parsed.message);
      }
      var config := LoadCompilationConfig(parsed.value, fs, parseCompilationConfig);
      config := LoadGameEngineConfig(config, fs, parseGameEngineConfig);
      // The three maps have the same keys, so the three insertions succeed or fail together.
      if config.name !in configs {
        Register(config);
      } else {
        RegisterAgain(config.name);
      }
      error := None;
    }

    /** One iteration of `loadGameConfigs`: the file at `i` is loaded or its error recorded. */
    method LoadNext(files: seq<Path>, i: nat, errorsBefore: seq<string>, ghost namesBefore: seq<string>,
                    ghost configsBefore: map<string, GameConfig>)
      returns (errors: seq<string>)
      requires Valid() && Listed(files, fs) && i < |files|
      requires errorsBefore == LoadErrors(files[..i], fs, parseGameConfig)
      requires names == namesBefore + LoadedNames(files[..i], fs, parseGameConfig)
      requires forall k :: k in configsBefore ==> k in configs && configs[k] == configsBefore[k]
      requires configs == ConfigsAfter(files[..i], configsBefore, fs, parseGameConfig, parseCompilationConfig, parseGameEngineConfig)
      modifies this`configs, this`names, this`gamePaths, this`defaultEngines
      ensures Valid()
      ensures errors == LoadErrors(files[..i + 1], fs, parseGameConfig)
      ensures names == namesBefore + LoadedNames(files[..i + 1], fs, parseGameConfig)
      ensures forall k :: k in configsBefore ==> k in configs && configs[k] == configsBefore[k]
      ensures configs == ConfigsAfter(files[..i + 1], configsBefore, fs, parseGameConfig, parseCompilationConfig, parseGameEngineConfig)
    {
      LoadPrefixStep(files, i, fs, parseGameConfig);
      ConfigsAfterStep(files, i, configsBefore, fs, parseGameConfig, parseCompilationConfig, parseGameEngineConfig);
      var error := DoLoadGameConfig(files[i]);
      errors := errorsBefore + if error.Some? then [LoadError(files[i], error.value)] else [];
      ghost var loaded := LoadedNames(files[..i], fs, parseGameConfig);
      ghost var added := NameOf(parseGameConfig(fs[files[i]], files[i]));
      AppendAssociative(namesBefore, loaded, added);
    }

    /**
     * `loadGameConfigs`: loads every listed file, one error per file that fails, then
     * sorts the game list; the caller sees the errors raised iff there are any.
     */
    method LoadGameConfigs(configFiles: seq<Path>) returns (errors: seq<string>)
      requires Valid()
      requires Listed(configFiles, fs)
      modifies this`configs, this`names, this`gamePaths, this`defaultEngines
      ensures Valid()
      ensures errors == LoadErrors(configFiles, fs, parseGameConfig)
      ensures Sorted(names)
      ensures multiset(names) == multiset(old(names) + LoadedNames(configFiles, fs, parseGameConfig))
      ensures forall k :: k in configs <==> k in old(configs) || k in LoadedNames(configFiles, fs, parseGameConfig)
      ensures forall k :: k in old(configs) ==> configs[k] == old(configs)[k]
      ensures configs == ConfigsAfter(configFiles, old(configs), fs, parseGameConfig, parseCompilationConfig, parseGameEngineConfig)
    {
      ghost var configsBefore := configs;
      ghost var namesBefore := names;
      errors := [];
      for i := 0 to |configFiles|
        invariant Valid()
        invariant errors == LoadErrors(configFiles[..i], fs, parseGameConfig)
        invariant names == namesBefore + LoadedNames(configFiles[..i], fs, parseGameConfig)
        invariant forall k :: k in configsBefore ==> k in configs && configs[k] == configsBefore[k]
        invariant configs == ConfigsAfter(configFiles[..i], configsBefore, fs, parseGameConfig, parseCompilationConfig, parseGameEngineConfig)
      {
        errors := LoadNext(configFiles, i, errors, namesBefore, configsBefore);
      }
      assert configFiles[..|configFiles|] == configFiles;
      SortGameList();
      RegisteredNames(old(configs), old(names), old(gamePaths), old(defaultEngines), configs, names, gamePaths, defaultEngines,
                      LoadedNames(configFiles, fs, parseGameConfig));
    }

    /** `saveCompilationConfig`: writes the profiles of a registered game by the rule of `CompilationWrite`. */
    method SaveCompilationConfig(name: string, cc: CompilationConfig) returns (error: Option<string>)
      requires Valid()
      modifies this`configs, this`fs
      ensures Valid()
      ensures error.None? <==> name in old(configs)
      ensures error.Some? ==> error.value == UnknownGame(name) && configs == old(configs) && fs == old(fs)
      ensures error.None? ==>
        var w := CompilationWrite(old(configs)[name], cc, writeCompilationConfig(cc), old(fs));
        configs == old(configs)[name := w.config] && fs == w.fs
    {
      if name !in configs {
        return Some(UnknownGame(name));
      }
      var w := CompilationWrite(configs[name], cc, writeCompilationConfig(cc), fs);
      configs := configs[name := w.config];
      fs := w.fs;
      error := None;
    }

    /** `saveGameEngineConfig`: the same for the game engine profiles. */
    method SaveGameEngineConfig(name: string, ec: GameEngineConfig) returns (error: Option<string>)
      requires Valid()
      modifies this`configs, this`fs
      ensures Valid()
      ensures error.None? <==> name in old(configs)
      ensures error.Some? ==> error.value == UnknownGame(name) && configs == old(configs) && fs == old(fs)
      ensures error.None? ==>
        var w := GameEngineWrite(old(configs)[name], ec, writeGameEngineConfig(ec), old(fs));
        configs == old(configs)[name := w.config] && fs == w.fs
    {
      if name !in configs {
        return Some(UnknownGame(name));
      }
      var w := GameEngineWrite(configs[name], ec, writeGameEngineConfig(ec), fs);
      configs := configs[name := w.config];
      fs := w.fs;
      error := None;
    }
  }

  /**
   * The game count never exceeds the length of the game list; it is smaller exactly when
   * several files declared the same game name.
   */
  lemma GameCountAtMostListed(f: GameFactory)
    requires f.Valid()
    ensures f.GameCount() <= |f.names|
  {
    DistinctCount(f.names);
  }
}
