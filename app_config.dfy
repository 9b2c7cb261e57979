/**
 * Configuration layering shared by ShadowVendorConfig and NetVendorConfig:
 * the two classes differ only in the application name, which names the
 * config files, the INI section and the YAML/TOML sub-table, and in the
 * prefix of the environment variables.
 *
 * Defaults come first, then the first config file found, then the
 * environment. The file system is the record Files: whether a path
 * exists, the INI section ConfigParser reads from a path, and the value
 * yaml.safe_load / tomllib.load / json.load return for a path (None when
 * the library is missing or the text does not parse, both of which the
 * YAML, TOML and JSON loaders swallow). The INI loader catches nothing:
 * ConfigParser raises on a malformed file (a missing section header, a
 * duplicate section or option) and on a value whose '%' interpolation
 * fails, and those errors leave the constructor. The model takes the
 * section ConfigParser would return and does not represent them.
 */
module AppConfig {
  import opened Common
  import opened Text
  import opened Dicts
  import ShadowVendorApi

  /** A configuration value: what INI coercion, the environment and the parsed documents produce. */
  datatype Value = Bool(b: bool) | Str(s: string) | Null | Int(i: int) | Table(entries: Dict<Value>) | OtherValue

  /** AttributeError from calling .items() on something that is not a dict; nothing catches it. */
  datatype Raised = AttributeError

  /** The application: "shadowvendor" with SHADOWVENDOR_*, or "netvendor" with NETVENDOR_*. */
  datatype App = App(name: string, envPrefix: string)

  const ShadowVendor := App("shadowvendor", "SHADOWVENDOR_")
  const NetVendor := App("netvendor", "NETVENDOR_")

  datatype Files = Files(home: string, present: string -> bool,
                         iniSection: (string, string) -> Option<Dict<string>>,
                         document: string -> Option<Value>)

  /** The defaults every configuration starts from. */
  const Defaults: Dict<Value> := [("offline", Bool(false)), ("history_dir", Str("history")),
                                  ("analyze_drift", Bool(false)), ("site", Null), ("environment", Null),
                                  ("change_ticket", Null), ("siem_export", Bool(false)),
                                  ("output_dir", Str("output"))]

  // ---------------------------------------------------------------------
  // _update_config
  // ---------------------------------------------------------------------

  /** The configuration after _update_config(updates): known keys take the new value, unknown keys are ignored. */
  function Updated(c: Dict<Value>, u: Dict<Value>): (r: Dict<Value>)
    ensures Keys(r) == Keys(c)
  {
    if u == [] then c
    else
      var p := Updated(c, u[..|u| - 1]);
      var e := u[|u| - 1];
      if e.0 in Keys(p) then Put(p, e.0, e.1) else p
  }

  /**
   * After _update_config, a key of the configuration that the updates
   * carry has the update's value; every other key keeps its value.
   */
  lemma {:induction false} UpdatedGet(c: Dict<Value>, u: Dict<Value>, k: string)
    requires DistinctKeys(u)
    ensures Get(Updated(c, u), k) == if k in Keys(c) && Get(u, k).Some? then Get(u, k) else Get(c, k)
  {
    if u != [] {
      var p := u[..|u| - 1];
      var e := u[|u| - 1];
      LastKeyFresh(u);
      UpdatedGet(c, p, k);
      FrontLast(u);
      GetSnoc(p, e, k);
      if e.0 in Keys(Updated(c, p)) {
        PutGet(Updated(c, p), e.0, e.1, k);
      }
    }
  }

  // ---------------------------------------------------------------------
  // _load_ini
  // ---------------------------------------------------------------------

  const TrueWords: set<string> := {"true", "yes", "1", "on"}
  const FalseWords: set<string> := {"false", "no", "0", "off"}

  /** The conversion of one INI value: booleans and None by keyword, ignoring case; other text kept. */
  function Coerce(value: string): Value
  {
    var low := Lower(value);
    if low in TrueWords then Bool(true)
    else if low in FalseWords then Bool(false)
    else if low == "none" || value == "" then Null
    else Str(value)
  }

  /** The section's entries with their values converted, in section order. */
  function CoercedPairs(section: Dict<string>): (ps: Dict<Value>)
    ensures |ps| == |section|
  {
    seq(|section|, i requires 0 <= i < |section| => (section[i].0, Coerce(section[i].1)))
  }

  /** The dict _load_ini passes to _update_config; nothing when the file has no such section. */
  function IniUpdates(section: Option<Dict<string>>): Dict<Value>
  {
    if section.None? then [] else FromPairs(CoercedPairs(section.value))
  }

  /** A value is kept as text exactly when it is not empty and, lower-cased, names no boolean and not None. */
  lemma CoerceKeepsText(value: string)
    ensures Coerce(value) == Str(value) <==>
            value != [] && Lower(value) !in TrueWords && Lower(value) !in FalseWords && Lower(value) != "none"
  {
  }

  /** The keywords are recognised whatever their case: values with the same lower case convert alike, unless kept as text. */
  lemma CoerceIgnoresCase(v: string, w: string)
    requires Lower(v) == Lower(w) && (Lower(v) in TrueWords || Lower(v) in FalseWords || Lower(v) == "none")
    ensures Coerce(v) == Coerce(w)
  {
  }

  /** The result is a boolean exactly for the eight keywords, true for the first four. */
  lemma CoerceBool(value: string)
    ensures Coerce(value).Bool? <==> Lower(value) in TrueWords || Lower(value) in FalseWords
    ensures Coerce(value) == Bool(true) <==> Lower(value) in TrueWords
  {
  }

  /** The empty value and "none" in any case become None. */
  lemma CoerceNull(value: string)
    ensures Coerce(value) == Null <==> value == [] || Lower(value) == "none"
  {
    if value == [] {
      assert Lower(value) == [];
    }
  }

  // ---------------------------------------------------------------------
  // _load_from_env
  // ---------------------------------------------------------------------

  /** One row of env_mapping: the variable's name after the prefix, the key, and whether it is a boolean. */
  datatype EnvEntry = EnvEntry(suffix: string, key: string, isBool: bool)

  const EnvMapping: seq<EnvEntry> := [
    EnvEntry("OFFLINE", "offline", true), EnvEntry("HISTORY_DIR", "history_dir", false),
    EnvEntry("ANALYZE_DRIFT", "analyze_drift", true), EnvEntry("SITE", "site", false),
    EnvEntry("ENVIRONMENT", "environment", false), EnvEntry("CHANGE_TICKET", "change_ticket", false),
    EnvEntry("SIEM_EXPORT", "siem_export", true), EnvEntry("OUTPUT_DIR", "output_dir", false)]

  /** What a set variable assigns: a boolean by the true-keywords only; text, or None when empty. */
  function EnvValue(e: EnvEntry, value: string): Value
  {
    if e.isBool then Bool(Lower(value) in TrueWords)
    else if value == [] then Null else Str(value)
  }

  /** The configuration after the rows' variables that are set have been applied, row by row. */
  function EnvApplied(c: Dict<Value>, app: App, es: seq<EnvEntry>, env: string -> Option<string>): Dict<Value>
  {
    if es == [] then c
    else
      var p := EnvApplied(c, app, es[..|es| - 1], env);
      var e := es[|es| - 1];
      match env(app.envPrefix + e.suffix)
      case None => p
      case Some(value) => Put(p, e.key, EnvValue(e, value))
  }

  /** The value the environment sets for key k through the rows, if any. */
  function EnvFor(app: App, es: seq<EnvEntry>, env: string -> Option<string>, k: string): Option<Value>
  {
    if es == [] then None
    else
      var e := es[|es| - 1];
      if e.key == k && env(app.envPrefix + e.suffix).Some? then Some(EnvValue(e, env(app.envPrefix + e.suffix).value))
      else EnvFor(app, es[..|es| - 1], env, k)
  }

  /** A key the environment sets takes the environment's value; any other key keeps its value. */
  lemma {:induction false} EnvAppliedGet(c: Dict<Value>, app: App, es: seq<EnvEntry>, env: string -> Option<string>, k: string)
    ensures Get(EnvApplied(c, app, es, env), k) == if EnvFor(app, es, env, k).Some? then EnvFor(app, es, env, k) else Get(c, k)
  {
    if es != [] {
      var p := es[..|es| - 1];
      var e := es[|es| - 1];
      EnvAppliedGet(c, app, p, env, k);
      if env(app.envPrefix + e.suffix).Some? {
        PutGet(EnvApplied(c, app, p, env), e.key, EnvValue(e, env(app.envPrefix + e.suffix).value), k);
      }
    }
  }

  /** Applying the environment never adds a key the configuration lacks. */
  lemma {:induction false} EnvAppliedKeys(c: Dict<Value>, app: App, es: seq<EnvEntry>, env: string -> Option<string>)
    requires forall i :: 0 <= i < |es| ==> es[i].key in Keys(c)
    ensures Keys(EnvApplied(c, app, es, env)) == Keys(c)
  {
    if es != [] {
      EnvAppliedKeys(c, app, es[..|es| - 1], env);
    }
  }

  /** A boolean variable is true exactly for a true-keyword in any case; any other text, the empty one included, is false. */
  lemma EnvBool(e: EnvEntry, value: string)
    requires e.isBool
    ensures EnvValue(e, value) == Bool(true) <==> Lower(value) in TrueWords
    ensures EnvValue(e, value).Bool?
  {
  }

  /** A text variable that is set but empty gives None; a non-empty one gives its text. */
  lemma EnvText(e: EnvEntry, value: string)
    requires !e.isBool
    ensures EnvValue(e, value) == Null <==> value == []
    ensures value != [] ==> EnvValue(e, value) == Str(value)
  {
  }

  // ---------------------------------------------------------------------
  // _find_config_file and _load_from_file
  // ---------------------------------------------------------------------

  const Extensions: seq<string> := [".conf", ".ini", ".yaml", ".yml", ".toml"]

  /** dir/<name><ext> for each extension, in order. */
  function DirCandidates(dir: string, name: string): (ps: seq<string>)
    ensures |ps| == |Extensions|
  {
    seq(|Extensions|, i requires 0 <= i < |Extensions| => dir + name + Extensions[i])
  }

  /** The fifteen places searched: the working directory, ~/.config/<name>/, /etc/<name>/. */
  function Candidates(app: App, home: string): (ps: seq<string>)
    ensures |ps| == 3 * |Extensions|
  {
    DirCandidates("", app.name) + DirCandidates(home + "/.config/" + app.name + "/", app.name)
    + DirCandidates("/etc/" + app.name + "/", app.name)
  }

  /** The first path that present. */
  function FirstExisting(paths: seq<string>, present: string -> bool): (r: Option<string>)
  {
    if paths == [] then None
    else if present(paths[0]) then Some(paths[0])
    else FirstExisting(paths[1..], present)
  }

  /** The file _find_config_file returns: an explicit path only if it present, else the first candidate that present. */
  function FoundPath(app: App, configFile: Option<string>, files: Files): Option<string>
  {
    if configFile.Some? && configFile.value != [] then
      (if files.present(configFile.value) then configFile else None)
    else FirstExisting(Candidates(app, files.home), files.present)
  }

  /** The first existing path: it present, and no path before it does; None when none present. */
  lemma {:induction false} FirstExistingSpec(paths: seq<string>, present: string -> bool)
    ensures var r := FirstExisting(paths, present);
            (r.Some? ==> exists i :: 0 <= i < |paths| && paths[i] == r.value && present(paths[i])
                                     && forall j :: 0 <= j < i ==> !present(paths[j]))
            && (r.None? <==> forall i :: 0 <= i < |paths| ==> !present(paths[i]))
  {
    if paths != [] && !present(paths[0]) {
      var rest := paths[1..];
      FirstExistingSpec(rest, present);
      var r := FirstExisting(rest, present);
      if r.Some? {
        var i :| 0 <= i < |rest| && rest[i] == r.value && present(rest[i]) && forall j :: 0 <= j < i ==> !present(rest[j]);
        assert paths[i + 1] == rest[i];
        forall j | 0 <= j < i + 1 ensures !present(paths[j]) {
          if j > 0 {
            assert paths[j] == rest[j - 1];
          }
        }
      } else {
        forall i | 0 <= i < |paths| ensures !present(paths[i]) {
          if i > 0 {
            assert paths[i] == rest[i - 1];
          }
        }
      }
    }
  }

  lemma {:induction false} FirstExistingAt(paths: seq<string>, present: string -> bool, j: nat)
    requires j < |paths| && present(paths[j]) && forall i :: 0 <= i < j ==> !present(paths[i])
    ensures FirstExisting(paths, present) == Some(paths[j])
  {
    if j > 0 {
      FirstExistingAt(paths[1..], present, j - 1);
    }
  }

  lemma {:induction false} FirstExistingNone(paths: seq<string>, present: string -> bool)
    requires forall i :: 0 <= i < |paths| ==> !present(paths[i])
    ensures FirstExisting(paths, present) == None
  {
    if paths != [] {
      FirstExistingNone(paths[1..], present);
    }
  }

  lemma {:induction false} FirstExistingConcat(a: seq<string>, b: seq<string>, present: string -> bool)
    ensures FirstExisting(a + b, present) == if FirstExisting(a, present).Some? then FirstExisting(a, present) else FirstExisting(b, present)
  {
    if a != [] {
      assert (a + b)[1..] == a[1..] + b;
      FirstExistingConcat(a[1..], b, present);
    } else {
      assert a + b == b;
    }
  }

  /** An explicit config_file is the only file considered: no search happens, even when it does not exist. */
  lemma ExplicitFileOnly(app: App, path: string, files: Files)
    requires path != []
    ensures FoundPath(app, Some(path), files) == if files.present(path) then Some(path) else None
  {
  }

  /**
   * Without an explicit file, the file found is a candidate that exists
   * and no earlier candidate exists; nothing is found exactly when no
   * candidate present.
   */
  lemma SearchOrder(app: App, configFile: Option<string>, files: Files)
    requires configFile.None? || configFile == Some("")
    ensures var r := FoundPath(app, configFile, files);
            var cs := Candidates(app, files.home);
            (r.Some? ==> exists i :: 0 <= i < |cs| && cs[i] == r.value && files.present(cs[i])
                                     && forall j :: 0 <= j < i ==> !files.present(cs[j]))
            && (r.None? <==> forall i :: 0 <= i < |cs| ==> !files.present(cs[i]))
  {
    FirstExistingSpec(Candidates(app, files.home), files.present);
  }

  /** pathlib's suffix: the last '.'-part of the file name, not counting a leading or trailing dot. */
  function Suffix(path: string): (r: string)
  {
    var name := ShadowVendorApi.FileName(path);
    var i := ShadowVendorApi.RFind(name, '.');
    if 0 < i < |name| - 1 then name[i..] else ""
  }

  /** What a YAML or TOML document contributes: its app sub-table when it has one, else the whole mapping. */
  function MappingUpdates(app: App, doc: Option<Value>): Result<Dict<Value>, Raised>
  {
    if doc.None? || !doc.value.Table? then Ok([])
    else
      var data := doc.value.entries;
      match Get(data, app.name)
      case None => Ok(data)
      case Some(section) => if section.Table? then Ok(section.entries) else Err(AttributeError)
  }

  /** What the JSON fallback contributes: the whole document, which must be an object. */
  function JsonUpdates(doc: Option<Value>): Result<Dict<Value>, Raised>
  {
    if doc.None? then Ok([])
    else if doc.value.Table? then Ok(doc.value.entries)
    else Err(AttributeError)
  }

  /** The updates _load_from_file applies, chosen by the lower-cased suffix. */
  function FileUpdates(app: App, path: string, files: Files): Result<Dict<Value>, Raised>
  {
    var ext := Lower(Suffix(path));
    if ext == ".conf" || ext == ".ini" then Ok(IniUpdates(files.iniSection(path, app.name)))
    else if ext == ".yaml" || ext == ".yml" || ext == ".toml" then MappingUpdates(app, files.document(path))
    else JsonUpdates(files.document(path))
  }

  /** The configuration _load_config leaves: defaults, then the file found, then the environment. */
  function Loaded(app: App, configFile: Option<string>, files: Files, env: string -> Option<string>): Result<Dict<Value>, Raised>
  {
    var found := FoundPath(app, configFile, files);
    var fromFile := if found.None? then Ok([]) else FileUpdates(app, found.value, files);
    if fromFile.Err? then Err(fromFile.error)
    else Ok(EnvApplied(Updated(Defaults, fromFile.value), app, EnvMapping, env))
  }

  // ---------------------------------------------------------------------
  // Properties of the layering
  // ---------------------------------------------------------------------

  /** Every row of env_mapping names a key of the defaults: the rows follow the defaults' order. */
  lemma EnvMappingKeys()
    ensures forall i :: 0 <= i < |EnvMapping| ==> EnvMapping[i].key in Keys(Defaults)
  {
    forall i | 0 <= i < |EnvMapping| ensures EnvMapping[i].key in Keys(Defaults) {
      assert EnvMapping[i].key == Defaults[i].0;
      assert Keys(Defaults)[i] == Defaults[i].0;
    }
  }

  /** A loaded configuration has exactly the default keys, in their order: unknown keys never get in. */
  lemma LoadedKeys(app: App, configFile: Option<string>, files: Files, env: string -> Option<string>)
    requires Loaded(app, configFile, files, env).Ok?
    ensures Keys(Loaded(app, configFile, files, env).value) == Keys(Defaults)
  {
    var found := FoundPath(app, configFile, files);
    var u := (if found.None? then Ok([]) else FileUpdates(app, found.value, files)).value;
    EnvMappingKeys();
    EnvAppliedKeys(Updated(Defaults, u), app, EnvMapping, env);
  }

  /**
   * The layering: for each key, the environment's value when its
   * variable is set, else the file's value when the file sets the key,
   * else the default.
   */
  lemma Layering(app: App, configFile: Option<string>, files: Files, env: string -> Option<string>,
                 u: Dict<Value>, k: string)
    requires Loaded(app, configFile, files, env) == Ok(EnvApplied(Updated(Defaults, u), app, EnvMapping, env))
    requires DistinctKeys(u)
    ensures Get(Loaded(app, configFile, files, env).value, k) ==
            if EnvFor(app, EnvMapping, env, k).Some? then EnvFor(app, EnvMapping, env, k)
            else if k in Keys(Defaults) && Get(u, k).Some? then Get(u, k)
            else Get(Defaults, k)
  {
    EnvAppliedGet(Updated(Defaults, u), app, EnvMapping, env, k);
    UpdatedGet(Defaults, u, k);
  }

  /** The file layer is well formed when it comes from an INI section: its keys are distinct. */
  lemma IniUpdatesDistinct(section: Option<Dict<string>>)
    ensures DistinctKeys(IniUpdates(section))
  {
    if section.Some? {
      FromPairsDistinct(CoercedPairs(section.value));
    }
  }

  /** With no file found and no variable set, the configuration is the defaults. */
  lemma NothingSetGivesDefaults(app: App, configFile: Option<string>, files: Files, env: string -> Option<string>)
    requires FoundPath(app, configFile, files).None?
    requires forall i :: 0 <= i < |EnvMapping| ==> env(app.envPrefix + EnvMapping[i].suffix).None?
    ensures Loaded(app, configFile, files, env) == Ok(Defaults)
  {
    EnvUnset(Defaults, app, EnvMapping, env);
  }

  lemma {:induction false} EnvUnset(c: Dict<Value>, app: App, es: seq<EnvEntry>, env: string -> Option<string>)
    requires forall i :: 0 <= i < |es| ==> env(app.envPrefix + es[i].suffix).None?
    ensures EnvApplied(c, app, es, env) == c
  {
    if es != [] {
      EnvUnset(c, app, es[..|es| - 1], env);
    }
  }

  /** A YAML/TOML app sub-table that is not a mapping makes the load raise; a mapping without one is applied whole. */
  lemma MappingSection(app: App, data: Dict<Value>)
    ensures Get(data, app.name).Some? && !Get(data, app.name).value.Table? ==> MappingUpdates(app, Some(Table(data))).Err?
    ensures Get(data, app.name).None? ==> MappingUpdates(app, Some(Table(data))) == Ok(data)
  {
  }

  lemma CoercedStep(s: Dict<string>, i: nat)
    requires i < |s|
    ensures FromPairs(CoercedPairs(s)[..i + 1]) == Put(FromPairs(CoercedPairs(s)[..i]), s[i].0, Coerce(s[i].1))
  {
    FromPairsStep(CoercedPairs(s), i);
  }

  lemma PrefixWhole<T>(xs: seq<T>)
    ensures xs[..|xs|] == xs
  {
  }

  lemma FromPairsStep<V>(ps: seq<(string, V)>, i: nat)
    requires i < |ps|
    ensures FromPairs(ps[..i + 1]) == Put(FromPairs(ps[..i]), ps[i].0, ps[i].1)
  {
    PrefixOfPrefix(ps, i);
  }

  // ---------------------------------------------------------------------
  // The configuration object
  // ---------------------------------------------------------------------

  class Config {
    const app: App
    const configFile: Option<string>
    var config: Dict<Value>

    /** __init__ up to _load_config: the file argument stored and an empty configuration. */
    constructor Init(app: App, configFile: Option<string>)
      ensures this.app == app && this.configFile == configFile && config == []
    {
      this.app := app;
      this.configFile := configFile;
      config := [];
    }

    /** _load_config: defaults, then the file found, then the environment; an error from the file escapes. */
    method LoadConfig(files: Files, env: string -> Option<string>) returns (r: Result<(), Raised>)
      modifies this
      ensures r.Ok? <==> Loaded(app, configFile, files, env).Ok?
      ensures r.Ok? ==> config == Loaded(app, configFile, files, env).value
    {
      config := Defaults;
      var path := FindConfigFile(files);
      if path.Some? {
        r := LoadFromFile(path.value, files);
        if r.Err? {
          return;
        }
      } else {
        r := Ok(());
      }
      LoadFromEnv(env);
    }

    /** _find_config_file. */
    method FindConfigFile(files: Files) returns (path: Option<string>)
      ensures path == FoundPath(app, configFile, files)
    {
      if configFile.Some? && configFile.value != [] {
        if files.present(configFile.value) {
          return configFile;
        }
        return None;
      }
      var dirs := ["", files.home + "/.config/" + app.name + "/", "/etc/" + app.name + "/"];
      FirstExistingConcat(DirCandidates(dirs[0], app.name) + DirCandidates(dirs[1], app.name),
                          DirCandidates(dirs[2], app.name), files.present);
      FirstExistingConcat(DirCandidates(dirs[0], app.name), DirCandidates(dirs[1], app.name), files.present);
      path := SearchDir(dirs[0], files.present);
      if path.Some? {
        return;
      }
      path := SearchDir(dirs[1], files.present);
      if path.Some? {
        return;
      }
      path := SearchDir(dirs[2], files.present);
    }

    /** One directory's loop over the extensions. */
    method SearchDir(dir: string, present: string -> bool) returns (path: Option<string>)
      ensures path == FirstExisting(DirCandidates(dir, app.name), present)
    {
      var cands := DirCandidates(dir, app.name);
      for j := 0 to |Extensions|
        invariant forall i :: 0 <= i < j ==> !present(cands[i])
      {
        var p := dir + app.name + Extensions[j];
        if present(p) {
          FirstExistingAt(cands, present, j);
          return Some(p);
        }
      }
      FirstExistingNone(cands, present);
      return None;
    }

    /** _load_from_file: dispatch on the lower-cased suffix. */
    method LoadFromFile(path: string, files: Files) returns (r: Result<(), Raised>)
      modifies this
      ensures r.Ok? <==> FileUpdates(app, path, files).Ok?
      ensures r.Ok? ==> config == Updated(old(config), FileUpdates(app, path, files).value)
      ensures r.Err? ==> config == old(config)
    {
      var ext := Lower(Suffix(path));
      if ext == ".conf" || ext == ".ini" {
        LoadIni(files.iniSection(path, app.name));
        r := Ok(());
      } else {
        var updates := if ext == ".yaml" || ext == ".yml" || ext == ".toml"
                       then MappingUpdates(app, files.document(path)) else JsonUpdates(files.document(path));
        if updates.Err? {
          return Err(updates.error);
        }
        UpdateConfig(updates.value);
        r := Ok(());
      }
    }

    /** _load_ini: the section's values converted, then applied. */
    method LoadIni(section: Option<Dict<string>>)
      modifies this
      ensures config == Updated(old(config), IniUpdates(section))
    {
      if section.Some? {
        var converted := CoerceSection(section.value);
        UpdateConfig(converted);
      }
    }

    /** The loop of _load_ini that converts each value of the section. */
    static method CoerceSection(s: Dict<string>) returns (converted: Dict<Value>)
      ensures converted == FromPairs(CoercedPairs(s))
    {
      converted := [];
      var i := 0;
      while i < |s|
        invariant i <= |s| && converted == FromPairs(CoercedPairs(s)[..i])
      {
        var key, value := s[i].0, s[i].1;
        CoercedStep(s, i);
        converted := Put(converted, key, Coerce(value));
        i := i + 1;
      }
      PrefixWhole(CoercedPairs(s));
    }

    /** _load_from_env: each row's variable, when set, assigns its key. */
    method LoadFromEnv(env: string -> Option<string>)
      modifies this
      ensures config == EnvApplied(old(config), app, EnvMapping, env)
    {
      var i := 0;
      while i < |EnvMapping|
        invariant i <= |EnvMapping| && config == EnvApplied(old(config), app, EnvMapping[..i], env)
      {
        PrefixOfPrefix(EnvMapping, i);
        var e := EnvMapping[i];
        var value := env(app.envPrefix + e.suffix);
        if value.Some? {
          config := Put(config, e.key, EnvValue(e, value.value));
        }
        i := i + 1;
      }
      assert EnvMapping[..i] == EnvMapping;
    }

    /** _update_config: only keys already present are assigned. */
    method UpdateConfig(updates: Dict<Value>)
      modifies this
      ensures config == Updated(old(config), updates)
    {
      var i := 0;
      while i < |updates|
        invariant i <= |updates| && config == Updated(old(config), updates[..i])
      {
        PrefixOfPrefix(updates, i);
        var key, value := updates[i].0, updates[i].1;
        if key in Keys(config) {
          config := Put(config, key, value);
        }
        i := i + 1;
      }
      assert updates[..i] == updates;
    }

    /** get(key, default). */
    function GetValue(key: string, default: Value): (v: Value)
      reads this
      ensures Get(config, key).Some? ==> v == Get(config, key).value
      ensures Get(config, key).None? ==> v == default
    {
      if Get(config, key).Some? then Get(config, key).value else default
    }

    /** to_dict(): a copy of the configuration, the same entries in the same order. */
    function ToDict(): (d: Dict<Value>)
      reads this
      ensures Keys(d) == Keys(config) && forall k :: Get(d, k) == Get(config, k)
    {
      config
    }
  }

  /** load_config: a new configuration object, loaded; or the error that escaped the loading. */
  method LoadConfigObject(app: App, configFile: Option<string>, files: Files, env: string -> Option<string>)
    returns (r: Result<Config, Raised>)
    ensures r.Ok? <==> Loaded(app, configFile, files, env).Ok?
    ensures r.Ok? ==> fresh(r.value) && r.value.config == Loaded(app, configFile, files, env).value
  {
    var c := new Config.Init(app, configFile);
    var loaded := c.LoadConfig(files, env);
    if loaded.Err? {
      return Err(loaded.error);
    }
    return Ok(c);
  }
}
