/**
  The Termux runtime helpers (`patches/termux_runtime.py`): where home and
  prefix are, which shell and interpreters to use, the temporary directory,
  and the environment patch applied at start-up.

  The process environment is a `map<string, string>`. The file system and the
  interpreter are a `Host` value: the set of paths that exist, the running
  interpreter's executable, and the home directory the password database
  gives (if any).
 */
module Runtime {
  import opened Wrappers

  type Environ = map<string, string>

  datatype Host = Host(existing: set<string>, executable: string, passwdHome: Option<string>)

  const TermuxRoot: string := "/data/data/com.termux"
  const TermuxPrefix: string := "/data/data/com.termux/files/usr"
  const TermuxHome: string := "/data/data/com.termux/files/home"

  // ---------------------------------------------------------------------------
  // Strings and paths
  // ---------------------------------------------------------------------------

  /** `env.get(key, default)`. */
  function Get(env: Environ, key: string, default: string): string {
    if key in env then env[key] else default
  }

  predicate EndsWith(s: string, suffix: string) {
    |suffix| <= |s| && s[|s| - |suffix|..] == suffix
  }

  /** Python's `p in s` for strings: `p` occurs somewhere in `s`. */
  predicate Contains(s: string, p: string)
    decreases |s|
  {
    p <= s || (s != [] && Contains(s[1..], p))
  }

  /** `os.path.join(a, b)` on POSIX: an absolute `b` replaces `a`; otherwise a
      separator is inserted unless `a` is empty or already ends in one. */
  function Join(a: string, b: string): string {
    if b != [] && b[0] == '/' then b
    else if a == [] || a[|a| - 1] == '/' then a + b
    else a + "/" + b
  }

  /** Joining a relative component keeps `a` as a prefix and puts `b` after
      exactly one separator. */
  lemma JoinRelative(a: string, b: string)
    requires b != [] && b[0] != '/'
    ensures a <= Join(a, b) && EndsWith(Join(a, b), b)
    ensures a != [] ==> EndsWith(Join(a, b), "/" + b)
    ensures a != [] && a[|a| - 1] != '/' ==> Join(a, b) == a + "/" + b
  {
    var r := Join(a, b);
    if a != [] {
      assert r[|r| - |b| - 1] == '/';
      assert r[|r| - |"/" + b|..] == "/" + b;
    }
  }

  /** `s.rstrip('/')`. */
  function RStripSlash(s: string): (r: string)
    ensures r <= s
    ensures r == [] || r[|r| - 1] != '/'
    ensures forall i :: |r| <= i < |s| ==> s[i] == '/'
  {
    if s == [] || s[|s| - 1] != '/' then s else RStripSlash(s[..|s| - 1])
  }

  // ---------------------------------------------------------------------------
  // Platform and locations
  // ---------------------------------------------------------------------------

  /** `is_termux`: the Termux data directory exists. */
  predicate IsTermux(host: Host) {
    TermuxRoot in host.existing
  }

  /** `is_android`. */
  predicate IsAndroid(env: Environ, host: Host)
    ensures IsTermux(host) ==> IsAndroid(env, host)
    ensures !IsTermux(host) ==> (IsAndroid(env, host) <==> "ANDROID_ROOT" in env)
  {
    "ANDROID_ROOT" in env || IsTermux(host)
  }

  /** `get_termux_home`. */
  function GetTermuxHome(env: Environ): (r: string)
    ensures "HOME" in env ==> r == env["HOME"]
    ensures "HOME" !in env ==> r == TermuxHome
  {
    Get(env, "HOME", TermuxHome)
  }

  /** `get_termux_prefix`. */
  function GetTermuxPrefix(env: Environ): (r: string)
    ensures "PREFIX" in env ==> r == env["PREFIX"]
    ensures "PREFIX" !in env ==> r == TermuxPrefix
  {
    Get(env, "PREFIX", TermuxPrefix)
  }

  /** `prefix/bin/<name>`. */
  function TermuxTool(env: Environ, name: string): string {
    Join(Join(GetTermuxPrefix(env), "bin"), name)
  }

  /** The selection shared by `get_shell`, `get_python`, `get_node` and
      `get_ipython`: the Termux binary when on Termux and it exists, else the
      fallback. */
  function SelectTool(env: Environ, host: Host, name: string, fallback: string): (r: string)
    ensures IsTermux(host) && TermuxTool(env, name) in host.existing ==> r == TermuxTool(env, name)
    ensures !(IsTermux(host) && TermuxTool(env, name) in host.existing) ==> r == fallback
  {
    if IsTermux(host) && TermuxTool(env, name) in host.existing then TermuxTool(env, name) else fallback
  }

  /** `get_shell`. */
  function GetShell(env: Environ, host: Host): (r: string)
    ensures IsTermux(host) && TermuxTool(env, "bash") in host.existing ==> r == TermuxTool(env, "bash")
    ensures !(IsTermux(host) && TermuxTool(env, "bash") in host.existing) ==> r == Get(env, "SHELL", "/bin/bash")
  {
    SelectTool(env, host, "bash", Get(env, "SHELL", "/bin/bash"))
  }

  /** `get_python`. */
  function GetPython(env: Environ, host: Host): (r: string)
    ensures IsTermux(host) && TermuxTool(env, "python") in host.existing ==> r == TermuxTool(env, "python")
    ensures !(IsTermux(host) && TermuxTool(env, "python") in host.existing) ==> r == host.executable
  {
    SelectTool(env, host, "python", host.executable)
  }

  /** `get_node`. */
  function GetNode(env: Environ, host: Host): (r: string)
    ensures IsTermux(host) && TermuxTool(env, "node") in host.existing ==> r == TermuxTool(env, "node")
    ensures !(IsTermux(host) && TermuxTool(env, "node") in host.existing) ==> r == "node"
  {
    SelectTool(env, host, "node", "node")
  }

  /** `get_ipython`. */
  function GetIPython(env: Environ, host: Host): (r: string)
    ensures IsTermux(host) && TermuxTool(env, "ipython") in host.existing ==> r == TermuxTool(env, "ipython")
    ensures !(IsTermux(host) && TermuxTool(env, "ipython") in host.existing) ==> r == "ipython"
  {
    SelectTool(env, host, "ipython", "ipython")
  }

  /** `os.path.expanduser('~')`: `HOME` if set, else the password database's
      home, else `~` unchanged; trailing slashes stripped, `/` if nothing is left. */
  function ExpandHome(env: Environ, host: Host): (r: string)
    ensures r != []
    ensures "HOME" in env ==>
              r == (if RStripSlash(env["HOME"]) == [] then "/" else RStripSlash(env["HOME"]))
    ensures "HOME" !in env && host.passwdHome.Some? ==>
              r == (if RStripSlash(host.passwdHome.value) == [] then "/" else RStripSlash(host.passwdHome.value))
    ensures "HOME" !in env && host.passwdHome.None? ==> r == "~"
  {
    var home := if "HOME" in env then Some(env["HOME"]) else host.passwdHome;
    match home
    case None => "~"
    case Some(h) => var t := RStripSlash(h); if t == [] then "/" else t
  }

  /** The home `ensure_tmp_dir` starts from. */
  function TmpBase(env: Environ, host: Host): string {
    if IsTermux(host) then GetTermuxHome(env) else ExpandHome(env, host)
  }

  /** The path `ensure_tmp_dir` returns (creating it is not modelled). */
  function TmpDir(env: Environ, host: Host): string {
    Join(Join(TmpBase(env, host), ".cache"), "agent-zero")
  }

  lemma PrefixTrans(a: string, b: string, c: string)
    requires a <= b && b <= c
    ensures a <= c
  {
    assert a == c[..|a|] by {
      assert b[..|a|] == c[..|a|];
    }
  }

  /** Joining two relative components keeps the base as a prefix and ends in
      a separator followed by the last component. */
  lemma JoinTwice(base: string, a: string, b: string)
    requires a != [] && a[0] != '/'
    requires b != [] && b[0] != '/'
    ensures base <= Join(Join(base, a), b)
    ensures EndsWith(Join(Join(base, a), b), "/" + b)
  {
    var mid := Join(base, a);
    JoinRelative(base, a);
    assert mid != [] by {
      assert |mid| >= |a|;
    }
    JoinRelative(mid, b);
    PrefixTrans(base, mid, Join(mid, b));
  }

  /** A Termux binary lies under the prefix and is named by its last component. */
  lemma TermuxToolUnderPrefix(env: Environ, name: string)
    requires name != [] && name[0] != '/'
    ensures GetTermuxPrefix(env) <= TermuxTool(env, name)
    ensures EndsWith(TermuxTool(env, name), "/" + name)
  {
    JoinTwice(GetTermuxPrefix(env), "bin", name);
  }

  /** The temporary directory is `.cache/agent-zero` under the Termux home on
      Termux and under the user's home elsewhere. */
  lemma TmpDirLocation(env: Environ, host: Host)
    ensures EndsWith(TmpDir(env, host), "/agent-zero")
    ensures IsTermux(host) ==> GetTermuxHome(env) <= TmpDir(env, host)
    ensures !IsTermux(host) ==> ExpandHome(env, host) <= TmpDir(env, host)
  {
    JoinTwice(TmpBase(env, host), ".cache", "agent-zero");
  }

  /** The temporary directory is the `.cache/agent-zero` directory below its
      base; off Termux the base is never empty. */
  lemma TmpDirUnderCache(env: Environ, host: Host)
    ensures TmpBase(env, host) != [] ==> EndsWith(TmpDir(env, host), "/.cache/agent-zero")
    ensures !IsTermux(host) ==> EndsWith(TmpDir(env, host), "/.cache/agent-zero")
  {
    if TmpBase(env, host) != [] {
      CacheDirSuffix(TmpBase(env, host));
    }
  }

  lemma EndsWithAppend(s: string, suffix: string, t: string)
    requires EndsWith(s, suffix)
    ensures EndsWith(s + t, suffix + t)
  {
    assert (s + t)[|s + t| - |suffix + t|..] == s[|s| - |suffix|..] + t;
  }

  /** Below a non-empty base, two relative components are joined with a
      separator before each. */
  lemma JoinTwiceSuffix(base: string, a: string, b: string)
    requires base != []
    requires a != [] && a[0] != '/' && a[|a| - 1] != '/'
    requires b != [] && b[0] != '/'
    ensures EndsWith(Join(Join(base, a), b), "/" + a + "/" + b)
  {
    var mid := Join(base, a);
    JoinRelative(base, a);
    assert mid[|mid| - 1] == a[|a| - 1] by {
      assert mid[|mid| - |a|..][|a| - 1] == a[|a| - 1];
    }
    JoinRelative(mid, b);
    assert Join(mid, b) == mid + ("/" + b);
    EndsWithAppend(mid, "/" + a, "/" + b);
    assert "/" + a + "/" + b == ("/" + a) + ("/" + b);
  }

  /** Below a non-empty base, the temporary directory ends in `/.cache/agent-zero`. */
  lemma CacheDirSuffix(base: string)
    requires base != []
    ensures EndsWith(Join(Join(base, ".cache"), "agent-zero"), "/.cache/agent-zero")
  {
    JoinTwiceSuffix(base, ".cache", "agent-zero");
    assert "/" + ".cache" + "/" + "agent-zero" == "/.cache/agent-zero";
  }

  // ---------------------------------------------------------------------------
  // patch_environment
  // ---------------------------------------------------------------------------

  /** The temporary-directory defaults. */
  function TmpDefaults(tmp: string): Environ {
    map["TMPDIR" := tmp, "TEMP" := tmp, "TMP" := tmp]
  }

  /** The defaults that switch off what Termux cannot run. */
  const FeatureDefaults: Environ :=
    map["CODE_EXEC_SSH_ENABLED" := "false",
        "DISABLE_BROWSER_AGENT" := "true", "DISABLE_WHISPER" := "true",
        "DISABLE_KOKORO" := "true", "DISABLE_TTS" := "true"]

  /** The locale defaults. */
  const LocaleDefaults: Environ := map["LANG" := "en_US.UTF-8", "LC_ALL" := "en_US.UTF-8"]

  /** The keys `patch_environment` fills with `setdefault`. Written out as a
      literal for the same reason as `Defaults` below. */
  const DefaultKeys: set<string> :=
    {"TMPDIR", "TEMP", "TMP", "CODE_EXEC_SSH_ENABLED", "DISABLE_BROWSER_AGENT",
     "DISABLE_WHISPER", "DISABLE_KOKORO", "DISABLE_TTS", "LANG", "LC_ALL"}

  /** The values the `setdefault` keys get when they are absent. The map is
      written out rather than as the union of the three groups above: with
      the union, every lemma that looks a key up in it makes the solver take
      apart three map displays, and several of them run out of resource.
      `DefaultsSplit` proves that the two forms agree. */
  function Defaults(tmp: string): (m: Environ)
    ensures forall k :: k in m <==> k in DefaultKeys
  {
    map["TMPDIR" := tmp, "TEMP" := tmp, "TMP" := tmp,
        "CODE_EXEC_SSH_ENABLED" := "false",
        "DISABLE_BROWSER_AGENT" := "true", "DISABLE_WHISPER" := "true",
        "DISABLE_KOKORO" := "true", "DISABLE_TTS" := "true",
        "LANG" := "en_US.UTF-8", "LC_ALL" := "en_US.UTF-8"]
  }

  /** The keys `patch_environment` overwrites unconditionally. */
  const Forced: Environ := map["TERMUX_MODE" := "true", "DOCKERIZED" := "false"]

  const LdKey: string := "LD_LIBRARY_PATH"

  /** `prefix/lib`. */
  function LibPath(env: Environ): string {
    Join(GetTermuxPrefix(env), "lib")
  }

  /** The value `LD_LIBRARY_PATH` gets when `prefix/lib` is not yet in it. */
  function PrependLib(lib: string, current: string): string {
    if current != "" then lib + ":" + current else lib
  }

  /** The patch for a given temporary directory and library path: the
      defaults go under the existing values, the two flags over them, and the
      library path is prepended only if it is not already a substring of
      `LD_LIBRARY_PATH`. */
  function PatchWith(env: Environ, tmp: string, lib: string): Environ {
    var base := Defaults(tmp) + env + Forced;
    var current := Get(env, LdKey, "");
    if Contains(current, lib) then base else base[LdKey := PrependLib(lib, current)]
  }

  /** The environment after `patch_environment`: unchanged off Termux. */
  function Patched(env: Environ, host: Host): (r: Environ)
    ensures !IsTermux(host) ==> r == env
  {
    if !IsTermux(host) then env else PatchWith(env, TmpDir(env, host), LibPath(env))
  }

  /** The keys `patch_environment` may touch. */
  const ManagedKeys: set<string> := DefaultKeys + Forced.Keys + {LdKey}

  lemma LibPathNonEmpty(env: Environ)
    ensures LibPath(env) != []
  {
    JoinRelative(GetTermuxPrefix(env), "lib");
  }

  /** Both flags are overwritten, whatever they were before. */
  lemma PatchedSetsModeFlags(env: Environ, host: Host)
    requires IsTermux(host)
    ensures "TERMUX_MODE" in Patched(env, host) && Patched(env, host)["TERMUX_MODE"] == "true"
    ensures "DOCKERIZED" in Patched(env, host) && Patched(env, host)["DOCKERIZED"] == "false"
  {
  }

  /** `setdefault`: an existing value is kept, an absent one filled in. */
  lemma PatchedFillsDefaults(env: Environ, host: Host, k: string)
    requires IsTermux(host) && k in DefaultKeys
    ensures k in Patched(env, host)
    ensures k in env ==> Patched(env, host)[k] == env[k]
    ensures k !in env ==> Patched(env, host)[k] == Defaults(TmpDir(env, host))[k]
  {
    PatchWithFillsDefaults(env, TmpDir(env, host), LibPath(env), k);
  }

  lemma PatchWithFillsDefaults(env: Environ, tmp: string, lib: string, k: string)
    requires k in DefaultKeys
    ensures k in PatchWith(env, tmp, lib)
    ensures k in env ==> PatchWith(env, tmp, lib)[k] == env[k]
    ensures k !in env ==> PatchWith(env, tmp, lib)[k] == Defaults(tmp)[k]
  {
    assert k != LdKey && k !in Forced;
  }

  lemma PrependLibContains(lib: string, current: string)
    ensures Contains(PrependLib(lib, current), lib)
  {
  }

  /** The `LD_LIBRARY_PATH` handling for a non-empty library path. */
  lemma PatchWithLdLibraryPath(env: Environ, tmp: string, lib: string)
    requires lib != []
    ensures LdKey in PatchWith(env, tmp, lib)
    ensures Contains(Get(env, LdKey, ""), lib) ==> PatchWith(env, tmp, lib)[LdKey] == env[LdKey]
    ensures !Contains(Get(env, LdKey, ""), lib) ==>
              PatchWith(env, tmp, lib)[LdKey] == PrependLib(lib, Get(env, LdKey, ""))
    ensures Contains(PatchWith(env, tmp, lib)[LdKey], lib)
  {
    var current := Get(env, LdKey, "");
    assert LdKey !in Defaults(tmp) && LdKey !in Forced;
    if Contains(current, lib) {
      assert current != [];
    } else {
      PrependLibContains(lib, current);
    }
  }

  /** The library path handling of `LD_LIBRARY_PATH`: left alone when
      `prefix/lib` already occurs in it, else prepended (or set alone when the
      old value is absent or empty); afterwards it always contains `prefix/lib`. */
  lemma PatchedLdLibraryPath(env: Environ, host: Host)
    requires IsTermux(host)
    ensures LdKey in Patched(env, host)
    ensures Contains(Get(env, LdKey, ""), LibPath(env)) ==> Patched(env, host)[LdKey] == env[LdKey]
    ensures !Contains(Get(env, LdKey, ""), LibPath(env)) && Get(env, LdKey, "") != "" ==>
              Patched(env, host)[LdKey] == LibPath(env) + ":" + env[LdKey]
    ensures !Contains(Get(env, LdKey, ""), LibPath(env)) && Get(env, LdKey, "") == "" ==>
              Patched(env, host)[LdKey] == LibPath(env)
    ensures Contains(Patched(env, host)[LdKey], LibPath(env))
  {
    LibPathNonEmpty(env);
    PatchWithLdLibraryPath(env, TmpDir(env, host), LibPath(env));
  }

  /** Every key outside the managed ones is left as it was. */
  lemma PatchedLeavesOthers(env: Environ, host: Host, k: string)
    requires k !in ManagedKeys
    ensures k in Patched(env, host) <==> k in env
    ensures k in env ==> Patched(env, host)[k] == env[k]
  {
  }

  /** The variables `patch_environment` itself reads are not among those it writes. */
  lemma ReadKeysUnmanaged()
    ensures "HOME" !in ManagedKeys && "PREFIX" !in ManagedKeys
    ensures LdKey !in DefaultKeys && LdKey !in Forced
  {
  }

  /** The locations derived from the environment are the same after the patch. */
  lemma PatchedKeepsLocations(env: Environ, host: Host)
    ensures GetTermuxHome(Patched(env, host)) == GetTermuxHome(env)
    ensures GetTermuxPrefix(Patched(env, host)) == GetTermuxPrefix(env)
    ensures TmpDir(Patched(env, host), host) == TmpDir(env, host)
    ensures LibPath(Patched(env, host)) == LibPath(env)
  {
    PatchedLeavesOthers(env, host, "HOME");
    PatchedLeavesOthers(env, host, "PREFIX");
  }

  lemma UnderAbsorbed(d: Environ, m: Environ)
    requires d.Keys <= m.Keys
    ensures d + m == m
  {
  }

  lemma OverAbsorbed(m: Environ, f: Environ)
    requires forall k :: k in f ==> k in m && m[k] == f[k]
    ensures m + f == m
  {
  }

  /** For a fixed temporary directory and non-empty library path, patching a
      patched environment changes nothing. */
  lemma PatchWithIdempotent(env: Environ, tmp: string, lib: string)
    requires lib != []
    ensures PatchWith(PatchWith(env, tmp, lib), tmp, lib) == PatchWith(env, tmp, lib)
  {
    var once := PatchWith(env, tmp, lib);
    PatchWithLdLibraryPath(env, tmp, lib);
    assert Get(once, LdKey, "") == once[LdKey];
    assert PatchWith(once, tmp, lib) == Defaults(tmp) + once + Forced;
    assert forall k :: k in Defaults(tmp) ==> k in once by {
      forall k | k in Defaults(tmp) ensures k in once {
        assert k != LdKey;
      }
    }
    UnderAbsorbed(Defaults(tmp), once);
    assert forall k :: k in Forced ==> k in once && once[k] == Forced[k] by {
      forall k | k in Forced ensures k in once && once[k] == Forced[k] {
        assert k != LdKey;
      }
    }
    OverAbsorbed(once, Forced);
  }

  /** Patching twice is patching once. */
  lemma PatchedIdempotent(env: Environ, host: Host)
    ensures Patched(Patched(env, host), host) == Patched(env, host)
  {
    if IsTermux(host) {
      PatchedKeepsLocations(env, host);
      LibPathNonEmpty(env);
      PatchWithIdempotent(env, TmpDir(env, host), LibPath(env));
    }
  }

  lemma UnionAssoc(a: Environ, b: Environ, c: Environ)
    ensures a + (b + c) == a + b + c
  {
  }

  /** A `setdefault` on top of defaults already applied extends those defaults. */
  lemma SetDefaultStep(d: Environ, k: string, v: string, m: Environ)
    requires k !in d
    ensures map[k := v] + (d + m) == d[k := v] + m
  {
  }

  /** The defaults are the temporary-directory, feature and locale defaults together. */
  lemma DefaultsSplit(tmp: string)
    ensures TmpDefaults(tmp) + FeatureDefaults + LocaleDefaults == Defaults(tmp)
  {
    var t := TmpDefaults(tmp);
    var t1 := t["CODE_EXEC_SSH_ENABLED" := "false"];
    var t2 := t1["DISABLE_BROWSER_AGENT" := "true"];
    var t3 := t2["DISABLE_WHISPER" := "true"];
    var t4 := t3["DISABLE_KOKORO" := "true"];
    var t5 := t4["DISABLE_TTS" := "true"];
    assert t + FeatureDefaults == t5;
    assert t5 + LocaleDefaults == t5["LANG" := "en_US.UTF-8"]["LC_ALL" := "en_US.UTF-8"];
  }

  /** Updating a union updates its upper part. */
  lemma UpdateUpper(lower: Environ, upper: Environ, key: string, value: string)
    ensures (lower + upper)[key := value] == lower + upper[key := value]
  {
  }

  /** The three groups of defaults have no key in common. */
  lemma DefaultGroupsDisjoint(tmp: string)
    ensures TmpDefaults(tmp).Keys !! FeatureDefaults.Keys
    ensures LocaleDefaults.Keys !! (TmpDefaults(tmp).Keys + FeatureDefaults.Keys)
  {
  }

  /** Defaults laid under an environment one group after another, each
      group on disjoint keys, are the union of the groups laid under it at
      once; an update of the environment's own entries commutes with that. */
  lemma LayeredDefaults(t: Environ, f: Environ, l: Environ, u: Environ, key: string, x: string)
    requires t.Keys !! f.Keys && l.Keys !! (t.Keys + f.Keys)
    ensures l + (f + (t + u)) == (t + f + l) + u
    ensures l + (f + (t + u))[key := x] == (t + f + l) + u[key := x]
  {
  }

  /** The source's steps in order (flags, temporary-directory and feature
      defaults, library path, locale defaults) give the patch. */
  lemma StepsGivePatch(start: Environ, tmp: string, lib: string)
    ensures
      var current := Get(start, LdKey, "");
      var afterDefaults := FeatureDefaults + (TmpDefaults(tmp) + (start + Forced));
      var afterLib := if Contains(current, lib) then afterDefaults
                      else afterDefaults[LdKey := PrependLib(lib, current)];
      LocaleDefaults + afterLib == PatchWith(start, tmp, lib)
  {
    var current := Get(start, LdKey, "");
    var x := PrependLib(lib, current);
    DefaultGroupsDisjoint(tmp);
    DefaultsSplit(tmp);
    LayeredDefaults(TmpDefaults(tmp), FeatureDefaults, LocaleDefaults, start + Forced, LdKey, x);
    UnionAssoc(Defaults(tmp), start, Forced);
    UpdateUpper(Defaults(tmp), start + Forced, LdKey, x);
  }

  /** The process environment, which `patch_environment` updates in place. */
  class ProcessEnvironment {
    var vars: Environ

    constructor (initial: Environ)
      ensures vars == initial
    {
      vars := initial;
    }

    /** `os.environ.setdefault(key, value)`: the new entry goes under the
        existing ones. */
    method SetDefault(key: string, value: string)
      modifies this
      ensures vars == map[key := value] + old(vars)
    {
      if key !in vars {
        vars := vars[key := value];
      }
    }

    /** Set Termux mode flag: two unconditional writes. */
    method SetModeFlags()
      modifies this
      ensures vars == old(vars) + Forced
    {
      vars := vars["TERMUX_MODE" := "true"];
      vars := vars["DOCKERIZED" := "false"];
    }

    /** Set tmp directory: `setdefault` of the three temporary-directory keys. */
    method SetTmpDefaults(tmp: string)
      modifies this
      ensures vars == TmpDefaults(tmp) + old(vars)
    {
      ghost var m := vars;
      SetDefault("TMPDIR", tmp);
      SetDefault("TEMP", tmp);
      SetDefaultStep(map["TMPDIR" := tmp], "TEMP", tmp, m);
      SetDefault("TMP", tmp);
      SetDefaultStep(map["TMPDIR" := tmp, "TEMP" := tmp], "TMP", tmp, m);
    }

    /** Disable Docker/SSH code execution and the unsupported features. */
    method SetFeatureDefaults()
      modifies this
      ensures vars == FeatureDefaults + old(vars)
    {
      ghost var m := vars;
      SetDefault("CODE_EXEC_SSH_ENABLED", "false");
      ghost var d := map["CODE_EXEC_SSH_ENABLED" := "false"];
      SetDefault("DISABLE_BROWSER_AGENT", "true");
      SetDefaultStep(d, "DISABLE_BROWSER_AGENT", "true", m);
      d := d["DISABLE_BROWSER_AGENT" := "true"];
      SetDefault("DISABLE_WHISPER", "true");
      SetDefaultStep(d, "DISABLE_WHISPER", "true", m);
      d := d["DISABLE_WHISPER" := "true"];
      SetDefault("DISABLE_KOKORO", "true");
      SetDefaultStep(d, "DISABLE_KOKORO", "true", m);
      d := d["DISABLE_KOKORO" := "true"];
      SetDefault("DISABLE_TTS", "true");
      SetDefaultStep(d, "DISABLE_TTS", "true", m);
    }

    /** Fix library paths: prepend `prefix/lib` unless it already occurs. */
    method FixLibraryPath()
      modifies this
      ensures
        var lib := LibPath(old(vars));
        var current := Get(old(vars), LdKey, "");
        vars == if Contains(current, lib) then old(vars) else old(vars)[LdKey := PrependLib(lib, current)]
    {
      var lib := Join(GetTermuxPrefix(vars), "lib");
      var current := Get(vars, LdKey, "");
      if !Contains(current, lib) {
        vars := vars[LdKey := if current != "" then lib + ":" + current else lib];
      }
    }

    /** Set proper locale: `setdefault` of `LANG` and `LC_ALL`. */
    method SetLocaleDefaults()
      modifies this
      ensures vars == LocaleDefaults + old(vars)
    {
      ghost var m := vars;
      SetDefault("LANG", "en_US.UTF-8");
      SetDefault("LC_ALL", "en_US.UTF-8");
      SetDefaultStep(map["LANG" := "en_US.UTF-8"], "LC_ALL", "en_US.UTF-8", m);
    }

    /** `patch_environment`: off Termux nothing happens; on Termux the steps
        run in the source's order, each reading the environment as the
        previous ones left it. */
    method PatchEnvironment(host: Host)
      modifies this
      ensures vars == Patched(old(vars), host)
    {
      if !IsTermux(host) {
        return;
      }
      ghost var start := vars;
      SetModeFlags();
      ReadKeysUnmanaged();
      var tmp := TmpDir(vars, host);
      assert tmp == TmpDir(start, host) by {
        assert GetTermuxHome(vars) == GetTermuxHome(start);
      }
      SetTmpDefaults(tmp);
      SetFeatureDefaults();
      assert GetTermuxPrefix(vars) == GetTermuxPrefix(start);
      assert Get(vars, LdKey, "") == Get(start, LdKey, "");
      FixLibraryPath();
      SetLocaleDefaults();
      StepsGivePatch(start, tmp, LibPath(start));
    }
  }
}
