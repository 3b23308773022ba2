/**
 * The configuration-file search logic that the package-level functions of
 * flagcfg.go and the Locator type of locator.go share word for word:
 * splitting the executable's path (getExePath), building the default list of
 * candidate files (AddDefaultFiles), and picking the first candidate that
 * exists (FindConfig).
 */
module Search {
  import opened Optional

  /**
   * What the locator asks of the operating system and of the path library.
   * Every field is an input of the model: the program's invocation name
   * (os.Args[0]), the PATH lookup (exec.LookPath), making a path absolute
   * (filepath.Abs), environment variables (os.Getenv, "" when unset), the
   * working directory (os.Getwd) and path joining (filepath.Join).
   */
  datatype Host = Host(
    args0: string,
    lookPath: string -> Option<string>,
    abs: string -> Option<string>,
    getenv: string -> string,
    getwd: Option<string>,
    join: seq<string> -> string)

  // ---------------------------------------------------------------------
  // String operations of Go's strings package used by the locator
  // ---------------------------------------------------------------------

  predicate OccursAt(s: string, pat: string, k: int) {
    0 <= k && k + |pat| <= |s| && s[k..k + |pat|] == pat
  }

  lemma OccursShift(s: string, pat: string)
    requires |s| > 0
    ensures forall j :: 1 <= j ==> (OccursAt(s, pat, j) <==> OccursAt(s[1..], pat, j - 1))
  {
    forall j | 1 <= j
      ensures OccursAt(s, pat, j) <==> OccursAt(s[1..], pat, j - 1)
    {
      if j + |pat| <= |s| {
        assert s[1..][j - 1..j - 1 + |pat|] == s[j..j + |pat|];
      }
    }
  }

  /** strings.Index: the lowest position at which `pat` occurs in `s`, or -1. */
  function IndexOf(s: string, pat: string): (k: int)
    ensures -1 <= k && (k >= 0 ==> k + |pat| <= |s|)
    decreases |s|
  {
    if |s| < |pat| then -1
    else if s[..|pat|] == pat then 0
    else
      var k := IndexOf(s[1..], pat);
      if k < 0 then -1 else k + 1
  }

  /** IndexOf finds an occurrence, and no occurrence lies before it. */
  lemma {:induction false} IndexOfSpec(s: string, pat: string)
    ensures var k := IndexOf(s, pat);
      && (k >= 0 ==> OccursAt(s, pat, k))
      && (forall j :: 0 <= j && (k < 0 || j < k) ==> !OccursAt(s, pat, j))
    decreases |s|
  {
    if |s| >= |pat| && s[..|pat|] != pat {
      assert !OccursAt(s, pat, 0) by {
        assert s[0..|pat|] == s[..|pat|];
      }
      IndexOfSpec(s[1..], pat);
      OccursShift(s, pat);
    }
  }

  /** strings.Contains. */
  predicate Contains(s: string, pat: string) {
    IndexOf(s, pat) >= 0
  }

  /** Contains holds exactly when the pattern occurs somewhere. */
  lemma ContainsSpec(s: string, pat: string)
    ensures Contains(s, pat) <==> exists j :: OccursAt(s, pat, j)
  {
    IndexOfSpec(s, pat);
  }

  /**
   * strings.Replace(s, pat, rep, 1): only the first occurrence is replaced,
   * and a string without an occurrence comes back unchanged.
   */
  function ReplaceFirst(s: string, pat: string, rep: string): (r: string)
    ensures (forall k :: !OccursAt(s, pat, k)) ==> r == s
    ensures forall k :: OccursAt(s, pat, k) && (forall j :: 0 <= j < k ==> !OccursAt(s, pat, j))
                    ==> r == s[..k] + rep + s[k + |pat|..]
  {
    IndexOfSpec(s, pat);
    var k := IndexOf(s, pat);
    if k < 0 then s else s[..k] + rep + s[k + |pat|..]
  }

  function UpperChar(c: char): char {
    if IsLower(c) then (c as int - 32) as char else c
  }

  predicate IsLower(c: char) {
    'a' <= c <= 'z'
  }

  /** strings.ToUpper, for ASCII letters: each character is mapped on its own. */
  function ToUpper(s: string): (r: string)
    ensures |r| == |s|
    ensures forall i :: 0 <= i < |s| ==> r[i] == UpperChar(s[i])
    ensures forall i :: 0 <= i < |r| ==> !IsLower(r[i])
    decreases |s|
  {
    if s == [] then [] else [UpperChar(s[0])] + ToUpper(s[1..])
  }

  /** strings.TrimSuffix. */
  function TrimSuffix(s: string, suffix: string): string {
    if |suffix| <= |s| && s[|s| - |suffix|..] == suffix then s[..|s| - |suffix|] else s
  }

  // ---------------------------------------------------------------------
  // getExePath
  // ---------------------------------------------------------------------

  /** filepath.Split: everything up to and including the last '/', and the rest. */
  function SplitPath(path: string): (parts: (string, string))
    ensures parts.0 + parts.1 == path
    ensures '/' !in parts.1
    ensures parts.0 == [] || parts.0[|parts.0| - 1] == '/'
    decreases |path|
  {
    if path == [] then ([], [])
    else if path[|path| - 1] == '/' then (path, [])
    else
      var parts := SplitPath(path[..|path| - 1]);
      assert path == path[..|path| - 1] + [path[|path| - 1]];
      (parts.0, parts.1 + [path[|path| - 1]])
  }

  /**
   * filepath.Ext: the suffix of the last path element that starts at its last
   * '.', or "" when that element has no '.'.
   */
  function Ext(path: string): (e: string)
    ensures |e| <= |path| && e == path[|path| - |e|..]
    ensures e == [] || (e[0] == '.' && '.' !in e[1..])
    ensures '/' !in e
    ensures e == [] && '/' !in path ==> '.' !in path
    decreases |path|
  {
    if path == [] || path[|path| - 1] == '/' then []
    else if path[|path| - 1] == '.' then "."
    else
      var init := path[..|path| - 1];
      var e := Ext(init);
      assert path == init + [path[|path| - 1]];
      if e == [] then [] else e + [path[|path| - 1]]
  }

  /** The three results of getExePath: directory, base name without extension, extension. */
  datatype ExeParts = ExeParts(dir: string, stem: string, ext: string)

  /**
   * The executable path getExePath works on: the PATH lookup of the invocation
   * name, or the invocation name itself when the lookup fails, made absolute
   * when that succeeds (each failure is only a logged warning).
   */
  function ResolveExe(host: Host): (r: string)
    ensures host.lookPath(host.args0).None? && host.abs(host.args0).None? ==> r == host.args0
    ensures host.lookPath(host.args0).None? && host.abs(host.args0).Some? ==> r == host.abs(host.args0).value
    ensures host.lookPath(host.args0).Some? ==>
              var p := host.lookPath(host.args0).value;
              r == if host.abs(p).Some? then host.abs(p).value else p
  {
    var found := host.lookPath(host.args0).GetOr(host.args0);
    host.abs(found).GetOr(found)
  }

  /** The directory, stem and extension getExePath splits a path into. */
  function SplitExe(path: string): (r: ExeParts)
    ensures r.dir + r.stem + r.ext == path
    ensures '/' !in r.stem && '/' !in r.ext
    ensures r.dir == [] || r.dir[|r.dir| - 1] == '/'
    ensures r.ext == [] || (r.ext[0] == '.' && '.' !in r.ext[1..])
    ensures r.ext == [] ==> '.' !in r.stem
  {
    var parts := SplitPath(path);
    var e := Ext(parts.1);
    TrimExt(parts.0, parts.1);
    ExeParts(parts.0, TrimSuffix(parts.1, e), e)
  }

  /** Trimming the extension off a base name leaves a stem that gives back the name. */
  lemma TrimExt(dir: string, base: string)
    requires '/' !in base
    ensures dir + TrimSuffix(base, Ext(base)) + Ext(base) == dir + base
    ensures '/' !in TrimSuffix(base, Ext(base))
    ensures Ext(base) == [] ==> '.' !in TrimSuffix(base, Ext(base))
  {
    var e := Ext(base);
    var stem := base[..|base| - |e|];
    assert TrimSuffix(base, e) == stem;
    assert base == stem + e;
    assert dir + stem + e == dir + (stem + e);
    forall i | 0 <= i < |stem|
      ensures stem[i] != '/' && (e == [] ==> stem[i] != '.')
    {
      assert stem[i] == base[i];
    }
  }

  function ExePath(host: Host): (r: ExeParts)
    ensures r.dir + r.stem + r.ext == ResolveExe(host)
    ensures r.dir == [] || r.dir[|r.dir| - 1] == '/'
  {
    SplitExe(ResolveExe(host))
  }

  /** The fixed names AddDefaultFiles uses (forward slashes: a Unix host). */
  const BinSep: string := "/bin/"
  const EtcSep: string := "/etc/"
  const BinDir: string := "/bin"
  const EtcDir: string := "/etc"
  const HomeVar: string := "HOME"
  const ConfigDir: string := ".config"

  /** The test in front of the bin-to-etc candidate, as written: the directory contains "/bin/" and is not "/bin". */
  predicate BinGuardAsWritten(dir: string) {
    Contains(dir, BinSep) && dir != BinDir
  }

  /**
   * The same test as its comment means it: the executable lies under some
   * bin directory, but not directly in /bin.
   */
  predicate BinGuard(dir: string) {
    Contains(dir, BinSep) && dir != BinSep
  }

  /**
   * As written, the second half of the test never excludes anything: the
   * directory getExePath returns is empty or ends in '/', so it is never
   * "/bin".  An executable directly in /bin has the directory "/bin/", which
   * passes, and its bin-to-etc candidate lies directly in "/etc/".
   */
  lemma BinGuardAlwaysPasses(host: Host)
    ensures BinGuardAsWritten(ExePath(host).dir) <==> Contains(ExePath(host).dir, BinSep)
    ensures BinGuardAsWritten(BinSep) && ReplaceFirst(BinSep, BinSep, EtcSep) == EtcSep
  {
    DirGuard(ExePath(host).dir);
    DirGuard(BinSep);
    IndexOfSpec(BinSep, BinSep);
    assert OccursAt(BinSep, BinSep, 0);
  }

  /** With the intended test, the bin-to-etc candidate never lies directly in "/etc/". */
  lemma BinSiblingNotEtc(dir: string)
    requires BinGuard(dir)
    ensures ReplaceFirst(dir, BinSep, EtcSep) != EtcSep
  {
    IndexOfSpec(dir, BinSep);
    var r := ReplaceFirst(dir, BinSep, EtcSep);
    assert |r| == |dir|;
  }

  /** The directory "/bin/" passes the test as written, fails the intended one, and maps to "/etc/". */
  lemma BinDirGuards(dir: string)
    requires dir == BinSep
    ensures BinGuardAsWritten(dir) && !BinGuard(dir)
    ensures ReplaceFirst(dir, BinSep, EtcSep) == EtcSep
  {
    DirGuard(dir);
    IndexOfSpec(dir, BinSep);
    assert OccursAt(dir, BinSep, 0);
  }

  /** A directory that is empty or ends in '/' is never "/bin"; "/bin/" maps to "/etc/". */
  lemma DirGuard(dir: string)
    requires dir == [] || dir[|dir| - 1] == '/'
    ensures dir != BinDir
    ensures dir == BinSep ==> ReplaceFirst(dir, BinSep, EtcSep) == EtcSep
  {
    assert BinDir[|BinDir| - 1] == 'n';
    if dir == BinSep {
      assert BinSep[..|BinSep|] == BinSep;
      assert BinSep[|BinSep|..] == [];
    }
  }

  // ---------------------------------------------------------------------
  // AddDefaultFiles: the default candidate list
  // ---------------------------------------------------------------------

  /** Where a default candidate comes from, listed from highest to lowest priority. */
  datatype Source = EnvOverride | WorkDir | HomeConfig | BinSibling | EtcExe | Etc | ExeDir

  function Rank(src: Source): nat {
    match src
    case EnvOverride => 0
    case WorkDir => 1
    case HomeConfig => 2
    case BinSibling => 3
    case EtcExe => 4
    case Etc => 5
    case ExeDir => 6
  }

  predicate RankSorted(srcs: seq<Source>) {
    forall i, j :: 0 <= i < j < |srcs| ==> Rank(srcs[i]) < Rank(srcs[j])
  }

  /** The four conditions AddDefaultFiles tests before appending the optional candidates. */
  datatype Conditions = Conditions(env: bool, wd: bool, home: bool, bin: bool)

  /** The conditions, for a host whose executable splits into `exe`, with the bin test as written. */
  function ConditionsOf(envName: string, host: Host, exe: ExeParts): Conditions {
    Conditions(
      envName != "" && host.getenv(envName) != "",
      host.getwd.Some?,
      host.getenv(HomeVar) != "",
      BinGuardAsWritten(exe.dir))
  }

  /** The same conditions with the bin test its comment intends. */
  function IntendedConditionsOf(envName: string, host: Host, exe: ExeParts): Conditions {
    ConditionsOf(envName, host, exe).(bin := BinGuard(exe.dir))
  }

  /** Whether a source contributes a candidate under the conditions `c`. */
  predicate On(src: Source, c: Conditions) {
    match src
    case EnvOverride => c.env
    case WorkDir => c.wd
    case HomeConfig => c.home
    case BinSibling => c.bin
    case _ => true
  }

  /** `[x]` when `b` holds, otherwise nothing. */
  function Opt<T>(b: bool, x: T): seq<T> {
    if b then [x] else []
  }

  /**
   * The sources that contribute under `c`, in the order AddDefaultFiles
   * appends them.
   */
  function Origins(c: Conditions): seq<Source> {
    Switched(c) + [EtcExe] + [Etc] + [ExeDir]
  }

  /** The optional sources that contribute under `c`, in their order. */
  function Switched(c: Conditions): seq<Source> {
    [] + Opt(c.env, EnvOverride) + Opt(c.wd, WorkDir) + Opt(c.home, HomeConfig) + Opt(c.bin, BinSibling)
  }

  /** Appending a source of higher rank than the last one keeps the list sorted. */
  lemma ExtendSorted(a: seq<Source>, b: bool, x: Source)
    requires RankSorted(a)
    requires a != [] ==> Rank(a[|a| - 1]) < Rank(x)
    ensures RankSorted(a + Opt(b, x))
    ensures a + Opt(b, x) != [] ==> Rank((a + Opt(b, x))[|a + Opt(b, x)| - 1]) <= Rank(x)
  {
    if b {
      var r := a + [x];
      forall i, j | 0 <= i < j < |r|
        ensures Rank(r[i]) < Rank(r[j])
      {
        if j == |a| && i < |a| - 1 {
          assert Rank(a[i]) < Rank(a[|a| - 1]);
        }
      }
    }
  }

  /**
   * The contributing sources are exactly the switched-on ones, by strictly
   * increasing rank, always ending with the three unconditional ones and
   * starting with the environment override when it is on.
   */
  lemma OriginsSpec(c: Conditions)
    ensures var r := Origins(c);
      && 3 <= |r| <= 7
      && r[|r| - 3] == EtcExe && r[|r| - 2] == Etc && r[|r| - 1] == ExeDir
      && RankSorted(r)
      && (forall s :: s in r <==> On(s, c))
      && (c.env ==> r[0] == EnvOverride)
  {
    OriginsSorted(c);
    OriginsMembers(c);
  }

  /** The contributing sources come in strictly increasing rank. */
  lemma OriginsSorted(c: Conditions)
    ensures RankSorted(Origins(c))
  {
    SwitchedSorted(c);
    var r4 := Switched(c);
    ExtendSorted(r4, true, EtcExe);
    var r5 := r4 + [EtcExe];
    ExtendSorted(r5, true, Etc);
    var r6 := r5 + [Etc];
    ExtendSorted(r6, true, ExeDir);
  }

  /** The optional sources come in strictly increasing rank, below the unconditional ones. */
  lemma SwitchedSorted(c: Conditions)
    ensures RankSorted(Switched(c))
    ensures Switched(c) != [] ==> Rank(Switched(c)[|Switched(c)| - 1]) < Rank(EtcExe)
  {
    var r2 := [] + Opt(c.env, EnvOverride) + Opt(c.wd, WorkDir);
    FirstTwoSorted(c);
    ExtendSorted(r2, c.home, HomeConfig);
    var r3 := r2 + Opt(c.home, HomeConfig);
    ExtendSorted(r3, c.bin, BinSibling);
  }

  /** The environment override and the working directory come in that order. */
  lemma FirstTwoSorted(c: Conditions)
    ensures var r2 := [] + Opt(c.env, EnvOverride) + Opt(c.wd, WorkDir);
      RankSorted(r2) && (r2 != [] ==> Rank(r2[|r2| - 1]) < Rank(HomeConfig))
  {
    var r1 := [] + Opt(c.env, EnvOverride);
    ExtendSorted(r1, c.wd, WorkDir);
  }

  /** A source contributes exactly when it is switched on. */
  lemma OriginsMembers(c: Conditions)
    ensures forall s :: s in Origins(c) <==> On(s, c)
  {
    forall s
      ensures s in Origins(c) <==> On(s, c)
    {
      assert s in Origins(c) <==> ((c.env && s == EnvOverride) || (c.wd && s == WorkDir) || (c.home && s == HomeConfig)
                                  || (c.bin && s == BinSibling) || s == EtcExe || s == Etc || s == ExeDir);
    }
  }

  /** The candidate file a source contributes (when it is on). */
  function Candidate(src: Source, envName: string, cfgName: string, host: Host, exe: ExeParts): string {
    match src
    case EnvOverride => host.getenv(envName)
    case WorkDir => host.join([host.getwd.GetOr(""), cfgName])
    case HomeConfig => host.join([host.getenv(HomeVar), ConfigDir, exe.stem, cfgName])
    case BinSibling => host.join([ReplaceFirst(exe.dir, BinSep, EtcSep), cfgName])
    case EtcExe => host.join([EtcDir, exe.stem, cfgName])
    case Etc => host.join([EtcDir, cfgName])
    case ExeDir => host.join([exe.dir, cfgName])
  }

  /** The candidate files of a list of sources. */
  function Candidates(srcs: seq<Source>, envName: string, cfgName: string, host: Host, exe: ExeParts): (r: seq<string>)
    ensures |r| == |srcs|
    ensures forall i :: 0 <= i < |srcs| ==> r[i] == Candidate(srcs[i], envName, cfgName, host, exe)
  {
    seq(|srcs|, i requires 0 <= i < |srcs| => Candidate(srcs[i], envName, cfgName, host, exe))
  }

  /**
   * The list AddDefaultFiles(envName, cfgName) appends, for an executable
   * that splits into `exe`: each optional candidate when its condition holds,
   * then the three unconditional ones, in the fixed order.  It is the list of
   * candidates of the contributing sources, in their order.
   */
  function DefaultsFor(envName: string, cfgName: string, host: Host, exe: ExeParts): (r: seq<string>)
    ensures r == Candidates(Origins(ConditionsOf(envName, host, exe)), envName, cfgName, host, exe)
  {
    var c := ConditionsOf(envName, host, exe);
    var r0: seq<Source> := [];
    var r1 := r0 + Opt(c.env, EnvOverride);
    var r2 := r1 + Opt(c.wd, WorkDir);
    var r3 := r2 + Opt(c.home, HomeConfig);
    var r4 := r3 + Opt(c.bin, BinSibling);
    var r5 := r4 + Opt(true, EtcExe);
    var r6 := r5 + Opt(true, Etc);
    assert r6 + Opt(true, ExeDir) == Origins(c);
    CandidatesExtend(r0, c.env, EnvOverride, envName, cfgName, host, exe);
    CandidatesExtend(r1, c.wd, WorkDir, envName, cfgName, host, exe);
    CandidatesExtend(r2, c.home, HomeConfig, envName, cfgName, host, exe);
    CandidatesExtend(r3, c.bin, BinSibling, envName, cfgName, host, exe);
    CandidatesExtend(r4, true, EtcExe, envName, cfgName, host, exe);
    CandidatesExtend(r5, true, Etc, envName, cfgName, host, exe);
    CandidatesExtend(r6, true, ExeDir, envName, cfgName, host, exe);
    []
    + Opt(c.env, Candidate(EnvOverride, envName, cfgName, host, exe))
    + Opt(c.wd, Candidate(WorkDir, envName, cfgName, host, exe))
    + Opt(c.home, Candidate(HomeConfig, envName, cfgName, host, exe))
    + Opt(c.bin, Candidate(BinSibling, envName, cfgName, host, exe))
    + [Candidate(EtcExe, envName, cfgName, host, exe)]
    + [Candidate(Etc, envName, cfgName, host, exe)]
    + [Candidate(ExeDir, envName, cfgName, host, exe)]
  }

  /** Appending a source appends its candidate, when it is on. */
  lemma CandidatesExtend(srcs: seq<Source>, on: bool, src: Source,
                         envName: string, cfgName: string, host: Host, exe: ExeParts)
    ensures Candidates(srcs + Opt(on, src), envName, cfgName, host, exe)
         == Candidates(srcs, envName, cfgName, host, exe) + Opt(on, Candidate(src, envName, cfgName, host, exe))
  {
  }

  /**
   * The default list holds 3 to 7 candidates, ends with /etc/<exe>/cfgName,
   * /etc/cfgName and <exe dir>/cfgName, starts with the file the environment
   * variable names whenever that variable is set, and has the bin-to-etc
   * sibling just before the last three whenever the bin test passes.
   */
  lemma DefaultsShape(envName: string, cfgName: string, host: Host, exe: ExeParts)
    ensures var r := DefaultsFor(envName, cfgName, host, exe);
      && 3 <= |r| <= 7
      && r[|r| - 3] == host.join([EtcDir, exe.stem, cfgName])
      && r[|r| - 2] == host.join([EtcDir, cfgName])
      && r[|r| - 1] == host.join([exe.dir, cfgName])
      && (envName != "" && host.getenv(envName) != "" ==> r[0] == host.getenv(envName))
      && (BinGuardAsWritten(exe.dir) ==> |r| >= 4 && r[|r| - 4] == host.join([ReplaceFirst(exe.dir, BinSep, EtcSep), cfgName]))
  {
    var c := ConditionsOf(envName, host, exe);
    OriginsSpec(c);
    if c.bin {
      assert Switched(c)[|Switched(c)| - 1] == BinSibling;
    }
  }

  /**
   * The list AddDefaultFiles would append with the bin test its comment
   * intends: no bin-to-etc candidate for an executable directly in /bin.
   */
  function DefaultsForIntended(envName: string, cfgName: string, host: Host, exe: ExeParts): seq<string> {
    Candidates(Origins(IntendedConditionsOf(envName, host, exe)), envName, cfgName, host, exe)
  }

  /**
   * As written, an executable directly in /bin gets the extra candidate
   * join("/etc/", cfgName), just before join("/etc", stem, cfgName); the
   * intended list is the same without it.
   */
  lemma BinDirExtraCandidate(envName: string, cfgName: string, host: Host, exe: ExeParts)
    requires exe.dir == BinSep
    ensures var r := DefaultsFor(envName, cfgName, host, exe);
      var q := DefaultsForIntended(envName, cfgName, host, exe);
      && |r| == |q| + 1 >= 4
      && r[|r| - 4] == host.join([EtcSep, cfgName])
      && r[|r| - 3] == host.join([EtcDir, exe.stem, cfgName])
      && r == q[..|q| - 3] + [host.join([EtcSep, cfgName])] + q[|q| - 3..]
  {
    var c := ConditionsOf(envName, host, exe);
    BinDirGuards(exe.dir);
    assert c.bin && IntendedConditionsOf(envName, host, exe) == c.(bin := false);
    DefaultsBinSplit(c, envName, cfgName, host, exe);
    CandidateAt(EtcSep, envName, cfgName, host, exe);
  }

  /** The bin-to-etc and /etc/<exe> candidates, once the sibling directory is known. */
  lemma CandidateAt(sibling: string, envName: string, cfgName: string, host: Host, exe: ExeParts)
    requires ReplaceFirst(exe.dir, BinSep, EtcSep) == sibling
    ensures Candidate(BinSibling, envName, cfgName, host, exe) == host.join([sibling, cfgName])
    ensures Candidate(EtcExe, envName, cfgName, host, exe) == host.join([EtcDir, exe.stem, cfgName])
  {
  }

  /** Switching the bin-to-etc source on inserts its candidate just before the last three. */
  lemma DefaultsBinSplit(c: Conditions, envName: string, cfgName: string, host: Host, exe: ExeParts)
    requires c.bin
    ensures var r := Candidates(Origins(c), envName, cfgName, host, exe);
      var q := Candidates(Origins(c.(bin := false)), envName, cfgName, host, exe);
      var extra := Candidate(BinSibling, envName, cfgName, host, exe);
      && |r| == |q| + 1 >= 4
      && r[|r| - 4] == extra
      && r[|r| - 3] == Candidate(EtcExe, envName, cfgName, host, exe)
      && r == q[..|q| - 3] + [extra] + q[|q| - 3..]
  {
    OriginsBinSplit(c);
    CandidatesInsert(Switched(c.(bin := false)), BinSibling, [EtcExe, Etc, ExeDir], envName, cfgName, host, exe);
  }

  /** Inserting a source before the last three inserts its candidate there. */
  lemma CandidatesInsert(pre: seq<Source>, x: Source, tail: seq<Source>,
                         envName: string, cfgName: string, host: Host, exe: ExeParts)
    requires |tail| == 3
    ensures var r := Candidates((pre + [x]) + tail, envName, cfgName, host, exe);
      var q := Candidates(pre + tail, envName, cfgName, host, exe);
      var extra := Candidate(x, envName, cfgName, host, exe);
      && |r| == |q| + 1 >= 4
      && r[|r| - 4] == extra
      && r[|r| - 3] == Candidate(tail[0], envName, cfgName, host, exe)
      && r == q[..|q| - 3] + [extra] + q[|q| - 3..]
  {
    var r := Candidates((pre + [x]) + tail, envName, cfgName, host, exe);
    var q := Candidates(pre + tail, envName, cfgName, host, exe);
    var w := q[..|q| - 3] + [Candidate(x, envName, cfgName, host, exe)] + q[|q| - 3..];
    assert |r| == |w|;
    forall i | 0 <= i < |r|
      ensures r[i] == w[i]
    {
      if i < |pre| {
        assert ((pre + [x]) + tail)[i] == (pre + tail)[i];
      } else if i > |pre| {
        assert ((pre + [x]) + tail)[i] == (pre + tail)[i - 1];
      }
    }
  }

  /** Switching the bin-to-etc source on inserts it just before the last three sources. */
  lemma OriginsBinSplit(c: Conditions)
    requires c.bin
    ensures var pre := Switched(c.(bin := false));
      && Origins(c) == (pre + [BinSibling]) + [EtcExe, Etc, ExeDir]
      && Origins(c.(bin := false)) == pre + [EtcExe, Etc, ExeDir]
  {
  }

  /**
   * With the intended test, the bin-to-etc candidate is present exactly when
   * the executable lies under a bin directory other than /bin itself, and it
   * then never lies directly in "/etc/".
   */
  lemma IntendedSiblingNotEtc(envName: string, cfgName: string, host: Host, exe: ExeParts)
    ensures var srcs := Origins(IntendedConditionsOf(envName, host, exe));
      && (BinSibling in srcs <==> BinGuard(exe.dir))
      && (BinSibling in srcs ==> ReplaceFirst(exe.dir, BinSep, EtcSep) != EtcSep)
      && (exe.dir == BinSep ==> BinSibling !in srcs)
  {
    var ci := IntendedConditionsOf(envName, host, exe);
    OriginsMembers(ci);
    assert On(BinSibling, ci) == BinGuard(exe.dir);
    if BinGuard(exe.dir) {
      BinSiblingNotEtc(exe.dir);
    }
  }

  /**
   * The list AddDefaultFiles(envName, cfgName) appends, in priority order:
   * the file named by the environment variable, cwd/cfgName,
   * $HOME/.config/<exe>/cfgName, the bin-to-etc sibling, /etc/<exe>/cfgName,
   * /etc/cfgName and <exe dir>/cfgName, each optional one only when its
   * condition holds.
   */
  function DefaultCandidates(envName: string, cfgName: string, host: Host): seq<string> {
    DefaultsFor(envName, cfgName, host, ExePath(host))
  }

  /** Appending to a list that extends `files` by `added` extends `files` by more. */
  lemma AppendStep(files: seq<string>, added: seq<string>, more: seq<string>, before: seq<string>, after: seq<string>)
    requires before == files + added
    requires after == before + more
    ensures after == files + (added + more)
  {
  }

  /** The name AddDefaults gives the environment variable: the upper-cased stem and "_CONFIG". */
  function EnvNameFor(stem: string): (r: string)
    ensures |r| == |stem| + 7 && r[|stem|..] == "_CONFIG"
    ensures forall i :: 0 <= i < |stem| ==> r[i] == UpperChar(stem[i])
  {
    ToUpper(stem) + "_CONFIG"
  }

  /**
   * The file name AddDefaults looks for: a name whose extension, in the
   * sense getExePath splits names, is ".config" and whose stem is `stem`.
   */
  function CfgNameFor(stem: string): (r: string)
    ensures Ext(r) == ".config" && TrimSuffix(r, Ext(r)) == stem
  {
    ExtOfSuffix(stem, ".config");
    stem + ".config"
  }

  /** A name that ends in a '.' followed by no '.' or '/' has that ending as its extension. */
  lemma {:induction false} ExtOfSuffix(stem: string, suf: string)
    requires suf != [] && suf[0] == '.' && '.' !in suf[1..] && '/' !in suf
    ensures Ext(stem + suf) == suf
    decreases |suf|
  {
    var path := stem + suf;
    var last := suf[|suf| - 1];
    assert path[|path| - 1] == last;
    if |suf| > 1 {
      var init := suf[..|suf| - 1];
      assert suf[1..][|suf| - 2] == last;
      assert last != '.' && last != '/';
      assert init[1..] == suf[1..][..|suf| - 2];
      assert path[..|path| - 1] == stem + init;
      ExtOfSuffix(stem, init);
      ExtStep(path);
      assert suf == init + [last];
    } else {
      assert suf == [last] == ".";
    }
  }

  /** A name that ends in neither '/' nor '.' extends the extension of the name without its last character. */
  lemma ExtStep(path: string)
    requires path != [] && path[|path| - 1] != '/' && path[|path| - 1] != '.'
    requires Ext(path[..|path| - 1]) != []
    ensures Ext(path) == Ext(path[..|path| - 1]) + [path[|path| - 1]]
  {
  }

  /**
   * AddDefaultFiles, on the list it appends to: the executable's path is
   * looked up first, then every candidate is appended when its condition
   * holds, with no existence check.
   */
  method AppendDefaults(files: seq<string>, envName: string, cfgName: string, host: Host) returns (out: seq<string>)
    ensures out == files + DefaultCandidates(envName, cfgName, host)
  {
    var exe := ExePath(host);
    out := AppendDefaultsFor(files, envName, cfgName, host, exe);
  }

  /** The appending steps of AddDefaultFiles, once the executable's path `exe` is known. */
  method AppendDefaultsFor(files: seq<string>, envName: string, cfgName: string, host: Host, exe: ExeParts)
    returns (out: seq<string>)
    ensures out == files + DefaultsFor(envName, cfgName, host, exe)
  {
    ghost var c := ConditionsOf(envName, host, exe);
    ghost var added: seq<string> := [];
    out := files;
    ghost var before := out;
    if envName != "" {
      var cfgFile := host.getenv(envName);
      if cfgFile != "" {
        out := out + [cfgFile];
      }
    }
    ghost var more := Opt(c.env, Candidate(EnvOverride, envName, cfgName, host, exe));
    AppendStep(files, added, more, before, out);
    added, before := added + more, out;
    if host.getwd.Some? {
      out := out + [host.join([host.getwd.value, cfgName])];
    }
    more := Opt(c.wd, Candidate(WorkDir, envName, cfgName, host, exe));
    AppendStep(files, added, more, before, out);
    added, before := added + more, out;
    var home := host.getenv(HomeVar);
    if home != "" {
      out := out + [host.join([home, ConfigDir, exe.stem, cfgName])];
    }
    more := Opt(c.home, Candidate(HomeConfig, envName, cfgName, host, exe));
    AppendStep(files, added, more, before, out);
    added, before := added + more, out;
    if Contains(exe.dir, BinSep) && exe.dir != BinDir {
      out := out + [host.join([ReplaceFirst(exe.dir, BinSep, EtcSep), cfgName])];
    }
    more := Opt(c.bin, Candidate(BinSibling, envName, cfgName, host, exe));
    AppendStep(files, added, more, before, out);
    added, before := added + more, out;
    out := out + [host.join([EtcDir, exe.stem, cfgName])];
    more := [Candidate(EtcExe, envName, cfgName, host, exe)];
    AppendStep(files, added, more, before, out);
    added, before := added + more, out;
    out := out + [host.join([EtcDir, cfgName])];
    more := [Candidate(Etc, envName, cfgName, host, exe)];
    AppendStep(files, added, more, before, out);
    added, before := added + more, out;
    out := out + [host.join([exe.dir, cfgName])];
    more := [Candidate(ExeDir, envName, cfgName, host, exe)];
    AppendStep(files, added, more, before, out);
    added := added + more;
  }

  // ---------------------------------------------------------------------
  // FindConfig
  // ---------------------------------------------------------------------

  /** Position of the first entry that `statOk` accepts, or |files| when none does. */
  function FirstIndex(files: seq<string>, statOk: string -> bool): (k: nat)
    ensures k <= |files|
    ensures forall j :: 0 <= j < k ==> !statOk(files[j])
    ensures k < |files| ==> statOk(files[k])
    decreases |files|
  {
    if files == [] then 0
    else if statOk(files[0]) then 0
    else 1 + FirstIndex(files[1..], statOk)
  }

  /** The file FindConfig reports: the first existing candidate, or "" when none exists. */
  function FirstExisting(files: seq<string>, statOk: string -> bool): (found: string)
    ensures found != "" ==> found in files && statOk(found)
    ensures (forall j :: 0 <= j < |files| ==> !statOk(files[j])) ==> found == ""
  {
    var k := FirstIndex(files, statOk);
    if k < |files| then files[k] else ""
  }

  /**
   * Appending a candidate never changes an answer already found; it can only
   * supply one when no earlier candidate exists.
   */
  lemma {:induction false} FirstIndexAppend(files: seq<string>, f: string, statOk: string -> bool)
    ensures FirstIndex(files + [f], statOk)
         == if FirstIndex(files, statOk) < |files| then FirstIndex(files, statOk)
            else if statOk(f) then |files| else |files| + 1
    decreases |files|
  {
    if files != [] && !statOk(files[0]) {
      assert (files + [f])[1..] == files[1..] + [f];
      FirstIndexAppend(files[1..], f, statOk);
    }
  }

  /** FindConfig after AddFile(f): the old answer if there was one, else f if it exists. */
  lemma FirstExistingAppend(files: seq<string>, f: string, statOk: string -> bool)
    ensures FirstExisting(files + [f], statOk)
         == if FirstIndex(files, statOk) < |files| then FirstExisting(files, statOk)
            else if statOk(f) then f else ""
  {
    FirstIndexAppend(files, f, statOk);
  }

  /** The FindConfig loop: scan in insertion order and stop at the first file that exists. */
  method FindFirst(files: seq<string>, statOk: string -> bool) returns (found: string)
    ensures found == FirstExisting(files, statOk)
  {
    for i := 0 to |files|
      invariant forall j :: 0 <= j < i ==> !statOk(files[j])
    {
      if statOk(files[i]) {
        return files[i];
      }
    }
    return "";
  }
}
