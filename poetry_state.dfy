/** The poetry adapter of pip/poetry/handler.go as a state machine over
    values: the adapter's fields form a `State`, and each method is a
    function from the state before the call to the state after it and the
    method's results. The class in module Poetry implements the methods
    imperatively and is proved against these functions.

    The command runner, the filesystem and the worker helpers are the
    function-valued fields of an `Env`. */
module PoetryState {
  import opened Wrappers
  import opened GoStrings
  import opened Meta
  import opened Plugin
  import opened Errors
  import opened Helper
  import opened Worker

  const CmdName: string := "poetry"
  const ManifestLockFile: string := "poetry.lock"
  const PlaceholderPkgName: string := "{PACKAGE}"

  /** The collaborators the adapter calls, and the command templates it runs. */
  datatype Env = Env(
    Exists: (string, string) -> bool,        // helper.Exists(filepath.Join(dir, file))
    Parse: string -> CmdLine,                // command.Parse
    Build: CmdOptions -> Option<Error>,      // Cmd.Build on a new command
    Run: CmdOptions -> Output,               // Cmd.Output
    ModulesCmd: string,
    VersionCmd: string,
    MetadataCmd: string,
    InstallRootModuleCmd: string,
    IsRequirementMeet: string -> bool,
    LoadModules: (string, string) -> seq<WorkerPackage>,
    IsRootModule: (WorkerPackage, string) -> bool,
    GetShortPythonVersion: string -> string,
    ConvertMetadataToModules: (seq<WorkerPackage>, seq<Package>) -> Conversion,
    BuildDependencyGraph: (seq<Package>, map<string, ModuleMetadata>) -> GraphBuild)

  /** The fields of the adapter. `rootModule` and `command` are nil-able pointers. */
  datatype State = State(
    metadata: Metadata,
    rootModule: Option<Package>,
    command: Option<CmdOptions>,
    basepath: string,
    version: string,
    pkgs: seq<WorkerPackage>,
    metainfo: map<string, ModuleMetadata>,
    allModules: seq<Package>)

  /** New: the PyPI metadata with slug "poetry", the lock file as the only
      manifest, and every other field at its zero value. */
  function New(): (s: State)
    ensures s.metadata.Slug == "poetry" && s.metadata.Manifest == [ManifestLockFile]
    ensures s.metadata.ModulePath == [] && s.rootModule.None? && s.command.None?
    ensures s.pkgs == [] && s.allModules == [] && s.metainfo == map[]
  {
    State(Metadata("The Python Package Index (PyPI)", CmdName, [ManifestLockFile], []),
          None, None, "", "", [], map[], [])
  }

  /** The index of the first element satisfying `p`, or |xs| when none does. */
  function FirstIndex<T>(xs: seq<T>, p: T -> bool): (k: nat)
    ensures k <= |xs|
    ensures forall j :: 0 <= j < k ==> !p(xs[j])
    ensures k < |xs| ==> p(xs[k])
  {
    if xs == [] then 0
    else if p(xs[0]) then 0
    else 1 + FirstIndex(xs[1..], p)
  }

  /** Any index that is a match and has no match before it is the first index. */
  lemma FirstIndexUnique<T>(xs: seq<T>, p: T -> bool, k: nat)
    requires k <= |xs|
    requires forall j :: 0 <= j < k ==> !p(xs[j])
    requires k < |xs| ==> p(xs[k])
    ensures FirstIndex(xs, p) == k
  {
  }

  // ---------------------------------------------------------------------
  // Validity and commands
  // ---------------------------------------------------------------------

  /** IsValid: some manifest file of the metadata exists under `path`. */
  predicate IsValid(s: State, e: Env, path: string): (r: bool)
    ensures r <==> exists f :: f in s.metadata.Manifest && e.Exists(path, f)
  {
    exists i :: 0 <= i < |s.metadata.Manifest| && e.Exists(path, s.metadata.Manifest[i])
  }

  /** A new adapter is valid exactly where a poetry.lock exists. */
  lemma NewIsValid(e: Env, path: string)
    ensures IsValid(New(), e, path) <==> e.Exists(path, ManifestLockFile)
  {
    if e.Exists(path, ManifestLockFile) {
      assert New().metadata.Manifest[0] == ManifestLockFile;
    }
  }

  /** buildCmd: refuses any command whose first word is not "poetry";
      otherwise stores the new command (even when Build then fails) and
      returns Build's error. Only `command` ever changes. */
  function BuildCmd(s: State, e: Env, cmd: string, path: string): (r: (State, Option<Error>))
    ensures r.0 == s.(command := r.0.command)
    ensures r.1.None? ==> r.0.command.Some?
    ensures r.0.command != s.command ==> e.Parse(cmd).Head == CmdName
  {
    var args := e.Parse(cmd);
    if args.Head != CmdName then (s, Some(NoPipCommand))
    else
      var opts := CmdOptions(args.Head, args.Tail, path);
      (s.(command := Some(opts)), e.Build(opts))
  }

  /** A command that is not poetry's is refused with NoPipCommand and leaves the state as it was. */
  lemma BuildCmdRefusesOtherCommands(s: State, e: Env, cmd: string, path: string)
    requires e.Parse(cmd).Head != CmdName
    ensures BuildCmd(s, e, cmd, path) == (s, Some(NoPipCommand))
  {
  }

  /** A poetry command is stored with its arguments and directory, whatever Build says. */
  lemma BuildCmdStoresCommand(s: State, e: Env, cmd: string, path: string)
    requires e.Parse(cmd).Head == CmdName
    ensures BuildCmd(s, e, cmd, path).0.command ==
      Some(CmdOptions(CmdName, e.Parse(cmd).Tail, path))
    ensures BuildCmd(s, e, cmd, path).1 == e.Build(CmdOptions(CmdName, e.Parse(cmd).Tail, path))
  {
  }

  /** True when the command output says modules are installed. */
  predicate Installed(e: Env, out: Output) {
    out.Err.None? && |out.Text| > 0 && e.IsRequirementMeet(out.Text)
  }

  /** HasModulesInstalled: runs the modules command in the base path (the
      `path` argument is not used). */
  function HasModulesInstalled(s: State, e: Env, path: string): (r: (State, Option<Error>))
    ensures r.0 == BuildCmd(s, e, e.ModulesCmd, s.basepath).0
  {
    var (s1, err) := BuildCmd(s, e, e.ModulesCmd, s.basepath);
    if err.Some? then (s1, err)
    else if Installed(e, e.Run(s1.command.value)) then (s1, None)
    else (s1, Some(DependenciesNotFound))
  }

  /** Success exactly when the command could be built and its output shows
      installed modules; every other failure is DependenciesNotFound unless
      building the command failed. */
  lemma HasModulesInstalledResult(s: State, e: Env, path: string, other: string)
    ensures var (s1, buildErr) := BuildCmd(s, e, e.ModulesCmd, s.basepath);
      var err := HasModulesInstalled(s, e, path).1;
      && (err.None? <==> buildErr.None? && Installed(e, e.Run(s1.command.value)))
      && (buildErr.Some? ==> err == buildErr)
      && (buildErr.None? && err.Some? ==> err == Some(DependenciesNotFound))
    ensures HasModulesInstalled(s, e, path) == HasModulesInstalled(s, e, other)
  {
  }

  /** GetVersion: runs the version command. On an output error the answer is
      ("Python", VersionNotFound); `version` takes the short form of the
      output whether or not the command failed. */
  function GetVersion(s: State, e: Env): (r: (State, string, Option<Error>))
    ensures r.0 == s.(command := r.0.command, version := r.0.version)
    ensures r.2.Some? ==> r.1 in {"", "Python"}
  {
    var (s1, err) := BuildCmd(s, e, e.VersionCmd, s.basepath);
    if err.Some? then (s1, "", err)
    else
      var out := e.Run(s1.command.value);
      var s2 := s1.(version := e.GetShortPythonVersion(out.Text));
      if out.Err.Some? then (s2, "Python", Some(VersionNotFound))
      else (s2, out.Text, None)
  }

  lemma GetVersionResult(s: State, e: Env)
    ensures var (s1, buildErr) := BuildCmd(s, e, e.VersionCmd, s.basepath);
      var (s2, v, err) := GetVersion(s, e);
      && (buildErr.Some? ==> s2 == s1 && v == "" && err == buildErr)
      && (buildErr.None? ==>
            var out := e.Run(s1.command.value);
            && s2 == s1.(version := e.GetShortPythonVersion(out.Text))
            && (out.Err.Some? ==> v == "Python" && err == Some(VersionNotFound))
            && (out.Err.None? ==> v == out.Text && err.None?))
  {
  }

  /** SetRootModule: records the base path and never fails. */
  function SetRootModule(s: State, path: string): (r: (State, Option<Error>))
    ensures r.1.None?
    ensures r.0 == s.(basepath := path)
  {
    (s.(basepath := path), None)
  }

  lemma SetRootModuleIdempotent(s: State, path: string)
    ensures SetRootModule(SetRootModule(s, path).0, path) == SetRootModule(s, path)
  {
  }

  // ---------------------------------------------------------------------
  // Root module
  // ---------------------------------------------------------------------

  /** fetchRootModule: the first module marked Root, or the empty package. */
  function FetchRootModule(mods: seq<Package>): (r: Package)
    ensures r.Root ==> exists k :: 0 <= k < |mods| && r == mods[k]
  {
    var k := FirstIndex(mods, (m: Package) => m.Root);
    if k < |mods| then mods[k] else EmptyPackage()
  }

  /** The first Root module is the answer; without one, the empty package is. */
  lemma FetchRootModuleFirstMatch(mods: seq<Package>, k: nat)
    requires k < |mods| && mods[k].Root
    requires forall j :: 0 <= j < k ==> !mods[j].Root
    ensures FetchRootModule(mods) == mods[k]
  {
    FirstIndexUnique(mods, (m: Package) => m.Root, k);
  }

  lemma FetchRootModuleNoRoot(mods: seq<Package>)
    requires forall j :: 0 <= j < |mods| ==> !mods[j].Root
    ensures FetchRootModule(mods) == EmptyPackage()
  {
    FirstIndexUnique(mods, (m: Package) => m.Root, |mods|);
  }

  /** GetRootModule: computes the root on the first call and caches it; never fails. */
  function GetRootModule(s: State, path: string): (r: (State, Package, Option<Error>))
    ensures r.2.None?
    ensures r.0.rootModule == Some(r.1)
    ensures r.0 == s.(rootModule := r.0.rootModule)
    ensures s.rootModule.Some? ==> r == (s, s.rootModule.value, None)
    ensures s.rootModule.None? ==> r.1 == FetchRootModule(s.allModules)
  {
    if s.rootModule.None? then
      var root := FetchRootModule(s.allModules);
      (s.(rootModule := Some(root)), root, None)
    else (s, s.rootModule.value, None)
  }

  /** The first call answers with the first Root module (or the empty
      package); every later call answers the same, even after allModules
      has been replaced. */
  lemma GetRootModuleCaches(s: State, path: string, later: seq<Package>, path2: string)
    requires s.rootModule.None?
    ensures GetRootModule(s, path).1 == FetchRootModule(s.allModules)
    ensures var s1 := GetRootModule(s, path).0;
      GetRootModule(s1.(allModules := later), path2).1 == GetRootModule(s, path).1
  {
  }

  // ---------------------------------------------------------------------
  // Loading the module list
  // ---------------------------------------------------------------------

  /** markRootModue: sets Root on the first package that IsRootModule
      accepts for the adapter's slug, and on no other. */
  function MarkRootModule(pkgs: seq<WorkerPackage>, slug: string, e: Env): (r: seq<WorkerPackage>)
    ensures |r| == |pkgs|
    ensures forall i :: 0 <= i < |pkgs| && r[i] != pkgs[i] ==>
      && r[i] == pkgs[i].(Root := true)
      && e.IsRootModule(pkgs[i], slug)
      && forall j :: 0 <= j < i ==> !e.IsRootModule(pkgs[j], slug)
  {
    var k := FirstIndex(pkgs, (p: WorkerPackage) => e.IsRootModule(p, slug));
    if k < |pkgs| then pkgs[k := pkgs[k].(Root := true)] else pkgs
  }

  /** When some package is a root candidate, the first one is marked Root. */
  lemma MarkRootModuleMarksFirst(pkgs: seq<WorkerPackage>, slug: string, e: Env, k: nat)
    requires k < |pkgs| && e.IsRootModule(pkgs[k], slug)
    requires forall j :: 0 <= j < k ==> !e.IsRootModule(pkgs[j], slug)
    ensures MarkRootModule(pkgs, slug, e) == pkgs[k := pkgs[k].(Root := true)]
  {
    FirstIndexUnique(pkgs, (p: WorkerPackage) => e.IsRootModule(p, slug), k);
  }

  /** When no package is a root candidate, nothing is marked. */
  lemma MarkRootModuleNoCandidate(pkgs: seq<WorkerPackage>, slug: string, e: Env)
    requires forall j :: 0 <= j < |pkgs| ==> !e.IsRootModule(pkgs[j], slug)
    ensures MarkRootModule(pkgs, slug, e) == pkgs
  {
    FirstIndexUnique(pkgs, (p: WorkerPackage) => e.IsRootModule(p, slug), |pkgs|);
  }

  /** PushRootModuleToVenv: runs the install command. It fails only when the
      command cannot be built; an output error reads as "not pushed". */
  function PushRootModuleToVenv(s: State, e: Env): (r: (State, bool, Option<Error>))
    ensures r.0 == BuildCmd(s, e, e.InstallRootModuleCmd, s.basepath).0
    ensures r.2 == BuildCmd(s, e, e.InstallRootModuleCmd, s.basepath).1
    ensures r.1 ==> r.2.None?
    ensures var (s1, err) := BuildCmd(s, e, e.InstallRootModuleCmd, s.basepath);
      r.1 <==> err.None? && e.Run(s1.command.value).Err.None? && |e.Run(s1.command.value).Text| > 0
  {
    var (s1, err) := BuildCmd(s, e, e.InstallRootModuleCmd, s.basepath);
    if err.Some? then (s1, false, err)
    else
      var out := e.Run(s1.command.value);
      if out.Err.None? && |out.Text| > 0 then (s1, true, None) else (s1, false, None)
  }

  /** LoadModuleList: after the push, runs the modules command (ignoring a
      failure to build it, in which case the previous command runs again)
      and, when its output shows installed modules, replaces pkgs with the
      loaded list, the root one marked. Returns the output's error. */
  function LoadModuleList(s: State, e: Env, path: string): (r: (State, Option<Error>))
    ensures r.0 == s.(command := r.0.command, pkgs := r.0.pkgs)
    ensures r.0.pkgs != s.pkgs ==> r.1.None?
  {
    var (s1, state, err) := PushRootModuleToVenv(s, e);
    if err.Some? && !state then (s1, err)
    else
      var (s2, _) := BuildCmd(s1, e, e.ModulesCmd, s1.basepath);
      var out := e.Run(s2.command.value);
      if Installed(e, out) then
        (s2.(pkgs := MarkRootModule(e.LoadModules(out.Text, s2.version), s2.metadata.Slug, e)), out.Err)
      else (s2, out.Err)
  }

  /** LoadModuleList changes only `command` and `pkgs`. A failed push is
      returned with nothing else done; otherwise the modules output's error
      is returned, and `pkgs` becomes the loaded list with its root marked
      exactly when that output shows installed modules. */
  lemma LoadModuleListEffect(s: State, e: Env, path: string)
    ensures var (s', err) := LoadModuleList(s, e, path);
      var (s1, _, pushErr) := PushRootModuleToVenv(s, e);
      && s' == s.(command := s'.command, pkgs := s'.pkgs)
      && (s'.pkgs != s.pkgs ==> err.None?)
      && (pushErr.Some? ==> s' == s1 && err == pushErr)
      && (pushErr.None? ==>
            var s2 := BuildCmd(s1, e, e.ModulesCmd, s1.basepath).0;
            var out := e.Run(s2.command.value);
            && s'.command == s2.command
            && err == out.Err
            && (Installed(e, out) ==>
                  s'.pkgs == MarkRootModule(e.LoadModules(out.Text, s.version), s.metadata.Slug, e))
            && (!Installed(e, out) ==> s'.pkgs == s.pkgs))
      && (err.None? <==>
            var s2 := BuildCmd(s1, e, e.ModulesCmd, s1.basepath).0;
            pushErr.None? && e.Run(s2.command.value).Err.None?)
  {
  }

  // ---------------------------------------------------------------------
  // Module lists
  // ---------------------------------------------------------------------

  /** ListUsedModules: loads the list, then converts metadata into modules.
      A load failure answers the current modules with FailedToConvertModules;
      a conversion failure answers the converted modules with its own error;
      metainfo is replaced only on success. */
  function ListUsedModules(s: State, e: Env, path: string): (r: (State, seq<Package>, Option<Error>))
    ensures r.1 == r.0.allModules
  {
    var (s1, err) := LoadModuleList(s, e, path);
    if err.Some? then (s1, s1.allModules, Some(FailedToConvertModules))
    else
      var c := e.ConvertMetadataToModules(s1.pkgs, s1.allModules);
      var s2 := s1.(allModules := c.Modules);
      if c.Err.Some? then (s2, s2.allModules, c.Err)
      else (s2.(metainfo := c.Metainfo), s2.allModules, None)
  }

  lemma ListUsedModulesResult(s: State, e: Env, path: string)
    ensures var (s1, loadErr) := LoadModuleList(s, e, path);
      var (s', mods, err) := ListUsedModules(s, e, path);
      && (loadErr.Some? ==> mods == s.allModules && err == Some(FailedToConvertModules) && s' == s1)
      && (loadErr.None? ==>
            var c := e.ConvertMetadataToModules(s1.pkgs, s1.allModules);
            && mods == c.Modules && err == c.Err
            && s' == s1.(allModules := c.Modules,
                         metainfo := if c.Err.None? then c.Metainfo else s1.metainfo))
      && (s'.metainfo == if err.None? then e.ConvertMetadataToModules(s1.pkgs, s1.allModules).Metainfo
                         else s.metainfo)
  {
    LoadModuleListEffect(s, e, path);
  }

  /** ListModulesWithDeps: the used modules, after caching the root module
      and building the dependency graph; nothing (nil) plus the error when
      either step fails. */
  function ListModulesWithDeps(s: State, e: Env, path: string, globalSettingFile: string)
    : (r: (State, seq<Package>, Option<Error>))
    ensures r.2.Some? ==> r.1 == []
    ensures r.2.None? ==> r.1 == ListUsedModules(s, e, path).1 && r.0.rootModule.Some?
  {
    var (s1, modules, err) := ListUsedModules(s, e, path);
    if err.Some? then (s1, [], err)
    else
      var (s2, _, _) := GetRootModule(s1, path);
      var g := e.BuildDependencyGraph(s2.allModules, s2.metainfo);
      var s3 := s2.(allModules := g.Modules, metainfo := g.Metainfo);
      if g.Err.Some? then (s3, [], g.Err) else (s3, modules, None)
  }

  lemma ListModulesWithDepsResult(s: State, e: Env, path: string, globalSettingFile: string)
    ensures var (s1, used, usedErr) := ListUsedModules(s, e, path);
      var (s', mods, err) := ListModulesWithDeps(s, e, path, globalSettingFile);
      && (usedErr.Some? ==> mods == [] && err == usedErr && s' == s1)
      && (usedErr.None? ==>
            var s2 := GetRootModule(s1, path).0;
            var g := e.BuildDependencyGraph(s1.allModules, s2.metainfo);
            && s' == s2.(allModules := g.Modules, metainfo := g.Metainfo)
            && s'.rootModule.Some?
            && err == g.Err
            && mods == (if g.Err.Some? then [] else used))
  {
  }

  // ---------------------------------------------------------------------
  // Package details
  // ---------------------------------------------------------------------

  /** The metadata command for one package: the placeholder replaced by its name. */
  function DetailsCommand(e: Env, packageName: string): string {
    ReplaceAll(e.MetadataCmd, PlaceholderPkgName, packageName)
  }

  /** Output is called on whatever command is stored after building, so one must be. */
  predicate CanGetPackageDetails(s: State, e: Env, packageName: string) {
    s.command.Some? || e.Parse(DetailsCommand(e, packageName)).Head == CmdName
  }

  /** GetPackageDetails: runs the metadata command for `packageName` (a
      failure to build it is ignored) and answers its output, or "" and the error. */
  function GetPackageDetails(s: State, e: Env, packageName: string): (r: (State, string, Option<Error>))
    requires CanGetPackageDetails(s, e, packageName)
    ensures r.0 == BuildCmd(s, e, DetailsCommand(e, packageName), s.basepath).0
    ensures r.2.Some? ==> r.1 == ""
    ensures var out := e.Run(r.0.command.value);
      r.1 == (if out.Err.Some? then "" else out.Text) && r.2 == out.Err
  {
    var (s1, _) := BuildCmd(s, e, DetailsCommand(e, packageName), s.basepath);
    var out := e.Run(s1.command.value);
    if out.Err.Some? then (s1, "", out.Err) else (s1, out.Text, None)
  }

  /** The stored command carries the template with the placeholder replaced;
      a template without a placeholder is run unchanged. */
  lemma GetPackageDetailsCommand(s: State, e: Env, packageName: string)
    requires e.Parse(DetailsCommand(e, packageName)).Head == CmdName
    ensures GetPackageDetails(s, e, packageName).0.command ==
      Some(CmdOptions(CmdName, e.Parse(ReplaceAll(e.MetadataCmd, "{PACKAGE}", packageName)).Tail, s.basepath))
    ensures (forall i: nat :: !OccursAt(e.MetadataCmd, PlaceholderPkgName, i)) ==>
      DetailsCommand(e, packageName) == e.MetadataCmd
  {
    if forall i: nat :: !OccursAt(e.MetadataCmd, PlaceholderPkgName, i) {
      ReplaceAllAbsent(e.MetadataCmd, PlaceholderPkgName, packageName);
    }
  }

  // ---------------------------------------------------------------------
  // Invariant: the metadata is fixed at construction
  // ---------------------------------------------------------------------

  lemma MetadataNeverChanges(s: State, e: Env, path: string, other: string, name: string)
    ensures HasModulesInstalled(s, e, path).0.metadata == s.metadata
    ensures GetVersion(s, e).0.metadata == s.metadata
    ensures SetRootModule(s, path).0.metadata == s.metadata
    ensures GetRootModule(s, path).0.metadata == s.metadata
    ensures LoadModuleList(s, e, path).0.metadata == s.metadata
    ensures ListUsedModules(s, e, path).0.metadata == s.metadata
    ensures ListModulesWithDeps(s, e, path, other).0.metadata == s.metadata
    ensures CanGetPackageDetails(s, e, name) ==> GetPackageDetails(s, e, name).0.metadata == s.metadata
  {
    LoadModuleListEffect(s, e, path);
  }
}
