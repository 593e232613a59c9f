/** The poetry adapter as the object pip/poetry/handler.go makes it: a
    class with the struct's fields, whose methods update them in place.
    Every method is proved against its transition in PoetryState. */
module Poetry {
  import opened Wrappers
  import opened GoStrings
  import opened Meta
  import opened Plugin
  import opened Errors
  import opened Helper
  import opened Worker
  import PS = PoetryState

  class Poetry {
    var metadata: Metadata
    var rootModule: Option<Package>
    var command: Option<CmdOptions>
    var basepath: string
    var version: string
    var pkgs: seq<WorkerPackage>
    var metainfo: map<string, ModuleMetadata>
    var allModules: seq<Package>

    /** The fields as one value. */
    function State(): PS.State
      reads this
    {
      PS.State(metadata, rootModule, command, basepath, version, pkgs, metainfo, allModules)
    }

    /** New. */
    constructor ()
      ensures State() == PS.New()
    {
      metadata := Metadata("The Python Package Index (PyPI)", PS.CmdName, [PS.ManifestLockFile], []);
      rootModule := None;
      command := None;
      basepath := "";
      version := "";
      pkgs := [];
      metainfo := map[];
      allModules := [];
    }

    function GetMetadata(): Metadata
      reads this
    {
      metadata
    }

    method IsValid(e: PS.Env, path: string) returns (ok: bool)
      ensures ok == PS.IsValid(State(), e, path)
    {
      for i := 0 to |metadata.Manifest|
        invariant forall j :: 0 <= j < i ==> !e.Exists(path, metadata.Manifest[j])
      {
        if e.Exists(path, metadata.Manifest[i]) {
          return true;
        }
      }
      return false;
    }

    method HasModulesInstalled(e: PS.Env, path: string) returns (err: Option<Error>)
      modifies this
      ensures (State(), err) == PS.HasModulesInstalled(old(State()), e, path)
    {
      err := BuildCmd(e, e.ModulesCmd, basepath);
      if err.Some? {
        return;
      }
      var out := e.Run(command.value);
      if out.Err.None? && |out.Text| > 0 && e.IsRequirementMeet(out.Text) {
        return None;
      }
      return Some(DependenciesNotFound);
    }

    method GetVersion(e: PS.Env) returns (v: string, err: Option<Error>)
      modifies this
      ensures (State(), v, err) == PS.GetVersion(old(State()), e)
    {
      err := BuildCmd(e, e.VersionCmd, basepath);
      if err.Some? {
        return "", err;
      }
      var out := e.Run(command.value);
      version := e.GetShortPythonVersion(out.Text);
      if out.Err.Some? {
        return "Python", Some(VersionNotFound);
      }
      return out.Text, out.Err;
    }

    method SetRootModule(path: string) returns (err: Option<Error>)
      modifies this
      ensures (State(), err) == PS.SetRootModule(old(State()), path)
    {
      basepath := path;
      return None;
    }

    method GetRootModule(path: string) returns (root: Package, err: Option<Error>)
      modifies this
      ensures (State(), root, err) == PS.GetRootModule(old(State()), path)
    {
      if rootModule.None? {
        var fetched := FetchRootModule();
        rootModule := Some(fetched);
      }
      return rootModule.value, None;
    }

    method ListUsedModules(e: PS.Env, path: string) returns (modules: seq<Package>, err: Option<Error>)
      modifies this
      ensures (State(), modules, err) == PS.ListUsedModules(old(State()), e, path)
    {
      var loadErr := LoadModuleList(e, path);
      if loadErr.Some? {
        return allModules, Some(FailedToConvertModules);
      }
      var conversion := e.ConvertMetadataToModules(pkgs, allModules);
      allModules := conversion.Modules;
      if conversion.Err.Some? {
        return allModules, conversion.Err;
      }
      metainfo := conversion.Metainfo;
      return allModules, None;
    }

    method ListModulesWithDeps(e: PS.Env, path: string, globalSettingFile: string)
      returns (modules: seq<Package>, err: Option<Error>)
      modifies this
      ensures (State(), modules, err) == PS.ListModulesWithDeps(old(State()), e, path, globalSettingFile)
    {
      modules, err := ListUsedModules(e, path);
      if err.Some? {
        return [], err;
      }
      var _, _ := GetRootModule(path);
      var graph := e.BuildDependencyGraph(allModules, metainfo);
      allModules, metainfo := graph.Modules, graph.Metainfo;
      if graph.Err.Some? {
        return [], graph.Err;
      }
      return modules, None;
    }

    method BuildCmd(e: PS.Env, cmd: string, path: string) returns (err: Option<Error>)
      modifies this
      ensures (State(), err) == PS.BuildCmd(old(State()), e, cmd, path)
    {
      var cmdArgs := e.Parse(cmd);
      if cmdArgs.Head != PS.CmdName {
        return Some(NoPipCommand);
      }
      var options := CmdOptions(cmdArgs.Head, cmdArgs.Tail, path);
      command := Some(options);
      return e.Build(options);
    }

    method GetPackageDetails(e: PS.Env, packageName: string) returns (text: string, err: Option<Error>)
      requires PS.CanGetPackageDetails(State(), e, packageName)
      modifies this
      ensures (State(), text, err) == PS.GetPackageDetails(old(State()), e, packageName)
    {
      var metadataCmd := ReplaceAll(e.MetadataCmd, PS.PlaceholderPkgName, packageName);
      var _ := BuildCmd(e, metadataCmd, basepath);
      var out := e.Run(command.value);
      if out.Err.Some? {
        return "", out.Err;
      }
      return out.Text, None;
    }

    method PushRootModuleToVenv(e: PS.Env) returns (pushed: bool, err: Option<Error>)
      modifies this
      ensures (State(), pushed, err) == PS.PushRootModuleToVenv(old(State()), e)
    {
      err := BuildCmd(e, e.InstallRootModuleCmd, basepath);
      if err.Some? {
        return false, err;
      }
      var out := e.Run(command.value);
      if out.Err.None? && |out.Text| > 0 {
        return true, out.Err;
      }
      return false, None;
    }

    /** markRootModue: marks the first root candidate, in place. */
    method MarkRootModule(e: PS.Env)
      modifies this
      ensures State() == old(State()).(pkgs := PS.MarkRootModule(old(pkgs), metadata.Slug, e))
    {
      for i := 0 to |pkgs|
        invariant State() == old(State())
        invariant forall j :: 0 <= j < i ==> !e.IsRootModule(pkgs[j], metadata.Slug)
      {
        if e.IsRootModule(pkgs[i], metadata.Slug) {
          PS.MarkRootModuleMarksFirst(pkgs, metadata.Slug, e, i);
          pkgs := pkgs[i := pkgs[i].(Root := true)];
          return;
        }
      }
      PS.MarkRootModuleNoCandidate(pkgs, metadata.Slug, e);
    }

    method LoadModuleList(e: PS.Env, path: string) returns (err: Option<Error>)
      modifies this
      ensures (State(), err) == PS.LoadModuleList(old(State()), e, path)
    {
      var state, pushErr := PushRootModuleToVenv(e);
      if pushErr.Some? && !state {
        return pushErr;
      }
      var _ := BuildCmd(e, e.ModulesCmd, basepath);
      var out := e.Run(command.value);
      if out.Err.None? && |out.Text| > 0 && e.IsRequirementMeet(out.Text) {
        pkgs := e.LoadModules(out.Text, version);
        MarkRootModule(e);
      }
      return out.Err;
    }

    /** fetchRootModule: the first module marked Root, or the empty package. */
    method FetchRootModule() returns (root: Package)
      ensures root == PS.FetchRootModule(allModules)
    {
      for i := 0 to |allModules|
        invariant forall j :: 0 <= j < i ==> !allModules[j].Root
      {
        if allModules[i].Root {
          PS.FetchRootModuleFirstMatch(allModules, i);
          return allModules[i];
        }
      }
      PS.FetchRootModuleNoRoot(allModules);
      return EmptyPackage();
    }
  }
}
