/** The pip dispatcher of pip/handler.go: IsValid tries pipenv, poetry and
    pyenv in that order and keeps the first whose validity check passes;
    every other method forwards to the kept sub-adapter.

    Poetry is the adapter of module Poetry. Pipenv and pyenv are described
    only by what they answer: an `ExternalAdapter` holds their validity
    check and the results of their methods. */
module Pip {
  import opened Wrappers
  import opened Meta
  import opened Plugin
  import opened Errors
  import PS = PoetryState
  import P = Poetry

  /** A sub-adapter known only through its answers. */
  datatype ExternalAdapter = ExternalAdapter(
    Metadata: Metadata,
    IsValid: string -> bool,
    HasModulesInstalled: string -> Option<Error>,
    GetVersion: (string, Option<Error>),
    SetRootModule: string -> Option<Error>,
    GetRootModule: string -> (Package, Option<Error>),
    ListUsedModules: string -> (seq<Package>, Option<Error>),
    ListModulesWithDeps: (string, string) -> (seq<Package>, Option<Error>))

  /** The sub-adapter kept in the `plugin` field. */
  datatype SubAdapter =
    | PipenvAdapter(adapter: ExternalAdapter)
    | PoetryAdapter(poetry: P.Poetry)
    | PyenvAdapter(adapter: ExternalAdapter)

  class Pip {
    var plugin: Option<SubAdapter>

    /** New: no sub-adapter chosen yet (a nil plugin). */
    constructor ()
      ensures plugin == None
    {
      plugin := None;
    }

    /** What a forwarded call may change: the poetry object, if that is the one kept. */
    function Footprint(): set<object>
      reads this
    {
      if plugin.Some? && plugin.value.PoetryAdapter? then {plugin.value.poetry} else {}
    }

    /** GetMetadata: the kept sub-adapter's metadata. */
    function GetMetadata(): Metadata
      requires plugin.Some?
      reads this, Footprint()
    {
      match plugin.value
      case PipenvAdapter(a) => a.Metadata
      case PoetryAdapter(p) => p.GetMetadata()
      case PyenvAdapter(a) => a.Metadata
    }

    /** IsValid: keeps the first of pipenv, poetry (a new one) and pyenv that
        is valid for `path`; when none is, answers false and keeps the old choice. */
    method IsValid(path: string, e: PS.Env, pipenv: ExternalAdapter, pyenv: ExternalAdapter)
      returns (ok: bool)
      modifies this
      ensures ok == (pipenv.IsValid(path) || PS.IsValid(PS.New(), e, path) || pyenv.IsValid(path))
      ensures !ok ==> plugin == old(plugin)
      ensures pipenv.IsValid(path) ==> plugin == Some(PipenvAdapter(pipenv))
      ensures !pipenv.IsValid(path) && PS.IsValid(PS.New(), e, path) ==>
        && plugin.Some? && plugin.value.PoetryAdapter?
        && fresh(plugin.value.poetry)
        && plugin.value.poetry.State() == PS.New()
        && GetMetadata().Slug == "poetry"
      ensures !pipenv.IsValid(path) && !PS.IsValid(PS.New(), e, path) && pyenv.IsValid(path) ==>
        plugin == Some(PyenvAdapter(pyenv))
    {
      if pipenv.IsValid(path) {
        plugin := Some(PipenvAdapter(pipenv));
        return true;
      }
      var p := new P.Poetry();
      var valid := p.IsValid(e, path);
      if valid {
        plugin := Some(PoetryAdapter(p));
        return true;
      }
      if pyenv.IsValid(path) {
        plugin := Some(PyenvAdapter(pyenv));
        return true;
      }
      return false;
    }

    method HasModulesInstalled(e: PS.Env, path: string) returns (err: Option<Error>)
      requires plugin.Some?
      modifies Footprint()
      ensures plugin.value.PoetryAdapter? ==>
        (plugin.value.poetry.State(), err) ==
        PS.HasModulesInstalled(old(plugin.value.poetry.State()), e, path)
      ensures !plugin.value.PoetryAdapter? ==> err == plugin.value.adapter.HasModulesInstalled(path)
    {
      match plugin.value
      case PoetryAdapter(p) => err := p.HasModulesInstalled(e, path);
      case PipenvAdapter(a) => err := a.HasModulesInstalled(path);
      case PyenvAdapter(a) => err := a.HasModulesInstalled(path);
    }

    method GetVersion(e: PS.Env) returns (v: string, err: Option<Error>)
      requires plugin.Some?
      modifies Footprint()
      ensures plugin.value.PoetryAdapter? ==>
        (plugin.value.poetry.State(), v, err) == PS.GetVersion(old(plugin.value.poetry.State()), e)
      ensures !plugin.value.PoetryAdapter? ==> (v, err) == plugin.value.adapter.GetVersion
    {
      match plugin.value
      case PoetryAdapter(p) => v, err := p.GetVersion(e);
      case PipenvAdapter(a) => v, err := a.GetVersion.0, a.GetVersion.1;
      case PyenvAdapter(a) => v, err := a.GetVersion.0, a.GetVersion.1;
    }

    method SetRootModule(path: string) returns (err: Option<Error>)
      requires plugin.Some?
      modifies Footprint()
      ensures plugin.value.PoetryAdapter? ==>
        (plugin.value.poetry.State(), err) == PS.SetRootModule(old(plugin.value.poetry.State()), path)
      ensures !plugin.value.PoetryAdapter? ==> err == plugin.value.adapter.SetRootModule(path)
    {
      match plugin.value
      case PoetryAdapter(p) => err := p.SetRootModule(path);
      case PipenvAdapter(a) => err := a.SetRootModule(path);
      case PyenvAdapter(a) => err := a.SetRootModule(path);
    }

    method GetRootModule(path: string) returns (root: Package, err: Option<Error>)
      requires plugin.Some?
      modifies Footprint()
      ensures plugin.value.PoetryAdapter? ==>
        (plugin.value.poetry.State(), root, err) ==
        PS.GetRootModule(old(plugin.value.poetry.State()), path)
      ensures !plugin.value.PoetryAdapter? ==> (root, err) == plugin.value.adapter.GetRootModule(path)
    {
      match plugin.value
      case PoetryAdapter(p) => root, err := p.GetRootModule(path);
      case PipenvAdapter(a) => root, err := a.GetRootModule(path).0, a.GetRootModule(path).1;
      case PyenvAdapter(a) => root, err := a.GetRootModule(path).0, a.GetRootModule(path).1;
    }

    method ListUsedModules(e: PS.Env, path: string) returns (modules: seq<Package>, err: Option<Error>)
      requires plugin.Some?
      modifies Footprint()
      ensures plugin.value.PoetryAdapter? ==>
        (plugin.value.poetry.State(), modules, err) ==
        PS.ListUsedModules(old(plugin.value.poetry.State()), e, path)
      ensures !plugin.value.PoetryAdapter? ==> (modules, err) == plugin.value.adapter.ListUsedModules(path)
    {
      match plugin.value
      case PoetryAdapter(p) => modules, err := p.ListUsedModules(e, path);
      case PipenvAdapter(a) => modules, err := a.ListUsedModules(path).0, a.ListUsedModules(path).1;
      case PyenvAdapter(a) => modules, err := a.ListUsedModules(path).0, a.ListUsedModules(path).1;
    }

    method ListModulesWithDeps(e: PS.Env, path: string, globalSettingFile: string)
      returns (modules: seq<Package>, err: Option<Error>)
      requires plugin.Some?
      modifies Footprint()
      ensures plugin.value.PoetryAdapter? ==>
        (plugin.value.poetry.State(), modules, err) ==
        PS.ListModulesWithDeps(old(plugin.value.poetry.State()), e, path, globalSettingFile)
      ensures !plugin.value.PoetryAdapter? ==>
        (modules, err) == plugin.value.adapter.ListModulesWithDeps(path, globalSettingFile)
    {
      match plugin.value
      case PoetryAdapter(p) => modules, err := p.ListModulesWithDeps(e, path, globalSettingFile);
      case PipenvAdapter(a) =>
        modules, err := a.ListModulesWithDeps(path, globalSettingFile).0, a.ListModulesWithDeps(path, globalSettingFile).1;
      case PyenvAdapter(a) =>
        modules, err := a.ListModulesWithDeps(path, globalSettingFile).0, a.ListModulesWithDeps(path, globalSettingFile).1;
    }
  }
}
