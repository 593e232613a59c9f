/** Go's `error` values as the adapters see them: the sentinel errors that
    pip/poetry/handler.go declares, and any other error a collaborator
    (command runner, worker helpers) reports. Kept in a module of its own
    because the command runner and the worker helpers return them too. */
module Errors {

  datatype Error =
    | DependenciesNotFound
    | BuildingModuleDependencies   // declared by the adapter, never returned by it
    | NoPipCommand
    | VersionNotFound
    | FailedToConvertModules
    | Failure(message: string)
}
