/** The values exchanged with the pip worker helpers. Only `Root` of a
    worker package is read or written by the poetry adapter. */
module Worker {
  import opened Wrappers
  import opened Errors
  import opened Meta

  /** worker.Packages: one entry of the installed-module listing. */
  datatype WorkerPackage = WorkerPackage(Name: string, Version: string, Root: bool)

  /** worker.Metadata: what the metadata command reported for one package. */
  datatype ModuleMetadata = ModuleMetadata(Name: string, Version: string, Dependencies: seq<string>)

  /** What ConvertMetadataToModules leaves behind: the metadata by name, the
      module list it wrote through its pointer argument, and its error. */
  datatype Conversion = Conversion(
    Metainfo: map<string, ModuleMetadata>,
    Modules: seq<Package>,
    Err: Option<Error>)

  /** What BuildDependencyGraph leaves behind in the two structures it is
      given by pointer, and its error. */
  datatype GraphBuild = GraphBuild(
    Modules: seq<Package>,
    Metainfo: map<string, ModuleMetadata>,
    Err: Option<Error>)
}
