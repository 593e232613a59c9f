# Dependency metadata: package model, poetry adapter and pip dispatcher

A Dafny model of three pieces of a Go library that collects dependency
metadata for bill-of-materials generation:

- **The canonical package model** (`meta/package.go`). It covers the
  `Package` record, the `Supplier` rendering with its override hook and
  email sentinels, the memoised `Checksum` digest, and the case-insensitive
  `GetHashAlgorithm` lookup. These are modelled as functions. `Supplier.Get`
  and `Checksum.String` write a field through their pointer receiver, so
  each returns its result together with the updated record. The digest is
  an abstract `Hasher`. Hex encoding is modelled, and its inverse is proved.
- **The poetry adapter** (`pip/poetry/handler.go`). Module `PoetryState`
  gives one transition function per method, from the adapter's fields
  before the call to the fields after it and the method's results. The
  lemmas there state caching, which fields change, and which error goes
  with which result. Module `Poetry` is the adapter as a class with the Go
  struct's fields. Its methods update those fields in place, including the
  marking loop and the first-match search, and each method is proved
  against its transition function.
- **The pip dispatcher** (`pip/handler.go`). It is a class with one
  `plugin` field. `IsValid` tries pipenv, then a new poetry adapter, then
  pyenv, and keeps the first that is valid. Every other method forwards to
  the kept sub-adapter and returns exactly what that sub-adapter returns.

External collaborators are parameters. `PoetryState.Env` bundles the
command runner (`Parse`, `Build`, `Run`), the file-existence check, the
command templates and the `worker` helpers. `Meta.Hasher` is the digest.
pipenv and pyenv are `Pip.ExternalAdapter` records that hold their
validity check and the answers of their methods.

Three behaviours of the code that a reader might not expect, all kept by
the model:
- `Supplier.Get` writes `Organization` into an empty `Type`
  (meta/package.go:71-73), so it is not a pure read.
- `GetVersion` reports `VersionNotFound` only when `Output` returns an
  error, so an empty output is returned as the version, with no error
  (pip/poetry/handler.go:82-87).
- When the modules command cannot be built, `HasModulesInstalled` returns
  that build error, not "dependencies not found"
  (pip/poetry/handler.go:67-69).

## Model

| member | source | states |
|---|---|---|
| GoStrings.ToUpper | meta/package.go:128 | ASCII upper-casing keeps the length and maps each character on its own |
| GoStrings.ToLower | meta/package.go:55 | ASCII lower-casing keeps the length and maps each character on its own |
| GoStrings.ToUpperIdempotent | meta/package.go:128 | upper-casing an upper-cased string changes nothing |
| GoStrings.ToUpperOfLower | meta/package.go:128 | lower-casing first does not change the upper-cased form |
| GoStrings.ReplaceAll | pip/poetry/handler.go:152 | a template in which the placeholder is never found is returned unchanged |
| GoStrings.ReplaceAllLength | pip/poetry/handler.go:152 | each replaced placeholder changes the length by the difference between the name and the placeholder |
| GoStrings.ReplaceAllAbsent | pip/poetry/handler.go:152 | a template with no placeholder is returned unchanged |
| GoStrings.ReplaceAllBySelf | pip/poetry/handler.go:152 | replacing the placeholder by itself gives back the template |
| Meta.EmailIsEmpty | meta/package.go:54-59 | a missing email counts as empty, and an email that counts as empty has the length of "", "none" or "unknown" |
| Meta.EmailIsEmptyIgnoresCase | meta/package.go:54-59 | whether the email counts as empty ("", "none", "unknown") does not depend on its letter case |
| Meta.Get | meta/package.go:62-81 | Get never changes Name, Email or the override, and changes Type only from "" to Organization |
| Meta.GetWithOverride | meta/package.go:63-65 | with an override installed, the text is the override's result and the supplier is unchanged |
| Meta.GetWithoutName | meta/package.go:67-69 | with no override and an empty Name, the text is "" and Type is not touched |
| Meta.GetDefaultRendering | meta/package.go:71-80 | an empty Type becomes Organization for good; the text is "Type: Name", followed by " (Email)" exactly when the email is not empty |
| Meta.GetIdempotent | meta/package.go:62-81 | a second Get gives the same text and leaves the supplier as the first call left it |
| Meta.GetExampleSentinelEmail | meta/package.go:75-78 | Organization "Acme" with email "none" renders as "Organization: Acme" |
| Meta.GetExampleWithEmail | meta/package.go:75-78 | Person "Jane" with a real email renders as "Person: Jane (jane@x.com)" |
| Meta.GetExampleDefaultType | meta/package.go:71-78 | an empty Type with email "NONE" renders as "Organization: Acme" and stores Organization |
| Meta.GetHashAlgorithm | meta/package.go:127-150 | the lookup is total and lands in the enumeration; it answers "unsupported" exactly when the upper-cased name is not recognised; every recognised name except MD4 maps to itself; the answer is never MD4 |
| Meta.GetHashAlgorithmIgnoresCase | meta/package.go:128 | upper-casing or lower-casing the input does not change the answer |
| Meta.GetHashAlgorithmReadsMd4AsMd2 | meta/package.go:141-142 | "MD4" in any case gives MD2, so MD4 does not map back to itself |
| Meta.GetHashAlgorithmIntended | meta/package.go:139-146 | the corrected lookup agrees with the original on every input except "MD4" |
| Meta.GetHashAlgorithmIntendedRoundTrip | meta/package.go:113-124 | with the correction, every named algorithm maps back to itself |
| Meta.HexEncode | meta/package.go:107 | the hex text is lower-case and has two digits per byte |
| Meta.HexRoundTrip | meta/package.go:107 | decoding the hex text gives back the digest bytes |
| Meta.Compute | meta/package.go:96-108 | the result is the lower-case hex of the digest of the given content, under the hash function the algorithm selects |
| Meta.ComputeLength | meta/package.go:98-105 | SHA256 uses SHA-256 (64 hex digits) and SHA512 uses SHA-512 (128); every other algorithm uses SHA-1 (40), including MD5 and "unsupported" |
| Meta.String | meta/package.go:89-94 | a cached Value is returned unchanged, whatever the content or algorithm; otherwise Compute of Content is returned and stored in Value, and it decodes to the digest; Algorithm and Content never change |
| Meta.StringIdempotent | meta/package.go:89-94 | a second String call returns the same text and state as the first |
| Meta.StringFillsCache | meta/package.go:90-92 | with a well-formed hasher the first call fills the cache, so the second call returns the cached Value |
| Meta.EmptyPackage | meta/package.go:18-36 | the zero Package is not the root, has no name or version, and has no children |
| PoetryState.New | pip/poetry/handler.go:39-48 | slug "poetry", manifest ["poetry.lock"], empty module path, no root module, command or modules |
| PoetryState.NewIsValid | pip/poetry/handler.go:56-63 | a new adapter is valid exactly where poetry.lock exists |
| PoetryState.FirstIndex | pip/poetry/handler.go:198-202 | the index of the first match, with no match before it, or the length when nothing matches |
| PoetryState.IsValid | pip/poetry/handler.go:56-63 | valid exactly when some file listed in the manifest exists under the path |
| PoetryState.BuildCmd | pip/poetry/handler.go:134-149 | only `command` can change; success leaves a command stored; the command changes only for a poetry command line |
| PoetryState.BuildCmdRefusesOtherCommands | pip/poetry/handler.go:135-138 | a command whose first word is not "poetry" gives NoPipCommand and leaves the whole state unchanged |
| PoetryState.BuildCmdStoresCommand | pip/poetry/handler.go:140-148 | a poetry command is stored with its arguments and directory even when Build fails; the result is Build's error |
| PoetryState.HasModulesInstalled | pip/poetry/handler.go:66-75 | the only effect is building the modules command in the base path |
| PoetryState.HasModulesInstalledResult | pip/poetry/handler.go:66-75 | success exactly when the command builds and its output is error-free, non-empty and meets the requirement; otherwise DependenciesNotFound unless building failed, in which case the build error; the path argument plays no part |
| PoetryState.GetVersion | pip/poetry/handler.go:78-88 | only `command` and `version` change; on an error the answer is "" or "Python" |
| PoetryState.GetVersionResult | pip/poetry/handler.go:78-88 | a build failure gives "" with the build error; an output error gives "Python" with VersionNotFound; `version` is set from the output whether or not the command failed |
| PoetryState.SetRootModule | pip/poetry/handler.go:91-94 | only basepath is assigned, and the result is always nil |
| PoetryState.SetRootModuleIdempotent | pip/poetry/handler.go:91-94 | setting the same root twice is the same as setting it once |
| PoetryState.FetchRootModule | pip/poetry/handler.go:197-204 | a Root answer is one of the modules |
| PoetryState.FetchRootModuleFirstMatch | pip/poetry/handler.go:198-202 | the answer is the first module marked Root |
| PoetryState.FetchRootModuleNoRoot | pip/poetry/handler.go:203 | with no Root module, the answer is the empty package |
| PoetryState.GetRootModule | pip/poetry/handler.go:97-103 | never an error; a cached root is returned and the state is left as it was; with no cache the answer is FetchRootModule of allModules; afterwards the cache holds the answer; nothing but the cache changes |
| PoetryState.GetRootModuleCaches | pip/poetry/handler.go:97-103 | the first call answers the first Root module; later calls answer the same even after allModules is replaced |
| PoetryState.MarkRootModule | pip/poetry/handler.go:174-181 | the length is kept; an entry changes only by Root := true, and only if it is a root candidate with no candidate before it |
| PoetryState.MarkRootModuleMarksFirst | pip/poetry/handler.go:175-178 | the first root candidate is marked and every other entry is left as it was |
| PoetryState.MarkRootModuleNoCandidate | pip/poetry/handler.go:174-181 | with no root candidate, pkgs is unchanged |
| PoetryState.PushRootModuleToVenv | pip/poetry/handler.go:163-172 | the only failure is a failure to build the install command; "pushed" exactly when the command builds and its output has no error and is non-empty |
| PoetryState.LoadModuleList | pip/poetry/handler.go:183-195 | only `command` and `pkgs` change, and pkgs changes only when no error is returned |
| PoetryState.LoadModuleListEffect | pip/poetry/handler.go:183-195 | only `command` and `pkgs` change; a failed push is returned with the state the push left; otherwise the modules output's error is returned, and pkgs becomes the loaded list with its first root candidate marked exactly when that output is error-free, non-empty and meets the requirement, and stays as it was otherwise |
| PoetryState.ListUsedModules | pip/poetry/handler.go:106-119 | the returned list is the adapter's allModules after the call |
| PoetryState.ListUsedModulesResult | pip/poetry/handler.go:106-119 | a load failure returns the current modules with FailedToConvertModules; otherwise the converted modules with the conversion's error, and the state is the one LoadModuleList left with allModules replaced by the converted modules and metainfo replaced only on success |
| PoetryState.ListModulesWithDeps | pip/poetry/handler.go:122-132 | an error comes with nil; success returns the used modules with the root module cached |
| PoetryState.ListModulesWithDepsResult | pip/poetry/handler.go:122-132 | a failure of ListUsedModules returns nil with its error and the state it left; otherwise the state is the one GetRootModule left with allModules and metainfo replaced by the graph builder's, and the answer is nil with the builder's error or the used modules |
| PoetryState.GetPackageDetails | pip/poetry/handler.go:151-161 | the only effect is building the metadata command; the answer is the stored command's output text and error, with "" in place of the text when there is an error |
| PoetryState.GetPackageDetailsCommand | pip/poetry/handler.go:151-152 | the stored command is the template with every placeholder replaced by the package name, run in the base path |
| PoetryState.MetadataNeverChanges | pip/poetry/handler.go:27-48 | no method changes the metadata set by New |
| Poetry.Poetry.constructor | pip/poetry/handler.go:39-48 | a new adapter's fields are those of PoetryState.New |
| Poetry.Poetry.IsValid | pip/poetry/handler.go:56-63 | the loop answers true exactly when some manifest entry exists under the path |
| Poetry.Poetry.HasModulesInstalled | pip/poetry/handler.go:66-75 | fields and result as PoetryState.HasModulesInstalled |
| Poetry.Poetry.GetVersion | pip/poetry/handler.go:78-88 | fields and results as PoetryState.GetVersion |
| Poetry.Poetry.SetRootModule | pip/poetry/handler.go:91-94 | fields and result as PoetryState.SetRootModule |
| Poetry.Poetry.GetRootModule | pip/poetry/handler.go:97-103 | fields and results as PoetryState.GetRootModule |
| Poetry.Poetry.ListUsedModules | pip/poetry/handler.go:106-119 | fields and results as PoetryState.ListUsedModules |
| Poetry.Poetry.ListModulesWithDeps | pip/poetry/handler.go:122-132 | fields and results as PoetryState.ListModulesWithDeps |
| Poetry.Poetry.BuildCmd | pip/poetry/handler.go:134-149 | fields and result as PoetryState.BuildCmd |
| Poetry.Poetry.GetPackageDetails | pip/poetry/handler.go:151-161 | fields and results as PoetryState.GetPackageDetails |
| Poetry.Poetry.PushRootModuleToVenv | pip/poetry/handler.go:163-172 | fields and results as PoetryState.PushRootModuleToVenv |
| Poetry.Poetry.MarkRootModule | pip/poetry/handler.go:174-181 | the in-place loop leaves pkgs as PoetryState.MarkRootModule of the old pkgs and changes nothing else |
| Poetry.Poetry.LoadModuleList | pip/poetry/handler.go:183-195 | fields and result as PoetryState.LoadModuleList |
| Poetry.Poetry.FetchRootModule | pip/poetry/handler.go:197-204 | the search loop returns the first module marked Root, or the empty package |
| Pip.Pip.constructor | pip/handler.go:19-23 | a new dispatcher has no sub-adapter |
| Pip.Pip.IsValid | pip/handler.go:31-48 | true exactly when pipenv, poetry or pyenv is valid; keeps pipenv if it is valid, else a new poetry adapter (slug "poetry") if that is valid, else pyenv; when none is valid, false and the old choice is kept |
| Pip.Pip.HasModulesInstalled | pip/handler.go:51-53 | returns exactly what the kept sub-adapter returns, and the kept poetry adapter changes as its own method changes it |
| Pip.Pip.GetVersion | pip/handler.go:56-58 | returns exactly what the kept sub-adapter returns |
| Pip.Pip.SetRootModule | pip/handler.go:61-63 | returns exactly what the kept sub-adapter returns |
| Pip.Pip.GetRootModule | pip/handler.go:66-68 | returns exactly what the kept sub-adapter returns |
| Pip.Pip.ListUsedModules | pip/handler.go:71-73 | returns exactly what the kept sub-adapter returns |
| Pip.Pip.ListModulesWithDeps | pip/handler.go:76-78 | returns exactly what the kept sub-adapter returns |

## Left out

- Cryptographic hashing is not modelled. `Meta.Hasher` maps a hash function and content to digest bytes. `WellFormedHasher` only requires the standard digest lengths.
- `strings.ToUpper` and `strings.ToLower` are modelled for ASCII only. Unicode case mapping is not modelled.
- `strings.ReplaceAll` is modelled only for a non-empty pattern. Go's special case for an empty pattern never arises, because the placeholder `{PACKAGE}` is a constant.
- Process execution and the filesystem are function parameters: `Parse`, `Build`, `Run` and `Exists`, where `Exists` stands for `Exists(Join(dir, file))`. `Run` is a fixed function of the command options. As a result, the model does not capture a command whose effects change what a later command prints, such as the root-module install.
- `command.Parse` is modelled as always returning at least one word, because the adapter reads word 0 without a check.
- The command templates (`ModulesCmd`, `VersionCmd`, `MetadataCmd`, `InstallRootModuleCmd`) are defined outside the shown files. They are fields of `Env`.
- The `worker` helpers are function parameters: `LoadModules`, `IsRequirementMeet`, `IsRootModule`, `GetShortPythonVersion`, the metadata decoder and `BuildDependencyGraph`. The decoder calls back into `GetPackageDetails`, and each of those calls rebuilds `command`. That is folded into the decoder's result, so after `ListUsedModules` the model's `command` is the one `LoadModuleList` left.
- PoetryState.ListModulesWithDeps: returns the module list as it was before the graph was built. In Go the returned slice shares its backing array with `allModules`. Updates that `BuildDependencyGraph` makes to elements in place may therefore show in the result, and the model does not capture this aliasing.
- PoetryState.GetRootModule: caches the root module as a value. In Go, `fetchRootModule` returns a copy of the element of `allModules`, and that copy shares its `Packages` map with the element. `ListModulesWithDeps` then hands `allModules` to `BuildDependencyGraph`, so children the builder adds can show up in the cached root. The model does not capture this sharing.
- PoetryState.GetPackageDetails: requires that a command is stored after building. Otherwise Go calls `Output` on a nil command and panics.
- Meta.Get: the override `FuncGetSupplier` is modelled as a pure function of no arguments. In Go it is a closure that a plugin supplies, and it may keep state, so two calls need not return the same text.
- Meta.GetIdempotent: holds in the override case only because the override is modelled as pure (see Meta.Get above).
- pipenv and pyenv are not shown. They are modelled as fixed answers per argument, with no state of their own.
- A nil slice is modelled as the empty sequence. Go code cannot tell the two apart by length or by ranging over them.
- Not modelled: the `OtherLicense` payload (`license.License`), JSON tags, the error message texts (distinct error values stand for them), and the unused `manifestFile` constant.
- `GetMetadata` on both adapters has no contract of its own; it only returns the field. That the slug is "poetry" once poetry is selected is stated by `Pip.Pip.IsValid`.
- Not stated: that `ListUsedModules` gives equal results when called twice. This depends on whether the decoder appends to or replaces the module list, and that code is not shown.
- Not modelled: the lock-file parser exercised by `npm/reader_test.go` and the dependency-graph builder. Their code is not part of this model.

## Findings

| source | as written | input that shows it | evidently intended | confidence | as-written member | corrected member |
|---|---|---|---|---|---|---|
| meta/package.go:141-142 | the case "MD4" returns HashAlgoMD2 | `GetHashAlgorithm("md4")` is "MD2", so `GetHashAlgorithm(HashAlgoMD4)` is not MD4 | return HashAlgoMD4, like every other case returns its own constant | high; not executed | Meta.GetHashAlgorithmReadsMd4AsMd2 | Meta.GetHashAlgorithmIntendedRoundTrip |
