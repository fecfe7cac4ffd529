# The `hab pkg export` dispatcher, modelled in Dafny

This project models the export-format dispatcher of the Habitat package manager
(`components/hab/src/command/pkg/export.rs`). The dispatcher does not export
anything itself. It resolves a format keyword (`docker`, `aci`, `mesos`, `tar`)
to a helper package and the command that package provides. It makes sure the
helper is installed, installing it from the *helper* registry and channel when
the local load fails. It then sets the depot URL and depot channel environment
variables to the *target* registry and channel. Finally it execs the helper
with the target package identifier as its only argument. A non-Linux build
replaces both operations with refusals.

Files:

- `wrappers.dfy`: `Option`, `Result` and `Outcome` (a Rust `Result<(), E>`).
- `ident.dfy`: package identifiers and their string form.
- `export.dfy`: module `Export`. It holds the format table, the effects and the
  pure specification of each operation (`LinuxFormatFor`, `OtherFormatFor`,
  `FormatForRun`, `LinuxStart`, `OtherStart`, `StartRun`). It also holds class
  `Host`, the running process. Its methods perform the same effects step by step
  on a trace of effects and on the process environment, and each is proved
  equal to its specification function.
- `export_properties.dfy`: module `ExportProperties`, the lemmas about those
  specification functions.

Modelling choices:

- The build target (`#[cfg(target_os = "linux")]`) is a `Platform` value
  (`Linux` or `Other`) fixed in each `Host`.
- The collaborators' answers are an input record, `Responses`. It says whether
  `PackageInstall::load` finds the helper, and what `ui.warn`, `ui.br`,
  `ui.status`, `install::start` and `exec::start` return. Each answer is an
  `Outcome<Error>` and may carry any `Error`. A failing `ui.warn`, `ui.br`,
  `ui.status` or `install::start` stands for its error after `?` has converted
  it (export.rs:122, 133, 157-158, 177-178). `exec::start` returns the command's
  own error, which is passed on as is (export.rs:139). `Collaborator(code)` names
  the errors this model does not distinguish.
- The effects are recorded in order as `Effect` values: `Warn`, `Br`,
  `StatusMissing`, `Install` (with every argument the installer receives),
  `SetEnv` and `Exec`.
- `PRODUCT`, `VERSION`, `FS_ROOT_PATH`, `cache_artifact_path(None)`,
  `DEPOT_URL_ENVVAR` and `DEPOT_CHANNEL_ENVVAR` are opaque values in a
  `Constants` record. Their definitions are not part of this model.
- The process arguments (`env::args()`) are the `Host`'s `args` sequence, with
  the program name first.

Two behaviours of the source worth noting:

- The non-Linux `start` warning is fixed text and does not name the format
  (`Warn(None)`). Only the non-Linux `format_for` warning names it
  (export.rs:152-157 against 174-177).
- The `SubcommandNotSupported` payload is process arguments 1 and 2, so
  `hab pkg export tar …` gives `pkg export` (export.rs:172-180,
  `InvocationExamples`).

## Model

| member | source | states |
|---|---|---|
| `Export.LinuxFormatFor` | components/hab/src/command/pkg/export.rs:72-104 | succeeds exactly for the four keywords (case-sensitive); any other keyword gives `UnsupportedExportFormat` carrying the input unchanged; a success is a `core` package whose name equals the non-empty command |
| `Export.OtherFormatFor` | components/hab/src/command/pkg/export.rs:151-161 | off Linux, resolution always fails, and its first effect is a warning naming the requested format |
| `Export.FormatForRun` | components/hab/src/command/pkg/export.rs:49-51 | the public `format_for` succeeds exactly on Linux for one of the four keywords; on Linux it has no effects; elsewhere it starts with a warning naming the format |
| `Export.Invocation` | components/hab/src/command/pkg/export.rs:172-180 | the payload is argument 1, a space, argument 2; each absent argument reads `<unknown>` |
| `Export.LinuxStart` | components/hab/src/command/pkg/export.rs:106-140 | the result is the answer of the first failing collaborator (status call, then installer), else exec's answer; the run ends in exec exactly when the helper is present or provisioning succeeds |
| `Export.OtherStart` | components/hab/src/command/pkg/export.rs:163-182 | always fails; with working UI calls the error is `SubcommandNotSupported(Invocation(args))`; its only effects are warn and br |
| `Export.StartRun` | components/hab/src/command/pkg/export.rs:37-47 | the public `start` always fails off Linux; every install uses the helper registry URL and channel and is not forced; every exported variable is the depot URL variable set to the target URL or the depot channel variable set to the target channel |
| `Export.Host.FormatFor` | components/hab/src/command/pkg/export.rs:49-51 | the public `format_for` returns the platform's resolution result; it appends exactly that variant's effects to the trace and leaves the environment unchanged |
| `Export.Host.FormatForOther` | components/hab/src/command/pkg/export.rs:151-161 | performs warn, then br, stopping at the first UI failure; otherwise it returns `UnsupportedExportFormat(value)` |
| `Export.Host.Start` | components/hab/src/command/pkg/export.rs:37-47 | the public `start` returns the platform's result; the trace grows by exactly that variant's effects, and the environment afterwards is the old one updated by those effects' `SetEnv`s |
| `Export.Host.StartLinux` | components/hab/src/command/pkg/export.rs:106-140 | probes, reports and installs only on a miss (stopping on failure), sets the two depot variables, then execs; result and trace as `LinuxStart`, and the environment is the old one updated by that run's `SetEnv`s |
| `Export.Host.StartOther` | components/hab/src/command/pkg/export.rs:163-182 | off Linux: warn, br, then `SubcommandNotSupported(arg1 + " " + arg2)` with `<unknown>` for a missing argument; result and trace as `OtherStart`, and the environment is unchanged |
| `Export.Host.SetVar` | components/hab/src/command/pkg/export.rs:137-138 | `env::set_var` updates exactly one variable and records it in the trace |
| `ExportProperties.KnownFormats` | components/hab/src/command/pkg/export.rs:73-101 | docker→`core/hab-pkg-dockerize`, aci→`core/hab-pkg-aci`, mesos→`core/hab-pkg-mesosize`, tar→`core/hab-pkg-tarize`, each with the package name as command |
| `ExportProperties.KeywordsAreCaseSensitive` | components/hab/src/command/pkg/export.rs:73-102 | other spellings of a keyword (`Docker`, `TAR`, `tar `) are refused with the input as payload |
| `ExportProperties.FormatsAreDistinct` | components/hab/src/command/pkg/export.rs:73-101 | two keywords that resolve to the same helper command are the same keyword |
| `ExportProperties.OtherFormatForRefuses` | components/hab/src/command/pkg/export.rs:151-160 | off Linux, every keyword (the four known ones included) is refused; the effects are warn naming it, then br; the error is `UnsupportedExportFormat(value)` unless a UI call failed, whose error is returned instead |
| `ExportProperties.PresentHelperIsNotInstalled` | components/hab/src/command/pkg/export.rs:116-117 | when the helper loads: no missing status, no install, and the result is exec's |
| `ExportProperties.MissingHelperIsInstalledOnce` | components/hab/src/command/pkg/export.rs:118-133 | when the helper does not load: one missing status comes first. If it succeeds, exactly one install follows, with `hab_url`, `Some(hab_channel)`, the helper's string form and `force = false`. If it fails, no install |
| `ExportProperties.ProvisioningPrecedesHandoff` | components/hab/src/command/pkg/export.rs:115-139 | every status/install effect comes before every environment change and exec; exec, when present, is the last effect |
| `ExportProperties.FailedProvisioningStops` | components/hab/src/command/pkg/export.rs:119-133 | a failing status call or install is returned unchanged, and no variable is set and nothing is executed |
| `ExportProperties.HandoffExecsHelper` | components/hab/src/command/pkg/export.rs:136-139 | after successful provisioning, the last effect execs the helper package's command with the target identifier's string form as the only argument; the result is exec's |
| `ExportProperties.HandoffEnvironment` | components/hab/src/command/pkg/export.rs:136-138 | the environment afterwards is the old one with the depot URL variable set to `url` and the depot channel variable set to `channel`. It is the old one unchanged if provisioning failed |
| `ExportProperties.HelperRegistryIsNotExported` | components/hab/src/command/pkg/export.rs:123-138 | the environment the helper sees does not depend on `hab_url` or `hab_channel` |
| `ExportProperties.HandoffVariables` | components/hab/src/command/pkg/export.rs:137-138 | with distinct variable names, after the hand-off the URL variable holds `url` and the channel variable holds `channel` |
| `ExportProperties.OtherStartRefuses` | components/hab/src/command/pkg/export.rs:172-181 | off Linux, `start` always fails and never installs, sets a variable or execs; when the UI calls succeed, it gives `SubcommandNotSupported` of the rebuilt command after warn and br |
| `ExportProperties.InvocationExamples` | components/hab/src/command/pkg/export.rs:172-180 | `hab pkg export tar …` reports `pkg export`; missing arguments each read `<unknown>` |
| `ExportProperties.InvocationRoundTrip` | components/hab/src/command/pkg/export.rs:172-180 | when argument 1 has no space, splitting the payload at its first space gives back both arguments (or `<unknown>`) |

## Left out

- Parsing and rendering of package identifiers (`PackageIdent::from_str`, `Display`) belong to the habitat core crate, which is not part of this model. An identifier is a record, and its string form is the rendering `origin/name[/version[/release]]`. The `?` after `from_str` on the four fixed literals is not modelled: the literal is built directly as `core/<command>`.
- `PackageInstall::load` is a filesystem probe. It is only the boolean `Responses.helperInstalled`.
- `install::start` (download, signature verification, unpacking) is recorded as an `Install` effect with all its arguments. Its outcome is an input.
- `exec::start` replaces the process on success. The model records `Exec` as the last effect and returns exec's answer, so a passing answer stands for a mock that returns.
- The UI text (the status line, the warning texts) is not modelled; only that a warn, br or missing status happened, and for the format warning, the format it names.
- The values of `PRODUCT`, `VERSION`, `FS_ROOT_PATH`, `cache_artifact_path`, `DEPOT_URL_ENVVAR` and `DEPOT_CHANNEL_ENVVAR` are defined outside this file; they are opaque fields of `Constants`.
- The `ExportFormat` accessors `pkg_ident()` and `cmd()` are the datatype's field selectors `pkgIdent` and `cmd`.
- The kinds of error the user interface, the installer and exec can raise are not modelled. A failing answer may carry any `Error`, and `Collaborator(code)` names the errors this model does not distinguish.
- Process arguments that are not valid Unicode are not modelled. `env::args()` panics while iterating over such an argument (export.rs:172-173 iterate arguments 0 to 2), and the model's `args: seq<string>` cannot hold one.
