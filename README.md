# LLVM gold plugin, modelled in Dafny

This project models the LLVM plugin for the gold linker
(`llvm-trunk/tools/gold/gold-plugin.cpp`) and proves properties of the model.
The plugin's four entry points are covered:

- `onload` walks the host's transfer vector.
- `claim_file_hook` turns each LLVM bitcode input into symbol records for the
  linker.
- `all_symbols_read_hook` collects the linker's resolutions. It tells the LTO
  code generator which names to preserve, writes and compiles the merged
  module, and hands the object file back to the link.
- `cleanup_hook` deletes the temporary object file.

The modules follow the source's structure:

| file | module | what it holds |
|---|---|---|
| `plugin_api.dfy` | `PluginApi` | The plugin-interface and LTO-interface vocabulary: statuses, message levels, symbol records, the LTO attribute masks, the code generator's state, and how a call ends (returned, exit(0), terminated). It also models the message sink: the default `discard_message` aborts, and the host does not return from a fatal message. |
| `options.dfy` | `Options` | The `options` namespace. `Apply` is the pure value of `process_plugin_option`, and class `PluginOptions` holds the globals and updates them in place. |
| `symbols.dfy` | `SymbolMapping` | The claim-time mapping from LTO symbol attributes to linker records and to the CannotBeHidden set. `Scan` is the symbol loop as a function. |
| `preservation.dfy` | `Preservation` | `mustPreserve`, the order in which preserved names are reported, the effect of `get_symbols`, and the choice of the merged-module path. |
| `loader.dfy` | `Loader` | `onload` as pure functions: one tag (`Step`), the walk (`Walk`), the checks after it (`Finish`), the joined `-mattr` string. |
| `plugin.dfy` | `GoldPlugin` | Class `Plugin` holds the globals. Its methods are the entry points, with their loops. The specification functions for `all_symbols_read_hook`'s commit phase (`Produced`, `Compiled`, `HandedOff`) and for `cleanup_hook` are here too. |

What the host and the LTO library do is passed in as parameters:

- the tags of the transfer vector, with the status each `register_*` callback answers;
- a `ClaimEnv` per claim: whether a view was obtained, whether it is bitcode, the parsed module, and the statuses of `add_symbols` and `addModule`;
- a `CommitEnv` for `all_symbols_read_hook`: whether `apifile.txt` opens, the resolutions `get_symbols` writes back, whether the write and the compile succeed, the object path, and the statuses of `add_input_file` and `set_extra_library_path`;
- the removal status of each queued path for `cleanup_hook`.

The plugin's calls into those services are recorded in fields of `Plugin`:
`diags`, `submitted`, `apiFile`, `emitted`, `linkInputs`, `libraryPaths` and `removed`.

The LTO attribute values (scope mask `0x3800`, definition mask `0x700` and
their members) are those of the LTO C interface. `llvm-c/lto.h` and
`plugin-api.h` are not part of this model.

Behaviour of the source worth noting, all of it modelled as written:

- `cleanup_hook` does not empty `Cleanup` (:496-505). A second call would try the same paths again, so the hook is not idempotent.
- `obj-path=` only stops the object file from being queued for deletion (:490-491). The object file is always written where `compile_to_file` puts it.
- A module that fails to parse is reported, and the hook returns `LDPS_OK` without setting `*claimed` (:295-300). The file is not claimed.
- An unknown output kind (:162-165), a failed `add_symbols` (:376-379) and a failed `add_input_file` (:478-482) return `LDPS_ERR` after an error message. They are fatal only when no host sink was passed and the default sink aborts. The failures that really end the process are: `apifile.txt` cannot be opened, the merged module cannot be written, or `emit-llvm` mode exits after writing it.
- `extra-library-path=` is cut after `strlen("extra_library_path=")` characters (:106). That length is the same, so the value is what follows `=`. `Options.Classify` states this.
- A failed compile is reported and the hook goes on (:463-466). The object path it then uses is left indeterminate by the source; the model takes it as an opaque value.
- A claim that stops at an unknown scope or definition keeps its partial entry in `Modules`. The names already inserted stay in `CannotBeHidden`.

## Model

| member | source | states |
|---|---|---|
| Options.PrefixesDisjoint | llvm-trunk/tools/gold/gold-plugin.cpp:103-115 | An option starts with at most one of the five prefixes `process_plugin_option` tests (so the order of the tests decides nothing among them), and an option that starts with one equals none of the exact keys |
| Options.Classify | llvm-trunk/tools/gold/gold-plugin.cpp:101-127 | An option is passed through, verbatim, exactly when it is not one the plugin recognises; `generate-api-file`, `emit-llvm` and `also-emit-llvm` are recognised only as exact strings; an option is a `mcpu=`, `extra-library-path=`, `mtriple=`, `obj-path=` or `also-emit-llvm=` option exactly when it starts with that key, and its value is exactly what follows the key (for `extra-library-path=` too, despite the cut at :106) |
| Options.BcPathOf | llvm-trunk/tools/gold/gold-plugin.cpp:115-116 | A path is extracted only from an option of the form `also-emit-llvm=<path>` and is its suffix |
| Options.BcPathOfPath | llvm-trunk/tools/gold/gold-plugin.cpp:115-116 | Conversely, every `also-emit-llvm=<path>` option yields exactly `<path>` |
| Options.Apply | llvm-trunk/tools/gold/gold-plugin.cpp:95-128 | A null option changes nothing; a recognised option never touches the pass-through list; an unrecognised one is appended to it and changes nothing else; `generate-api-file` sets the API-file flag and nothing else sets it; a `mcpu=`, `extra-library-path=`, `mtriple=` or `obj-path=` option overwrites its global with its value and every other option leaves that global alone; an option that selects an emission mode sets it and no other option changes it; an `also-emit-llvm=` path is stored only while none is stored |
| Options.ApiFileRequested | llvm-trunk/tools/gold/gold-plugin.cpp:101-102 | After any sequence of options the API file is requested exactly when it was before or some option is `generate-api-file` |
| Options.LastSettingWins | llvm-trunk/tools/gold/gold-plugin.cpp:103-110 | For `mcpu=`, `extra-library-path=`, `mtriple=` and `obj-path=` the last option with the key decides the global's value |
| Options.SettingUntouched | llvm-trunk/tools/gold/gold-plugin.cpp:103-110 | Without an option with its key, each of those globals keeps its value |
| Options.PassedThrough | llvm-trunk/tools/gold/gold-plugin.cpp:124-127 | No recognised option is ever passed through to the code generator |
| Options.ExtraCollectsPassThrough | llvm-trunk/tools/gold/gold-plugin.cpp:124-127 | After any sequence of options, `extra` is its old contents followed by exactly the non-null unrecognised options, in arrival order |
| Options.FirstBcPathWins | llvm-trunk/tools/gold/gold-plugin.cpp:115-123 | The stored merged-module path is the one stored before, or else the first non-empty `also-emit-llvm=` path; later paths are discarded |
| Options.LastModeWins | llvm-trunk/tools/gold/gold-plugin.cpp:111-117 | Of several options selecting an emission mode the last one decides it |
| Options.ModeUntouched | llvm-trunk/tools/gold/gold-plugin.cpp:111-117 | Options that select no emission mode leave the mode as it was |
| Options.UpdateFrame | llvm-trunk/tools/gold/gold-plugin.cpp:101-127 | A recognised option leaves every global it does not concern unchanged |
| Options.UpdateLocal | llvm-trunk/tools/gold/gold-plugin.cpp:101-127 | What an option writes depends only on the globals it concerns (for `also-emit-llvm=`, the stored path) |
| Options.DistinctKeysCommute | llvm-trunk/tools/gold/gold-plugin.cpp:95-128 | Two options that concern different globals give the same result in either order |
| Options.PluginOptions.constructor | llvm-trunk/tools/gold/gold-plugin.cpp:80-93 | The option globals start at their static initial values: no API file, no emission, empty strings, empty pass-through list |
| Options.PluginOptions.ProcessPluginOption | llvm-trunk/tools/gold/gold-plugin.cpp:95-128 | The in-place update leaves the globals equal to `Apply` of the old globals, and reports a discarded path exactly when an `also-emit-llvm=` path arrives while one is stored |
| SymbolMapping.Translate | llvm-trunk/tools/gold/gold-plugin.cpp:318-370 | A record carries the symbol's name, no version, size 0 and resolution unknown; the name is pinned in CannotBeHidden exactly when the scope is not DEFAULT_CAN_BE_HIDDEN; it fails exactly when scope or definition is unknown; a known symbol gets the visibility and kind of the two switches; a comdat key is set exactly for a weak definition and is the symbol's name |
| SymbolMapping.VisibilityTable | llvm-trunk/tools/gold/gold-plugin.cpp:327-342 | Hidden and protected scopes map to hidden and protected visibility; scope 0, DEFAULT and DEFAULT_CAN_BE_HIDDEN, and only they, map to default; no record is internal |
| SymbolMapping.DefinitionTable | llvm-trunk/tools/gold/gold-plugin.cpp:344-366 | The five definition values map one-to-one to the five kinds, and only a weak definition carries a comdat key |
| SymbolMapping.Exported | llvm-trunk/tools/gold/gold-plugin.cpp:313-316 | The symbols the loop does not skip contain no internal symbol |
| SymbolMapping.ScanSucceeds | llvm-trunk/tools/gold/gold-plugin.cpp:313-371 | When every non-internal symbol has a known scope and definition the loop runs to the end without error |
| SymbolMapping.ScanRecords | llvm-trunk/tools/gold/gold-plugin.cpp:313-371 | A loop that ends without error has pushed one record per non-internal symbol, in table order, each that symbol's translation |
| SymbolMapping.ScanHidden | llvm-trunk/tools/gold/gold-plugin.cpp:323-326 | A loop that ends without error has inserted exactly the names of non-internal symbols whose scope forbids hiding |
| SymbolMapping.ScanComplete | llvm-trunk/tools/gold/gold-plugin.cpp:313-371 | A claim with only known attributes succeeds, registers exactly the translations of the non-internal symbols in order, and pins exactly the unhideable names |
| SymbolMapping.ScanSkipsInternal | llvm-trunk/tools/gold/gold-plugin.cpp:313-316 | Every record pushed, also before an error, belongs to the next non-internal symbol: internal symbols never reach the host |
| SymbolMapping.ScanStopsAtUnknown | llvm-trunk/tools/gold/gold-plugin.cpp:327-366 | The loop stops at the first non-internal symbol with an unknown scope or definition, with that symbol's partial record pushed last and its name pinned unless its scope allows hiding; the rest of the table is never read |
| SymbolMapping.ScanSticks | llvm-trunk/tools/gold/gold-plugin.cpp:339-341 | Once the loop has returned with an error, later symbols change nothing |
| SymbolMapping.ScanWellFormed | llvm-trunk/tools/gold/gold-plugin.cpp:318-370 | Every record pushed, partial ones included, is never internal, has no version or size, has a comdat key only as its own name on a weak definition, and is pinned in CannotBeHidden when hidden or protected |
| Preservation.PreservationDecision | llvm-trunk/tools/gold/gold-plugin.cpp:395-401 | A prevailing definition is always preserved; an IR-only-but-exported prevailing definition exactly when its name is in CannotBeHidden; nothing else is |
| Preservation.PreservedInMembers | llvm-trunk/tools/gold/gold-plugin.cpp:424-431 | A name is reported from one module exactly when one of its records must be preserved |
| Preservation.PreservedMembers | llvm-trunk/tools/gold/gold-plugin.cpp:419-432 | A name is handed to the code generator exactly when some record of some claimed module must be preserved |
| Preservation.ResolvedAllAt | llvm-trunk/tools/gold/gold-plugin.cpp:419-423 | Each module of the registry receives exactly its own module's resolutions from `get_symbols` |
| Preservation.BcOutputPathFromOptions | llvm-trunk/tools/gold/gold-plugin.cpp:442-449 | With a mode selected, the merged module goes to the output file itself if the last mode option was `emit-llvm`, else to the first non-empty `also-emit-llvm=` path, else to the output name with `.bc` appended |
| Preservation.NoBcOutputWithoutMode | llvm-trunk/tools/gold/gold-plugin.cpp:442 | Without an option selecting a mode no merged module is written |
| Loader.WalkStopped | llvm-trunk/tools/gold/gold-plugin.cpp:147-217 | Once a tag has ended `onload`, the rest of the transfer vector is never read |
| Loader.JoinedSplits | llvm-trunk/tools/gold/gold-plugin.cpp:237-245 | The comma-joined attribute string loses nothing: cut at its commas it gives back the attribute list, when no attribute holds a comma |
| Loader.StepWithSink | llvm-trunk/tools/gold/gold-plugin.cpp:148-216 | With the host's sink in place, one tag ends `onload`, with LDPS_ERR, exactly when it is an unknown output kind or a refused registration; an accepted registration adds exactly its hook; `add_symbols` is recorded only by its own tag; only an option tag changes the options, by `Apply` |
| Loader.WalkStops | llvm-trunk/tools/gold/gold-plugin.cpp:147-217 | With the host's sink in place the walk ends early exactly when some tag stops it, and then with LDPS_ERR |
| Loader.WalkState | llvm-trunk/tools/gold/gold-plugin.cpp:147-217 | A walk that reaches the end has registered exactly those of the claim-file, all-symbols-read and cleanup hooks the host accepted, recorded `add_symbols` exactly when it was passed, and folded every option in order |
| Loader.OnloadResult | llvm-trunk/tools/gold/gold-plugin.cpp:137-260 | For a host that passes its sink first, `onload` fails exactly when a tag stops it or the claim-file hook or `add_symbols` is missing, otherwise succeeds; it creates the code generator exactly on success with the all-symbols-read hook registered, and hands it exactly the unrecognised options in order |
| Loader.LastOutputKindWins | llvm-trunk/tools/gold/gold-plugin.cpp:152-166 | Of several output-kind tags the last decides the PIC model |
| GoldPlugin.ExtendWellFormed | llvm-trunk/tools/gold/gold-plugin.cpp:302-326 | Adding a module whose records are well formed keeps every record of the registry well formed |
| GoldPlugin.RemovedPaths | llvm-trunk/tools/gold/gold-plugin.cpp:496-505 | Every queued path whose removal succeeds is removed, and with no failure exactly the queue is removed, in order |
| GoldPlugin.ReportedFailures | llvm-trunk/tools/gold/gold-plugin.cpp:496-505 | Every path that cannot be removed is reported, and each path is either removed or reported, never both |
| GoldPlugin.ResolvedWellFormed | llvm-trunk/tools/gold/gold-plugin.cpp:419-423 | `get_symbols` writes only resolutions, so every record stays well formed |
| GoldPlugin.ProducedSucceeds | llvm-trunk/tools/gold/gold-plugin.cpp:442-493 | The commit phase returns LDPS_OK exactly when it is not `emit-llvm` mode, the merged-module write (if any) succeeds, the compile succeeds or its error is survived, and the host accepts the object file and the library path; then the object file is the one link input and the extra library path the one path set |
| GoldPlugin.ObjectQueuedForCleanup | llvm-trunk/tools/gold/gold-plugin.cpp:478-493 | The object file is queued for deletion exactly when the hook succeeds and no `obj-path=` was given, and nothing else is ever queued |
| GoldPlugin.EmitOnlyEndsProcess | llvm-trunk/tools/gold/gold-plugin.cpp:442-456 | In `emit-llvm` mode the process exits once the merged module is written to the output file, or terminates if the write fails; nothing is compiled, linked or queued |
| GoldPlugin.FailedWriteIsFatal | llvm-trunk/tools/gold/gold-plugin.cpp:450-452 | A failed merged-module write ends the process, whatever the sink (given that the host does not return from a fatal message), with nothing written, linked or queued |
| GoldPlugin.EmissionOrder | llvm-trunk/tools/gold/gold-plugin.cpp:442-467 | At most two files are written, both from the configured code generator, the merged module before the object file, and an object file only after a successful compile at the path the code generator reports |
| GoldPlugin.TranslateSymbol | llvm-trunk/tools/gold/gold-plugin.cpp:318-370 | The loop body's switches compute exactly `Translate`, whose properties are proved above |
| GoldPlugin.ScanSymbols | llvm-trunk/tools/gold/gold-plugin.cpp:313-371 | The symbol loop produces exactly the records, pinned names and error of `Scan` |
| GoldPlugin.ResolveAll | llvm-trunk/tools/gold/gold-plugin.cpp:419-432 | The loop over Modules leaves every module resolved by its own answers and collects exactly `Preserved` of the resolved registry |
| GoldPlugin.PreservedNames | llvm-trunk/tools/gold/gold-plugin.cpp:424-431 | The inner loop collects exactly the module's names that must be preserved, in record order |
| GoldPlugin.JoinAttrs | llvm-trunk/tools/gold/gold-plugin.cpp:237-245 | The attribute loop builds exactly the comma-joined string, which `JoinedSplits` shows loses nothing |
| GoldPlugin.Plugin.constructor | llvm-trunk/tools/gold/gold-plugin.cpp:65-93 | The plugin starts with no services, no hooks, a static PIC model, no output name, an empty registry and queue, no code generator and an empty CannotBeHidden set |
| GoldPlugin.Plugin.Report | llvm-trunk/tools/gold/gold-plugin.cpp:59-70 | A message reaches the log only through the host's sink, and control comes back only from the host's sink at a non-fatal level |
| GoldPlugin.Plugin.TakeTag | llvm-trunk/tools/gold/gold-plugin.cpp:148-216 | One tag changes the plugin's state exactly as `Step` does, and ends `onload` exactly when `Step` says so |
| GoldPlugin.Plugin.Complete | llvm-trunk/tools/gold/gold-plugin.cpp:219-253 | The checks after the walk and the code generator's creation end exactly as `Finish` does |
| GoldPlugin.Plugin.Onload | llvm-trunk/tools/gold/gold-plugin.cpp:137-260 | The tag loop and the checks leave the state, the outcome and the code generator of `Load`, about which `OnloadResult` is proved |
| GoldPlugin.Plugin.AddClaimedFile | llvm-trunk/tools/gold/gold-plugin.cpp:302-371 | A claim adds one module with the records of `Scan` and pins `Scan`'s names, and every record stays well formed |
| GoldPlugin.Plugin.ClaimFileHook | llvm-trunk/tools/gold/gold-plugin.cpp:265-393 | The file is claimed exactly when its view is obtained, it is bitcode and it parses; an unclaimed file changes nothing but the messages; a claimed one adds its records (under the `mtriple=` override) and pins its names, then each failure (unknown attribute, `add_symbols`, `addModule`) is reported with its own status and the module is merged into the code generator only on success |
| GoldPlugin.Plugin.SubmitAndLink | llvm-trunk/tools/gold/gold-plugin.cpp:375-392 | A file with records is handed to `add_symbols`; the module is merged into the code generator, if one exists, only after that succeeds; each failure is reported and returns its status |
| GoldPlugin.Plugin.ResolveSymbols | llvm-trunk/tools/gold/gold-plugin.cpp:419-432 | The registry becomes the resolved registry; the code generator's must-preserve list and `apifile.txt` (when requested) receive exactly the preserved names, in order |
| GoldPlugin.Plugin.HandOff | llvm-trunk/tools/gold/gold-plugin.cpp:478-493 | The object file is added to the link, then the extra library path is set, then the file is queued for deletion, each only after the previous step succeeds, as `HandedOff` states |
| GoldPlugin.Plugin.Compile | llvm-trunk/tools/gold/gold-plugin.cpp:459-467 | A successful compile writes an object file from the code generator at the path it reports; a failed one writes nothing and is reported, and control comes back only through the host's sink |
| GoldPlugin.Plugin.CompileAndHandOff | llvm-trunk/tools/gold/gold-plugin.cpp:459-493 | Compiling and handing over has the effects of `Compiled`: a failed compile is reported and the hand-over goes on |
| GoldPlugin.Plugin.MergedPath | llvm-trunk/tools/gold/gold-plugin.cpp:442-449 | The path chosen for the merged module is `BcOutputPath`, about which `BcOutputPathFromOptions` is proved |
| GoldPlugin.Plugin.Produce | llvm-trunk/tools/gold/gold-plugin.cpp:442-493 | Writing, compiling and handing over have exactly the effects of `Produced` (the host's `add_input_file` and `set_extra_library_path` are needed only outside `emit-llvm` mode, which ends before calling them), about which `ProducedSucceeds`, `ObjectQueuedForCleanup`, `EmitOnlyEndsProcess`, `FailedWriteIsFatal` and `EmissionOrder` are proved |
| GoldPlugin.Plugin.SetUpCodeGen | llvm-trunk/tools/gold/gold-plugin.cpp:437-440 | The code generator gets the output's PIC model and DWARF debug info, and the CPU only when `mcpu=` was given |
| GoldPlugin.Plugin.ResolveAndProduce | llvm-trunk/tools/gold/gold-plugin.cpp:419-493 | Resolution, set-up and production together: the code generator used is the configured one with the preserved names added |
| GoldPlugin.Plugin.AllSymbolsReadHook | llvm-trunk/tools/gold/gold-plugin.cpp:407-494 | If `apifile.txt` is requested and cannot be opened the process ends and nothing changes; otherwise the registry is resolved, `apifile.txt` holds exactly the preserved names, and the code generator (with those names, the PIC model, DWARF and the CPU) produces the effects of `Produced` |
| GoldPlugin.Plugin.CleanupHook | llvm-trunk/tools/gold/gold-plugin.cpp:496-505 | Every queued path is tried once in order: those that can be removed are removed, each failure is reported, and the hook returns LDPS_OK unless the default sink aborts on a failure; when it aborts, exactly the paths before the first failure have been removed and nothing has been logged |

## Left out

- Host and library calls: the linker's callbacks and the LTO library are answers passed in as parameters. They are not code the model runs.
- Target set-up: `InitializeAllTarget*`, `parseCodeGenDebugOptions`, and the target options taken from the command-line flags (:231-236, :255-257) are LLVM internals with no effect on the plugin's own state.
- Reading input files: `get_view`, `getOpenFileSlice` with its archive offset, `isBitcodeFile` and `makeLTOModule` become the `ClaimEnv` answers. The byte handling is not modelled.
- Message text: formatting and text are left out. A message is its level and a `Complaint` value.
- Files: writing `apifile.txt` is modelled as a sequence of lines. Opening it is an answer.
- Process exits: `exit(0)` and `abort()` are the `Exited` and `Terminated` outcomes.
- Memory and ownership: `strdup`/`free` of symbol names, `delete M` and `delete CodeGen` are left out. Deleting the code generator is modelled as `codeGen := None`.
- Compile failure: after a failed compile the object path is an opaque value from `CommitEnv.objectPath`. The source's pointer `Temp` is then uninitialised.
- `-mattr` and `-mcpu`: the `-mattr` command-line list is a parameter of `onload`. The LLVM command-line machinery that fills it is not modelled.
- Write order inside `all_symbols_read_hook`: resolutions and preserved names are computed on values (`ResolveAll`) and assigned to the fields once. Their interleaving with the writes to the code generator and `apifile.txt` inside one module is not modelled.
- Write order inside the symbol loop: `claim_file_hook` builds `cf.syms` and its CannotBeHidden names in locals and assigns them once. The in-place growth of `Modules.back()` is not modelled.
- The hand-over assumes the host passed `get_symbols`, `add_input_file` and `set_extra_library_path` (when their calls are reached): the source calls all three through pointers it never checks (gold-plugin.cpp:423, :478, :485), unlike `add_symbols`, which onload checks; the model takes their presence as a precondition instead of modelling a call through a null pointer.
- Fatal messages: the model takes it that the host's sink never returns from `LDPL_FATAL` (`PluginApi.Resumes`). The source does not abort after its fatal messages itself; after a failed merged-module write (:450-452) a host that returned would let it go on to `exit(0)` in `emit-llvm` mode (:453-456) or to the compile, and `GoldPlugin.FailedWriteIsFatal` and `GoldPlugin.Plugin.AllSymbolsReadHook` do not cover such a host.
- GoldPlugin.Plugin.AllSymbolsReadHook: states the well-formedness of the registry only through the separate lemma `ResolvedWellFormed`, not in its own contract.
- Symbol names: a name is a value, not a pointer shared between the record, its comdat key and CannotBeHidden, so aliasing is not modelled.
- `llvm-trunk/tools/clang/test/CodeGenCXX/microsoft-abi-typeid.cpp` is a code generation test unrelated to the plugin. It is not part of this model.
