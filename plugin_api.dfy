/** Vocabulary shared by the plugin and its host: the parts of the gold
    plugin interface (plugin-api.h) and of the LTO C interface (llvm-c/lto.h)
    that the plugin reads or writes, as Dafny values. */
module PluginApi {

  datatype Option<+T> = None | Some(value: T)

  /** ld_plugin_status, as far as the plugin produces it */
  datatype Status = Ok | Err

  /** ld_plugin_level: the severity handed to the host's message sink */
  datatype Level = Info | Warning | Error | Fatal

  /** ld_plugin_symbol_visibility */
  datatype Visibility = Default | Protected | Internal | Hidden

  /** ld_plugin_symbol_kind */
  datatype SymbolKind = Def | WeakDef | Undefined | WeakUndefined | Common

  /** ld_plugin_symbol_resolution: what the host decided for one symbol */
  datatype Resolution =
    | Unknown
    | Undef
    | PrevailingDef
    | PrevailingDefIronly
    | PreemptedReg
    | PreemptedIr
    | ResolvedIr
    | ResolvedExec
    | ResolvedDyn
    | PrevailingDefIronlyExp

  /** lto_codegen_model, restricted to the two models the plugin selects */
  datatype PicModel = PicStatic | PicDynamic

  /** ld_plugin_output_file_type values as the host passes them (LDPO_PIE is
      defined locally when the header lacks it) */
  const OutputRel: int := 0
  const OutputExec: int := 1
  const OutputDyn: int := 2
  const OutputPie: int := 3

  /** lto_symbol_attributes: the definition and scope fields and their values */
  const DefinitionMask: bv32 := 0x0000_0700
  const DefinitionRegular: bv32 := 0x0000_0100
  const DefinitionTentative: bv32 := 0x0000_0200
  const DefinitionWeak: bv32 := 0x0000_0300
  const DefinitionUndefined: bv32 := 0x0000_0400
  const DefinitionWeakUndef: bv32 := 0x0000_0500
  const ScopeMask: bv32 := 0x0000_3800
  const ScopeInternal: bv32 := 0x0000_0800
  const ScopeHidden: bv32 := 0x0000_1000
  const ScopeProtected: bv32 := 0x0000_2000
  const ScopeDefault: bv32 := 0x0000_1800
  const ScopeDefaultCanBeHidden: bv32 := 0x0000_2800

  /** ld_plugin_symbol: the record the plugin hands to add_symbols and the
      host writes resolutions into */
  datatype Symbol = Symbol(
    name: string,
    version: Option<string>,
    def: SymbolKind,
    visibility: Visibility,
    size: nat,
    comdatKey: Option<string>,
    resolution: Resolution)

  /** A value-initialised ld_plugin_symbol whose name has just been set:
      every enumeration field holds its zero member */
  function Blank(name: string): (s: Symbol)
  {
    Symbol(name, None, Def, Default, 0, None, Unknown)
  }

  /** One claimed input: the host's opaque handle and the records extracted
      from it, in extraction order */
  datatype ClaimedFile = ClaimedFile(handle: nat, syms: seq<Symbol>)

  /** A symbol of an LTO module as the module reports it */
  datatype LtoSymbol = LtoSymbol(name: string, attrs: bv32)

  /** A parsed LTO module: its target triple and its symbol table */
  datatype LtoModule = LtoModule(triple: string, symbols: seq<LtoSymbol>)

  /** The LTO code generator as far as the plugin configures and feeds it:
      the -mattr string, the pass-through options, the modules merged into
      it, the names it must preserve, the PIC model, whether DWARF debug
      info is requested, and the CPU */
  datatype CodeGen = CodeGen(
    attrs: Option<string>,
    debugOptions: seq<string>,
    merged: seq<LtoModule>,
    mustPreserve: seq<string>,
    picModel: Option<PicModel>,
    dwarfDebugInfo: bool,
    cpu: Option<string>)

  /** Each message the plugin can hand to the host's sink */
  datatype Complaint =
    | PathSpecifiedTwice(option: string)
    | UnknownOutputType(kind: int)
    | ClaimFileNotPassed
    | AddSymbolsNotPassed
    | FailedToGetView(file: string)
    | CannotOpenSlice(file: string)
    | FailedToCreateModule
    | UnknownScope(scope: bv32)
    | UnknownDefinition(definition: bv32)
    | UnableToAddSymbols
    | ErrorLinkingModule
    | CannotOpenApiFile
    | FailedToWriteOutput
    | NoCombinedObject
    | UnableToAddObject
    | FileLeftBehind(path: string)
    | UnableToSetLibraryPath
    | FailedToDelete(path: string)

  datatype Diagnostic = Diagnostic(level: Level, complaint: Complaint)

  /** How a call into the plugin ends: it returns a status, the process
      exits successfully (exit(0)), or the process is terminated (abort(),
      the default message sink, or the host's handling of a fatal message) */
  datatype Outcome = Returned(status: Status) | Exited | Terminated

  /** What the sink keeps of a diagnostic. Until the host passes its own
      sink the plugin's default one is in place, and it aborts. */
  function Logged(sink: bool, d: Diagnostic): (log: seq<Diagnostic>)
    ensures |log| <= 1
    ensures log == [d] <==> sink
  {
    if sink then [d] else []
  }

  /** Whether control comes back to the plugin after a message: the default
      sink aborts, and the host ends the link on a fatal message */
  predicate Resumes(sink: bool, level: Level)
  {
    sink && level != Fatal
  }

  /** The outcome of an error path that reports and then returns LDPS_ERR */
  function ErrorOutcome(sink: bool): (o: Outcome)
    ensures o == Returned(Err) <==> sink
    ensures o == Terminated <==> !sink
  {
    if sink then Returned(Err) else Terminated
  }
}
