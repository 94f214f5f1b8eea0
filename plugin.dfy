/** The plugin's global state and the four entry points the host calls:
    onload, claim_file_hook, all_symbols_read_hook and cleanup_hook. The
    host's services and the LTO library are answers passed in as
    parameters; what the plugin hands to them is recorded in fields. */
module GoldPlugin {
  import opened PluginApi
  import opened Options
  import opened SymbolMapping
  import opened Preservation
  import opened Loader

  /** ld_plugin_input_file as far as the model reads it: the handle labels
      the records, the name appears in messages */
  datatype InputFile = InputFile(handle: nat, name: string)

  /** The answers of the host and of the LTO library during one claim:
      whether the file's contents could be obtained (through get_view when
      the host passed it, otherwise by reading the slice of `filesize` bytes
      at the file's `offset`, which is why those fields are not modelled),
      whether they are bitcode, the module parsed from them, and the status
      of add_symbols and of linking the module in */
  datatype ClaimEnv = ClaimEnv(
    viewOk: bool,
    isBitcode: bool,
    parsed: Option<LtoModule>,
    addSymbolsOk: bool,
    addModuleOk: bool)

  /** The answers during all_symbols_read_hook: whether apifile.txt opens,
      the resolutions get_symbols writes into the records, whether writing
      the merged module and compiling succeed, the object file path the
      code generator reports, and the status of add_input_file and of
      set_extra_library_path */
  datatype CommitEnv = CommitEnv(
    apiFileOpens: bool,
    resolutions: seq<seq<Resolution>>,
    writeOk: bool,
    compileOk: bool,
    objectPath: string,
    addInputOk: bool,
    setLibraryPathOk: bool)

  /** A file the code generator produced, with its configuration at the time */
  datatype Emission = MergedModule(path: string, gen: CodeGen) | ObjectFile(path: string, gen: CodeGen)

  /** The complaint when the file's contents cannot be obtained */
  function ViewFailure(getView: bool, file: string): (c: Complaint)
  {
    if getView then FailedToGetView(file) else CannotOpenSlice(file)
  }

  /** The module the plugin keeps: mtriple= overrides the module's own triple */
  function Retargeted(m: LtoModule, triple: string): (r: LtoModule)
  {
    if triple == "" then m else m.(triple := triple)
  }

  /** The code generator as all_symbols_read_hook sets it up before writing
      or compiling: the PIC model of the output, DWARF debug info, and the
      CPU when mcpu= was given */
  function Configured(g: CodeGen, outputType: PicModel, mcpu: string): (r: CodeGen)
  {
    g.(picModel := Some(outputType), dwarfDebugInfo := true, cpu := if mcpu != "" then Some(mcpu) else g.cpu)
  }

  /** Every record of every claimed module is well formed */
  predicate AllWellFormed(mods: seq<ClaimedFile>, cannotBeHidden: set<string>)
  {
    forall m, i :: 0 <= m < |mods| && 0 <= i < |mods[m].syms| ==> WellFormed(mods[m].syms[i], cannotBeHidden)
  }

  lemma ExtendWellFormed(mods: seq<ClaimedFile>, cannotBeHidden: set<string>, f: ClaimedFile, more: set<string>)
    requires AllWellFormed(mods, cannotBeHidden)
    requires forall k :: 0 <= k < |f.syms| ==> WellFormed(f.syms[k], more)
    ensures AllWellFormed(mods + [f], cannotBeHidden + more)
  {
    forall m, i | 0 <= m < |mods + [f]| && 0 <= i < |(mods + [f])[m].syms|
      ensures WellFormed((mods + [f])[m].syms[i], cannotBeHidden + more)
    {
      if m < |mods| {
        assert WellFormed(mods[m].syms[i], cannotBeHidden);
      } else {
        assert WellFormed(f.syms[i], more);
      }
    }
  }

  /** The paths cleanup_hook removes: those whose removal succeeds */
  function Removed(paths: seq<string>, oks: seq<bool>): (r: seq<string>)
    requires |oks| == |paths|
    decreases |paths|
  {
    if paths == [] then []
    else
      var n := |paths| - 1;
      Removed(paths[..n], oks[..n]) + (if oks[n] then [paths[n]] else [])
  }

  /** The index of the first path whose removal fails, or the length when
      none does */
  function FirstFailure(oks: seq<bool>): (i: nat)
    ensures i <= |oks|
    ensures forall k :: 0 <= k < i ==> oks[k]
    ensures i < |oks| ==> !oks[i]
  {
    if oks == [] || !oks[0] then 0 else 1 + FirstFailure(oks[1..])
  }

  /** The errors cleanup_hook reports: one per path it fails to remove */
  function DeleteFailures(paths: seq<string>, oks: seq<bool>): (r: seq<Diagnostic>)
    requires |oks| == |paths|
    decreases |paths|
  {
    if paths == [] then []
    else
      var n := |paths| - 1;
      DeleteFailures(paths[..n], oks[..n]) + (if oks[n] then [] else [Diagnostic(Error, FailedToDelete(paths[n]))])
  }

  /** cleanup_hook removes every path whose removal succeeds, in order, and
      with no failure it removes exactly the list */
  lemma {:induction false} RemovedPaths(paths: seq<string>, oks: seq<bool>)
    requires |oks| == |paths|
    ensures forall k :: 0 <= k < |paths| && oks[k] ==> paths[k] in Removed(paths, oks)
    ensures (forall k :: 0 <= k < |paths| ==> oks[k]) ==> Removed(paths, oks) == paths
    decreases |paths|
  {
    if paths != [] {
      var n := |paths| - 1;
      RemovedPaths(paths[..n], oks[..n]);
      assert paths[..n] + [paths[n]] == paths;
      forall k | 0 <= k < n && oks[k]
        ensures paths[k] in Removed(paths, oks)
      {
        assert oks[..n][k] && paths[..n][k] == paths[k];
      }
    }
  }

  /** cleanup_hook reports a failure for every path it cannot remove, and
      each path is either removed or reported, never both */
  lemma {:induction false} ReportedFailures(paths: seq<string>, oks: seq<bool>)
    requires |oks| == |paths|
    ensures |Removed(paths, oks)| + |DeleteFailures(paths, oks)| == |paths|
    ensures forall k :: 0 <= k < |paths| && !oks[k] ==>
      Diagnostic(Error, FailedToDelete(paths[k])) in DeleteFailures(paths, oks)
    decreases |paths|
  {
    if paths != [] {
      var n := |paths| - 1;
      ReportedFailures(paths[..n], oks[..n]);
      forall k | 0 <= k < n && !oks[k]
        ensures Diagnostic(Error, FailedToDelete(paths[k])) in DeleteFailures(paths, oks)
      {
        assert !oks[..n][k] && paths[..n][k] == paths[k];
      }
    }
  }

  /** One more module resolved: the prefix of the registry grows by that
      module with its answers */
  lemma ResolvingStep(mods: seq<ClaimedFile>, answers: seq<seq<Resolution>>, n: nat)
    requires Answers(mods, answers) && n < |mods|
    ensures Answers(mods[..n], answers[..n]) && Answers(mods[..n + 1], answers[..n + 1])
    ensures ResolvedAll(mods[..n + 1], answers[..n + 1])
         == ResolvedAll(mods[..n], answers[..n]) + [WithResolutions(mods[n], answers[n])]
  {
    assert mods[..n + 1][..n] == mods[..n] && answers[..n + 1][..n] == answers[..n];
  }

  /** get_symbols changes only resolutions, so the records stay well formed */
  lemma ResolvedWellFormed(mods: seq<ClaimedFile>, answers: seq<seq<Resolution>>, cannotBeHidden: set<string>)
    requires Answers(mods, answers) && AllWellFormed(mods, cannotBeHidden)
    ensures AllWellFormed(ResolvedAll(mods, answers), cannotBeHidden)
  {
    var r := ResolvedAll(mods, answers);
    forall m, i | 0 <= m < |r| && 0 <= i < |r[m].syms|
      ensures WellFormed(r[m].syms[i], cannotBeHidden)
    {
      ResolvedAllAt(mods, answers, m);
      assert WellFormed(mods[m].syms[i], cannotBeHidden);
    }
  }

  /** What the part of all_symbols_read_hook after the set-up of the code
      generator leaves behind: how it ends, the code generator if it still
      exists, and what it appends to the files written, the link inputs, the
      library paths, the cleanup queue and the messages */
  datatype Effects = Effects(
    outcome: Outcome,
    codeGen: Option<CodeGen>,
    emitted: seq<Emission>,
    linkInputs: seq<string>,
    libraryPaths: seq<string>,
    cleanup: seq<string>,
    diags: seq<Diagnostic>)

  /** Handing the object file to the host: add_input_file, then
      set_extra_library_path when extra-library-path= was given, then the
      cleanup queue unless obj-path= was given */
  function HandedOff(c: Config, sink: bool, objectPath: string, addInputOk: bool, setLibraryPathOk: bool): (e: Effects)
  {
    if !addInputOk then
      Effects(ErrorOutcome(sink), None, [], [], [], [],
              Logged(sink, Diagnostic(Error, UnableToAddObject)) + Logged(sink, Diagnostic(Error, FileLeftBehind(objectPath))))
    else if c.extraLibraryPath != "" && !setLibraryPathOk then
      Effects(ErrorOutcome(sink), None, [], [objectPath], [], [], Logged(sink, Diagnostic(Error, UnableToSetLibraryPath)))
    else
      Effects(Returned(Ok), None, [], [objectPath],
              if c.extraLibraryPath != "" then [c.extraLibraryPath] else [],
              if c.objPath == "" then [objectPath] else [], [])
  }

  /** Compiling and handing the object file over: a failed compile is
      reported and the link goes on with the path the code generator
      reports */
  function Compiled(c: Config, sink: bool, g: CodeGen, env: CommitEnv): (e: Effects)
  {
    if !env.compileOk && !sink then Effects(Terminated, Some(g), [], [], [], [], [])
    else
      var h := HandedOff(c, sink, env.objectPath, env.addInputOk, env.setLibraryPathOk);
      h.(emitted := if env.compileOk then [ObjectFile(env.objectPath, g)] else [],
         diags := (if env.compileOk then [] else [Diagnostic(Error, NoCombinedObject)]) + h.diags)
  }

  /** Writing the merged module when asked to (a failed write is fatal, and
      emit-llvm ends the process after it), then compiling and handing the
      object file over */
  function Produced(c: Config, outputName: string, sink: bool, g: CodeGen, env: CommitEnv): (e: Effects)
  {
    var bc := BcOutputPath(c, outputName);
    if bc.Some? && !env.writeOk then
      Effects(Terminated, Some(g), [], [], [], [], Logged(sink, Diagnostic(Fatal, FailedToWriteOutput)))
    else
      var merged := if bc.Some? then [MergedModule(bc.value, g)] else [];
      if c.generateBcFile == BcOnly then Effects(Exited, None, merged, [], [], [], [])
      else
        var k := Compiled(c, sink, g, env);
        k.(emitted := merged + k.emitted)
  }

  /** all_symbols_read_hook returns LDPS_OK exactly when no step fails:
      the process does not end after writing the merged module, the write
      succeeds, the compile succeeds or its error is survived, and the host
      accepts the object file and the library path. The object file is then
      the one link input, and the extra library path the one path set. */
  lemma ProducedSucceeds(c: Config, outputName: string, sink: bool, g: CodeGen, env: CommitEnv)
    ensures var e := Produced(c, outputName, sink, g, env);
      e.outcome == Returned(Ok) <==>
        && c.generateBcFile != BcOnly
        && (c.generateBcFile == BcNo || env.writeOk)
        && (env.compileOk || sink)
        && env.addInputOk
        && (c.extraLibraryPath == "" || env.setLibraryPathOk)
    ensures var e := Produced(c, outputName, sink, g, env);
      e.outcome == Returned(Ok) ==>
        && e.linkInputs == [env.objectPath]
        && e.libraryPaths == (if c.extraLibraryPath != "" then [c.extraLibraryPath] else [])
        && e.codeGen.None?
  {
  }

  /** The object file is queued for deletion exactly when the hook succeeds
      and obj-path= was not given, and nothing else is ever queued */
  lemma ObjectQueuedForCleanup(c: Config, outputName: string, sink: bool, g: CodeGen, env: CommitEnv)
    ensures var e := Produced(c, outputName, sink, g, env);
      && (e.cleanup != [] <==> e.outcome == Returned(Ok) && c.objPath == "")
      && (e.cleanup == [] || e.cleanup == [env.objectPath])
  {
  }

  /** With emit-llvm the process ends once the merged module is written to
      the output file itself: nothing is compiled, added to the link or
      queued for deletion */
  lemma EmitOnlyEndsProcess(c: Config, outputName: string, sink: bool, g: CodeGen, env: CommitEnv)
    requires c.generateBcFile == BcOnly
    ensures var e := Produced(c, outputName, sink, g, env);
      && (e.outcome == Exited <==> env.writeOk)
      && (e.outcome == Terminated <==> !env.writeOk)
      && e.linkInputs == [] && e.libraryPaths == [] && e.cleanup == []
      && e.emitted == (if env.writeOk then [MergedModule(outputName, g)] else [])
  {
  }

  /** A failed write of the merged module is fatal, whatever the sink */
  lemma FailedWriteIsFatal(c: Config, outputName: string, sink: bool, g: CodeGen, env: CommitEnv)
    requires c.generateBcFile != BcNo && !env.writeOk
    ensures var e := Produced(c, outputName, sink, g, env);
      && e.outcome == Terminated
      && e.emitted == [] && e.linkInputs == [] && e.cleanup == []
  {
  }

  /** Every file written carries the code generator as configured; the
      merged module, when written, comes before the object file */
  lemma EmissionOrder(c: Config, outputName: string, sink: bool, g: CodeGen, env: CommitEnv)
    ensures var e := Produced(c, outputName, sink, g, env);
      && |e.emitted| <= 2
      && (forall k :: 0 <= k < |e.emitted| ==> e.emitted[k].gen == g)
      && (|e.emitted| == 2 ==> e.emitted[0].MergedModule? && e.emitted[1].ObjectFile?)
      && (forall k :: 0 <= k < |e.emitted| && e.emitted[k].ObjectFile? ==>
            env.compileOk && e.emitted[k].path == env.objectPath)
  {
  }

  /** The body of the symbol loop for one non-internal symbol: the record
      starts value-initialised with the name set, the scope switch sets the
      visibility, the definition switch the kind and comdat key, and an
      unknown value in either switch stops with the record as far as it got */
  method TranslateSymbol(e: LtoSymbol) returns (st: SymbolStep)
    ensures st == Translate(e)
  {
    var sym := Blank(e.name);
    var scope := e.attrs & ScopeMask;
    var canBeHidden := scope == ScopeDefaultCanBeHidden;
    if scope == ScopeHidden {
      sym := sym.(visibility := Hidden);
    } else if scope == ScopeProtected {
      sym := sym.(visibility := Protected);
    } else if scope == 0 || scope == ScopeDefault || scope == ScopeDefaultCanBeHidden {
      sym := sym.(visibility := Default);
    } else {
      return SymbolStep(sym, !canBeHidden, Some(UnknownScope(scope)));
    }
    var definition := e.attrs & DefinitionMask;
    sym := sym.(comdatKey := None);
    if definition == DefinitionRegular {
      sym := sym.(def := Def);
    } else if definition == DefinitionUndefined {
      sym := sym.(def := Undefined);
    } else if definition == DefinitionTentative {
      sym := sym.(def := Common);
    } else if definition == DefinitionWeak {
      sym := sym.(comdatKey := Some(sym.name), def := WeakDef);
    } else if definition == DefinitionWeakUndef {
      sym := sym.(def := WeakUndefined);
    } else {
      return SymbolStep(sym, !canBeHidden, Some(UnknownDefinition(definition)));
    }
    sym := sym.(size := 0, resolution := Unknown);
    return SymbolStep(sym, !canBeHidden, None);
  }

  /** The symbol loop of claim_file_hook: one record per non-internal
      symbol, in table order, and the names whose scope forbids hiding,
      until a symbol with an unknown scope or definition stops the loop */
  method ScanSymbols(symbols: seq<LtoSymbol>) returns (syms: seq<Symbol>, hidden: set<string>, failure: Option<Complaint>)
    ensures ScanState(syms, hidden, failure) == Scan(symbols)
  {
    syms, hidden := [], {};
    var i := 0;
    while i < |symbols|
      invariant i <= |symbols|
      invariant Scan(symbols[..i]) == ScanState(syms, hidden, None)
    {
      var e := symbols[i];
      assert symbols[..i + 1][..i] == symbols[..i];
      if (e.attrs & ScopeMask) == ScopeInternal {
        i := i + 1;
        continue;
      }
      var st := TranslateSymbol(e);
      if st.pinned {
        hidden := hidden + {e.name};
      }
      syms := syms + [st.record];
      if st.failure.Some? {
        ScanSticks(symbols, i + 1);
        return syms, hidden, st.failure;
      }
      i := i + 1;
    }
    assert symbols[..i] == symbols;
    return syms, hidden, None;
  }

  /** The loop of all_symbols_read_hook over the claimed modules: each is
      resolved by get_symbols, and the names that must be preserved are
      collected module by module */
  method ResolveAll(mods: seq<ClaimedFile>, answers: seq<seq<Resolution>>, cannotBeHidden: set<string>)
    returns (resolved: seq<ClaimedFile>, names: seq<string>)
    requires Answers(mods, answers)
    ensures resolved == ResolvedAll(mods, answers)
    ensures names == Preserved(resolved, cannotBeHidden)
  {
    resolved, names := [], [];
    assert mods[..0] == [] && answers[..0] == [];
    for mi := 0 to |mods|
      invariant Answers(mods[..mi], answers[..mi])
      invariant resolved == ResolvedAll(mods[..mi], answers[..mi])
      invariant names == Preserved(resolved, cannotBeHidden)
    {
      ResolvingStep(mods, answers, mi);
      var f := WithResolutions(mods[mi], answers[mi]);
      var more := PreservedNames(f.syms, cannotBeHidden);
      PreservedSnoc(resolved, f, cannotBeHidden);
      resolved, names := resolved + [f], names + more;
    }
    assert mods[..|mods|] == mods && answers[..|mods|] == answers;
  }

  /** The inner loop of all_symbols_read_hook over one module's records:
      the names that must be preserved, in record order */
  method PreservedNames(syms: seq<Symbol>, cannotBeHidden: set<string>) returns (names: seq<string>)
    ensures names == PreservedIn(syms, cannotBeHidden)
  {
    names := [];
    assert syms[..0] == [];
    for i := 0 to |syms|
      invariant names == PreservedIn(syms[..i], cannotBeHidden)
    {
      PreservedInSnoc(syms[..i], syms[i], cannotBeHidden);
      assert syms[..i + 1] == syms[..i] + [syms[i]];
      if MustPreserve(syms[i], cannotBeHidden) {
        names := names + [syms[i].name];
      } else {
        assert names + [] == names;
      }
    }
    assert syms[..|syms|] == syms;
  }

  /** The -mattr list joined with commas, as onload builds it */
  method JoinAttrs(mattrs: seq<string>) returns (attrs: string)
    ensures attrs == Joined(mattrs)
  {
    attrs := "";
    for k := 0 to |mattrs|
      invariant attrs == Joined(mattrs[..k])
    {
      assert mattrs[..k + 1][..k] == mattrs[..k];
      if k > 0 {
        attrs := attrs + ",";
      }
      attrs := attrs + mattrs[k];
    }
    assert mattrs[..|mattrs|] == mattrs;
  }

  /** The plugin's globals */
  class Plugin {
    /** the options namespace */
    const opts: PluginOptions
    /** the host services onload was given */
    var services: Services
    /** the hooks the host accepted */
    var registered: set<Hook>
    var outputType: PicModel
    var outputName: string
    /** Modules: one entry per claimed file */
    var modules: seq<ClaimedFile>
    /** files to delete once the link is done */
    var cleanup: seq<string>
    /** the code generator, while it exists */
    var codeGen: Option<CodeGen>
    var cannotBeHidden: set<string>
    /** the messages that reached the host's sink */
    var diags: seq<Diagnostic>
    /** the files whose records were handed to add_symbols */
    var submitted: seq<ClaimedFile>
    /** the lines of apifile.txt, once it has been opened */
    var apiFile: Option<seq<string>>
    /** the files the code generator wrote */
    var emitted: seq<Emission>
    /** the files add_input_file accepted */
    var linkInputs: seq<string>
    /** the paths set_extra_library_path accepted */
    var libraryPaths: seq<string>
    /** the files cleanup_hook removed */
    var removed: seq<string>

    /** Every record the host holds is well formed */
    ghost predicate Valid()
      reads this
    {
      AllWellFormed(modules, cannotBeHidden)
    }

    /** The part of the state onload reads and writes */
    function LoadView(): (s: LoadState)
      reads this, opts
    {
      LoadState(services, registered, outputType, outputName, opts.Snapshot(), diags)
    }

    constructor ()
      ensures fresh(opts)
      ensures LoadView() == Fresh
      ensures modules == [] && cleanup == [] && codeGen.None? && cannotBeHidden == {}
      ensures submitted == [] && apiFile.None? && emitted == []
      ensures linkInputs == [] && libraryPaths == [] && removed == []
      ensures Valid()
    {
      opts := new PluginOptions();
      services, registered := NoServices, {};
      outputType, outputName := PicStatic, "";
      modules, cleanup, codeGen, cannotBeHidden := [], [], None, {};
      diags, submitted, apiFile, emitted := [], [], None, [];
      linkInputs, libraryPaths, removed := [], [], [];
    }

    /** A call of the message sink. Until the host passes its own sink the
        default one aborts; after a fatal message the host does not return. */
    method Report(d: Diagnostic) returns (resumed: bool)
      modifies this`diags
      ensures diags == old(diags) + Logged(services.message, d)
      ensures resumed == Resumes(services.message, d.level)
    {
      if services.message {
        diags := diags + [d];
      }
      resumed := Resumes(services.message, d.level);
    }

    /** One entry of the transfer vector; `stop` is how onload ends if it
        ends here */
    method TakeTag(t: Tag) returns (stop: Option<Outcome>)
      modifies this`services, this`registered, this`outputType, this`outputName, this`diags, opts
      ensures Step(old(LoadView()), t) == Stepped(LoadView(), stop)
    {
      stop := None;
      match t {
        case OutputNameTag(n) =>
          outputName := n;
        case LinkerOutputTag(k) =>
          if k == OutputRel || k == OutputDyn || k == OutputPie {
            outputType := PicDynamic;
          } else if k == OutputExec {
            outputType := PicStatic;
          } else {
            var resumed := Report(Diagnostic(Error, UnknownOutputType(k)));
            stop := Some(if resumed then Returned(Err) else Terminated);
          }
        case OptionTag(o) =>
          var discarded := opts.ProcessPluginOption(o);
          if discarded {
            var resumed := Report(Diagnostic(Warning, PathSpecifiedTwice(o.value)));
            if !resumed {
              stop := Some(Terminated);
            }
          }
        case RegisterClaimFileTag(ok) =>
          if ok {
            registered := registered + {OnClaimFile};
          } else {
            stop := Some(Returned(Err));
          }
        case RegisterAllSymbolsReadTag(ok) =>
          if ok {
            registered := registered + {OnAllSymbolsRead};
          } else {
            stop := Some(Returned(Err));
          }
        case RegisterCleanupTag(ok) =>
          if ok {
            registered := registered + {OnCleanup};
          } else {
            stop := Some(Returned(Err));
          }
        case AddSymbolsTag =>
          services := services.(addSymbols := true);
        case GetSymbolsV2Tag =>
          services := services.(getSymbols := true);
        case AddInputFileTag =>
          services := services.(addInputFile := true);
        case SetExtraLibraryPathTag =>
          services := services.(setExtraLibraryPath := true);
        case GetViewTag =>
          services := services.(getView := true);
        case MessageTag =>
          services := services.(message := true);
        case OtherTag(_) =>
      }
    }

    /** The checks after the walk, and the creation of the code generator:
        the -mattr attributes joined, every pass-through option handed over
        in order */
    method Complete(mattrs: seq<string>) returns (outcome: Outcome)
      requires codeGen.None?
      modifies this`diags, this`codeGen
      ensures Finish(old(LoadView()), mattrs) == Loaded(LoadView(), outcome, codeGen)
    {
      if OnClaimFile !in registered {
        var resumed := Report(Diagnostic(Error, ClaimFileNotPassed));
        return if resumed then Returned(Err) else Terminated;
      }
      if !services.addSymbols {
        var resumed := Report(Diagnostic(Error, AddSymbolsNotPassed));
        return if resumed then Returned(Err) else Terminated;
      }
      if OnAllSymbolsRead !in registered {
        return Returned(Ok);
      }
      var g := CodeGen(None, [], [], [], None, false, None);
      if |mattrs| > 0 {
        var attrs := JoinAttrs(mattrs);
        g := g.(attrs := Some(attrs));
      }
      var extra := opts.extra;
      for j := 0 to |extra|
        invariant g == NewCodeGen(mattrs, extra[..j])
      {
        assert extra[..j + 1] == extra[..j] + [extra[j]];
        g := g.(debugOptions := g.debugOptions + [extra[j]]);
      }
      assert extra[..|extra|] == extra;
      codeGen := Some(g);
      return Returned(Ok);
    }

    /** onload: walk the transfer vector, check the required hooks and
        services, and create the code generator */
    method Onload(tags: seq<Tag>, mattrs: seq<string>) returns (outcome: Outcome)
      requires codeGen.None?
      modifies this`services, this`registered, this`outputType, this`outputName, this`diags, this`codeGen, opts
      ensures Load(old(LoadView()), tags, mattrs) == Loaded(LoadView(), outcome, codeGen)
    {
      ghost var s0 := LoadView();
      var i := 0;
      while i < |tags|
        invariant i <= |tags|
        invariant Walk(s0, tags[..i]) == Stepped(LoadView(), None)
        invariant codeGen.None?
      {
        var stop := TakeTag(tags[i]);
        assert tags[..i + 1][..i] == tags[..i];
        if stop.Some? {
          WalkStopped(s0, tags, i + 1);
          return stop.value;
        }
        i := i + 1;
      }
      assert tags[..i] == tags;
      outcome := Complete(mattrs);
    }

    /** The symbol loop of claim_file_hook: a new entry for the file goes
        into Modules, and one record per non-internal symbol goes into it,
        until a symbol with an unknown scope or definition stops the loop */
    method AddClaimedFile(handle: nat, symbols: seq<LtoSymbol>) returns (failure: Option<Complaint>)
      requires Valid()
      modifies this`modules, this`cannotBeHidden
      ensures failure == Scan(symbols).failure
      ensures modules == old(modules) + [ClaimedFile(handle, Scan(symbols).syms)]
      ensures cannotBeHidden == old(cannotBeHidden) + Scan(symbols).hidden
      ensures Valid()
    {
      ScanWellFormed(symbols);
      ExtendWellFormed(modules, cannotBeHidden, ClaimedFile(handle, Scan(symbols).syms), Scan(symbols).hidden);
      var syms, hidden;
      syms, hidden, failure := ScanSymbols(symbols);
      modules := modules + [ClaimedFile(handle, syms)];
      cannotBeHidden := cannotBeHidden + hidden;
    }

    /** claim_file_hook: read the file, and if it is bitcode that parses,
        claim it, register its symbols with the host and link it into the
        code generator */
    method ClaimFileHook(file: InputFile, env: ClaimEnv) returns (outcome: Outcome, claimed: bool)
      requires Valid()
      requires services.addSymbols
      modifies this`modules, this`cannotBeHidden, this`diags, this`submitted, this`codeGen
      ensures Valid()
      ensures claimed <==> env.viewOk && env.isBitcode && env.parsed.Some?
      ensures !env.viewOk ==>
        && outcome == ErrorOutcome(services.message)
        && diags == old(diags) + Logged(services.message, Diagnostic(Error, ViewFailure(services.getView, file.name)))
      ensures env.viewOk && !env.isBitcode ==> outcome == Returned(Ok) && diags == old(diags)
      ensures env.viewOk && env.isBitcode && env.parsed.None? ==>
        && outcome == (if services.message then Returned(Ok) else Terminated)
        && diags == old(diags) + Logged(services.message, Diagnostic(Error, FailedToCreateModule))
      ensures !claimed ==>
        && modules == old(modules) && cannotBeHidden == old(cannotBeHidden)
        && submitted == old(submitted) && codeGen == old(codeGen)
      ensures claimed ==>
        var m := Retargeted(env.parsed.value, opts.triple);
        var sc := Scan(m.symbols);
        var cf := ClaimedFile(file.handle, sc.syms);
        && modules == old(modules) + [cf]
        && cannotBeHidden == old(cannotBeHidden) + sc.hidden
        && (sc.failure.Some? ==>
              && outcome == ErrorOutcome(services.message)
              && diags == old(diags) + Logged(services.message, Diagnostic(Error, sc.failure.value))
              && submitted == old(submitted) && codeGen == old(codeGen))
        && (sc.failure.None? ==> submitted == old(submitted) + (if sc.syms == [] then [] else [cf]))
        && (sc.failure.None? && sc.syms != [] && !env.addSymbolsOk ==>
              && outcome == ErrorOutcome(services.message)
              && diags == old(diags) + Logged(services.message, Diagnostic(Error, UnableToAddSymbols))
              && codeGen == old(codeGen))
        && (sc.failure.None? && (sc.syms == [] || env.addSymbolsOk) && old(codeGen).None? ==>
              outcome == Returned(Ok) && diags == old(diags) && codeGen.None?)
        && (sc.failure.None? && (sc.syms == [] || env.addSymbolsOk) && old(codeGen).Some? && env.addModuleOk ==>
              && outcome == Returned(Ok) && diags == old(diags)
              && codeGen == Some(old(codeGen).value.(merged := old(codeGen).value.merged + [m])))
        && (sc.failure.None? && (sc.syms == [] || env.addSymbolsOk) && old(codeGen).Some? && !env.addModuleOk ==>
              && outcome == ErrorOutcome(services.message)
              && diags == old(diags) + Logged(services.message, Diagnostic(Error, ErrorLinkingModule))
              && codeGen == old(codeGen))
    {
      claimed := false;
      if !env.viewOk {
        var resumed := Report(Diagnostic(Error, ViewFailure(services.getView, file.name)));
        return (if resumed then Returned(Err) else Terminated), false;
      }
      if !env.isBitcode {
        return Returned(Ok), false;
      }
      if env.parsed.None? {
        var resumed := Report(Diagnostic(Error, FailedToCreateModule));
        return (if resumed then Returned(Ok) else Terminated), false;
      }
      claimed := true;
      var m := env.parsed.value;
      if opts.triple != "" {
        m := m.(triple := opts.triple);
      }
      var failure := AddClaimedFile(file.handle, m.symbols);
      if failure.Some? {
        var resumed := Report(Diagnostic(Error, failure.value));
        return (if resumed then Returned(Err) else Terminated), true;
      }
      outcome := SubmitAndLink(modules[|modules| - 1], m, env.addSymbolsOk, env.addModuleOk);
    }

    /** The end of claim_file_hook once the symbol loop has finished: a file
        with records is handed to add_symbols, and the module is linked into
        the code generator if one exists */
    method SubmitAndLink(cf: ClaimedFile, m: LtoModule, addSymbolsOk: bool, addModuleOk: bool) returns (outcome: Outcome)
      modifies this`submitted, this`diags, this`codeGen
      ensures submitted == old(submitted) + (if cf.syms == [] then [] else [cf])
      ensures cf.syms != [] && !addSymbolsOk ==>
        && outcome == ErrorOutcome(services.message)
        && diags == old(diags) + Logged(services.message, Diagnostic(Error, UnableToAddSymbols))
        && codeGen == old(codeGen)
      ensures (cf.syms == [] || addSymbolsOk) && old(codeGen).None? ==>
        outcome == Returned(Ok) && diags == old(diags) && codeGen.None?
      ensures (cf.syms == [] || addSymbolsOk) && old(codeGen).Some? && addModuleOk ==>
        && outcome == Returned(Ok) && diags == old(diags)
        && codeGen == Some(old(codeGen).value.(merged := old(codeGen).value.merged + [m]))
      ensures (cf.syms == [] || addSymbolsOk) && old(codeGen).Some? && !addModuleOk ==>
        && outcome == ErrorOutcome(services.message)
        && diags == old(diags) + Logged(services.message, Diagnostic(Error, ErrorLinkingModule))
        && codeGen == old(codeGen)
    {
      if cf.syms != [] {
        submitted := submitted + [cf];
        if !addSymbolsOk {
          var resumed := Report(Diagnostic(Error, UnableToAddSymbols));
          return if resumed then Returned(Err) else Terminated;
        }
      }
      if codeGen.Some? {
        if !addModuleOk {
          var resumed := Report(Diagnostic(Error, ErrorLinkingModule));
          return if resumed then Returned(Err) else Terminated;
        }
        codeGen := Some(codeGen.value.(merged := codeGen.value.merged + [m]));
      }
      return Returned(Ok);
    }

    /** The loop over Modules in all_symbols_read_hook, module by module */
    method ResolveSymbols(answers: seq<seq<Resolution>>)
      requires codeGen.Some? && Answers(modules, answers)
      requires opts.generateApiFile ==> apiFile.Some?
      modifies this`modules, this`codeGen, this`apiFile
      ensures modules == ResolvedAll(old(modules), answers)
      ensures codeGen == Some(old(codeGen).value.(
        mustPreserve := old(codeGen).value.mustPreserve + Preserved(modules, cannotBeHidden)))
      ensures apiFile == if opts.generateApiFile then Some(old(apiFile).value + Preserved(modules, cannotBeHidden))
                         else old(apiFile)
    {
      var resolved, names := ResolveAll(modules, answers, cannotBeHidden);
      modules := resolved;
      codeGen := Some(codeGen.value.(mustPreserve := codeGen.value.mustPreserve + names));
      if opts.generateApiFile {
        apiFile := Some(apiFile.value + names);
      }
    }

    /** The end of all_symbols_read_hook: the object file is added to the
        link, the extra library path is set, and the object file is queued
        for deletion unless obj-path= was given */
    method HandOff(objectPath: string, addInputOk: bool, setLibraryPathOk: bool) returns (outcome: Outcome)
      requires services.addInputFile
      requires opts.extraLibraryPath != "" ==> services.setExtraLibraryPath
      modifies this`linkInputs, this`libraryPaths, this`cleanup, this`diags
      ensures
        var e := HandedOff(opts.Snapshot(), services.message, objectPath, addInputOk, setLibraryPathOk);
        && outcome == e.outcome
        && linkInputs == old(linkInputs) + e.linkInputs && libraryPaths == old(libraryPaths) + e.libraryPaths
        && cleanup == old(cleanup) + e.cleanup && diags == old(diags) + e.diags
    {
      if !addInputOk {
        var resumed := Report(Diagnostic(Error, UnableToAddObject));
        if !resumed {
          return Terminated;
        }
        resumed := Report(Diagnostic(Error, FileLeftBehind(objectPath)));
        return Returned(Err);
      }
      linkInputs := linkInputs + [objectPath];
      if opts.extraLibraryPath != "" {
        if !setLibraryPathOk {
          var resumed := Report(Diagnostic(Error, UnableToSetLibraryPath));
          return if resumed then Returned(Err) else Terminated;
        }
        libraryPaths := libraryPaths + [opts.extraLibraryPath];
      }
      if opts.objPath == "" {
        cleanup := cleanup + [objectPath];
      }
      return Returned(Ok);
    }

    /** Compile: an object file is written, or the failure is reported */
    method Compile(env: CommitEnv, g: CodeGen) returns (resumed: bool)
      modifies this`emitted, this`diags
      ensures resumed <==> env.compileOk || services.message
      ensures emitted == old(emitted) + (if env.compileOk then [ObjectFile(env.objectPath, g)] else [])
      ensures diags == old(diags) + (if env.compileOk then [] else Logged(services.message, Diagnostic(Error, NoCombinedObject)))
    {
      if env.compileOk {
        emitted := emitted + [ObjectFile(env.objectPath, g)];
        return true;
      }
      resumed := Report(Diagnostic(Error, NoCombinedObject));
    }

    /** Compile, and hand the object file to the host */
    method CompileAndHandOff(env: CommitEnv) returns (outcome: Outcome)
      requires codeGen.Some?
      requires services.addInputFile
      requires opts.extraLibraryPath != "" ==> services.setExtraLibraryPath
      modifies this`codeGen, this`emitted, this`linkInputs, this`libraryPaths, this`cleanup, this`diags
      ensures
        var e := Compiled(opts.Snapshot(), services.message, old(codeGen).value, env);
        && outcome == e.outcome && codeGen == e.codeGen
        && emitted == old(emitted) + e.emitted
        && linkInputs == old(linkInputs) + e.linkInputs && libraryPaths == old(libraryPaths) + e.libraryPaths
        && cleanup == old(cleanup) + e.cleanup && diags == old(diags) + e.diags
    {
      var resumed := Compile(env, codeGen.value);
      if resumed {
        codeGen := None;
        ghost var diags1 := diags;
        outcome := HandOff(env.objectPath, env.addInputOk, env.setLibraryPathOk);
        ghost var h := HandedOff(opts.Snapshot(), services.message, env.objectPath, env.addInputOk, env.setLibraryPathOk);
        assert diags == diags1 + h.diags;
      } else {
        outcome := Terminated;
      }
    }

    /** Where the merged module goes when it is written */
    method MergedPath() returns (path: string)
      requires opts.generateBcFile != BcNo
      ensures BcOutputPath(opts.Snapshot(), outputName) == Some(path)
    {
      if opts.generateBcFile == BcOnly {
        path := outputName;
      } else if opts.bcPath != "" {
        path := opts.bcPath;
      } else {
        path := outputName + ".bc";
      }
    }

    /** The part of all_symbols_read_hook after the code generator is set
        up: write the merged module when asked to, compile, and hand the
        object file to the host */
    method Produce(env: CommitEnv) returns (outcome: Outcome)
      requires codeGen.Some?
      requires opts.generateBcFile != BcOnly ==> services.addInputFile
      requires opts.generateBcFile != BcOnly && opts.extraLibraryPath != "" ==> services.setExtraLibraryPath
      modifies this`codeGen, this`emitted, this`linkInputs, this`libraryPaths, this`cleanup, this`diags
      ensures
        var e := Produced(opts.Snapshot(), outputName, services.message, old(codeGen).value, env);
        && outcome == e.outcome && codeGen == e.codeGen
        && emitted == old(emitted) + e.emitted
        && linkInputs == old(linkInputs) + e.linkInputs && libraryPaths == old(libraryPaths) + e.libraryPaths
        && cleanup == old(cleanup) + e.cleanup && diags == old(diags) + e.diags
    {
      var g := codeGen.value;
      if opts.generateBcFile != BcNo {
        var path := MergedPath();
        if !env.writeOk {
          var resumed := Report(Diagnostic(Fatal, FailedToWriteOutput));
          return Terminated;
        }
        emitted := emitted + [MergedModule(path, g)];
        if opts.generateBcFile == BcOnly {
          codeGen := None;
          return Exited;
        }
      }
      ghost var emitted1 := emitted;
      outcome := CompileAndHandOff(env);
      ghost var k := Compiled(opts.Snapshot(), services.message, g, env);
      assert emitted == emitted1 + k.emitted;
      assert old(emitted) + (emitted1[|old(emitted)|..] + k.emitted) == emitted;
    }

    /** The PIC model, the debug-info model and the CPU */
    method SetUpCodeGen()
      requires codeGen.Some?
      modifies this`codeGen
      ensures codeGen == Some(Configured(old(codeGen).value, outputType, opts.mcpu))
    {
      var g := codeGen.value.(picModel := Some(outputType), dwarfDebugInfo := true);
      if opts.mcpu != "" {
        g := g.(cpu := Some(opts.mcpu));
      }
      codeGen := Some(g);
    }

    /** The part of all_symbols_read_hook after apifile.txt is open */
    method ResolveAndProduce(env: CommitEnv) returns (outcome: Outcome)
      requires codeGen.Some?
      requires Answers(modules, env.resolutions)
      requires opts.generateApiFile ==> apiFile.Some?
      requires opts.generateBcFile != BcOnly ==> services.addInputFile
      requires opts.generateBcFile != BcOnly && opts.extraLibraryPath != "" ==> services.setExtraLibraryPath
      modifies this`modules, this`codeGen, this`apiFile, this`emitted, this`linkInputs, this`libraryPaths,
               this`cleanup, this`diags
      ensures
        var resolved := ResolvedAll(old(modules), env.resolutions);
        var preserved := Preserved(resolved, cannotBeHidden);
        var g := Configured(old(codeGen).value.(mustPreserve := old(codeGen).value.mustPreserve + preserved),
                            outputType, opts.mcpu);
        var e := Produced(opts.Snapshot(), outputName, services.message, g, env);
        && modules == resolved
        && apiFile == (if opts.generateApiFile then Some(old(apiFile).value + preserved) else old(apiFile))
        && outcome == e.outcome && codeGen == e.codeGen
        && emitted == old(emitted) + e.emitted
        && linkInputs == old(linkInputs) + e.linkInputs && libraryPaths == old(libraryPaths) + e.libraryPaths
        && cleanup == old(cleanup) + e.cleanup && diags == old(diags) + e.diags
    {
      ResolveSymbols(env.resolutions);
      SetUpCodeGen();
      outcome := Produce(env);
    }

    /** all_symbols_read_hook: collect the host's resolutions, tell the code
        generator what to preserve, set it up, and produce the output */
    method AllSymbolsReadHook(env: CommitEnv) returns (outcome: Outcome)
      requires codeGen.Some?
      requires Answers(modules, env.resolutions)
      requires services.getSymbols || forall m :: 0 <= m < |modules| ==> modules[m].syms == []
      requires opts.generateBcFile != BcOnly ==> services.addInputFile
      requires opts.generateBcFile != BcOnly && opts.extraLibraryPath != "" ==> services.setExtraLibraryPath
      modifies this`modules, this`codeGen, this`apiFile, this`emitted, this`linkInputs, this`libraryPaths,
               this`cleanup, this`diags
      ensures opts.generateApiFile && !env.apiFileOpens ==>
        && outcome == Terminated
        && diags == old(diags) + Logged(services.message, Diagnostic(Fatal, CannotOpenApiFile))
        && modules == old(modules) && codeGen == old(codeGen) && apiFile == old(apiFile) && emitted == old(emitted)
        && linkInputs == old(linkInputs) && libraryPaths == old(libraryPaths) && cleanup == old(cleanup)
      ensures !opts.generateApiFile || env.apiFileOpens ==>
        var resolved := ResolvedAll(old(modules), env.resolutions);
        var preserved := Preserved(resolved, cannotBeHidden);
        var g := Configured(old(codeGen).value.(mustPreserve := old(codeGen).value.mustPreserve + preserved),
                            outputType, opts.mcpu);
        var e := Produced(opts.Snapshot(), outputName, services.message, g, env);
        && modules == resolved
        && apiFile == (if opts.generateApiFile then Some(preserved) else old(apiFile))
        && outcome == e.outcome && codeGen == e.codeGen
        && emitted == old(emitted) + e.emitted
        && linkInputs == old(linkInputs) + e.linkInputs && libraryPaths == old(libraryPaths) + e.libraryPaths
        && cleanup == old(cleanup) + e.cleanup && diags == old(diags) + e.diags
    {
      if opts.generateApiFile {
        if !env.apiFileOpens {
          var resumed := Report(Diagnostic(Fatal, CannotOpenApiFile));
          return Terminated;
        }
        apiFile := Some([]);
      }
      outcome := ResolveAndProduce(env);
      assert [] + Preserved(modules, cannotBeHidden) == Preserved(modules, cannotBeHidden);
    }

    /** cleanup_hook: remove every queued file, reporting each failure. The
        queue itself is left as it is. */
    method CleanupHook(removeOk: seq<bool>) returns (outcome: Outcome)
      requires |removeOk| == |cleanup|
      modifies this`removed, this`diags
      ensures outcome == Returned(Ok) || outcome == Terminated
      ensures outcome == Terminated <==> !services.message && exists k :: 0 <= k < |removeOk| && !removeOk[k]
      ensures services.message ==>
        && removed == old(removed) + Removed(cleanup, removeOk)
        && diags == old(diags) + DeleteFailures(cleanup, removeOk)
      ensures outcome == Returned(Ok) && !services.message ==> removed == old(removed) + cleanup && diags == old(diags)
      ensures outcome == Terminated ==>
        removed == old(removed) + cleanup[..FirstFailure(removeOk)] && diags == old(diags)
    {
      for i := 0 to |cleanup|
        invariant removed == old(removed) + Removed(cleanup[..i], removeOk[..i])
        invariant services.message ==> diags == old(diags) + DeleteFailures(cleanup[..i], removeOk[..i])
        invariant !services.message ==> diags == old(diags) && forall k :: 0 <= k < i ==> removeOk[k]
      {
        assert cleanup[..i + 1][..i] == cleanup[..i];
        assert removeOk[..i + 1][..i] == removeOk[..i];
        if removeOk[i] {
          removed := removed + [cleanup[i]];
        } else {
          var resumed := Report(Diagnostic(Error, FailedToDelete(cleanup[i])));
          if !resumed {
            RemovedPaths(cleanup[..i], removeOk[..i]);
            return Terminated;
          }
        }
      }
      assert cleanup[..|cleanup|] == cleanup;
      assert removeOk[..|removeOk|] == removeOk;
      RemovedPaths(cleanup, removeOk);
      return Returned(Ok);
    }
}
}
