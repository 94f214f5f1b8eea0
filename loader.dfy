/** onload: the walk over the host's transfer vector, the checks that the
    required capabilities were passed, and the creation of the code
    generator. */
module Loader {
  import opened PluginApi
  import opened Options

  /** One entry of the transfer vector; the vector ends at LDPT_NULL, which
      is the end of the sequence here. The register_* entries carry the
      status the host's registration function answers with. */
  datatype Tag =
    | OutputNameTag(name: string)
    | LinkerOutputTag(kind: int)
    | OptionTag(opt: Option<string>)
    | RegisterClaimFileTag(accepted: bool)
    | RegisterAllSymbolsReadTag(accepted: bool)
    | RegisterCleanupTag(accepted: bool)
    | AddSymbolsTag
    | GetSymbolsV2Tag
    | AddInputFileTag
    | SetExtraLibraryPathTag
    | GetViewTag
    | MessageTag
    | OtherTag(code: int)

  /** The hooks the plugin registers with the host */
  datatype Hook = OnClaimFile | OnAllSymbolsRead | OnCleanup

  /** Which host services the plugin has been given a pointer to; without
      `message` the plugin's own sink, which aborts, is in place */
  datatype Services = Services(
    addSymbols: bool,
    getSymbols: bool,
    addInputFile: bool,
    setExtraLibraryPath: bool,
    getView: bool,
    message: bool)

  const NoServices: Services := Services(false, false, false, false, false, false)

  /** What the walk over the transfer vector reads and writes */
  datatype LoadState = LoadState(
    services: Services,
    registered: set<Hook>,
    outputType: PicModel,
    outputName: string,
    config: Config,
    diags: seq<Diagnostic>)

  /** The state of a freshly loaded plugin */
  const Fresh: LoadState := LoadState(NoServices, {}, PicStatic, "", Initial, [])

  /** The output-kind switch: relocatable, shared and position-independent
      outputs get the dynamic PIC model, executables the static one, and any
      other value is an error */
  function PicModelFor(kind: int): (m: Option<PicModel>)
  {
    if kind == OutputRel || kind == OutputDyn || kind == OutputPie then Some(PicDynamic)
    else if kind == OutputExec then Some(PicStatic)
    else None
  }

  function Report(s: LoadState, d: Diagnostic): (r: LoadState)
  {
    s.(diags := s.diags + Logged(s.services.message, d))
  }

  /** The state after one tag, and how onload ends if it ends there */
  datatype Stepped = Stepped(state: LoadState, stop: Option<Outcome>)

  function Step(s: LoadState, t: Tag): (r: Stepped)
  {
    match t
    case OutputNameTag(n) => Stepped(s.(outputName := n), None)
    case LinkerOutputTag(k) =>
      if PicModelFor(k).Some? then Stepped(s.(outputType := PicModelFor(k).value), None)
      else Stepped(Report(s, Diagnostic(Error, UnknownOutputType(k))), Some(ErrorOutcome(s.services.message)))
    case OptionTag(o) =>
      var s' := s.(config := Apply(s.config, o));
      if Discards(s.config, o) then
        Stepped(Report(s', Diagnostic(Warning, PathSpecifiedTwice(o.value))),
                if Resumes(s.services.message, Warning) then None else Some(Terminated))
      else Stepped(s', None)
    case RegisterClaimFileTag(ok) =>
      if ok then Stepped(s.(registered := s.registered + {OnClaimFile}), None)
      else Stepped(s, Some(Returned(Err)))
    case RegisterAllSymbolsReadTag(ok) =>
      if ok then Stepped(s.(registered := s.registered + {OnAllSymbolsRead}), None)
      else Stepped(s, Some(Returned(Err)))
    case RegisterCleanupTag(ok) =>
      if ok then Stepped(s.(registered := s.registered + {OnCleanup}), None)
      else Stepped(s, Some(Returned(Err)))
    case AddSymbolsTag => Stepped(s.(services := s.services.(addSymbols := true)), None)
    case GetSymbolsV2Tag => Stepped(s.(services := s.services.(getSymbols := true)), None)
    case AddInputFileTag => Stepped(s.(services := s.services.(addInputFile := true)), None)
    case SetExtraLibraryPathTag => Stepped(s.(services := s.services.(setExtraLibraryPath := true)), None)
    case GetViewTag => Stepped(s.(services := s.services.(getView := true)), None)
    case MessageTag => Stepped(s.(services := s.services.(message := true)), None)
    case OtherTag(_) => Stepped(s, None)
  }

  /** The walk over a prefix of the transfer vector; it stops at the first
      tag that ends onload */
  function Walk(s: LoadState, tags: seq<Tag>): (r: Stepped)
    decreases |tags|
  {
    if tags == [] then Stepped(s, None)
    else
      var prev := Walk(s, tags[..|tags| - 1]);
      if prev.stop.Some? then prev else Step(prev.state, tags[|tags| - 1])
  }

  /** Once a prefix of the vector has ended onload, the rest is never read */
  lemma {:induction false} WalkStopped(s: LoadState, tags: seq<Tag>, j: nat)
    requires j <= |tags| && Walk(s, tags[..j]).stop.Some?
    ensures Walk(s, tags) == Walk(s, tags[..j])
    decreases |tags|
  {
    if j < |tags| {
      var init := tags[..|tags| - 1];
      assert init[..j] == tags[..j];
      WalkStopped(s, init, j);
    } else {
      assert tags[..j] == tags;
    }
  }

  /** The -mattr list joined with commas */
  function Joined(attrs: seq<string>): (r: string)
    decreases |attrs|
  {
    if attrs == [] then ""
    else if |attrs| == 1 then attrs[0]
    else Joined(attrs[..|attrs| - 1]) + "," + attrs[|attrs| - 1]
  }

  /** Cutting a string at every comma */
  function Split(s: string): (r: seq<string>)
    ensures |r| > 0
  {
    if s == [] then [""]
    else if s[0] == ',' then [""] + Split(s[1..])
    else var rest := Split(s[1..]); [[s[0]] + rest[0]] + rest[1..]
  }

  lemma {:induction false} SplitPlain(a: string)
    requires ',' !in a
    ensures Split(a) == [a]
    decreases |a|
  {
    if a != [] {
      SplitPlain(a[1..]);
      assert [a[0]] + a[1..] == a;
    }
  }

  lemma {:induction false} SplitAppend(a: string, b: string)
    requires ',' !in b
    ensures Split(a + "," + b) == Split(a) + [b]
    decreases |a|
  {
    if a == [] {
      assert a + "," + b == [','] + b;
      assert ([','] + b)[1..] == b;
      SplitPlain(b);
    } else {
      assert (a + "," + b)[1..] == a[1..] + "," + b;
      SplitAppend(a[1..], b);
      if a[0] != ',' {
        var rest := Split(a[1..]);
        assert Split(a) == [[a[0]] + rest[0]] + rest[1..];
      }
    }
  }

  /** The joined -mattr string loses nothing: as long as no attribute itself
      holds a comma, cutting it at the commas gives back the list */
  lemma {:induction false} JoinedSplits(attrs: seq<string>)
    requires |attrs| > 0
    requires forall k :: 0 <= k < |attrs| ==> ',' !in attrs[k]
    ensures Split(Joined(attrs)) == attrs
    decreases |attrs|
  {
    if |attrs| == 1 {
      SplitPlain(attrs[0]);
    } else {
      var init := attrs[..|attrs| - 1];
      JoinedSplits(init);
      SplitAppend(Joined(init), attrs[|attrs| - 1]);
      assert init + [attrs[|attrs| - 1]] == attrs;
    }
  }

  /** The code generator onload creates: the -mattr string if there are
      attributes, and the pass-through options in order */
  function NewCodeGen(mattrs: seq<string>, extra: seq<string>): (g: CodeGen)
  {
    CodeGen(if |mattrs| > 0 then Some(Joined(mattrs)) else None, extra, [], [], None, false, None)
  }

  /** How onload ends, the state it leaves, and the code generator it
      creates, if it creates one */
  datatype Loaded = Loaded(state: LoadState, outcome: Outcome, codeGen: Option<CodeGen>)

  /** The checks after the walk: the claim-file hook and add_symbols are
      required; without the all-symbols-read hook there is nothing to
      generate code for */
  function Finish(s: LoadState, mattrs: seq<string>): (r: Loaded)
  {
    if OnClaimFile !in s.registered then
      Loaded(Report(s, Diagnostic(Error, ClaimFileNotPassed)), ErrorOutcome(s.services.message), None)
    else if !s.services.addSymbols then
      Loaded(Report(s, Diagnostic(Error, AddSymbolsNotPassed)), ErrorOutcome(s.services.message), None)
    else if OnAllSymbolsRead !in s.registered then
      Loaded(s, Returned(Ok), None)
    else
      Loaded(s, Returned(Ok), Some(NewCodeGen(mattrs, s.config.extra)))
  }

  function Load(s: LoadState, tags: seq<Tag>, mattrs: seq<string>): (r: Loaded)
  {
    var w := Walk(s, tags);
    if w.stop.Some? then Loaded(w.state, w.stop.value, None) else Finish(w.state, mattrs)
  }

  /** A tag that ends onload early */
  predicate Stops(t: Tag)
  {
    || (t.LinkerOutputTag? && PicModelFor(t.kind).None?)
    || t == RegisterClaimFileTag(false)
    || t == RegisterAllSymbolsReadTag(false)
    || t == RegisterCleanupTag(false)
  }

  /** The option strings of the transfer vector, in order */
  function OptionsIn(tags: seq<Tag>): (r: seq<Option<string>>)
  {
    if tags == [] then []
    else (if tags[0].OptionTag? then [tags[0].opt] else []) + OptionsIn(tags[1..])
  }

  lemma {:induction false} OptionsInSnoc(tags: seq<Tag>, t: Tag)
    ensures OptionsIn(tags + [t]) == OptionsIn(tags) + (if t.OptionTag? then [t.opt] else [])
    decreases |tags|
  {
    if tags != [] {
      assert (tags + [t])[1..] == tags[1..] + [t];
      OptionsInSnoc(tags[1..], t);
    } else {
      assert [t][1..] == [];
    }
  }

  /** One tag with the host's sink in place: it ends onload, with
      LDPS_ERR, exactly when it is a tag that stops the walk */
  lemma StepWithSink(s: LoadState, t: Tag)
    requires s.services.message
    ensures Step(s, t).stop.Some? <==> Stops(t)
    ensures Step(s, t).stop.Some? ==> Step(s, t).stop.value == Returned(Err)
    ensures Step(s, t).state.services.message
    ensures Step(s, t).state.registered ==
      s.registered + (if t == RegisterClaimFileTag(true) then {OnClaimFile}
                      else if t == RegisterAllSymbolsReadTag(true) then {OnAllSymbolsRead}
                      else if t == RegisterCleanupTag(true) then {OnCleanup}
                      else {})
    ensures Step(s, t).state.services.addSymbols <==> (s.services.addSymbols || t == AddSymbolsTag)
    ensures Step(s, t).state.config == if t.OptionTag? then Apply(s.config, t.opt) else s.config
  {
  }

  /** With the host's sink in place the walk stops exactly at a tag that
      ends onload, and then with LDPS_ERR */
  lemma {:induction false} WalkStops(s: LoadState, tags: seq<Tag>)
    requires s.services.message
    ensures Walk(s, tags).stop.Some? <==> exists i :: 0 <= i < |tags| && Stops(tags[i])
    ensures Walk(s, tags).stop.Some? ==> Walk(s, tags).stop.value == Returned(Err)
    ensures Walk(s, tags).state.services.message
    decreases |tags|
  {
    if tags != [] {
      var init, t := tags[..|tags| - 1], tags[|tags| - 1];
      WalkStops(s, init);
      var prev := Walk(s, init);
      if prev.stop.Some? {
        var i :| 0 <= i < |init| && Stops(init[i]);
        assert tags[i] == init[i];
      } else {
        StepWithSink(prev.state, t);
        if exists i :: 0 <= i < |tags| && Stops(tags[i]) {
          var i :| 0 <= i < |tags| && Stops(tags[i]);
          if i < |init| {
            assert Stops(init[i]);
          }
        }
      }
    }
  }

  /** A walk that runs to the end with the host's sink in place has
      registered every hook it was offered, recorded every service it was
      passed, and folded every option in order */
  lemma {:induction false} WalkState(s: LoadState, tags: seq<Tag>)
    requires s.services.message
    requires Walk(s, tags).stop.None?
    ensures OnClaimFile in Walk(s, tags).state.registered <==>
      (OnClaimFile in s.registered || RegisterClaimFileTag(true) in tags)
    ensures OnAllSymbolsRead in Walk(s, tags).state.registered <==>
      (OnAllSymbolsRead in s.registered || RegisterAllSymbolsReadTag(true) in tags)
    ensures OnCleanup in Walk(s, tags).state.registered <==>
      (OnCleanup in s.registered || RegisterCleanupTag(true) in tags)
    ensures Walk(s, tags).state.services.addSymbols <==> (s.services.addSymbols || AddSymbolsTag in tags)
    ensures Walk(s, tags).state.config == ApplyAll(s.config, OptionsIn(tags))
    decreases |tags|
  {
    if tags != [] {
      var init, t := tags[..|tags| - 1], tags[|tags| - 1];
      assert init + [t] == tags;
      WalkState(s, init);
      WalkStops(s, init);
      OptionsInSnoc(init, t);
      StepWithSink(Walk(s, init).state, t);
      assert forall x :: x in tags <==> x in init || x == t;
      var opts := OptionsIn(init);
      if t.OptionTag? {
        assert (opts + [t.opt])[..|opts|] == opts;
      } else {
        assert opts + [] == opts;
      }
    }
  }

  lemma {:induction false} WalkFirst(s: LoadState, t: Tag, rest: seq<Tag>)
    requires Step(s, t).stop.None?
    ensures Walk(s, [t] + rest) == Walk(Step(s, t).state, rest)
    decreases |rest|
  {
    if rest == [] {
      assert ([t] + rest)[..0] == [];
    } else {
      var init := rest[..|rest| - 1];
      WalkFirst(s, t, init);
      assert ([t] + rest)[..|[t] + rest| - 1] == [t] + init;
    }
  }

  /** The onload result for a host that passes its message sink first, as
      gold does: LDPS_ERR exactly when a tag ends the walk early, the
      claim-file hook was never registered, or add_symbols was never passed;
      otherwise LDPS_OK, with a code generator exactly when the
      all-symbols-read hook was registered. That code generator receives
      every option the plugin does not recognise, in order. */
  lemma {:induction false} OnloadResult(tags: seq<Tag>, mattrs: seq<string>)
    requires |tags| > 0 && tags[0] == MessageTag
    ensures Load(Fresh, tags, mattrs).outcome == Returned(Err) <==>
      || (exists i :: 0 <= i < |tags| && Stops(tags[i]))
      || RegisterClaimFileTag(true) !in tags
      || AddSymbolsTag !in tags
    ensures Load(Fresh, tags, mattrs).outcome != Returned(Err) ==>
      Load(Fresh, tags, mattrs).outcome == Returned(Ok)
    ensures Load(Fresh, tags, mattrs).codeGen.Some? <==>
      Load(Fresh, tags, mattrs).outcome == Returned(Ok) && RegisterAllSymbolsReadTag(true) in tags
    ensures Load(Fresh, tags, mattrs).codeGen.Some? ==>
      Load(Fresh, tags, mattrs).codeGen.value.debugOptions == PassedThrough(OptionsIn(tags))
  {
    var s1 := Step(Fresh, MessageTag).state;
    var rest := tags[1..];
    assert [MessageTag] + rest == tags;
    WalkFirst(Fresh, MessageTag, rest);
    WalkStops(s1, rest);
    if Walk(s1, rest).stop.None? {
      WalkState(s1, rest);
    }
    assert forall x :: x in tags <==> x == MessageTag || x in rest;
    if exists i :: 0 <= i < |tags| && Stops(tags[i]) {
      var i :| 0 <= i < |tags| && Stops(tags[i]);
      assert rest[i - 1] == tags[i];
    }
    assert OptionsIn(tags) == OptionsIn(rest) by {
      assert tags[1..] == rest;
    }
    ExtraCollectsPassThrough(Initial, OptionsIn(rest));
  }

  /** Of several output-kind tags the last one decides the PIC model */
  lemma {:induction false} LastOutputKindWins(s: LoadState, tags: seq<Tag>, k: nat)
    requires k < |tags| && tags[k].LinkerOutputTag? && PicModelFor(tags[k].kind).Some?
    requires forall j :: k < j < |tags| ==> !tags[j].LinkerOutputTag?
    requires Walk(s, tags).stop.None?
    ensures Walk(s, tags).state.outputType == PicModelFor(tags[k].kind).value
    decreases |tags|
  {
    var init := tags[..|tags| - 1];
    if k < |tags| - 1 {
      LastOutputKindWins(s, init, k);
    } else {
      assert Walk(s, tags) == Step(Walk(s, init).state, tags[k]);
    }
  }
}
