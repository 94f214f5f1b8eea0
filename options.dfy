/** The plugin's option accumulator: the `options` globals and the function
    that folds one `-plugin-opt` string into them. */
module Options {
  import opened PluginApi

  /** options::generate_bc: whether and how the merged module is written */
  datatype BcMode = BcNo | BcAlso | BcOnly

  /** The value of every option global at one moment */
  datatype Config = Config(
    generateApiFile: bool,
    generateBcFile: BcMode,
    bcPath: string,
    objPath: string,
    extraLibraryPath: string,
    triple: string,
    mcpu: string,
    extra: seq<string>)

  /** The globals' static initial values */
  const Initial: Config := Config(false, BcNo, "", "", "", "", "", [])

  predicate StartsWith(s: string, prefix: string)
  {
    |prefix| <= |s| && s[..|prefix|] == prefix
  }

  /** The options the plugin keeps for itself; every other one is handed on
      to the code generator */
  predicate Recognised(opt: string)
  {
    || opt == "generate-api-file"
    || opt == "emit-llvm"
    || opt == "also-emit-llvm"
    || StartsWith(opt, "mcpu=")
    || StartsWith(opt, "extra-library-path=")
    || StartsWith(opt, "mtriple=")
    || StartsWith(opt, "obj-path=")
    || StartsWith(opt, "also-emit-llvm=")
  }

  /** What process_plugin_option recognises in an option string; the tests
      are made in the order the source makes them */
  datatype OptionKind =
    | ApiFile
    | Cpu(cpu: string)
    | LibraryPath(path: string)
    | Triple(triple: string)
    | ObjPath(path: string)
    | EmitOnly
    | AlsoEmit
    | AlsoEmitTo(path: string)
    | PassThrough(opt: string)

  /** The keys the plugin tests by prefix */
  const Prefixes: set<string> := {"mcpu=", "extra-library-path=", "mtriple=", "obj-path=", "also-emit-llvm="}

  /** The prefixes the plugin tests are pairwise disjoint, so an option that
      starts with one starts with no other and equals none of the exact keys */
  lemma {:induction false} PrefixesDisjoint(o: string)
    ensures forall p, q :: p in Prefixes && q in Prefixes && StartsWith(o, p) && StartsWith(o, q) ==> p == q
    ensures forall p :: p in Prefixes && StartsWith(o, p) ==>
      o != "generate-api-file" && o != "emit-llvm" && o != "also-emit-llvm"
    ensures StartsWith(o, "mcpu=") ==> o[0] == 'm' && o[1] == 'c'
    ensures StartsWith(o, "extra-library-path=") ==> o[0] == 'e' && o[1] == 'x'
    ensures StartsWith(o, "mtriple=") ==> o[0] == 'm' && o[1] == 't'
    ensures StartsWith(o, "obj-path=") ==> o[0] == 'o'
    ensures StartsWith(o, "also-emit-llvm=") ==> o[0] == 'a' && |o| >= 15 && o[14] == '='
  {
    if StartsWith(o, "mcpu=") {
      assert o[..5][0] == 'm' && o[..5][1] == 'c';
    }
    if StartsWith(o, "extra-library-path=") {
      assert o[..19][0] == 'e' && o[..19][1] == 'x';
    }
    if StartsWith(o, "mtriple=") {
      assert o[..8][0] == 'm' && o[..8][1] == 't';
    }
    if StartsWith(o, "obj-path=") {
      assert o[..9][0] == 'o';
    }
    if StartsWith(o, "also-emit-llvm=") {
      assert o[..15][0] == 'a' && o[..15][14] == '=';
    }
  }

  /** The test chain of process_plugin_option. The `extra-library-path=`
      value is cut with the length of "extra_library_path=", which is the
      same. Only unrecognised options are passed through, verbatim. */
  function Classify(o: string): (k: OptionKind)
    ensures k.PassThrough? <==> !Recognised(o)
    ensures k.PassThrough? ==> k.opt == o
    ensures k == ApiFile <==> o == "generate-api-file"
    ensures k.Cpu? <==> StartsWith(o, "mcpu=")
    ensures k.Cpu? ==> k.cpu == o[|"mcpu="|..] && o == "mcpu=" + k.cpu
    ensures k.LibraryPath? <==> StartsWith(o, "extra-library-path=")
    ensures k.LibraryPath? ==> k.path == o[|"extra-library-path="|..] && o == "extra-library-path=" + k.path
    ensures k.Triple? <==> StartsWith(o, "mtriple=")
    ensures k.Triple? ==> k.triple == o[|"mtriple="|..] && o == "mtriple=" + k.triple
    ensures k.ObjPath? <==> StartsWith(o, "obj-path=")
    ensures k.ObjPath? ==> k.path == o[|"obj-path="|..] && o == "obj-path=" + k.path
    ensures k.AlsoEmitTo? <==> StartsWith(o, "also-emit-llvm=")
    ensures k.AlsoEmitTo? ==> o == "also-emit-llvm=" + k.path
    ensures k == EmitOnly <==> o == "emit-llvm"
    ensures k == AlsoEmit <==> o == "also-emit-llvm"
  {
    PrefixesDisjoint(o);
    if o == "generate-api-file" then ApiFile
    else if StartsWith(o, "mcpu=") then
      assert o == o[..5] + o[5..];
      Cpu(o[|"mcpu="|..])
    else if StartsWith(o, "extra-library-path=") then
      assert o == o[..19] + o[19..];
      LibraryPath(o[|"extra_library_path="|..])
    else if StartsWith(o, "mtriple=") then
      assert o == o[..8] + o[8..];
      Triple(o[|"mtriple="|..])
    else if StartsWith(o, "obj-path=") then
      assert o == o[..9] + o[9..];
      ObjPath(o[|"obj-path="|..])
    else if o == "emit-llvm" then EmitOnly
    else if o == "also-emit-llvm" then AlsoEmit
    else if StartsWith(o, "also-emit-llvm=") then
      assert o == o[..15] + o[15..];
      AlsoEmitTo(o[|"also-emit-llvm="|..])
    else PassThrough(o)
  }

  /** The emission mode an option selects, if it selects one */
  function ModeSet(opt: Option<string>): (m: Option<BcMode>)
  {
    match opt
    case None => None
    case Some(o) =>
      match Classify(o)
      case EmitOnly => Some(BcOnly)
      case AlsoEmit => Some(BcAlso)
      case AlsoEmitTo(_) => Some(BcAlso)
      case _ => None
  }

  /** The path carried by an `also-emit-llvm=<path>` option, if it is one */
  function BcPathOf(opt: Option<string>): (p: Option<string>)
    ensures p.Some? ==> opt.Some? && opt.value == "also-emit-llvm=" + p.value
  {
    match opt
    case None => None
    case Some(o) => if Classify(o).AlsoEmitTo? then Some(Classify(o).path) else None
  }

  /** Every `also-emit-llvm=<path>` option carries its path */
  lemma BcPathOfPath(p: string)
    ensures BcPathOf(Some("also-emit-llvm=" + p)) == Some(p)
  {
    var o := "also-emit-llvm=" + p;
    assert o[..15] == "also-emit-llvm=";
    assert o[15..] == p;
  }

  /** The value a `<key><value>` option carries, if the option has that key */
  function Keyed(opt: Option<string>, key: string): (v: Option<string>)
    ensures v.Some? <==> opt.Some? && StartsWith(opt.value, key)
    ensures v.Some? ==> opt.value == key + v.value
  {
    if opt.Some? && StartsWith(opt.value, key) then
      assert opt.value == opt.value[..|key|] + opt.value[|key|..];
      Some(opt.value[|key|..])
    else None
  }

  /** One recognised option applied to the globals */
  function Update(c: Config, k: OptionKind): (r: Config)
  {
    match k
    case ApiFile => c.(generateApiFile := true)
    case Cpu(v) => c.(mcpu := v)
    case LibraryPath(v) => c.(extraLibraryPath := v)
    case Triple(v) => c.(triple := v)
    case ObjPath(v) => c.(objPath := v)
    case EmitOnly => c.(generateBcFile := BcOnly)
    case AlsoEmit => c.(generateBcFile := BcAlso)
    case AlsoEmitTo(path) =>
      if c.bcPath != "" then c.(generateBcFile := BcAlso)
      else c.(generateBcFile := BcAlso, bcPath := path)
    case PassThrough(o) => c.(extra := c.extra + [o])
  }

  /** process_plugin_option on the value of the globals. A null option
      changes nothing; a recognised one never touches `extra`; any other one
      is appended to `extra`. `also-emit-llvm=<path>` always selects BC_ALSO
      but stores its path only while no path is stored yet. */
  function Apply(c: Config, opt: Option<string>): (r: Config)
    ensures opt.None? ==> r == c
    ensures opt.Some? && Recognised(opt.value) ==> r.extra == c.extra
    ensures opt.Some? && !Recognised(opt.value) ==> r == c.(extra := c.extra + [opt.value])
    ensures ModeSet(opt).Some? ==> r.generateBcFile == ModeSet(opt).value
    ensures ModeSet(opt).None? ==> r.generateBcFile == c.generateBcFile
    ensures BcPathOf(opt).Some? && c.bcPath == "" ==> r.bcPath == BcPathOf(opt).value
    ensures BcPathOf(opt).None? || c.bcPath != "" ==> r.bcPath == c.bcPath
    ensures r.generateApiFile <==> c.generateApiFile || opt == Some("generate-api-file")
    ensures Keyed(opt, "mcpu=").Some? ==> r.mcpu == Keyed(opt, "mcpu=").value
    ensures Keyed(opt, "mcpu=").None? ==> r.mcpu == c.mcpu
    ensures Keyed(opt, "extra-library-path=").Some? ==> r.extraLibraryPath == Keyed(opt, "extra-library-path=").value
    ensures Keyed(opt, "extra-library-path=").None? ==> r.extraLibraryPath == c.extraLibraryPath
    ensures Keyed(opt, "mtriple=").Some? ==> r.triple == Keyed(opt, "mtriple=").value
    ensures Keyed(opt, "mtriple=").None? ==> r.triple == c.triple
    ensures Keyed(opt, "obj-path=").Some? ==> r.objPath == Keyed(opt, "obj-path=").value
    ensures Keyed(opt, "obj-path=").None? ==> r.objPath == c.objPath
  {
    match opt
    case None => c
    case Some(o) => Update(c, Classify(o))
  }

  /** Whether processing `opt` warns that the output IL path was given twice
      and discards the new one */
  predicate Discards(c: Config, opt: Option<string>)
  {
    BcPathOf(opt).Some? && c.bcPath != ""
  }

  /** The globals after processing `opts` in order */
  function ApplyAll(c: Config, opts: seq<Option<string>>): (r: Config)
    decreases |opts|
  {
    if opts == [] then c else Apply(ApplyAll(c, opts[..|opts| - 1]), opts[|opts| - 1])
  }

  /** The options that are passed through to the code generator: the non-null
      unrecognised ones, in arrival order */
  function PassedThrough(opts: seq<Option<string>>): (r: seq<string>)
    ensures forall k :: 0 <= k < |r| ==> !Recognised(r[k])
  {
    if opts == [] then []
    else
      (if opts[0].Some? && !Recognised(opts[0].value) then [opts[0].value] else [])
      + PassedThrough(opts[1..])
  }

  /** The path of the first `also-emit-llvm=<path>` option whose path is not
      empty, or "" when there is none */
  function FirstBcPath(opts: seq<Option<string>>): (p: string)
  {
    if opts == [] then ""
    else if BcPathOf(opts[0]).Some? && BcPathOf(opts[0]).value != "" then BcPathOf(opts[0]).value
    else FirstBcPath(opts[1..])
  }

  lemma {:induction false} PassedThroughSnoc(opts: seq<Option<string>>, o: Option<string>)
    ensures PassedThrough(opts + [o])
         == PassedThrough(opts) + (if o.Some? && !Recognised(o.value) then [o.value] else [])
    decreases |opts|
  {
    if opts != [] {
      assert (opts + [o])[1..] == opts[1..] + [o];
      PassedThroughSnoc(opts[1..], o);
    } else {
      assert [o][1..] == [];
    }
  }

  lemma {:induction false} FirstBcPathSnoc(opts: seq<Option<string>>, o: Option<string>)
    ensures FirstBcPath(opts + [o])
         == if FirstBcPath(opts) != "" then FirstBcPath(opts)
            else if BcPathOf(o).Some? then BcPathOf(o).value
            else ""
    decreases |opts|
  {
    if opts != [] {
      assert (opts + [o])[1..] == opts[1..] + [o];
      FirstBcPathSnoc(opts[1..], o);
    } else {
      assert [o][1..] == [];
    }
  }

  /** Every unrecognised non-null option ends up in `extra`, in arrival
      order, after what `extra` held before; nothing else does */
  lemma {:induction false} ExtraCollectsPassThrough(c: Config, opts: seq<Option<string>>)
    ensures ApplyAll(c, opts).extra == c.extra + PassedThrough(opts)
    decreases |opts|
  {
    if opts != [] {
      var init := opts[..|opts| - 1];
      ExtraCollectsPassThrough(c, init);
      PassedThroughSnoc(init, opts[|opts| - 1]);
      assert init + [opts[|opts| - 1]] == opts;
    }
  }

  /** The first non-empty `also-emit-llvm=` path wins: later ones are
      discarded, and a stored path is never replaced */
  lemma {:induction false} FirstBcPathWins(c: Config, opts: seq<Option<string>>)
    ensures ApplyAll(c, opts).bcPath == if c.bcPath != "" then c.bcPath else FirstBcPath(opts)
    decreases |opts|
  {
    if opts != [] {
      var init, last := opts[..|opts| - 1], opts[|opts| - 1];
      FirstBcPathWins(c, init);
      FirstBcPathSnoc(init, last);
      assert init + [last] == opts;
      var prev := ApplyAll(c, init);
      assert ApplyAll(c, opts) == Apply(prev, last);
    }
  }

  /** For the emission mode the last option that selects one wins */
  lemma {:induction false} LastModeWins(c: Config, opts: seq<Option<string>>, k: nat)
    requires k < |opts| && ModeSet(opts[k]).Some?
    requires forall j :: k < j < |opts| ==> ModeSet(opts[j]).None?
    ensures ApplyAll(c, opts).generateBcFile == ModeSet(opts[k]).value
    decreases |opts|
  {
    if k < |opts| - 1 {
      LastModeWins(c, opts[..|opts| - 1], k);
    }
  }

  /** `generate-api-file` is sticky: the API file is requested exactly when
      it was before or some option asks for it */
  lemma {:induction false} ApiFileRequested(c: Config, opts: seq<Option<string>>)
    ensures ApplyAll(c, opts).generateApiFile <==> c.generateApiFile || Some("generate-api-file") in opts
    decreases |opts|
  {
    if opts != [] {
      var init := opts[..|opts| - 1];
      ApiFileRequested(c, init);
      assert init + [opts[|opts| - 1]] == opts;
    }
  }

  /** The globals set by a `<key><value>` option */
  predicate IsSetting(f: Field)
  {
    f == CpuField || f == LibraryPathField || f == TripleField || f == ObjPathField
  }

  /** The key of the option that sets a global */
  function KeyOf(f: Field): (key: string)
    requires IsSetting(f)
  {
    if f == CpuField then "mcpu="
    else if f == LibraryPathField then "extra-library-path="
    else if f == TripleField then "mtriple="
    else "obj-path="
  }

  /** For `mcpu=`, `extra-library-path=`, `mtriple=` and `obj-path=` the last
      option with the key decides the value */
  lemma {:induction false} LastSettingWins(c: Config, opts: seq<Option<string>>, f: Field, k: nat)
    requires IsSetting(f)
    requires k < |opts| && Keyed(opts[k], KeyOf(f)).Some?
    requires forall j :: k < j < |opts| ==> Keyed(opts[j], KeyOf(f)).None?
    ensures Get(ApplyAll(c, opts), f) == Text(Keyed(opts[k], KeyOf(f)).value)
    decreases |opts|
  {
    if k < |opts| - 1 {
      LastSettingWins(c, opts[..|opts| - 1], f, k);
    }
  }

  /** Without an option with its key a global keeps its value */
  lemma {:induction false} SettingUntouched(c: Config, opts: seq<Option<string>>, f: Field)
    requires IsSetting(f)
    requires forall j :: 0 <= j < |opts| ==> Keyed(opts[j], KeyOf(f)).None?
    ensures Get(ApplyAll(c, opts), f) == Get(c, f)
    decreases |opts|
  {
    if opts != [] {
      SettingUntouched(c, opts[..|opts| - 1], f);
    }
  }

  /** Options that select no mode leave the mode as it was */
  lemma {:induction false} ModeUntouched(c: Config, opts: seq<Option<string>>)
    requires forall j :: 0 <= j < |opts| ==> ModeSet(opts[j]).None?
    ensures ApplyAll(c, opts).generateBcFile == c.generateBcFile
    decreases |opts|
  {
    if opts != [] {
      ModeUntouched(c, opts[..|opts| - 1]);
    }
  }

  /** The globals, one by one */
  datatype Field = ApiFileFlag | CpuField | LibraryPathField | TripleField | ObjPathField | Mode | BcPathField | Extra

  /** The value of one global */
  datatype Value = Flag(b: bool) | ModeValue(m: BcMode) | Text(s: string) | List(l: seq<string>)

  function Get(c: Config, f: Field): (v: Value)
  {
    match f
    case ApiFileFlag => Flag(c.generateApiFile)
    case CpuField => Text(c.mcpu)
    case LibraryPathField => Text(c.extraLibraryPath)
    case TripleField => Text(c.triple)
    case ObjPathField => Text(c.objPath)
    case Mode => ModeValue(c.generateBcFile)
    case BcPathField => Text(c.bcPath)
    case Extra => List(c.extra)
  }

  /** Two configurations that agree on every global are the same */
  lemma SameEverywhere(c: Config, d: Config)
    requires forall f :: Get(c, f) == Get(d, f)
    ensures c == d
  {
    assert Get(c, ApiFileFlag) == Get(d, ApiFileFlag) && Get(c, CpuField) == Get(d, CpuField);
    assert Get(c, LibraryPathField) == Get(d, LibraryPathField) && Get(c, TripleField) == Get(d, TripleField);
    assert Get(c, ObjPathField) == Get(d, ObjPathField) && Get(c, Mode) == Get(d, Mode);
    assert Get(c, BcPathField) == Get(d, BcPathField) && Get(c, Extra) == Get(d, Extra);
  }

  /** The globals a recognised option writes (or, for `also-emit-llvm=`,
      reads) */
  predicate Writes(k: OptionKind, f: Field)
  {
    match k
    case ApiFile => f == ApiFileFlag
    case Cpu(_) => f == CpuField
    case LibraryPath(_) => f == LibraryPathField
    case Triple(_) => f == TripleField
    case ObjPath(_) => f == ObjPathField
    case EmitOnly => f == Mode
    case AlsoEmit => f == Mode
    case AlsoEmitTo(_) => f == Mode || f == BcPathField
    case PassThrough(_) => f == Extra
  }

  predicate Touches(opt: Option<string>, f: Field)
  {
    opt.Some? && Writes(Classify(opt.value), f)
  }

  /** A recognised option changes only the globals it touches */
  lemma UpdateFrame(c: Config, k: OptionKind, f: Field)
    requires !Writes(k, f)
    ensures Get(Update(c, k), f) == Get(c, f)
  {
  }

  /** What a recognised option writes depends only on the globals it
      touches */
  lemma UpdateLocal(c: Config, d: Config, k: OptionKind, f: Field)
    requires forall g :: Writes(k, g) ==> Get(c, g) == Get(d, g)
    requires Writes(k, f)
    ensures Get(Update(c, k), f) == Get(Update(d, k), f)
  {
    if k.AlsoEmitTo? {
      assert Get(c, BcPathField) == Get(d, BcPathField);
    } else if k.PassThrough? {
      assert Get(c, Extra) == Get(d, Extra);
    }
  }

  /** Options that concern different globals may be given in either order */
  lemma DistinctKeysCommute(c: Config, a: Option<string>, b: Option<string>)
    requires forall f :: !(Touches(a, f) && Touches(b, f))
    ensures Apply(Apply(c, a), b) == Apply(Apply(c, b), a)
  {
    if a.Some? && b.Some? {
      var ka, kb := Classify(a.value), Classify(b.value);
      var ca, cb := Update(c, ka), Update(c, kb);
      forall f
        ensures Get(Update(ca, kb), f) == Get(Update(cb, ka), f)
      {
        assert !(Touches(a, f) && Touches(b, f));
        if Writes(ka, f) {
          UpdateFrame(ca, kb, f);
          forall g | Writes(ka, g) ensures Get(cb, g) == Get(c, g) {
            assert !(Touches(a, g) && Touches(b, g));
            UpdateFrame(c, kb, g);
          }
          UpdateLocal(cb, c, ka, f);
        } else if Writes(kb, f) {
          UpdateFrame(cb, ka, f);
          forall g | Writes(kb, g) ensures Get(ca, g) == Get(c, g) {
            assert !(Touches(a, g) && Touches(b, g));
            UpdateFrame(c, ka, g);
          }
          UpdateLocal(ca, c, kb, f);
        } else {
          UpdateFrame(c, ka, f);
          UpdateFrame(ca, kb, f);
          UpdateFrame(c, kb, f);
          UpdateFrame(cb, ka, f);
        }
      }
      SameEverywhere(Update(ca, kb), Update(cb, ka));
    }
  }

  /** The option globals, updated in place by process_plugin_option */
  class PluginOptions {
    var generateApiFile: bool
    var generateBcFile: BcMode
    var bcPath: string
    var objPath: string
    var extraLibraryPath: string
    var triple: string
    var mcpu: string
    var extra: seq<string>

    function Snapshot(): (c: Config)
      reads this
    {
      Config(generateApiFile, generateBcFile, bcPath, objPath, extraLibraryPath, triple, mcpu, extra)
    }

    constructor ()
      ensures Snapshot() == Initial
    {
      generateApiFile, generateBcFile := false, BcNo;
      bcPath, objPath, extraLibraryPath, triple, mcpu := "", "", "", "", "";
      extra := [];
    }

    /** process_plugin_option; `discarded` says that the caller must warn
        that the output IL path was specified twice */
    method ProcessPluginOption(opt: Option<string>) returns (discarded: bool)
      modifies this
      ensures Snapshot() == Apply(old(Snapshot()), opt)
      ensures discarded == Discards(old(Snapshot()), opt)
    {
      discarded := false;
      if opt.None? {
        return;
      }
      var o := opt.value;
      PrefixesDisjoint(o);
      if o == "generate-api-file" {
        generateApiFile := true;
      } else if StartsWith(o, "mcpu=") {
        mcpu := o[|"mcpu="|..];
      } else if StartsWith(o, "extra-library-path=") {
        extraLibraryPath := o[|"extra_library_path="|..];
      } else if StartsWith(o, "mtriple=") {
        triple := o[|"mtriple="|..];
      } else if StartsWith(o, "obj-path=") {
        objPath := o[|"obj-path="|..];
      } else if o == "emit-llvm" {
        generateBcFile := BcOnly;
      } else if o == "also-emit-llvm" {
        generateBcFile := BcAlso;
      } else if StartsWith(o, "also-emit-llvm=") {
        var path := o[|"also-emit-llvm="|..];
        generateBcFile := BcAlso;
        if bcPath != "" {
          discarded := true;
        } else {
          bcPath := path;
        }
      } else {
        extra := extra + [o];
      }
    }
  }
}
