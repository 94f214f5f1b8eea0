/** The decisions all_symbols_read_hook makes once the host has resolved
    every symbol: which names the code generator must preserve, in which
    order they are reported, and where the merged module is written. */
module Preservation {
  import opened PluginApi
  import opened Options

  /** mustPreserve: the host chose this definition and it is referenced from
      outside the IR, or it is an exported IR-only definition whose scope
      forbids hiding it */
  predicate MustPreserve(s: Symbol, cannotBeHidden: set<string>)
  {
    || s.resolution == PrevailingDef
    || (s.resolution == PrevailingDefIronlyExp && s.name in cannotBeHidden)
  }

  /** The decision as a function of the resolution and of membership in
      CannotBeHidden alone */
  lemma PreservationDecision(s: Symbol, cannotBeHidden: set<string>)
    ensures s.resolution == PrevailingDef ==> MustPreserve(s, cannotBeHidden)
    ensures s.resolution == PrevailingDefIronlyExp ==>
      (MustPreserve(s, cannotBeHidden) <==> s.name in cannotBeHidden)
    ensures s.resolution !in {PrevailingDef, PrevailingDefIronlyExp} ==> !MustPreserve(s, cannotBeHidden)
  {
  }

  /** The names preserved from one module, in record order */
  function PreservedIn(syms: seq<Symbol>, cannotBeHidden: set<string>): (r: seq<string>)
    ensures |r| <= |syms|
  {
    if syms == [] then []
    else
      (if MustPreserve(syms[0], cannotBeHidden) then [syms[0].name] else [])
      + PreservedIn(syms[1..], cannotBeHidden)
  }

  /** The names preserved from all modules: module by module, record by
      record. A module without records contributes nothing. */
  function Preserved(mods: seq<ClaimedFile>, cannotBeHidden: set<string>): (r: seq<string>)
  {
    if mods == [] then []
    else PreservedIn(mods[0].syms, cannotBeHidden) + Preserved(mods[1..], cannotBeHidden)
  }

  lemma {:induction false} PreservedInSnoc(syms: seq<Symbol>, s: Symbol, cannotBeHidden: set<string>)
    ensures PreservedIn(syms + [s], cannotBeHidden)
         == PreservedIn(syms, cannotBeHidden) + (if MustPreserve(s, cannotBeHidden) then [s.name] else [])
    decreases |syms|
  {
    if syms != [] {
      assert (syms + [s])[1..] == syms[1..] + [s];
      PreservedInSnoc(syms[1..], s, cannotBeHidden);
    } else {
      assert [s][1..] == [];
    }
  }

  lemma {:induction false} PreservedSnoc(mods: seq<ClaimedFile>, f: ClaimedFile, cannotBeHidden: set<string>)
    ensures Preserved(mods + [f], cannotBeHidden)
         == Preserved(mods, cannotBeHidden) + PreservedIn(f.syms, cannotBeHidden)
    decreases |mods|
  {
    if mods != [] {
      assert (mods + [f])[1..] == mods[1..] + [f];
      PreservedSnoc(mods[1..], f, cannotBeHidden);
    } else {
      assert [f][1..] == [];
    }
  }

  /** A name is reported by one module exactly when one of its records must
      be preserved */
  lemma {:induction false} PreservedInMembers(syms: seq<Symbol>, cannotBeHidden: set<string>, x: string)
    ensures x in PreservedIn(syms, cannotBeHidden) <==>
      exists i :: 0 <= i < |syms| && syms[i].name == x && MustPreserve(syms[i], cannotBeHidden)
    decreases |syms|
  {
    if syms != [] {
      PreservedInMembers(syms[1..], cannotBeHidden, x);
      if exists i :: 0 <= i < |syms| && syms[i].name == x && MustPreserve(syms[i], cannotBeHidden) {
        var i :| 0 <= i < |syms| && syms[i].name == x && MustPreserve(syms[i], cannotBeHidden);
        if i > 0 {
          assert syms[1..][i - 1] == syms[i];
        }
      }
      if x in PreservedIn(syms[1..], cannotBeHidden) {
        var i :| 0 <= i < |syms[1..]| && syms[1..][i].name == x && MustPreserve(syms[1..][i], cannotBeHidden);
        assert syms[i + 1] == syms[1..][i];
      }
    }
  }

  /** Exactly the names of records that must be preserved are reported, from
      whichever module they come */
  lemma {:induction false} PreservedMembers(mods: seq<ClaimedFile>, cannotBeHidden: set<string>, x: string)
    ensures x in Preserved(mods, cannotBeHidden) <==>
      exists m, i :: 0 <= m < |mods| && 0 <= i < |mods[m].syms|
        && mods[m].syms[i].name == x && MustPreserve(mods[m].syms[i], cannotBeHidden)
    decreases |mods|
  {
    if mods != [] {
      PreservedMembers(mods[1..], cannotBeHidden, x);
      PreservedInMembers(mods[0].syms, cannotBeHidden, x);
      if exists m, i :: 0 <= m < |mods| && 0 <= i < |mods[m].syms|
           && mods[m].syms[i].name == x && MustPreserve(mods[m].syms[i], cannotBeHidden) {
        var m, i :| 0 <= m < |mods| && 0 <= i < |mods[m].syms|
           && mods[m].syms[i].name == x && MustPreserve(mods[m].syms[i], cannotBeHidden);
        if m > 0 {
          assert mods[1..][m - 1] == mods[m];
        }
      }
      if x in Preserved(mods[1..], cannotBeHidden) {
        var m, i :| 0 <= m < |mods[1..]| && 0 <= i < |mods[1..][m].syms|
           && mods[1..][m].syms[i].name == x && MustPreserve(mods[1..][m].syms[i], cannotBeHidden);
        assert mods[m + 1] == mods[1..][m];
      }
    }
  }

  /** get_symbols: the host writes one resolution into each record and
      changes nothing else */
  function WithResolutions(f: ClaimedFile, rs: seq<Resolution>): (g: ClaimedFile)
    requires |rs| == |f.syms|
    ensures g.handle == f.handle && |g.syms| == |f.syms|
  {
    ClaimedFile(f.handle, seq(|f.syms|, i requires 0 <= i < |f.syms| => f.syms[i].(resolution := rs[i])))
  }

  /** Whether `answers` holds one resolution for every record of every module */
  predicate Answers(mods: seq<ClaimedFile>, answers: seq<seq<Resolution>>)
  {
    |answers| == |mods| && forall m :: 0 <= m < |mods| ==> |answers[m]| == |mods[m].syms|
  }

  /** The registry after the host has resolved every module, module by module */
  function ResolvedAll(mods: seq<ClaimedFile>, answers: seq<seq<Resolution>>): (r: seq<ClaimedFile>)
    requires Answers(mods, answers)
    ensures |r| == |mods|
    decreases |mods|
  {
    if mods == [] then []
    else
      var n := |mods| - 1;
      ResolvedAll(mods[..n], answers[..n]) + [WithResolutions(mods[n], answers[n])]
  }

  /** Each module is resolved by its own answers */
  lemma {:induction false} ResolvedAllAt(mods: seq<ClaimedFile>, answers: seq<seq<Resolution>>, m: nat)
    requires Answers(mods, answers) && m < |mods|
    ensures ResolvedAll(mods, answers)[m] == WithResolutions(mods[m], answers[m])
    decreases |mods|
  {
    var n := |mods| - 1;
    if m < n {
      ResolvedAllAt(mods[..n], answers[..n], m);
    }
  }

  /** Where the merged module is written, if it is written at all:
      emit-llvm writes it to the output file itself, otherwise the path from
      also-emit-llvm=, or the output name with ".bc" appended */
  function BcOutputPath(c: Config, outputName: string): (p: Option<string>)
  {
    match c.generateBcFile
    case BcNo => None
    case BcOnly => Some(outputName)
    case BcAlso => if c.bcPath != "" then Some(c.bcPath) else Some(outputName + ".bc")
  }

  /** The merged-module path as the option list determines it: the last
      option that selects a mode decides whether the output file itself is
      written, and otherwise the first non-empty also-emit-llvm= path wins */
  lemma BcOutputPathFromOptions(opts: seq<Option<string>>, k: nat, outputName: string)
    requires k < |opts| && ModeSet(opts[k]).Some?
    requires forall j :: k < j < |opts| ==> ModeSet(opts[j]).None?
    ensures BcOutputPath(ApplyAll(Initial, opts), outputName)
         == if opts[k] == Some("emit-llvm") then Some(outputName)
            else if FirstBcPath(opts) != "" then Some(FirstBcPath(opts))
            else Some(outputName + ".bc")
  {
    LastModeWins(Initial, opts, k);
    FirstBcPathWins(Initial, opts);
  }

  /** With no option selecting a mode no merged module is written */
  lemma NoBcOutputWithoutMode(opts: seq<Option<string>>, outputName: string)
    requires forall j :: 0 <= j < |opts| ==> ModeSet(opts[j]).None?
    ensures BcOutputPath(ApplyAll(Initial, opts), outputName).None?
  {
    ModeUntouched(Initial, opts);
  }
}
