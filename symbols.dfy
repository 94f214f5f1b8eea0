/** How claim_file_hook turns the symbol table of an LTO module into the
    records it registers with the host, and which names it adds to the
    CannotBeHidden set. */
module SymbolMapping {
  import opened PluginApi

  function ScopeOf(attrs: bv32): bv32
  {
    attrs & ScopeMask
  }

  function DefinitionOf(attrs: bv32): bv32
  {
    attrs & DefinitionMask
  }

  /** Symbols local to their module; the host never sees them */
  predicate IsInternal(e: LtoSymbol)
  {
    ScopeOf(e.attrs) == ScopeInternal
  }

  /** Whether the module allows the symbol to be demoted to hidden */
  predicate CanBeHidden(e: LtoSymbol)
  {
    ScopeOf(e.attrs) == ScopeDefaultCanBeHidden
  }

  /** The scope switch; None where the source reports an unknown scope */
  function VisibilityFor(scope: bv32): (v: Option<Visibility>)
  {
    if scope == ScopeHidden then Some(Hidden)
    else if scope == ScopeProtected then Some(Protected)
    else if scope == 0 || scope == ScopeDefault || scope == ScopeDefaultCanBeHidden then Some(Default)
    else None
  }

  /** The definition switch; None where the source reports an unknown
      definition */
  function KindFor(definition: bv32): (k: Option<SymbolKind>)
  {
    if definition == DefinitionRegular then Some(Def)
    else if definition == DefinitionUndefined then Some(Undefined)
    else if definition == DefinitionTentative then Some(Common)
    else if definition == DefinitionWeak then Some(WeakDef)
    else if definition == DefinitionWeakUndef then Some(WeakUndefined)
    else None
  }

  /** Whether both switches know the symbol's attributes */
  predicate Known(e: LtoSymbol)
  {
    VisibilityFor(ScopeOf(e.attrs)).Some? && KindFor(DefinitionOf(e.attrs)).Some?
  }

  /** What one pass of the loop body leaves behind: the record it pushed
      (as far as it got), whether it inserted the name into CannotBeHidden,
      and the error it reported, if any */
  datatype SymbolStep = SymbolStep(record: Symbol, pinned: bool, failure: Option<Complaint>)

  /** One non-internal symbol. The record starts value-initialised with the
      name set; the name goes into CannotBeHidden unless the scope is
      DEFAULT_CAN_BE_HIDDEN; an unknown scope stops before the visibility is
      set, an unknown definition stops before the kind is set. */
  function Translate(e: LtoSymbol): (st: SymbolStep)
    ensures st.record.name == e.name && st.record.version.None?
    ensures st.record.size == 0 && st.record.resolution == Unknown
    ensures st.pinned <==> !CanBeHidden(e)
    ensures st.failure.None? <==> Known(e)
    ensures Known(e) ==> st.record.visibility == VisibilityFor(ScopeOf(e.attrs)).value
    ensures Known(e) ==> st.record.def == KindFor(DefinitionOf(e.attrs)).value
    ensures st.record.comdatKey.Some? <==> Known(e) && DefinitionOf(e.attrs) == DefinitionWeak
    ensures st.record.comdatKey.Some? ==> st.record.comdatKey.value == e.name
  {
    var scope, definition := ScopeOf(e.attrs), DefinitionOf(e.attrs);
    var pushed := Blank(e.name);
    var pinned := scope != ScopeDefaultCanBeHidden;
    match VisibilityFor(scope)
    case None => SymbolStep(pushed, pinned, Some(UnknownScope(scope)))
    case Some(v) =>
      var visible := pushed.(visibility := v, comdatKey := None);
      match KindFor(definition)
      case None => SymbolStep(visible, pinned, Some(UnknownDefinition(definition)))
      case Some(k) =>
        var key := if definition == DefinitionWeak then Some(e.name) else None;
        SymbolStep(visible.(def := k, comdatKey := key, size := 0, resolution := Unknown), pinned, None)
  }

  /** The three default-like scopes all map to default visibility; the
      CannotBeHidden flag is what still tells DEFAULT_CAN_BE_HIDDEN apart */
  lemma VisibilityTable(e: LtoSymbol)
    requires Known(e)
    ensures Translate(e).record.visibility == Hidden <==> ScopeOf(e.attrs) == ScopeHidden
    ensures Translate(e).record.visibility == Protected <==> ScopeOf(e.attrs) == ScopeProtected
    ensures Translate(e).record.visibility == Default <==>
      ScopeOf(e.attrs) in {0, ScopeDefault, ScopeDefaultCanBeHidden}
    ensures Translate(e).record.visibility != Internal
  {
  }

  /** The five definitions map to five distinct kinds, so the kind loses
      nothing; only a weak definition carries a comdat key */
  lemma DefinitionTable(e: LtoSymbol)
    requires Known(e)
    ensures Translate(e).record.def == Def <==> DefinitionOf(e.attrs) == DefinitionRegular
    ensures Translate(e).record.def == Undefined <==> DefinitionOf(e.attrs) == DefinitionUndefined
    ensures Translate(e).record.def == Common <==> DefinitionOf(e.attrs) == DefinitionTentative
    ensures Translate(e).record.def == WeakDef <==> DefinitionOf(e.attrs) == DefinitionWeak
    ensures Translate(e).record.def == WeakUndefined <==> DefinitionOf(e.attrs) == DefinitionWeakUndef
    ensures Translate(e).record.comdatKey == (if Translate(e).record.def == WeakDef then Some(e.name) else None)
  {
  }

  /** The state the symbol loop has built: the records of cf.syms, the names
      inserted into CannotBeHidden, and the error that stopped it, if any */
  datatype ScanState = ScanState(syms: seq<Symbol>, hidden: set<string>, failure: Option<Complaint>)

  /** The symbol loop of claim_file_hook over a prefix of the symbol table */
  function Scan(es: seq<LtoSymbol>): (r: ScanState)
    decreases |es|
  {
    if es == [] then ScanState([], {}, None)
    else
      var prev := Scan(es[..|es| - 1]);
      var e := es[|es| - 1];
      if prev.failure.Some? || IsInternal(e) then prev
      else
        var st := Translate(e);
        ScanState(prev.syms + [st.record],
                  (if st.pinned then prev.hidden + {e.name} else prev.hidden),
                  st.failure)
  }

  /** The non-internal symbols, in table order */
  function Exported(es: seq<LtoSymbol>): (r: seq<LtoSymbol>)
    ensures forall k :: 0 <= k < |r| ==> !IsInternal(r[k])
    ensures |r| <= |es|
  {
    if es == [] then []
    else (if IsInternal(es[0]) then [] else [es[0]]) + Exported(es[1..])
  }

  /** The names a successful claim adds to CannotBeHidden */
  function Unhideable(es: seq<LtoSymbol>): set<string>
  {
    set k | 0 <= k < |es| && !IsInternal(es[k]) && !CanBeHidden(es[k]) :: es[k].name
  }

  lemma {:induction false} ExportedSnoc(es: seq<LtoSymbol>, e: LtoSymbol)
    ensures Exported(es + [e]) == Exported(es) + (if IsInternal(e) then [] else [e])
    decreases |es|
  {
    if es != [] {
      assert (es + [e])[1..] == es[1..] + [e];
      ExportedSnoc(es[1..], e);
    } else {
      assert [e][1..] == [];
    }
  }

  /** Without an unknown scope or definition the loop runs to the end */
  lemma {:induction false} ScanSucceeds(es: seq<LtoSymbol>)
    requires forall e :: e in es && !IsInternal(e) ==> Known(e)
    ensures Scan(es).failure.None?
    decreases |es|
  {
    if es != [] {
      var init := es[..|es| - 1];
      assert forall x :: x in init ==> x in es;
      ScanSucceeds(init);
    }
  }

  /** The records of a run of non-internal symbols, one per symbol */
  function Records(xs: seq<LtoSymbol>): (r: seq<Symbol>)
    ensures |r| == |xs|
    decreases |xs|
  {
    if xs == [] then [] else Records(xs[..|xs| - 1]) + [Translate(xs[|xs| - 1]).record]
  }

  lemma {:induction false} RecordsAt(xs: seq<LtoSymbol>, k: nat)
    requires k < |xs|
    ensures Records(xs)[k] == Translate(xs[k]).record
    decreases |xs|
  {
    if k < |xs| - 1 {
      RecordsAt(xs[..|xs| - 1], k);
    }
  }

  /** A successful loop registers exactly one record per non-internal
      symbol, in table order, each the translation of that symbol */
  lemma {:induction false} ScanRecords(es: seq<LtoSymbol>)
    requires Scan(es).failure.None?
    ensures Scan(es).syms == Records(Exported(es))
    decreases |es|
  {
    if es != [] {
      var init, e := es[..|es| - 1], es[|es| - 1];
      assert init + [e] == es;
      ScanRecords(init);
      ExportedSnoc(init, e);
      var x := Exported(init);
      assert (x + [e])[..|x|] == x;
      assert x + [] == x;
    }
  }

  /** A successful loop inserts exactly the names whose scope forbids
      hiding */
  lemma {:induction false} ScanHidden(es: seq<LtoSymbol>)
    requires Scan(es).failure.None?
    ensures Scan(es).hidden == Unhideable(es)
    decreases |es|
  {
    if es != [] {
      var init, e := es[..|es| - 1], es[|es| - 1];
      ScanHidden(init);
      assert Unhideable(es) == Unhideable(init) + (if !IsInternal(e) && !CanBeHidden(e) then {e.name} else {}) by {
        forall n | n in Unhideable(es) ensures n in Unhideable(init) + (if !IsInternal(e) && !CanBeHidden(e) then {e.name} else {}) {
          var k :| 0 <= k < |es| && !IsInternal(es[k]) && !CanBeHidden(es[k]) && es[k].name == n;
          if k < |init| { assert init[k] == es[k]; }
        }
        forall n | n in Unhideable(init) ensures n in Unhideable(es) {
          var k :| 0 <= k < |init| && !IsInternal(init[k]) && !CanBeHidden(init[k]) && init[k].name == n;
          assert es[k] == init[k];
        }
      }
    }
  }

  /** A claim that hits no unknown attribute registers exactly one record
      per non-internal symbol, in table order, each the translation of that
      symbol, and inserts exactly the names whose scope forbids hiding */
  lemma ScanComplete(es: seq<LtoSymbol>)
    requires forall e :: e in es && !IsInternal(e) ==> Known(e)
    ensures Scan(es).failure.None?
    ensures |Scan(es).syms| == |Exported(es)|
    ensures forall k :: 0 <= k < |Exported(es)| ==> Scan(es).syms[k] == Translate(Exported(es)[k]).record
    ensures Scan(es).hidden == Unhideable(es)
  {
    ScanSucceeds(es);
    ScanRecords(es);
    forall k | 0 <= k < |Exported(es)| ensures Scan(es).syms[k] == Translate(Exported(es)[k]).record {
      RecordsAt(Exported(es), k);
    }
    ScanHidden(es);
  }

  /** Every record the loop pushes, also on the way to an error, comes from
      a non-internal symbol: internal symbols never reach cf.syms */
  lemma {:induction false} ScanSkipsInternal(es: seq<LtoSymbol>)
    ensures |Scan(es).syms| <= |Exported(es)|
    ensures Scan(es).failure.None? ==> |Scan(es).syms| == |Exported(es)|
    ensures forall k :: 0 <= k < |Scan(es).syms| ==>
      Scan(es).syms[k].name == Exported(es)[k].name
    decreases |es|
  {
    if es != [] {
      var init, e := es[..|es| - 1], es[|es| - 1];
      ScanSkipsInternal(init);
      ExportedSnoc(init, e);
      assert init + [e] == es;
      var prev, ex := Scan(init), Exported(init);
      if prev.failure.None? && !IsInternal(e) {
        assert Scan(es).syms == prev.syms + [Translate(e).record];
        assert Exported(es) == ex + [e];
      } else {
        assert Scan(es) == prev;
        assert forall k :: 0 <= k < |ex| ==> Exported(es)[k] == ex[k];
      }
    }
  }

  /** The loop stops at the first non-internal symbol with an unknown scope
      or definition. By then that symbol's record is already pushed and,
      unless its scope is DEFAULT_CAN_BE_HIDDEN, its name inserted. */
  lemma {:induction false} ScanStopsAtUnknown(es: seq<LtoSymbol>, j: nat)
    requires j < |es| && !IsInternal(es[j]) && !Known(es[j])
    requires forall i :: 0 <= i < j && !IsInternal(es[i]) ==> Known(es[i])
    ensures Scan(es[..j + 1]).failure == Translate(es[j]).failure
    ensures Scan(es) == Scan(es[..j + 1])
    ensures |Scan(es).syms| > 0 && Scan(es).syms[|Scan(es).syms| - 1] == Translate(es[j]).record
    ensures !CanBeHidden(es[j]) ==> es[j].name in Scan(es).hidden
    decreases |es|
  {
    if j + 1 < |es| {
      var init := es[..|es| - 1];
      assert init[..j + 1] == es[..j + 1];
      ScanStopsAtUnknown(init, j);
    } else {
      assert es[..j + 1] == es;
      var init := es[..j];
      assert forall x :: x in init && !IsInternal(x) ==> Known(x) by {
        forall x | x in init && !IsInternal(x) ensures Known(x) {
          var i :| 0 <= i < j && init[i] == x;
        }
      }
      ScanSucceeds(init);
    }
  }

  /** Once the loop has stopped at an error, the rest of the table is never
      looked at */
  lemma {:induction false} ScanSticks(es: seq<LtoSymbol>, j: nat)
    requires j <= |es| && Scan(es[..j]).failure.Some?
    ensures Scan(es) == Scan(es[..j])
    decreases |es|
  {
    if j < |es| {
      var init := es[..|es| - 1];
      assert init[..j] == es[..j];
      ScanSticks(init, j);
    } else {
      assert es[..j] == es;
    }
  }

  /** What every record the plugin registers satisfies, a partial one left
      behind by an error included: it is never internal, it carries no
      version and no size, a comdat key is the symbol's own name on a weak
      definition, and a symbol with hidden or protected visibility is in
      CannotBeHidden */
  predicate WellFormed(s: Symbol, cannotBeHidden: set<string>)
  {
    && s.visibility != Internal
    && s.version.None? && s.size == 0
    && (s.comdatKey.Some? ==> s.comdatKey.value == s.name && s.def == WeakDef)
    && (s.visibility != Default ==> s.name in cannotBeHidden)
  }

  lemma {:induction false} ScanWellFormed(es: seq<LtoSymbol>)
    ensures forall k :: 0 <= k < |Scan(es).syms| ==> WellFormed(Scan(es).syms[k], Scan(es).hidden)
    decreases |es|
  {
    if es != [] {
      var init, e := es[..|es| - 1], es[|es| - 1];
      ScanWellFormed(init);
      var prev := Scan(init);
      if prev.failure.None? && !IsInternal(e) {
        var st := Translate(e);
        assert st.record.visibility != Default ==> ScopeOf(e.attrs) in {ScopeHidden, ScopeProtected};
        forall k | 0 <= k < |Scan(es).syms|
          ensures WellFormed(Scan(es).syms[k], Scan(es).hidden)
        {
          if k < |prev.syms| {
            assert Scan(es).syms[k] == prev.syms[k];
          }
        }
      }
    }
  }
}
