/**
 * The rename refactoring session that `RenameSupport.create` hands back, and
 * `setSettings`, the pass that copies the request's toggles onto whichever
 * optional capabilities the session offers.
 *
 * The session is probed through the refactoring processor (is it a package
 * rename processor?) and five tagging adapters. Three adapters are gated by
 * their own `canEnable...` answer (delegate, qualified-name, textual-match);
 * the reference and similar-declaration adapters are used whenever present.
 * A session records, per setter, whether the command called it and with
 * which value.
 */
module Refactoring {
  import opened Wrappers
  import opened Dto

  /** An opaque handle on a resolved Java element: a member, a compilation unit or a package. */
  datatype Element = Element(handle: nat)

  /** A tagging adapter the refactoring may lack, with its `canEnable...` answer when present. */
  datatype GatedAdapter = Absent | Present(canEnable: bool)

  /** What the session offers: its processor variant and its five tagging adapters. */
  datatype Capabilities = Capabilities(
    packageProcessor: bool,               // the processor is a package rename processor
    delegateUpdating: GatedAdapter,       // delegate updating adapter
    qualifiedNameUpdating: GatedAdapter,  // qualified-name updating adapter
    referenceUpdating: bool,              // reference updating adapter is present
    similarDeclarationUpdating: bool,     // similar-declaration updating adapter is present
    textUpdating: GatedAdapter)           // textual-match updating adapter

  /**
   * The setters the command has called on the session: `None` when a setter
   * was not called, `Some(v)` when the last call passed `v`.
   */
  datatype Configuration = Configuration(
    renameSubpackages: Option<bool>,
    delegateUpdating: Option<bool>,
    deprecateDelegates: Option<bool>,
    updateQualifiedNames: Option<bool>,
    filePatterns: Option<string>,
    updateReferences: Option<bool>,
    updateSimilarDeclarations: Option<bool>,
    matchStrategy: Option<int>,
    updateTextualMatches: Option<bool>)

  /** A session on which no setter has been called yet. */
  const Untouched: Configuration :=
    Configuration(None, None, None, None, None, None, None, None, None)

  /** The five adapter-probed capability axes. */
  datatype Capability =
    | DelegateUpdating
    | QualifiedNameUpdating
    | ReferenceUpdating
    | SimilarDeclarationUpdating
    | TextUpdating

  /** The order in which `setSettings` probes the adapters. */
  const SourceOrder: seq<Capability> :=
    [DelegateUpdating, QualifiedNameUpdating, ReferenceUpdating, SimilarDeclarationUpdating, TextUpdating]

  predicate GateOpen(a: GatedAdapter) {
    a.Present? && a.canEnable
  }

  /** Whether `setSettings` touches capability `c` of a session offering `caps`. */
  predicate Enabled(c: Capability, caps: Capabilities) {
    match c
    case DelegateUpdating => GateOpen(caps.delegateUpdating)
    case QualifiedNameUpdating => GateOpen(caps.qualifiedNameUpdating)
    case ReferenceUpdating => caps.referenceUpdating
    case SimilarDeclarationUpdating => caps.similarDeclarationUpdating
    case TextUpdating => GateOpen(caps.textUpdating)
  }

  /** The request toggle that drives capability `c`. */
  function Wanted(c: Capability, s: RenameSettings): bool {
    match c
    case DelegateUpdating => s.delegateUpdating
    case QualifiedNameUpdating => s.updateQualifiedNames
    case ReferenceUpdating => s.updateReferences
    case SimilarDeclarationUpdating => s.updateSimilarDeclarations
    case TextUpdating => s.updateTextualMatches
  }

  /** The main on/off setter of capability `c`, as recorded in `cfg`. */
  function Flag(c: Capability, cfg: Configuration): Option<bool> {
    match c
    case DelegateUpdating => cfg.delegateUpdating
    case QualifiedNameUpdating => cfg.updateQualifiedNames
    case ReferenceUpdating => cfg.updateReferences
    case SimilarDeclarationUpdating => cfg.updateSimilarDeclarations
    case TextUpdating => cfg.updateTextualMatches
  }

  /** The part of `cfg` that belongs to capability `c`: its flag and its dependent value. */
  function Slice(c: Capability, cfg: Configuration): Configuration {
    match c
    case DelegateUpdating =>
      Untouched.(delegateUpdating := cfg.delegateUpdating, deprecateDelegates := cfg.deprecateDelegates)
    case QualifiedNameUpdating =>
      Untouched.(updateQualifiedNames := cfg.updateQualifiedNames, filePatterns := cfg.filePatterns)
    case ReferenceUpdating =>
      Untouched.(updateReferences := cfg.updateReferences)
    case SimilarDeclarationUpdating =>
      Untouched.(updateSimilarDeclarations := cfg.updateSimilarDeclarations, matchStrategy := cfg.matchStrategy)
    case TextUpdating =>
      Untouched.(updateTextualMatches := cfg.updateTextualMatches)
  }

  /** The package-processor step: the subpackages flag is set only on a package rename processor. */
  function ApplySubpackages(caps: Capabilities, s: RenameSettings, cfg: Configuration): Configuration {
    if caps.packageProcessor then cfg.(renameSubpackages := Some(s.updateSubpackages)) else cfg
  }

  /** One adapter step of `setSettings`. */
  function Apply(c: Capability, caps: Capabilities, s: RenameSettings, cfg: Configuration): Configuration {
    if !Enabled(c, caps) then cfg
    else match c
      case DelegateUpdating =>
        cfg.(delegateUpdating := Some(s.delegateUpdating), deprecateDelegates := Some(s.deprecateDelegates))
      case QualifiedNameUpdating =>
        cfg.(updateQualifiedNames := Some(s.updateQualifiedNames),
             filePatterns := if s.updateQualifiedNames then Some(s.filePatterns) else cfg.filePatterns)
      case ReferenceUpdating =>
        cfg.(updateReferences := Some(s.updateReferences))
      case SimilarDeclarationUpdating =>
        cfg.(updateSimilarDeclarations := Some(s.updateSimilarDeclarations),
             matchStrategy := if s.updateSimilarDeclarations then Some(s.matchStrategy) else cfg.matchStrategy)
      case TextUpdating =>
        cfg.(updateTextualMatches := Some(s.updateTextualMatches))
  }

  /** The adapter steps `cs`, applied left to right. */
  function ApplyAll(cs: seq<Capability>, caps: Capabilities, s: RenameSettings, cfg: Configuration): Configuration
    decreases |cs|
  {
    if cs == [] then cfg else ApplyAll(cs[1..], caps, s, Apply(cs[0], caps, s, cfg))
  }

  /** What `setSettings` leaves on a session that offers `caps` and had recorded `cfg`. */
  function Configure(cfg: Configuration, caps: Capabilities, s: RenameSettings): Configuration {
    ApplyAll(SourceOrder, caps, s, ApplySubpackages(caps, s, cfg))
  }

  /** `Configure` is the subpackages step followed by the five adapter steps in source order. */
  lemma ConfigureUnfolds(cfg: Configuration, caps: Capabilities, s: RenameSettings)
    ensures Configure(cfg, caps, s) ==
      Apply(TextUpdating, caps, s,
        Apply(SimilarDeclarationUpdating, caps, s,
          Apply(ReferenceUpdating, caps, s,
            Apply(QualifiedNameUpdating, caps, s,
              Apply(DelegateUpdating, caps, s, ApplySubpackages(caps, s, cfg))))))
  {
    var c0 := ApplySubpackages(caps, s, cfg);
    var c1 := Apply(DelegateUpdating, caps, s, c0);
    var c2 := Apply(QualifiedNameUpdating, caps, s, c1);
    var c3 := Apply(ReferenceUpdating, caps, s, c2);
    var c4 := Apply(SimilarDeclarationUpdating, caps, s, c3);
    var c5 := Apply(TextUpdating, caps, s, c4);
    calc {
      Configure(cfg, caps, s);
      ApplyAll(SourceOrder[1..], caps, s, c1);
      { assert SourceOrder[1..][1..] == SourceOrder[2..]; }
      ApplyAll(SourceOrder[2..], caps, s, c2);
      { assert SourceOrder[2..][1..] == SourceOrder[3..]; }
      ApplyAll(SourceOrder[3..], caps, s, c3);
      { assert SourceOrder[3..][1..] == SourceOrder[4..]; }
      ApplyAll(SourceOrder[4..], caps, s, c4);
      { assert SourceOrder[4..][1..] == []; }
      c5;
    }
  }

  /** Every setter `setSettings` may call, and the exact condition under which it is called. */
  lemma ConfigureFields(cfg: Configuration, caps: Capabilities, s: RenameSettings)
    ensures var r := Configure(cfg, caps, s);
      && r.renameSubpackages == (if caps.packageProcessor then Some(s.updateSubpackages) else cfg.renameSubpackages)
      && r.delegateUpdating == (if GateOpen(caps.delegateUpdating) then Some(s.delegateUpdating) else cfg.delegateUpdating)
      && r.deprecateDelegates == (if GateOpen(caps.delegateUpdating) then Some(s.deprecateDelegates) else cfg.deprecateDelegates)
      && r.updateQualifiedNames == (if GateOpen(caps.qualifiedNameUpdating) then Some(s.updateQualifiedNames) else cfg.updateQualifiedNames)
      && r.filePatterns == (if GateOpen(caps.qualifiedNameUpdating) && s.updateQualifiedNames then Some(s.filePatterns) else cfg.filePatterns)
      && r.updateReferences == (if caps.referenceUpdating then Some(s.updateReferences) else cfg.updateReferences)
      && r.updateSimilarDeclarations == (if caps.similarDeclarationUpdating then Some(s.updateSimilarDeclarations) else cfg.updateSimilarDeclarations)
      && r.matchStrategy == (if caps.similarDeclarationUpdating && s.updateSimilarDeclarations then Some(s.matchStrategy) else cfg.matchStrategy)
      && r.updateTextualMatches == (if GateOpen(caps.textUpdating) then Some(s.updateTextualMatches) else cfg.updateTextualMatches)
  {
    ConfigureUnfolds(cfg, caps, s);
    var c0 := ApplySubpackages(caps, s, cfg);
    var c1 := Apply(DelegateUpdating, caps, s, c0);
    var c2 := Apply(QualifiedNameUpdating, caps, s, c1);
    var c3 := Apply(ReferenceUpdating, caps, s, c2);
    var c4 := Apply(SimilarDeclarationUpdating, caps, s, c3);
    assert c1 == (if GateOpen(caps.delegateUpdating)
      then c0.(delegateUpdating := Some(s.delegateUpdating), deprecateDelegates := Some(s.deprecateDelegates)) else c0);
    assert c2 == (if GateOpen(caps.qualifiedNameUpdating)
      then c1.(updateQualifiedNames := Some(s.updateQualifiedNames),
               filePatterns := if s.updateQualifiedNames then Some(s.filePatterns) else c1.filePatterns) else c1);
    assert c3 == (if caps.referenceUpdating then c2.(updateReferences := Some(s.updateReferences)) else c2);
    assert c4 == (if caps.similarDeclarationUpdating
      then c3.(updateSimilarDeclarations := Some(s.updateSimilarDeclarations),
               matchStrategy := if s.updateSimilarDeclarations then Some(s.matchStrategy) else c3.matchStrategy) else c3);
  }

  /** A package rename processor, and only one, gets the subpackages flag, with the request's value. */
  lemma SubpackagesExactlyForPackageProcessor(caps: Capabilities, s: RenameSettings)
    ensures Configure(Untouched, caps, s).renameSubpackages.Some? <==> caps.packageProcessor
    ensures caps.packageProcessor ==> Configure(Untouched, caps, s).renameSubpackages == Some(s.updateSubpackages)
  {
    ConfigureFields(Untouched, caps, s);
  }

  /**
   * An adapter's main setter runs, with the request's toggle, exactly when the
   * adapter is present and (for the gated three) its `canEnable...` answer is true.
   */
  lemma FlagSetExactlyWhenEnabled(c: Capability, cfg: Configuration, caps: Capabilities, s: RenameSettings)
    ensures Flag(c, Configure(cfg, caps, s)) == if Enabled(c, caps) then Some(Wanted(c, s)) else Flag(c, cfg)
  {
    ConfigureFields(cfg, caps, s);
  }

  /** An absent or gated-off capability keeps every setter of its own untouched. */
  lemma DisabledCapabilityUntouched(c: Capability, cfg: Configuration, caps: Capabilities, s: RenameSettings)
    requires !Enabled(c, caps)
    ensures Slice(c, Configure(cfg, caps, s)) == Slice(c, cfg)
  {
    ConfigureFields(cfg, caps, s);
  }

  /**
   * The dependent values on a fresh session: delegate deprecation goes with
   * delegate updating, file patterns only with qualified-name updating switched
   * on, the match strategy only with similar-declaration updating switched on.
   */
  lemma DependentValues(caps: Capabilities, s: RenameSettings)
    ensures var r := Configure(Untouched, caps, s);
      && (r.deprecateDelegates.Some? <==> r.delegateUpdating.Some?)
      && (r.deprecateDelegates.Some? ==> r.deprecateDelegates == Some(s.deprecateDelegates))
      && (r.filePatterns.Some? <==> r.updateQualifiedNames == Some(true))
      && (r.filePatterns.Some? ==> r.filePatterns == Some(s.filePatterns))
      && (r.matchStrategy.Some? <==> r.updateSimilarDeclarations == Some(true))
      && (r.matchStrategy.Some? ==> r.matchStrategy == Some(s.matchStrategy))
  {
    ConfigureFields(Untouched, caps, s);
  }

  /** Each adapter step writes only its own setters. */
  lemma ApplyWritesOnlyItsSlice(c: Capability, d: Capability, caps: Capabilities, s: RenameSettings, cfg: Configuration)
    requires c != d
    ensures Slice(d, Apply(c, caps, s, cfg)) == Slice(d, cfg)
    ensures Apply(c, caps, s, cfg).renameSubpackages == cfg.renameSubpackages
  {
  }

  /** Two adapter steps can be swapped. */
  lemma ApplyCommutes(c: Capability, d: Capability, caps: Capabilities, s: RenameSettings, cfg: Configuration)
    ensures Apply(c, caps, s, Apply(d, caps, s, cfg)) == Apply(d, caps, s, Apply(c, caps, s, cfg))
  {
  }

  lemma {:induction false} ApplyAllAppend(a: seq<Capability>, b: seq<Capability>, caps: Capabilities, s: RenameSettings, cfg: Configuration)
    ensures ApplyAll(a + b, caps, s, cfg) == ApplyAll(b, caps, s, ApplyAll(a, caps, s, cfg))
    decreases |a|
  {
    if a != [] {
      assert (a + b)[1..] == a[1..] + b;
      ApplyAllAppend(a[1..], b, caps, s, Apply(a[0], caps, s, cfg));
    } else {
      assert a + b == b;
    }
  }

  /** One adapter step can be moved from after a run of steps to before it. */
  lemma {:induction false} ApplyCommutesPastAll(c: Capability, cs: seq<Capability>, caps: Capabilities, s: RenameSettings, cfg: Configuration)
    ensures Apply(c, caps, s, ApplyAll(cs, caps, s, cfg)) == ApplyAll(cs, caps, s, Apply(c, caps, s, cfg))
    decreases |cs|
  {
    if cs != [] {
      ApplyCommutesPastAll(c, cs[1..], caps, s, Apply(cs[0], caps, s, cfg));
      ApplyCommutes(c, cs[0], caps, s, cfg);
    }
  }

  /** Running the same adapter steps in any order gives the same session. */
  lemma {:induction false} ApplyAllPermutation(a: seq<Capability>, b: seq<Capability>, caps: Capabilities, s: RenameSettings, cfg: Configuration)
    requires multiset(a) == multiset(b)
    ensures ApplyAll(a, caps, s, cfg) == ApplyAll(b, caps, s, cfg)
    decreases |a|
  {
    if a != [] {
      var c := a[0];
      assert c in multiset(b);
      var i :| 0 <= i < |b| && b[i] == c;
      var rest := b[..i] + b[i + 1..];
      assert b == b[..i] + [c] + b[i + 1..];
      assert multiset(a[1..]) == multiset(rest) by {
        assert a == [c] + a[1..];
        calc {
          multiset(b);
          multiset(b[..i] + [c] + b[i + 1..]);
          multiset(b[..i]) + multiset([c]) + multiset(b[i + 1..]);
          multiset([c]) + multiset(rest);
        }
        assert multiset(a) == multiset([c]) + multiset(a[1..]);
        assert multiset(a[1..]) == multiset(a) - multiset([c]);
        assert multiset(rest) == multiset(b) - multiset([c]);
      }
      ApplyAllPermutation(a[1..], rest, caps, s, Apply(c, caps, s, cfg));
      calc {
        ApplyAll(b, caps, s, cfg);
        { ApplyAllAppend(b[..i] + [c], b[i + 1..], caps, s, cfg); }
        ApplyAll(b[i + 1..], caps, s, ApplyAll(b[..i] + [c], caps, s, cfg));
        { ApplyAllAppend(b[..i], [c], caps, s, cfg); }
        ApplyAll(b[i + 1..], caps, s, ApplyAll([c], caps, s, ApplyAll(b[..i], caps, s, cfg)));
        ApplyAll(b[i + 1..], caps, s, Apply(c, caps, s, ApplyAll(b[..i], caps, s, cfg)));
        { ApplyCommutesPastAll(c, b[..i], caps, s, cfg); }
        ApplyAll(b[i + 1..], caps, s, ApplyAll(b[..i], caps, s, Apply(c, caps, s, cfg)));
        { ApplyAllAppend(b[..i], b[i + 1..], caps, s, Apply(c, caps, s, cfg)); }
        ApplyAll(rest, caps, s, Apply(c, caps, s, cfg));
        ApplyAll(a, caps, s, cfg);
      }
    }
  }

  /** The five adapter steps may run in any order: `setSettings` does not depend on its probing order. */
  lemma OrderIndependent(order: seq<Capability>, cfg: Configuration, caps: Capabilities, s: RenameSettings)
    requires multiset(order) == multiset(SourceOrder)
    ensures ApplyAll(order, caps, s, ApplySubpackages(caps, s, cfg)) == Configure(cfg, caps, s)
  {
    ApplyAllPermutation(order, SourceOrder, caps, s, ApplySubpackages(caps, s, cfg));
  }

  /**
   * The refactoring `RenameSupport.create` returns: the element and new name
   * it renames, what its processor and adapters offer, and the setters the
   * command has called on it.
   */
  class RenameRefactoring {
    const element: Element
    const newName: string
    const capabilities: Capabilities

    var renameSubpackages: Option<bool>
    var delegateUpdating: Option<bool>
    var deprecateDelegates: Option<bool>
    var updateQualifiedNames: Option<bool>
    var filePatterns: Option<string>
    var updateReferences: Option<bool>
    var updateSimilarDeclarations: Option<bool>
    var matchStrategy: Option<int>
    var updateTextualMatches: Option<bool>

    /** The setters called so far, as one value. */
    function Recorded(): Configuration
      reads this
    {
      Configuration(renameSubpackages, delegateUpdating, deprecateDelegates, updateQualifiedNames,
        filePatterns, updateReferences, updateSimilarDeclarations, matchStrategy, updateTextualMatches)
    }

    constructor (element: Element, newName: string, capabilities: Capabilities)
      ensures this.element == element && this.newName == newName && this.capabilities == capabilities
      ensures Recorded() == Untouched
    {
      this.element := element;
      this.newName := newName;
      this.capabilities := capabilities;
      renameSubpackages, delegateUpdating, deprecateDelegates := None, None, None;
      updateQualifiedNames, filePatterns, updateReferences := None, None, None;
      updateSimilarDeclarations, matchStrategy, updateTextualMatches := None, None, None;
    }
  }

  /** Copies the request's toggles onto the capabilities `refactoring` offers, adapter by adapter. */
  method SetSettings(settings: RenameSettings, refactoring: RenameRefactoring)
    modifies refactoring
    ensures refactoring.Recorded() == Configure(old(refactoring.Recorded()), refactoring.capabilities, settings)
  {
    ghost var before := refactoring.Recorded();
    if refactoring.capabilities.packageProcessor {
      refactoring.renameSubpackages := Some(settings.updateSubpackages);
    }
    SetDelegateUpdating(settings, refactoring);
    SetQualifiedNameUpdating(settings, refactoring);
    SetReferenceUpdating(settings, refactoring);
    SetSimilarDeclarationUpdating(settings, refactoring);
    SetTextUpdating(settings, refactoring);
    ConfigureUnfolds(before, refactoring.capabilities, settings);
  }

  /** The delegate updating adapter, when present and enabled, takes both delegate toggles. */
  method SetDelegateUpdating(settings: RenameSettings, refactoring: RenameRefactoring)
    modifies refactoring
    ensures refactoring.Recorded() == Apply(DelegateUpdating, refactoring.capabilities, settings, old(refactoring.Recorded()))
  {
    var delegate := refactoring.capabilities.delegateUpdating;
    if delegate.Present? && delegate.canEnable {
      refactoring.delegateUpdating := Some(settings.delegateUpdating);
      refactoring.deprecateDelegates := Some(settings.deprecateDelegates);
    }
  }

  /** The qualified-name adapter, when present and enabled; file patterns only when switched on. */
  method SetQualifiedNameUpdating(settings: RenameSettings, refactoring: RenameRefactoring)
    modifies refactoring
    ensures refactoring.Recorded() == Apply(QualifiedNameUpdating, refactoring.capabilities, settings, old(refactoring.Recorded()))
  {
    var nameUpdating := refactoring.capabilities.qualifiedNameUpdating;
    if nameUpdating.Present? && nameUpdating.canEnable {
      refactoring.updateQualifiedNames := Some(settings.updateQualifiedNames);
      if settings.updateQualifiedNames {
        refactoring.filePatterns := Some(settings.filePatterns);
      }
    }
  }

  /** The reference adapter, whenever present. */
  method SetReferenceUpdating(settings: RenameSettings, refactoring: RenameRefactoring)
    modifies refactoring
    ensures refactoring.Recorded() == Apply(ReferenceUpdating, refactoring.capabilities, settings, old(refactoring.Recorded()))
  {
    if refactoring.capabilities.referenceUpdating {
      refactoring.updateReferences := Some(settings.updateReferences);
    }
  }

  /** The similar-declaration adapter, whenever present; the match strategy only when switched on. */
  method SetSimilarDeclarationUpdating(settings: RenameSettings, refactoring: RenameRefactoring)
    modifies refactoring
    ensures refactoring.Recorded() == Apply(SimilarDeclarationUpdating, refactoring.capabilities, settings, old(refactoring.Recorded()))
  {
    if refactoring.capabilities.similarDeclarationUpdating {
      refactoring.updateSimilarDeclarations := Some(settings.updateSimilarDeclarations);
      if settings.updateSimilarDeclarations {
        refactoring.matchStrategy := Some(settings.matchStrategy);
      }
    }
  }

  /** The textual-match adapter, when present and enabled. */
  method SetTextUpdating(settings: RenameSettings, refactoring: RenameRefactoring)
    modifies refactoring
    ensures refactoring.Recorded() == Apply(TextUpdating, refactoring.capabilities, settings, old(refactoring.Recorded()))
  {
    var textUpdating := refactoring.capabilities.textUpdating;
    if textUpdating.Present? && textUpdating.canEnable {
      refactoring.updateTextualMatches := Some(settings.updateTextualMatches);
    }
  }
}
