/**
 * The rename command: validate the argument list, observe cancellation,
 * create the result with an empty workspace edit, resolve the rename target
 * according to the rename kind, configure the refactoring, run the condition
 * check and change creation, and convert the change into the edit. A
 * `CoreException` from any engine step is logged and the result built so far
 * is returned.
 *
 * The refactoring engine is not part of this model: its answers are inputs
 * (`Engine`), each of which may raise a `CoreException` (`Raised`). A null
 * rename support is dereferenced unchecked and escapes as a
 * `NullPointerException`, which the `catch` does not cover. The
 * specification `Execution` also records the sequence of collaborator calls
 * the command makes, so that "which steps run on which path" can be stated.
 */
module RenameCommand {
  import opened Wrappers
  import opened Dto
  import opened Refactoring

  /** An engine answer, or a `CoreException` raised instead. */
  datatype Attempt<+T> = Raised | Done(value: T)

  /** An opaque change tree produced by change creation. */
  datatype Change = Change(handle: nat)

  /** The condition checking status and the change, possibly null, that change creation leaves. */
  datatype Checked = Checked(status: RefactoringStatus, change: Option<Change>)

  /** What change conversion writes into the edit, and whether it then raised. */
  datatype Conversion = Conversion(written: Edits, raised: bool)

  /**
   * The engine's answers, as functions of what the command passes to each
   * collaborator. Rename support creation answers `None` (null) for an element
   * it cannot rename; the capabilities are those of the refactoring it creates.
   */
  datatype Engine = Engine(
    getJavaElement: (Position, Uri) -> Attempt<Option<Element>>,
    resolveCompilationUnit: Uri -> Attempt<Option<Element>>,
    resolvePackage: Uri -> Attempt<Option<Element>>,
    createRenameSupport: (Element, string) -> Attempt<Option<Capabilities>>,
    createChange: (Element, string, Configuration) -> Attempt<Checked>,
    convertChanges: Change -> Conversion)

  /** One call the command makes on a collaborator. */
  datatype Call =
    | EnsureNotCancelled
    | ParseSettings
    | GetJavaElement(position: Position, uri: Uri)
    | ResolveCompilationUnit(uri: Uri)
    | ResolvePackage(uri: Uri)
    | CreateRenameSupport(element: Element, newName: string)
    | CreateChange(element: Element, configuration: Configuration)
    | ConvertChanges(change: Change)
    | LogException(uri: Uri)

  /** The unchecked exceptions the command lets escape. */
  datatype Unchecked = IllegalArgument | OperationCanceled | NullPointer

  /** How the command ends: an escaping exception, or the returned result's status and edit. */
  datatype Outcome =
    | Threw(exception: Unchecked)
    | Returned(status: Option<RefactoringStatus>, changes: Edits)

  /** The outcome of one invocation together with the calls it made, in order. */
  datatype Run = Run(outcome: Outcome, calls: seq<Call>)

  /**
   * The part of the invocation inside the `try`: what it recorded, whether a
   * `CoreException` was raised (and caught), and whether a null rename support
   * made it escape.
   */
  datatype Progress = Progress(status: Option<RefactoringStatus>, changes: Edits, raised: bool, escaped: bool, calls: seq<Call>)

  /** The resolver call a rename kind selects, and its answer. */
  datatype Lookup = Lookup(call: Call, target: Attempt<Option<Element>>)

  /** The argument check: there must be a first argument to deserialise. */
  function ValidArguments(arguments: seq<RenameSettings>): (ok: bool)
    ensures ok <==> |arguments| > 0
  {
    arguments != []
  }

  /**
   * The answer of the resolver that belongs to `kind`, read directly off the
   * engine: position lookup for a Java element, the compilation-unit resolver
   * for a compilation unit, the package resolver for a package.
   */
  predicate EngineResolves(kind: RenameKind, params: RenameParams, engine: Engine, answer: Attempt<Option<Element>>) {
    match kind
    case JavaElement => engine.getJavaElement(params.position, params.uri) == answer
    case CompilationUnit => engine.resolveCompilationUnit(params.uri) == answer
    case Package => engine.resolvePackage(params.uri) == answer
  }

  /** The kind switch: which resolver is called, and the target that goes on. */
  function ResolveTarget(kind: RenameKind, params: RenameParams, engine: Engine): (lookup: Lookup)
    ensures EngineResolves(kind, params, engine, lookup.target)
    ensures kind == JavaElement <==> lookup.call == GetJavaElement(params.position, params.uri)
    ensures kind == CompilationUnit <==> lookup.call == ResolveCompilationUnit(params.uri)
    ensures kind == Package <==> lookup.call == ResolvePackage(params.uri)
  {
    match kind
    case JavaElement =>
      Lookup(GetJavaElement(params.position, params.uri), engine.getJavaElement(params.position, params.uri))
    case CompilationUnit =>
      Lookup(ResolveCompilationUnit(params.uri), engine.resolveCompilationUnit(params.uri))
    case Package =>
      // the missing `break` falls into `default: break`, which keeps the resolved package
      Lookup(ResolvePackage(params.uri), engine.resolvePackage(params.uri))
  }

  /** The `try` block: resolve, create and configure, check and create the change, convert. */
  function TryRename(s: RenameSettings, engine: Engine): (progress: Progress)
    ensures |progress.calls| >= 1 && progress.calls[0] == ResolveTarget(s.renameKind, s.renameParams, engine).call
    ensures !(progress.raised && progress.escaped)
    ensures progress.escaped ==>
      progress.status == None && progress.changes == map[] && |progress.calls| == 2 && progress.calls[1].CreateRenameSupport?
    ensures progress.status.Some? ==> |progress.calls| >= 3 && progress.calls[2].CreateChange?
    ensures progress.changes != map[] ==> progress.calls[|progress.calls| - 1].ConvertChanges?
  {
    var params := s.renameParams;
    var lookup := ResolveTarget(s.renameKind, params, engine);
    match lookup.target
    case Raised => Progress(None, map[], true, false, [lookup.call])
    case Done(None) => Progress(None, map[], false, false, [lookup.call])
    case Done(Some(curr)) =>
      var created := [lookup.call, CreateRenameSupport(curr, params.newName)];
      match engine.createRenameSupport(curr, params.newName)
      case Raised => Progress(None, map[], true, false, created)
      case Done(None) => Progress(None, map[], false, true, created)
      case Done(Some(caps)) =>
        var cfg := Configure(Untouched, caps, s);
        var run := created + [CreateChange(curr, cfg)];
        match engine.createChange(curr, params.newName, cfg)
        case Raised => Progress(None, map[], true, false, run)
        case Done(checked) =>
          match checked.change
          case None => Progress(Some(checked.status), map[], false, false, run)
          case Some(change) =>
            var conversion := engine.convertChanges(change);
            Progress(Some(checked.status), conversion.written, conversion.raised, false, run + [ConvertChanges(change)])
  }

  /** Whether the last call is the logging of a `CoreException`. */
  predicate Logged(calls: seq<Call>) {
    |calls| > 0 && calls[|calls| - 1].LogException?
  }

  /** One invocation of the command on `arguments`, with the cancellation flag and the engine's answers. */
  function Execution(arguments: seq<RenameSettings>, cancelled: bool, engine: Engine): (run: Run)
    ensures run.calls == [] <==> |arguments| == 0
    ensures Logged(run.calls) ==> run.outcome.Returned?
    ensures run.outcome.Returned? ==> |run.calls| >= 3 && run.calls[..2] == [EnsureNotCancelled, ParseSettings]
  {
    if !ValidArguments(arguments) then Run(Threw(IllegalArgument), [])
    else if cancelled then Run(Threw(OperationCanceled), [EnsureNotCancelled])
    else
      var s := arguments[0];
      var progress := TryRename(s, engine);
      if progress.escaped then Run(Threw(NullPointer), [EnsureNotCancelled, ParseSettings] + progress.calls)
      else
        var logged := if progress.raised then [LogException(s.renameParams.uri)] else [];
        Run(Returned(progress.status, progress.changes), [EnsureNotCancelled, ParseSettings] + progress.calls + logged)
  }

  /** Whether the calls include a change conversion. */
  predicate Converts(calls: seq<Call>) {
    exists i :: 0 <= i < |calls| && calls[i].ConvertChanges?
  }

  /** Whether the calls include a condition check. */
  predicate Checks(calls: seq<Call>) {
    exists i :: 0 <= i < |calls| && calls[i].CreateChange?
  }

  /**
   * The command throws the illegal-argument exception only for an empty
   * argument list (before touching any collaborator), the cancellation
   * exception only for a cancelled monitor (after the cancellation check
   * alone), and a null-pointer exception only right after rename support
   * creation answered null; every other invocation returns a result, whatever
   * the engine raises.
   */
  lemma ExitsAndEarlyRejections(arguments: seq<RenameSettings>, cancelled: bool, engine: Engine)
    ensures var run := Execution(arguments, cancelled, engine);
      && (run.outcome == Threw(IllegalArgument) <==> |arguments| == 0)
      && (run.outcome == Threw(OperationCanceled) <==> |arguments| > 0 && cancelled)
      && (run.outcome == Threw(OperationCanceled) ==> run.calls == [EnsureNotCancelled])
      && (run.outcome == Threw(NullPointer) ==>
            && |run.calls| == 4
            && run.calls[3].CreateRenameSupport?
            && engine.createRenameSupport(run.calls[3].element, run.calls[3].newName) == Done(None))
  {
  }

  /** The third call is the resolver the rename kind selects, with the request's uri (and position). */
  lemma KindDispatch(arguments: seq<RenameSettings>, engine: Engine)
    requires |arguments| > 0
    ensures var run := Execution(arguments, false, engine);
      var params := arguments[0].renameParams;
      && |run.calls| >= 3
      && run.calls[2] == match arguments[0].renameKind
        case JavaElement => GetJavaElement(params.position, params.uri)
        case CompilationUnit => ResolveCompilationUnit(params.uri)
        case Package => ResolvePackage(params.uri)
  {
  }

  /**
   * The element the kind's own resolver returns is the one renamed, for every
   * kind; for a package, the fall-through into `default` does not drop it.
   */
  lemma ResolvedTargetProceeds(arguments: seq<RenameSettings>, engine: Engine, curr: Element)
    requires |arguments| > 0
    requires EngineResolves(arguments[0].renameKind, arguments[0].renameParams, engine, Done(Some(curr)))
    ensures var run := Execution(arguments, false, engine);
      && |run.calls| >= 4
      && run.calls[3] == CreateRenameSupport(curr, arguments[0].renameParams.newName)
  {
  }

  /**
   * No target: the result keeps its empty edit and no status; the refactoring
   * is never created, so settings are not applied and no check runs.
   */
  lemma NoTargetShortCircuits(arguments: seq<RenameSettings>, engine: Engine)
    requires |arguments| > 0
    requires EngineResolves(arguments[0].renameKind, arguments[0].renameParams, engine, Done(None))
    ensures var run := Execution(arguments, false, engine);
      && run.outcome == Returned(None, map[])
      && |run.calls| == 3
      && !Checks(run.calls)
  {
  }

  /** A `CoreException` from the resolver is logged; no status, an empty edit, nothing created or checked. */
  lemma ResolutionFailureLogged(arguments: seq<RenameSettings>, engine: Engine)
    requires |arguments| > 0
    requires EngineResolves(arguments[0].renameKind, arguments[0].renameParams, engine, Raised)
    ensures var run := Execution(arguments, false, engine);
      && run.outcome == Returned(None, map[])
      && run.calls[|run.calls| - 1] == LogException(arguments[0].renameParams.uri)
      && |run.calls| == 4
      && !Checks(run.calls)
  {
  }

  /** A `CoreException` from rename support creation is logged; no status, an empty edit, no check. */
  lemma SupportCreationFailureLogged(arguments: seq<RenameSettings>, engine: Engine, curr: Element)
    requires |arguments| > 0
    requires EngineResolves(arguments[0].renameKind, arguments[0].renameParams, engine, Done(Some(curr)))
    requires engine.createRenameSupport(curr, arguments[0].renameParams.newName) == Raised
    ensures var run := Execution(arguments, false, engine);
      && run.outcome == Returned(None, map[])
      && run.calls[|run.calls| - 1] == LogException(arguments[0].renameParams.uri)
      && |run.calls| == 5
      && !Checks(run.calls)
  {
    var run := Execution(arguments, false, engine);
    assert !run.calls[4].CreateChange?;
  }

  /**
   * A null rename support is dereferenced unchecked: a `NullPointerException`
   * escapes, after the creation call, with nothing logged and no check run.
   */
  lemma NullRenameSupportEscapes(arguments: seq<RenameSettings>, engine: Engine, curr: Element)
    requires |arguments| > 0
    requires EngineResolves(arguments[0].renameKind, arguments[0].renameParams, engine, Done(Some(curr)))
    requires engine.createRenameSupport(curr, arguments[0].renameParams.newName) == Done(None)
    ensures var run := Execution(arguments, false, engine);
      && run.outcome == Threw(NullPointer)
      && |run.calls| == 4
      && run.calls[3] == CreateRenameSupport(curr, arguments[0].renameParams.newName)
      && !Logged(run.calls)
      && !Checks(run.calls)
  {
  }

  /** The condition check runs on the fresh refactoring configured by `setSettings`. */
  lemma CheckSeesConfiguredRefactoring(arguments: seq<RenameSettings>, engine: Engine, curr: Element, caps: Capabilities)
    requires |arguments| > 0
    requires EngineResolves(arguments[0].renameKind, arguments[0].renameParams, engine, Done(Some(curr)))
    requires engine.createRenameSupport(curr, arguments[0].renameParams.newName) == Done(Some(caps))
    ensures var run := Execution(arguments, false, engine);
      && |run.calls| >= 5
      && run.calls[4] == CreateChange(curr, Configure(Untouched, caps, arguments[0]))
  {
  }

  /**
   * After a completed check the status is recorded whatever the change is; a
   * null change leaves the edit empty and converts nothing; a non-null change
   * fills the edit with what conversion wrote.
   */
  lemma StatusRecordedBeforeChange(arguments: seq<RenameSettings>, engine: Engine, curr: Element, caps: Capabilities, checked: Checked)
    requires |arguments| > 0
    requires var params := arguments[0].renameParams;
      && EngineResolves(arguments[0].renameKind, params, engine, Done(Some(curr)))
      && engine.createRenameSupport(curr, params.newName) == Done(Some(caps))
      && engine.createChange(curr, params.newName, Configure(Untouched, caps, arguments[0])) == Done(checked)
    ensures var run := Execution(arguments, false, engine);
      && run.outcome.Returned?
      && run.outcome.status == Some(checked.status)
      && (checked.change.None? ==> run.outcome.changes == map[] && !Converts(run.calls) && !Logged(run.calls))
      && (checked.change.Some? ==>
            && run.outcome.changes == engine.convertChanges(checked.change.value).written
            && Converts(run.calls)
            && (Logged(run.calls) <==> engine.convertChanges(checked.change.value).raised))
  {
    var run := Execution(arguments, false, engine);
    if checked.change.None? {
      assert !Converts(run.calls) by {
        assert |run.calls| == 5;
      }
    } else {
      assert run.calls[5].ConvertChanges?;
    }
  }

  /** A `CoreException` from the condition check is logged, and the result has no status and an empty edit. */
  lemma CheckFailureLogged(arguments: seq<RenameSettings>, engine: Engine, curr: Element, caps: Capabilities)
    requires |arguments| > 0
    requires var params := arguments[0].renameParams;
      && EngineResolves(arguments[0].renameKind, params, engine, Done(Some(curr)))
      && engine.createRenameSupport(curr, params.newName) == Done(Some(caps))
      && engine.createChange(curr, params.newName, Configure(Untouched, caps, arguments[0])) == Raised
    ensures var run := Execution(arguments, false, engine);
      && run.outcome == Returned(None, map[])
      && run.calls[|run.calls| - 1] == LogException(arguments[0].renameParams.uri)
  {
  }

  /** On every returning path the edit is the initial empty one unless a change was converted. */
  lemma {:induction false} EditEmptyUnlessConverted(arguments: seq<RenameSettings>, cancelled: bool, engine: Engine)
    ensures var run := Execution(arguments, cancelled, engine);
      run.outcome.Returned? && !Converts(run.calls) ==> run.outcome.changes == map[]
  {
    var run := Execution(arguments, cancelled, engine);
    if run.outcome.Returned? && run.outcome.changes != map[] {
      var progress := TryRename(arguments[0], engine);
      var i := 2 + |progress.calls| - 1;
      assert run.calls[i] == progress.calls[|progress.calls| - 1];
      assert run.calls[i].ConvertChanges?;
    }
  }

  /** A status is recorded only once the condition check has run. */
  lemma {:induction false} StatusOnlyAfterCheck(arguments: seq<RenameSettings>, cancelled: bool, engine: Engine)
    ensures var run := Execution(arguments, cancelled, engine);
      run.outcome.Returned? && run.outcome.status.Some? ==> Checks(run.calls)
  {
    var run := Execution(arguments, cancelled, engine);
    if run.outcome.Returned? && run.outcome.status.Some? {
      assert run.calls[4].CreateChange?;
    }
  }

  /** How the command ends in the imperative model: an escaping exception or the result object. */
  datatype Exit = Throws(exception: Unchecked) | Returns(result: RefactoringResult)

  /** Executes the rename refactoring described by the first argument. */
  method Execute(arguments: seq<RenameSettings>, cancelled: bool, engine: Engine)
    returns (exit: Exit, ghost calls: seq<Call>)
    ensures calls == Execution(arguments, cancelled, engine).calls
    ensures match Execution(arguments, cancelled, engine).outcome
      case Threw(e) => exit == Throws(e)
      case Returned(status, changes) =>
        && exit.Returns?
        && fresh(exit.result)
        && exit.result.cheWorkspaceEdit != null
        && fresh(exit.result.cheWorkspaceEdit)
        && exit.result.refactoringStatus == status
        && exit.result.cheWorkspaceEdit.changes == changes
  {
    if !ValidArguments(arguments) {
      return Throws(IllegalArgument), [];
    }
    calls := [EnsureNotCancelled];
    if cancelled {
      return Throws(OperationCanceled), calls;
    }
    var result := new RefactoringResult();
    var edit := new CheWorkspaceEdit();
    result.cheWorkspaceEdit := edit;

    var settings := arguments[0];
    calls := calls + [ParseSettings];
    var raised, escaped, tried := RenameWithin(settings, engine, result, edit);
    calls := calls + tried;
    if escaped {
      return Throws(NullPointer), calls;
    }
    if raised {
      calls := calls + [LogException(settings.renameParams.uri)];
    }
    return Returns(result), calls;
  }

  /**
   * The `try` block of the command, filling `result` and `edit` in place;
   * `raised` reports a caught `CoreException`, `escaped` the uncaught
   * `NullPointerException` of a null rename support.
   */
  method RenameWithin(settings: RenameSettings, engine: Engine, result: RefactoringResult, edit: CheWorkspaceEdit)
    returns (raised: bool, escaped: bool, ghost calls: seq<Call>)
    requires result.cheWorkspaceEdit == edit && result.refactoringStatus == None && edit.changes == map[]
    modifies result, edit
    ensures var progress := TryRename(settings, engine);
      && raised == progress.raised
      && escaped == progress.escaped
      && calls == progress.calls
      && result.cheWorkspaceEdit == edit
      && result.refactoringStatus == progress.status
      && edit.changes == progress.changes
  {
    var params := settings.renameParams;
    var lookup := ResolveTarget(settings.renameKind, params, engine);
    calls := [lookup.call];
    if lookup.target.Raised? {
      return true, false, calls;
    }
    var curr := lookup.target.value;
    if curr.None? {
      return false, false, calls;
    }

    var support := engine.createRenameSupport(curr.value, params.newName);
    calls := calls + [CreateRenameSupport(curr.value, params.newName)];
    if support.Raised? {
      return true, false, calls;
    }
    if support.value.None? {
      // `getRenameRefactoring` on a null rename support
      return false, true, calls;
    }
    var refactoring := new RenameRefactoring(curr.value, params.newName, support.value.value);
    SetSettings(settings, refactoring);

    var create := engine.createChange(curr.value, params.newName, refactoring.Recorded());
    calls := calls + [CreateChange(curr.value, refactoring.Recorded())];
    if create.Raised? {
      return true, false, calls;
    }
    result.refactoringStatus := Some(create.value.status);
    var change := create.value.change;
    if change.None? {
      return false, false, calls;
    }

    var conversion := engine.convertChanges(change.value);
    calls := calls + [ConvertChanges(change.value)];
    edit.changes := edit.changes + conversion.written;
    assert edit.changes == conversion.written;
    if conversion.raised {
      return true, false, calls;
    }
    result.cheWorkspaceEdit := edit;
    return false, false, calls;
  }
}
