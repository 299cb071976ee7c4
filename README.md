# Rename command model

A Dafny model of the rename command of the Che extension to the Eclipse JDT
language server. The command receives a list of arguments whose first element
is the rename request (`RenameSettings`: the language-server rename parameters,
a rename kind and a set of update toggles). It then does the following, in order:

1. It validates the argument list.
2. It checks the progress monitor for cancellation.
3. It creates a `RefactoringResult` that carries an empty `CheWorkspaceEdit`.
4. It resolves the rename target according to the kind: a Java element at a position, a compilation unit, or a package.
5. It creates the rename refactoring and copies the toggles onto whichever optional capabilities the refactoring offers (`setSettings`).
6. It runs the condition check and change creation.
7. It records the check status and converts the change into the edit.

A `CoreException` on the way is logged and the partial result is returned.

The model has three modules:

- `Dto` (dto.dfy) holds the request record and the status. It also holds the two result
  objects the command fills in place, as classes.
- `Refactoring` (refactoring.dfy) describes what the refactoring offers (`Capabilities`):
  - whether its processor is a package rename processor;
  - which of the five tagging adapters are present;
  - for the delegate, qualified-name and textual-match adapters, their `canEnable…` answer.

  The class `RenameRefactoring` records which setters the command called and with what
  value. `Configure` specifies `setSettings` as the package-processor step followed by
  five adapter steps. `SetSettings` is the imperative setter sequence, proved equal to it.
- `RenameCommand` (rename_command.dfy) takes the engine's answers as function-valued
  inputs (`Engine`). Any of them may raise a `CoreException`, and rename support creation
  may answer null.
  - `Execution` specifies one invocation: its outcome (an escaping exception, or the
    result's status and edit) and the ordered calls it makes on collaborators.
  - `Execute` and `RenameWithin` are the imperative command. They are proved to produce
    exactly that outcome, on a freshly allocated result and edit, and that call sequence.

## Model

| member | source | states |
|---|---|---|
| `RenameCommand.Execute` | org-eclipse-che-jdt-ls-extension/jdt.ls.extension.core/src/main/java/org/eclipse/che/jdt/ls/extension/core/internal/refactoring/rename/RenameCommand.java:62-123 | The command either throws exactly the exception `Execution` names, or returns a freshly allocated result. That result always carries a freshly allocated edit, and its status and edit contents are those of `Execution`. The calls it makes are those of `Execution`, in order. |
| `RenameCommand.Execution` | org-eclipse-che-jdt-ls-extension/jdt.ls.extension.core/src/main/java/org/eclipse/che/jdt/ls/extension/core/internal/refactoring/rename/RenameCommand.java:62-123 | One invocation of the command, as a value. It makes no call at all exactly when the argument list is empty. A logged exception is never rethrown. A returned result always comes after the cancellation check and the parsing of the settings. |
| `RenameCommand.ValidArguments` | org-eclipse-che-jdt-ls-extension/jdt.ls.extension.core/src/main/java/org/eclipse/che/jdt/ls/extension/core/internal/refactoring/rename/RenameCommand.java:164-167 | The argument list is accepted exactly when it has a first element to deserialise. |
| `RenameCommand.ResolveTarget` | org-eclipse-che-jdt-ls-extension/jdt.ls.extension.core/src/main/java/org/eclipse/che/jdt/ls/extension/core/internal/refactoring/rename/RenameCommand.java:81-92 | The kind switch. The target is the answer of the kind's own resolver, read directly off the engine: position lookup, the compilation-unit resolver or the package resolver. Each kind calls its resolver, and only that kind does. |
| `RenameCommand.TryRename` | org-eclipse-che-jdt-ls-extension/jdt.ls.extension.core/src/main/java/org/eclipse/che/jdt/ls/extension/core/internal/refactoring/rename/RenameCommand.java:75-116 | The `try` block, as a value. It starts with the resolver call. It never both catches a `CoreException` and lets a null-pointer exception escape. An escape leaves no status and no edit, right after rename support creation. A status means the check was called. A non-empty edit means conversion was the last call. |
| `RenameCommand.RenameWithin` | org-eclipse-che-jdt-ls-extension/jdt.ls.extension.core/src/main/java/org/eclipse/che/jdt/ls/extension/core/internal/refactoring/rename/RenameCommand.java:75-120 | The `try` block fills the result and edit in place exactly as `TryRename` describes. The result keeps the edit object allocated before the block. The block reports whether a `CoreException` was raised and whether a null rename support made a null-pointer exception escape. |
| `RenameCommand.ExitsAndEarlyRejections` | org-eclipse-che-jdt-ls-extension/jdt.ls.extension.core/src/main/java/org/eclipse/che/jdt/ls/extension/core/internal/refactoring/rename/RenameCommand.java:62-100 | An empty argument list, and only that, throws the illegal-argument exception, before any collaborator is called. A cancelled monitor on a non-empty list, and only that, throws the cancellation exception after the cancellation check alone. A null-pointer exception is thrown only right after rename support creation answered null. Every other invocation returns a result, whatever `CoreException` the engine raises. |
| `RenameCommand.KindDispatch` | org-eclipse-che-jdt-ls-extension/jdt.ls.extension.core/src/main/java/org/eclipse/che/jdt/ls/extension/core/internal/refactoring/rename/RenameCommand.java:76-92 | The resolver called is the one the rename kind selects: position lookup with the request's position and uri for a Java element, the compilation-unit resolver for a compilation unit, and the package resolver for a package. |
| `RenameCommand.NoTargetShortCircuits` | org-eclipse-che-jdt-ls-extension/jdt.ls.extension.core/src/main/java/org/eclipse/che/jdt/ls/extension/core/internal/refactoring/rename/RenameCommand.java:94-96 | When the kind's own resolver answers null, the result has no status and an empty edit. The refactoring is never created, so no setting is applied and no condition check runs. |
| `RenameCommand.ResolvedTargetProceeds` | org-eclipse-che-jdt-ls-extension/jdt.ls.extension.core/src/main/java/org/eclipse/che/jdt/ls/extension/core/internal/refactoring/rename/RenameCommand.java:81-99 | For every kind, the element returned by the kind's own resolver is the one passed to rename support creation. For a package, the fall-through into `default` does not drop it. |
| `RenameCommand.ResolutionFailureLogged` | org-eclipse-che-jdt-ls-extension/jdt.ls.extension.core/src/main/java/org/eclipse/che/jdt/ls/extension/core/internal/refactoring/rename/RenameCommand.java:81-122 | A `CoreException` from the resolver is logged with the request's uri and not rethrown. The result has no status and an empty edit, and no check runs. |
| `RenameCommand.SupportCreationFailureLogged` | org-eclipse-che-jdt-ls-extension/jdt.ls.extension.core/src/main/java/org/eclipse/che/jdt/ls/extension/core/internal/refactoring/rename/RenameCommand.java:98-122 | A `CoreException` from rename support creation is logged with the request's uri and not rethrown. The result has no status and an empty edit, and no check runs. |
| `RenameCommand.NullRenameSupportEscapes` | org-eclipse-che-jdt-ls-extension/jdt.ls.extension.core/src/main/java/org/eclipse/che/jdt/ls/extension/core/internal/refactoring/rename/RenameCommand.java:98-101 | A null rename support is dereferenced without a check. A null-pointer exception escapes right after the creation call. It is not logged, since the `catch` covers only `CoreException`, and no check runs. |
| `RenameCommand.CheckSeesConfiguredRefactoring` | org-eclipse-che-jdt-ls-extension/jdt.ls.extension.core/src/main/java/org/eclipse/che/jdt/ls/extension/core/internal/refactoring/rename/RenameCommand.java:98-108 | The condition check runs on the newly created refactoring after `setSettings` has configured it with the request. |
| `RenameCommand.StatusRecordedBeforeChange` | org-eclipse-che-jdt-ls-extension/jdt.ls.extension.core/src/main/java/org/eclipse/che/jdt/ls/extension/core/internal/refactoring/rename/RenameCommand.java:103-116 | After a completed check, the status is recorded whatever the change is. A null change leaves the edit empty, converts nothing and logs nothing. A non-null change is converted, the edit holds what conversion wrote, and a log entry follows exactly when conversion raised. |
| `RenameCommand.CheckFailureLogged` | org-eclipse-che-jdt-ls-extension/jdt.ls.extension.core/src/main/java/org/eclipse/che/jdt/ls/extension/core/internal/refactoring/rename/RenameCommand.java:103-122 | A `CoreException` from the check is logged with the request's uri and not rethrown. The result has no status and an empty edit. |
| `RenameCommand.EditEmptyUnlessConverted` | org-eclipse-che-jdt-ls-extension/jdt.ls.extension.core/src/main/java/org/eclipse/che/jdt/ls/extension/core/internal/refactoring/rename/RenameCommand.java:67-122 | On every path that returns, the edit is the initial empty one unless a change was converted. |
| `RenameCommand.StatusOnlyAfterCheck` | org-eclipse-che-jdt-ls-extension/jdt.ls.extension.core/src/main/java/org/eclipse/che/jdt/ls/extension/core/internal/refactoring/rename/RenameCommand.java:94-109 | A returned result carries a status only if the condition check was run. |
| `Refactoring.SetSettings` | org-eclipse-che-jdt-ls-extension/jdt.ls.extension.core/src/main/java/org/eclipse/che/jdt/ls/extension/core/internal/refactoring/rename/RenameCommand.java:125-162 | After `setSettings`, the setters recorded on the refactoring are exactly `Configure` of what was recorded before, given the refactoring's capabilities and the request. |
| `Refactoring.SetDelegateUpdating` | org-eclipse-che-jdt-ls-extension/jdt.ls.extension.core/src/main/java/org/eclipse/che/jdt/ls/extension/core/internal/refactoring/rename/RenameCommand.java:130-134 | A present and enabled delegate adapter receives both delegate toggles; otherwise nothing changes. |
| `Refactoring.SetQualifiedNameUpdating` | org-eclipse-che-jdt-ls-extension/jdt.ls.extension.core/src/main/java/org/eclipse/che/jdt/ls/extension/core/internal/refactoring/rename/RenameCommand.java:135-141 | A present and enabled qualified-name adapter receives the flag. It receives the file patterns only when the flag is on. |
| `Refactoring.SetReferenceUpdating` | org-eclipse-che-jdt-ls-extension/jdt.ls.extension.core/src/main/java/org/eclipse/che/jdt/ls/extension/core/internal/refactoring/rename/RenameCommand.java:143-146 | A present reference adapter receives the reference toggle, with no gate. |
| `Refactoring.SetSimilarDeclarationUpdating` | org-eclipse-che-jdt-ls-extension/jdt.ls.extension.core/src/main/java/org/eclipse/che/jdt/ls/extension/core/internal/refactoring/rename/RenameCommand.java:148-156 | A present similar-declaration adapter receives the flag, with no gate. It receives the match strategy only when the flag is on. |
| `Refactoring.SetTextUpdating` | org-eclipse-che-jdt-ls-extension/jdt.ls.extension.core/src/main/java/org/eclipse/che/jdt/ls/extension/core/internal/refactoring/rename/RenameCommand.java:158-161 | A present and enabled textual-match adapter receives the textual-match toggle. |
| `Refactoring.RenameRefactoring.constructor` | org-eclipse-che-jdt-ls-extension/jdt.ls.extension.core/src/main/java/org/eclipse/che/jdt/ls/extension/core/internal/refactoring/rename/RenameCommand.java:98-100 | A newly created refactoring has no setter called on it. |
| `Refactoring.ConfigureFields` | org-eclipse-che-jdt-ls-extension/jdt.ls.extension.core/src/main/java/org/eclipse/che/jdt/ls/extension/core/internal/refactoring/rename/RenameCommand.java:125-162 | For each of the nine setters: its value after `setSettings` and the exact condition under which it is called (processor variant, adapter presence, `canEnable…` gate, parent flag). Otherwise its earlier value is kept. |
| `Refactoring.SubpackagesExactlyForPackageProcessor` | org-eclipse-che-jdt-ls-extension/jdt.ls.extension.core/src/main/java/org/eclipse/che/jdt/ls/extension/core/internal/refactoring/rename/RenameCommand.java:126-129 | On a fresh refactoring, the subpackages flag is set if and only if the processor is a package rename processor, and it gets the request's value. |
| `Refactoring.FlagSetExactlyWhenEnabled` | org-eclipse-che-jdt-ls-extension/jdt.ls.extension.core/src/main/java/org/eclipse/che/jdt/ls/extension/core/internal/refactoring/rename/RenameCommand.java:130-161 | For each of the five adapters, its main setter runs with the request's toggle exactly when the adapter is present and, for the three gated ones, its `canEnable…` answer is true. Otherwise the setter is left as it was. |
| `Refactoring.DisabledCapabilityUntouched` | org-eclipse-che-jdt-ls-extension/jdt.ls.extension.core/src/main/java/org/eclipse/che/jdt/ls/extension/core/internal/refactoring/rename/RenameCommand.java:130-161 | An absent or gated-off capability keeps all of its setters, dependent values included, untouched. |
| `Refactoring.DependentValues` | org-eclipse-che-jdt-ls-extension/jdt.ls.extension.core/src/main/java/org/eclipse/che/jdt/ls/extension/core/internal/refactoring/rename/RenameCommand.java:130-156 | On a fresh refactoring: delegate deprecation is set exactly when delegate updating is. File patterns are set exactly when qualified-name updating is set to true. The match strategy is set exactly when similar-declaration updating is set to true. Each dependent value is the request's value. |
| `Refactoring.ApplyWritesOnlyItsSlice` | org-eclipse-che-jdt-ls-extension/jdt.ls.extension.core/src/main/java/org/eclipse/che/jdt/ls/extension/core/internal/refactoring/rename/RenameCommand.java:130-161 | Each adapter step writes only its own setters and never the subpackages flag. |
| `Refactoring.ApplyCommutes` | org-eclipse-che-jdt-ls-extension/jdt.ls.extension.core/src/main/java/org/eclipse/che/jdt/ls/extension/core/internal/refactoring/rename/RenameCommand.java:130-161 | Any two adapter steps can be swapped. |
| `Refactoring.ApplyAllPermutation` | org-eclipse-che-jdt-ls-extension/jdt.ls.extension.core/src/main/java/org/eclipse/che/jdt/ls/extension/core/internal/refactoring/rename/RenameCommand.java:130-161 | Two runs of the same adapter steps in different orders configure the refactoring identically. |
| `Refactoring.OrderIndependent` | org-eclipse-che-jdt-ls-extension/jdt.ls.extension.core/src/main/java/org/eclipse/che/jdt/ls/extension/core/internal/refactoring/rename/RenameCommand.java:130-161 | Running the five adapter steps in any order after the package-processor step gives what `setSettings` gives. |

## Notes on the code

- The reference and similar-declaration settings have no `canEnable…` gate. They are
  applied whenever their adapter is present (lines 143-156).
- Cancellation is checked at line 65, before the result exists and before any resolution.
- The `PACKAGE` case falls into `default: break`, which only breaks, so the resolved
  package is kept and renamed.
- Each setter is recorded with the last value passed to it, not with a call count. The
  code calls each setter at most once per invocation, so nothing is lost.
- `RenameSupport.create` may answer null. Line 100 dereferences it without a check, so a
  null-pointer exception escapes the command; the `catch` covers only `CoreException`.

## Left out

- The deserialisation of the first argument into `RenameSettings` (lines 71-72). It is a
  foreign serialisation library, so arguments are already-parsed records. Its place in the
  call sequence is marked by `ParseSettings`.
- Null fields in the parsed request. A missing rename kind, text document or match strategy
  raises a `NullPointerException` in the code. The model takes every field as present.
- The engine internals: position lookup, the compilation-unit and package resolvers, rename
  support creation, condition checking and change creation, status conversion and change
  conversion. Their sources are not available. They are inputs of `Engine`, each allowed to
  raise a `CoreException`. This allows more behaviour than the real collaborators may show.
- The blocking effect of a FATAL check status on change creation. It happens inside change
  creation, so the status and the change are independent inputs, and a FATAL status with a
  change is not excluded.
- The `UPDATE_REFERENCES` flag passed when the rename support is created. The created
  refactoring's capabilities are an engine answer for the element and new name.
- Cancellation observed inside engine calls that receive the progress monitor. Only the
  explicit check at line 65 is modelled, as a boolean input.
- Exceptions other than `CoreException` raised inside the engine's collaborators. They would
  escape the command and are not modelled. The command's own dereference of a null rename
  support is modelled.
- Logging. The log call appears in the call sequence with the request's uri. The message
  text and the exception are not kept.
- `Resource.java`: a two-field data object with no logic, not used by the rename command.
