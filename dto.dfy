/** The stock Option datatype: `None` stands for a Java `null`. */
module Wrappers {
  datatype Option<+T> = None | Some(value: T)
}

/**
 * The data transfer objects the rename command reads and writes: the parsed
 * rename request (`RenameSettings` with its `RenameParams`), the refactoring
 * status, and the two result objects the command fills in place
 * (`RefactoringResult` and `CheWorkspaceEdit`).
 */
module Dto {
  import opened Wrappers

  type Uri = string

  /** Which kind of program element the request renames. */
  datatype RenameKind = JavaElement | CompilationUnit | Package

  datatype Position = Position(line: int, character: int)

  /** The language-server rename parameters: document, cursor and new name. */
  datatype RenameParams = RenameParams(uri: Uri, position: Position, newName: string)

  /** The request record, as it stands after deserialisation of the first argument. */
  datatype RenameSettings = RenameSettings(
    renameParams: RenameParams,
    renameKind: RenameKind,
    updateReferences: bool,
    updateQualifiedNames: bool,
    filePatterns: string,
    updateSimilarDeclarations: bool,
    matchStrategy: int,
    updateTextualMatches: bool,
    updateSubpackages: bool,
    delegateUpdating: bool,
    deprecateDelegates: bool)

  datatype Severity = Ok | Info | Warning | Error | Fatal

  /** The status of the condition check, already converted to its transport form. */
  datatype RefactoringStatus = RefactoringStatus(severity: Severity, entries: seq<string>)

  datatype Range = Range(start: Position, end: Position)
  datatype TextEdit = TextEdit(range: Range, newText: string)

  /** File uri to the ordered text edits for that file. */
  type Edits = map<Uri, seq<TextEdit>>

  /** The workspace edit the command returns; change conversion writes into it. */
  class CheWorkspaceEdit {
    var changes: Edits

    constructor ()
      ensures changes == map[]
    {
      changes := map[];
    }
  }

  /** The command's answer; both fields start as `null`. */
  class RefactoringResult {
    var refactoringStatus: Option<RefactoringStatus>
    var cheWorkspaceEdit: CheWorkspaceEdit?

    constructor ()
      ensures refactoringStatus == None && cheWorkspaceEdit == null
    {
      refactoringStatus := None;
      cheWorkspaceEdit := null;
    }
  }
}
