/** Opening and reading a source file, shared by the parser and the scanner. */
module Files {

  /**
   * What `open(path, encoding="utf-8", errors="ignore").read()` gives: the
   * text, or the `OSError` it raises. `FileNotFoundError` is told apart
   * because the services catch it by name; any other `OSError` (a
   * `PermissionError`, an `IsADirectoryError`, ...) is named by its class.
   * Decoding never fails, since undecodable bytes are dropped.
   */
  datatype FileRead = Text(text: string) | NotFound | OsError(name: string)
}
