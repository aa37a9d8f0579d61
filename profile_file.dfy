/** The one file a profile store reads and overwrites, as `json.load` sees it. */
module ProfileFile {
  import opened Json

  /** `Absent`: no file at the path. `Malformed`: a file whose text `json.load` rejects
      (it raises `JSONDecodeError`). `Parsed(value)`: a file that decodes to `value`. */
  datatype FileState = Absent | Malformed | Parsed(value: Value)
}
