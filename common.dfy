/** Values shared by the whole load: nullable cells, results, errors. */
module Common {

  /** A nullable cell: None is SQL NULL, the model's reading of a JSON null or
      of a key a record lacks. (pandas may hold such a cell as NaN, which the
      database driver does not send as NULL.) */
  datatype Option<+T> = None | Some(value: T)

  /** The outcome of a statement, a file or a parse. */
  datatype Result<+T> = Ok(value: T) | Err(error: LoadError)

  /** A floating-point value (duration, length, latitude, longitude), kept opaque:
      the load only copies these and compares them for equality. */
  datatype Float = Float(bits: int)

  /** The failures that abort the current file. */
  datatype LoadError =
    | ParseError                                     // the file is not valid line-delimited JSON
    | EmptyFile                                      // the frame has the columns read but no row 0
    | MissingColumn                                  // a column the processor reads is absent from the frame
    | TimestampOutOfBounds                           // a play's ts lies outside pandas' nanosecond Timestamp range
    | NotNullViolation(table: string, column: string) // an insert stores NULL in a NOT NULL column
}
