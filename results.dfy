/** Option and Result values, and the exceptions the music engine can raise. */
module Results {

  datatype Option<T> = None | Some(value: T)

  /** The failures of the engine, one per exception its code can raise. */
  datatype Error =
    | NoteNotInTable(note: string)      // ValueError from `notes.index(root_note)`
    | EmptyChoice                       // IndexError from `random.choice([])`
    | UnknownChordType(name: string)    // KeyError from `CHORD_TYPES[chord_type]`
    | EmptyChordSymbol                  // IndexError from `chord[0]` on an empty symbol

  /** A computation that either yields a value or raises one of the errors above. */
  datatype Result<T> = Ok(value: T) | Err(error: Error)
}
