/** The three ways a call into the query engine can end: with a value, with
    `null` (the engine's signal that the store failed), or with a thrown error. */
module Outcomes {

  datatype Option<+T> = None | Some(value: T)

  /** What the engine throws. Each constructor carries what the thrown value names. */
  datatype Error =
    | InvalidNote(note: string)              // "Invalid Note: <note>"
    | InvalidNotesInput                      // "Invalid Notes input"
    | RejectedMode(mode: string)             // throw("Invalid Mode: ", mode) throws `mode` alone (comma operator)
    | RejectedCategory(category: string)     // throw("Invalid Chord category: ", category) throws `category` alone
    | InvalidGroupId                         // "groupID must be an integer"
    | InvalidScaleLength                     // "Invalid SCALE_LENGTH"
    | MissingCategory                        // "cant get an extension if there's no category"
    | NotAList                               // TypeError: `.map` called on a bare note string
    | ReconstructionFailure(key: string)     // the notation library rejected a stored symbol or scale

  /** Done(v): the call returned v. Null: the call returned null. Thrown(e): the call threw e. */
  datatype Outcome<+T> = Done(value: T) | Null | Thrown(error: Error) {

    predicate IsFailure() {
      !Done?
    }

    function PropagateFailure<U>(): Outcome<U>
      requires !Done?
    {
      if Null? then Null else Thrown(error)
    }

    function Extract(): T
      requires Done?
    {
      value
    }
  }
}
