/** Failure values shared by every module: the errors the library throws, and
    the Option/Result wrappers used wherever the source can throw. */
module Errors {

  datatype Option<+T> = None | Some(value: T)

  /** Why a ValueError was thrown (lib/errors/ValueError.ts carries only a message). */
  datatype ValueProblem =
    | IndexBelowBase(index: int, base: int)   // Index constructor
    | NotANumber                               // Row.from / Sheet.from
    | InvalidReferenceLabel(text: string)     // Reference.from

  datatype Error =
    | ValueError(problem: ValueProblem)
    | CrossSheetRangeError
    | InvalidCoordError(text: string)
    | TypeError(message: string)
    | EmptyWorkbookError
    | EntryError
    | FormulaError(message: string)
    | UnknownTypeError(typeName: string)
    | Thrown(name: string)   // an error raised inside a collaborator, passed on as is

  datatype Result<+T> = Ok(value: T) | Err(error: Error) {
    predicate IsFailure() { Err? }

    function PropagateFailure<U>(): Result<U>
      requires Err?
    {
      Err(error)
    }

    function Extract(): T
      requires Ok?
    {
      value
    }
  }
}
