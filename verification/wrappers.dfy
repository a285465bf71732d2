/** The nullable-value shape used throughout the model: a C# reference that may be
    null (a document, a solution, a presence string) is an `Option`. */
module Wrappers {

  datatype Option<+T> = None | Some(value: T)
}
