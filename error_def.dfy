/** The result codes every operation of the library returns (`Error_t`). */
module ErrorDef {

  datatype Error =
    | NoError
    | FileOpenError
    | FileAccessError
    | FunctionInvalidArgsError
    | NotInitializedError
    | FunctionIllegalCallError
    | InvalidString
    | MemError
    | UnknownError
    | NotImplementedError
    | NumErrors
}
