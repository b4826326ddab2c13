/** The error variants of the crate (src/error.rs). Payloads that wrap a
    foreign error type (io, UTF-8, cindex, a boxed error) are kept as the
    text of that error. */
module Errors {

  datatype GcalcError =
    | FormatFail(message: string)
    | InvalidArgument(message: string)
    | StdIo(message: string)
    | CsvError(message: string)
    | InvalidProb(message: string)
    | InvalidConversion(message: string)
    | InvalidConditional(message: string)
    | InvalidStringConversion(message: string)
    | ParseError(message: string)
    | Unknown(message: string)
    | PlotError(message: string)
    | CIndexError(message: string)
}
