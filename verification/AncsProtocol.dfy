/** The result codes the builders and the parsers of the ANCS protocol share. */
module AncsProtocol {

  datatype Code =
    | Ok
    | ErrArgument
    | ErrLength
    | ErrCommand
    | ErrUidMismatch
    | ErrAttribute
    | ErrOverflow
    | ErrSequence
    | ErrAppIdMismatch

  datatype Result = More | Complete | Error
}
