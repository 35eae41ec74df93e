/** The failures the order and invoice services raise, as inspectable values. */
module Exceptions {

  datatype ServiceError =
      /** NestJS `NotFoundException` with its message. */
    | NotFound(message: string)
      /** NestJS `BadRequestException` with its message. */
    | BadRequest(message: string)
      /** Mongoose `ValidationError` raised by `save()`: the schema paths whose
          `required` check failed, in schema order. */
    | ValidationError(paths: seq<string>)
      /** A JavaScript `TypeError` thrown inside a handler, which NestJS answers
          with status 500; the message is the runtime's. */
    | TypeError(message: string)
}
