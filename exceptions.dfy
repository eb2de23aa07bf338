/**
 * The exception kinds the controller raises or lets through. The exception
 * classes themselves (aiohomekit/exceptions.py) are not part of this model;
 * each kind carries the argument the controller passes to it.
 */
module Exceptions {

  datatype Error =
    | TransportNotSupported(transport: string)
    | NotImplemented(message: string)
    | AccessoryNotFound(message: string)
    | MalformedPin(message: string)
    | ConfigLoading(message: string)
    | ConfigSaving(message: string)
    /** Python's KeyError, carrying its argument: the missing key, or the message `get_uuid` gives it. */
    | KeyError(argument: string)
    /** Python's ValueError, as `urlparse` raises it on an unbalanced `[` or `]`. */
    | InvalidValue(message: string)
    /**
     * An exception the controller does not catch while reading or writing its
     * file, named by its Python class: IsADirectoryError, NotADirectoryError,
     * UnicodeDecodeError and the like.
     */
    | Uncaught(kind: string)
}
