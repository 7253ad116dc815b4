/** The exceptions the core throws or lets through, by the parameter or message they carry. */
module Exceptions {

  datatype Exception =
    | ArgumentNullException(paramName: string)   // a required argument was null (or an empty dictionary)
    | ArgumentException(paramName: string)       // a record type with no public properties
    | TransportException(message: string)        // any failure raised by the HTTP client
    | NullReferenceException                     // a service used before the manager's Awake wired it
}
