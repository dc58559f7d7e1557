/** What the core throws, one constructor per exception class it raises. */
module Failures {
  import opened Wrappers
  import opened Php

  datatype Failure =
      /** Transmission\Exception\TransmissionException: a result-level error or a failed handshake. */
    | TransmissionException(message: Value, code: int)
      /**
       * Transmission\Exception\NetworkException, as createByCode builds it from the status and
       * the message argument; NetworkException.MessageOf is its getMessage().
       */
    | NetworkException(status: int, detail: Option<string>)
      /** Transmission\Exception\InvalidArgumentException, from add(). */
    | InvalidArgumentException(result: Value)
      /** \BadMethodCallException, from the magic getters. */
    | BadMethodCallException(what: string)
      /** An error the PHP engine raises while evaluating an expression. */
    | Engine(error: EngineError)
      /** The transport could not deliver a response. */
    | TransportFailure
}
