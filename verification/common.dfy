/** Values shared by every part of the model: optional values, the
    (status, success, message, data) replies the handlers send, the HTTP
    statuses they use and the representation of time. */
module Common {

  datatype Option<T> = None | Some(value: T)

  /** An instant, in whole seconds. Every handler reads the clock as a
      parameter `now`. */
  type Time = int

  const OneMinute: int := 60
  const OneHour: int := 60 * OneMinute

  const StatusOK := 200
  const StatusCreated := 201
  const StatusBadRequest := 400
  const StatusUnauthorized := 401
  const StatusNotFound := 404
  const StatusConflict := 409
  const StatusUnprocessableEntity := 422
  const StatusInternalServerError := 500

  /** What a handler answers: an HTTP status, the success flag, the
      human-readable message and an optional payload. */
  datatype Reply<T> = Reply(status: int, success: bool, message: string, data: Option<T>)

  /** A reply without payload. */
  function Failure<T>(status: int, message: string): Reply<T>
  {
    Reply(status, false, message, None)
  }
}
