/** The server-sent-events service: an append-only list of event lines. */
module EventStream {

  class SseService {
    var lines: seq<string>

    constructor ()
      ensures lines == []
    {
      lines := [];
    }

    /** `SseService.push`: appends one line. */
    method Push(message: string)
      modifies this
      ensures lines == old(lines) + [message]
    {
      lines := lines + [message];
    }
  }
}
