/**
 * The chat platform as the relay sees it: a capability that takes one
 * outbound request at a time and either delivers it, returning the new
 * message's id, or rejects it (the library's TelegramAPIError).
 */
module Telegram {
  import opened Wrappers

  /** The attachment kinds the relay handles. */
  datatype MediaKind = Photo | Video | Document | Audio | Voice | Animation

  /** One outbound request. */
  datatype Call =
    /** `copy_to`: re-send message `messageId` of chat `fromChat` into `toChat`. */
    | CopyMessage(toChat: int, thread: Option<int>, fromChat: int, messageId: int)
    /** `send_message`, and `answer` in the chat the message came from. */
    | SendMessage(toChat: int, thread: Option<int>, text: string)
    /** `send_photo`, `send_video`, `send_document`, `send_audio`, `send_voice`, `send_animation`. */
    | SendMedia(toChat: int, kind: MediaKind, fileId: string, caption: string)
    /** `reply`: a text message in `toChat` answering message `replyTo`. */
    | ReplyMessage(toChat: int, replyTo: int, text: string)
  {
    /** The chat the request delivers into. */
    function Destination(): int {
      toChat
    }
  }

  /**
   * What the platform does with the `k`-th request: `Some(id)` delivers it
   * as message `id`, `None` rejects it. Past the end of the script every
   * request is rejected.
   */
  function OutcomeAt(script: seq<Option<int>>, k: nat): Option<int>
  {
    if k < |script| then script[k] else None
  }

  /**
   * The platform connection. `script` fixes how each successive request
   * fares; `log` records every request made, delivered or not, in order.
   */
  class Transport {
    const script: seq<Option<int>>
    var log: seq<Call>

    constructor (script: seq<Option<int>>)
      ensures this.script == script && log == []
    {
      this.script := script;
      log := [];
    }

    /** Makes one request; a `None` result is the rejection the caller must handle. */
    method Send(c: Call) returns (r: Option<int>)
      modifies this
      ensures log == old(log) + [c]
      ensures r == OutcomeAt(script, |old(log)|)
    {
      r := OutcomeAt(script, |log|);
      log := log + [c];
    }
  }
}
