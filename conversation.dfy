/**
 * The conversation vocabulary both front-end state holders share: who
 * wrote a message, the message itself, and the phase of the workflow
 * (drafting an outline, filling in slide content, exporting).
 */
module Conversation {
  import opened Values
  datatype Role = System | User | Assistant

  datatype Message = Message(role: Role, content: string)

  datatype Phase = Outline | Content | Exporting

  /** The messages are the same apart from the content of the last one, which has grown by `extra`. */
  predicate LastGrew(before: seq<Message>, after: seq<Message>, extra: string) {
    && |after| == |before| >= 1
    && after[..|after| - 1] == before[..|before| - 1]
    && after[|after| - 1].role == before[|before| - 1].role
    && after[|after| - 1].content == before[|before| - 1].content + extra
  }

  /** Append `extra` to the content of the last message, leaving the others alone. */
  function AppendToLast(msgs: seq<Message>, extra: string): (r: seq<Message>)
    requires msgs != []
    ensures LastGrew(msgs, r, extra)
  {
    var last := msgs[|msgs| - 1];
    msgs[..|msgs| - 1] + [last.(content := last.content + extra)]
  }

  /** Two growths of the last message in a row are one growth by both texts. */
  lemma LastGrewTwice(a: seq<Message>, b: seq<Message>, c: seq<Message>, x: string, y: string)
    requires LastGrew(a, b, x) && LastGrew(b, c, y)
    ensures LastGrew(a, c, x + y)
  {
    assert a[|a| - 1].content + x + y == a[|a| - 1].content + (x + y);
  }

  /** A POST of a JSON body to one of the two streaming endpoints. */
  datatype Request = Request(endpoint: string, body: Value)

  const OutlineEndpoint := "/api/v1/stream/outline"
  const ContentEndpoint := "/api/v1/stream/content"
}
