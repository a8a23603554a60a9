/**
 * The requests a chat sink issues, shared by the Telegram and Discord sinks.
 * A sink's creation post is sent directly; edits and deletions are handed to
 * the sink's background worker through `submit`. The model keeps both kinds,
 * in order, in one request log.
 */
module Remote {
  import opened Outcomes

  /** The identifier the chat API returns for a created message. */
  type MessageId = string

  datatype Request =
    | CreateMessage(content: string)                  // post a new message
    | EditMessage(id: MessageId, content: string)     // replace a message's text
    | DeleteMessage(target: Option<MessageId>)        // delete a message; None when the URL embeds `None`

  /** Both sinks send their text as inline code. */
  function Quoted(s: string): string {
    "`" + s + "`"
  }

  /** The effect of one sink operation: its new state, the requests it issued, whether it echoed an error locally. */
  datatype Step<S> = Step(state: S, sent: seq<Request>, echoed: bool)

  /** `r` is an edit or a deletion of message `id`. */
  predicate Targets(r: Request, id: MessageId) {
    match r
    case CreateMessage(_) => false
    case EditMessage(i, _) => i == id
    case DeleteMessage(i) => i == Some(id)
  }

  /** The number of edit requests in `rs`. */
  function Edits(rs: seq<Request>): (n: nat)
    ensures n <= |rs|
  {
    if rs == [] then 0 else (if rs[0].EditMessage? then 1 else 0) + Edits(rs[1..])
  }

  lemma {:induction false} EditsAppend(a: seq<Request>, b: seq<Request>)
    ensures Edits(a + b) == Edits(a) + Edits(b)
  {
    if a == [] {
      assert a + b == b;
    } else {
      assert (a + b)[1..] == a[1..] + b;
      EditsAppend(a[1..], b);
    }
  }
}
