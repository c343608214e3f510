/** The collaborators both relays talk to, reduced to values: what the language model
    answers, what is asked of it, and the effects on the store and the chat. */
module Collaborators {

  datatype Option<+T> = None | Some(value: T)

  /** How a completion stream ends: cleanly (io.EOF) or with a transport or provider error. */
  datatype Ending = EOF | Broken

  /** One completion call as the model client sees it: either the stream could not be
      created at all, or it delivers `chunks` in order and then ends. */
  datatype Reply = CreateError | Opened(chunks: seq<string>, ending: Ending)

  /** What one `Recv` on an open stream yields. */
  datatype Event = Chunk(content: string) | Eof | Err

  /** The `i`-th receive on an open stream: the chunks in order, then its ending forever. */
  function Recv(reply: Reply, i: nat): (e: Event)
    requires reply.Opened?
    ensures e.Chunk? <==> i < |reply.chunks|
    ensures e.Chunk? ==> e.content == reply.chunks[i]
    ensures e.Eof? <==> i >= |reply.chunks| && reply.ending == EOF
  {
    if i < |reply.chunks| then Chunk(reply.chunks[i])
    else if reply.ending == EOF then Eof
    else Err
  }

  /** The call completed without error. */
  predicate Succeeds(reply: Reply)
  {
    reply.Opened? && reply.ending == EOF
  }

  /** Every chunk the call delivered, whether or not it completed. */
  function Chunks(reply: Reply): seq<string>
  {
    if reply.Opened? then reply.chunks else []
  }

  /** A request to the model: a chat message pair or a single completion prompt. */
  datatype Request = Chat(system: string, user: string) | Completion(prompt: string)

  /** An observable effect: a call to the model, a row written to the message store,
      or a message sent to the chat. */
  datatype Effect =
    | Ask(request: Request)
    | Record(tag: string, msg: string, resp: string)
    | Send(text: string)

  /** An incoming chat message. `quotedUser` is the sender's user name as Go's `%q`
      verb renders it; that quoting is not modelled and is taken as given. */
  datatype Message = Message(quotedUser: string, text: string)

  /** The line both relays log and feed to the model for one incoming message. */
  function LogMsg(m: Message): string
  {
    "\n---\nFrom: " + m.quotedUser + "\nMessage: " + m.text + "\n"
  }

  /** A reply containing this marker asks the relay to stay silent. */
  const Sentinel := "++++"

  /** The rows written to the message store, in order. */
  function Recorded(effects: seq<Effect>): seq<Effect>
  {
    if effects == [] then []
    else Recorded(effects[..|effects| - 1]) + (if effects[|effects| - 1].Record? then [effects[|effects| - 1]] else [])
  }

  /** The texts sent to the chat, in order. */
  function Sent(effects: seq<Effect>): seq<string>
  {
    if effects == [] then []
    else Sent(effects[..|effects| - 1]) + (if effects[|effects| - 1].Send? then [effects[|effects| - 1].text] else [])
  }

  /** The rows recorded and the texts sent by two runs of effects, one after the other,
      are those of the first run followed by those of the second. */
  lemma {:induction false} ObservedAppend(a: seq<Effect>, b: seq<Effect>)
    ensures Recorded(a + b) == Recorded(a) + Recorded(b)
    ensures Sent(a + b) == Sent(a) + Sent(b)
    decreases |b|
  {
    if b == [] {
      assert a + b == a;
    } else {
      var b' := b[..|b| - 1];
      assert (a + b)[..|a + b| - 1] == a + b';
      ObservedAppend(a, b');
    }
  }

  /** What a single effect records and sends. */
  lemma ObservedOne(e: Effect)
    ensures Recorded([e]) == (if e.Record? then [e] else [])
    ensures Sent([e]) == (if e.Send? then [e.text] else [])
  {
    assert [e][..0] == [];
  }
}
