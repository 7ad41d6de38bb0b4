/** The messages exchanged with the predictor process and the trace of every
    observable effect the script has on its socket and on the host. */
module Protocol {
  import opened Wrappers
  import opened Settings

  /** A request as unpickled from the peer: the string under 'msg' and the
      number under 'pred', when the dictionary has one. */
  datatype Request = Request(kind: string, pred: Option<real>)

  /** A value of the geometry reply dictionary: a 2-tuple, a 4-tuple, or a
      setting copied verbatim. */
  datatype Field = Pair(first: int, second: int) | Quad(a: int, b: int, c: int, d: int) | Value(v: Setting)

  /** A reply: `send()` with no argument sends the empty acknowledgement; the
      geometry reply is a dictionary. */
  datatype Reply = Ack | Info(fields: map<string, Field>)

  /** One observable effect, in the order the script causes it. */
  datatype Effect =
    | Bind(port: int)
    | Unbind(port: int)
    | Recv(request: Request)
    | Send(reply: Reply)
    | SetEnabled(source: string, on: bool)

  /** The shared log of effects; the socket and the host append to it. */
  class Trace {
    ghost var events: seq<Effect>

    constructor ()
      ensures events == []
    {
      events := [];
    }
  }

  /** The loopback ports bound after the effects `tr`. */
  function BoundPorts(tr: seq<Effect>): set<int>
  {
    if tr == [] then {}
    else
      var rest := BoundPorts(tr[..|tr| - 1]);
      match tr[|tr| - 1]
      case Bind(p) => rest + {p}
      case Unbind(p) => rest - {p}
      case _ => rest
  }

  /** At no point of `tr` (after no prefix of it) are two addresses bound at once. */
  ghost predicate AtMostOneBound(tr: seq<Effect>)
  {
    |BoundPorts(tr)| <= 1 && (tr != [] ==> AtMostOneBound(tr[..|tr| - 1]))
  }

  /** The replies sent in `tr`, in order. */
  function Replies(tr: seq<Effect>): seq<Reply>
  {
    if tr == [] then []
    else
      var rest := Replies(tr[..|tr| - 1]);
      match tr[|tr| - 1]
      case Send(r) => rest + [r]
      case _ => rest
  }

  /** The replies of a concatenation are the replies of its parts. */
  lemma {:induction false} RepliesAppend(a: seq<Effect>, b: seq<Effect>)
    ensures Replies(a + b) == Replies(a) + Replies(b)
    decreases |b|
  {
    if b == [] {
      assert a + b == a;
    } else {
      var b' := b[..|b| - 1];
      assert (a + b)[..|a + b| - 1] == a + b';
      assert b[..|b| - 1] == b';
      RepliesAppend(a, b');
    }
  }
}
