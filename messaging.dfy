/** The message bus, reduced to the log of what has been published on it, in order. */
module Messaging {

  datatype Message<P> = Message(subject: string, payload: P)

  class Bus<P> {
    var published: seq<Message<P>>

    constructor ()
      ensures published == []
    {
      published := [];
    }

    /** Fire-and-forget publish (and the request half of a request/reply exchange). */
    method Publish(m: Message<P>)
      modifies this
      ensures published == old(published) + [m]
    {
      published := published + [m];
    }
  }
}
