/** A record of effects in the order in which they happen. */
module Journals {

  class Journal<E> {
    var log: seq<E>

    constructor ()
      ensures log == []
    {
      log := [];
    }

    method Note(e: E)
      modifies this
      ensures log == old(log) + [e]
    {
      log := log + [e];
    }
  }
}
