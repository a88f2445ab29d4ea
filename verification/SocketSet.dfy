/** `SocketSet`: the raw descriptors an environment thread owns, closed on removal or at drop. */
module SocketSet {
  import opened Sets

  class SocketSet {
    var sockets: set<int>
    ghost var taken: seq<int>    // history: every descriptor handed over to the set
    var closed: seq<int>         // every descriptor the set has closed, in order

    /** Conservation: what was taken in is still held or has been closed, each descriptor once. */
    ghost predicate Valid()
      reads this
    {
      multiset(taken) == multiset(sockets) + multiset(closed)
    }

    constructor ()
      ensures Valid() && sockets == {} && taken == [] && closed == []
    {
      sockets, taken, closed := {}, [], [];
    }

    /** A number the set holds already is not taken in again (and would never be closed for it). */
    method Insert(socket: int) returns (inserted: bool)
      requires Valid()
      modifies this
      ensures Valid()
      ensures inserted <==> socket !in old(sockets)
      ensures sockets == old(sockets) + {socket} && closed == old(closed)
      ensures taken == if inserted then old(taken) + [socket] else old(taken)
    {
      inserted := socket !in sockets;
      if inserted {
        assert multiset(sockets + {socket}) == multiset(sockets) + multiset{socket};
        taken := taken + [socket];
      }
      sockets := sockets + {socket};
    }

    /** Closes the descriptor if, and only if, the set holds it. */
    method Remove(socket: int) returns (removed: bool)
      requires Valid()
      modifies this
      ensures Valid()
      ensures removed <==> socket in old(sockets)
      ensures sockets == old(sockets) - {socket} && taken == old(taken)
      ensures closed == if removed then old(closed) + [socket] else old(closed)
    {
      removed := socket in sockets;
      if removed {
        TakeOut(sockets, socket);
        sockets := sockets - {socket};
        closed := closed + [socket];
      }
    }

    static lemma TakeOut(held: set<int>, socket: int)
      requires socket in held
      ensures multiset(held) == multiset(held - {socket}) + multiset{socket}
    {
      assert held == (held - {socket}) + {socket};
    }

    /** After the drop every descriptor ever taken in has been closed exactly as often as it was taken in. */
    method Drop()
      requires Valid()
      modifies this
      ensures Valid() && sockets == {} && taken == old(taken)
      ensures multiset(closed) == multiset(taken) && old(closed) <= closed
    {
      while sockets != {}
        invariant Valid() && taken == old(taken) && old(closed) <= closed
        decreases sockets
      {
        var held := sockets;
        EmptyOrHasMember(held);
        var socket: int :| socket in held;
        TakeOut(sockets, socket);
        sockets := sockets - {socket};
        closed := closed + [socket];
      }
    }
  }
}
