/**
 * The list store the relay writes work-orders to: named FIFO lists, each
 * appended to at its tail by RPush. A list that was never written is empty.
 */
module Queues {
  import opened Wrappers

  type Lists<T> = map<string, seq<T>>

  /** The list stored under `name`; a missing key reads as an empty list. */
  function Contents<T>(lists: Lists<T>, name: string): seq<T>
  {
    if name in lists then lists[name] else []
  }

  /** One append at the tail of one list; every other list is left alone. */
  function Append<T>(lists: Lists<T>, name: string, x: T): (r: Lists<T>)
    ensures Contents(r, name) == Contents(lists, name) + [x]
    ensures forall other :: other != name ==> Contents(r, other) == Contents(lists, other)
    ensures r.Keys == lists.Keys + {name}
    ensures forall other :: other in lists && other != name ==> r[other] == lists[other]
  {
    lists[name := Contents(lists, name) + [x]]
  }

  /** The store as the relay sees it: the lists it holds. */
  class Store<T> {
    var lists: Lists<T>

    constructor ()
      ensures lists == map[]
    {
      lists := map[];
    }

    /** RPush of one element. `fault` is the store's answer to this one
        command: None when it accepts the write, the error text otherwise.
        An accepted write goes at the tail of `name`; a refused one changes
        nothing. */
    method RPush(name: string, x: T, fault: Option<string>) returns (err: Option<string>)
      modifies this
      ensures err == fault
      ensures lists == if fault.None? then Append(old(lists), name, x) else old(lists)
    {
      err := fault;
      if fault.None? {
        lists := Append(lists, name, x);
      }
    }
  }
}
