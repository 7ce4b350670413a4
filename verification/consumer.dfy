/**
 * The queue-consumer loop of main, seen as a drain of the messages the
 * source list delivers, in the order it delivers them. A message that fails
 * is reported and skipped; the loop goes on with the next one.
 */
module Consumer {
  import opened Wrappers
  import opened Config
  import opened Directives
  import opened Queues
  import opened Dispatch

  /** What processing each message of `msgs` writes, message by message;
      `faults[i]` is the store's answer to message `i`'s RPush. */
  function Writes(faults: seq<Option<string>>, reg: Registry, defaultQueue: string, msgs: seq<Decoded>)
    : seq<Option<WorkOrder>>
    requires |faults| == |msgs|
  {
    seq(|msgs|, i requires 0 <= i < |msgs| => Written(faults[i], reg, defaultQueue, msgs[i]))
  }

  /** The store's lists after performing `writes` one after the other. */
  function Drained(lists: Lists<Notification>, writes: seq<Option<WorkOrder>>): Lists<Notification>
  {
    if writes == [] then lists
    else Perform(Drained(lists, writes[..|writes| - 1]), writes[|writes| - 1])
  }

  /** The work-order one write puts on queue `q`, if any. */
  function ForwardedBy(write: Option<WorkOrder>, q: string): seq<Notification>
  {
    if write.Some? && write.value.queue == q then [write.value.notification] else []
  }

  /** The work-orders `writes` put on queue `q`, in order. */
  function Forwarded(writes: seq<Option<WorkOrder>>, q: string): seq<Notification>
  {
    if writes == [] then [] else ForwardedBy(writes[0], q) + Forwarded(writes[1..], q)
  }

  /** One write appends to `q` exactly what it forwards there. */
  lemma PerformAppends(lists: Lists<Notification>, write: Option<WorkOrder>, q: string)
    ensures Contents(Perform(lists, write), q) == Contents(lists, q) + ForwardedBy(write, q)
  {
  }

  /** The last write of a run comes last in what the run forwards. */
  lemma ForwardedSnoc(writes: seq<Option<WorkOrder>>, q: string)
    requires writes != []
    ensures Forwarded(writes, q)
            == Forwarded(writes[..|writes| - 1], q) + ForwardedBy(writes[|writes| - 1], q)
  {
    var init, last := writes[..|writes| - 1], writes[|writes| - 1];
    assert writes == init + [last];
    ForwardedConcat(init, [last], q);
    assert [last][1..] == [];
    assert Forwarded([last], q) == ForwardedBy(last, q) + Forwarded([], q);
  }

  /** Draining appends to each queue exactly the work-orders written to it,
      in the order their messages arrived, after what it already held. */
  lemma {:induction false} DrainedAppendsForwarded(lists: Lists<Notification>, writes: seq<Option<WorkOrder>>,
                                                   q: string)
    ensures Contents(Drained(lists, writes), q) == Contents(lists, q) + Forwarded(writes, q)
  {
    if writes != [] {
      var init, last := writes[..|writes| - 1], writes[|writes| - 1];
      DrainedAppendsForwarded(lists, init, q);
      PerformAppends(Drained(lists, init), last, q);
      ForwardedSnoc(writes, q);
    }
  }

  /** Forwarding is compositional: a longer run forwards what its first part
      forwards, followed by what its second part forwards. */
  lemma {:induction false} ForwardedConcat(a: seq<Option<WorkOrder>>, b: seq<Option<WorkOrder>>, q: string)
    ensures Forwarded(a + b, q) == Forwarded(a, q) + Forwarded(b, q)
  {
    if a == [] {
      assert a + b == b;
    } else {
      assert (a + b)[0] == a[0];
      assert (a + b)[1..] == a[1..] + b;
      ForwardedConcat(a[1..], b, q);
    }
  }

  /** A run in which nothing is written forwards nothing. */
  lemma {:induction false} NothingWrittenNothingForwarded(writes: seq<Option<WorkOrder>>, q: string)
    requires forall i :: 0 <= i < |writes| ==> writes[i].None?
    ensures Forwarded(writes, q) == []
  {
    if writes != [] {
      NothingWrittenNothingForwarded(writes[1..], q);
    }
  }

  /** While the store refuses every write, no message forwards anything. */
  lemma NothingForwardedDuringOutage(faults: seq<Option<string>>, reg: Registry, defaultQueue: string,
                                     msgs: seq<Decoded>, q: string)
    requires |faults| == |msgs|
    requires forall i :: 0 <= i < |faults| ==> faults[i].Some?
    ensures Forwarded(Writes(faults, reg, defaultQueue, msgs), q) == []
  {
    NothingWrittenNothingForwarded(Writes(faults, reg, defaultQueue, msgs), q);
  }

  /** The loop body applied to each message in turn; `errs[i]` is what
      processing message `i` reported, whatever came before it. A refused
      write skips only its own message. */
  method Consume(store: Store<Notification>, reg: Registry, defaultQueue: string, msgs: seq<Decoded>,
                 faults: seq<Option<string>>)
    returns (errs: seq<Option<Error>>)
    requires |faults| == |msgs|
    modifies store
    ensures store.lists == Drained(old(store.lists), Writes(faults, reg, defaultQueue, msgs))
    ensures |errs| == |msgs|
    ensures forall i :: 0 <= i < |msgs| ==> errs[i] == Outcome(faults[i], reg, defaultQueue, msgs[i])
  {
    ghost var writes := Writes(faults, reg, defaultQueue, msgs);
    errs := [];
    var i := 0;
    while i < |msgs|
      invariant 0 <= i <= |msgs|
      invariant store.lists == Drained(old(store.lists), writes[..i])
      invariant |errs| == i
      invariant forall k :: 0 <= k < i ==> errs[k] == Outcome(faults[k], reg, defaultQueue, msgs[k])
    {
      assert writes[..i + 1][..i] == writes[..i];
      var err := ProcessMessage(store, reg, defaultQueue, msgs[i], faults[i]);
      errs := errs + [err];
      i := i + 1;
    }
    assert writes[..i] == writes;
  }
}
