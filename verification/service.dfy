/** The service facade: the cached head-state snapshot, the rule by which each
    consumed event updates it, and the `Service` object that pops events from
    its channel and exposes the snapshot through read accessors. */
module Service {
  import opened Events

  /** A block as the snapshot remembers it: its number and its hash bytes. */
  datatype Head = Head(number: U64, hash: Bytes32)

  /** The five values the service caches. */
  datatype Snapshot = Snapshot(connections: U64, best: Head, finalized: Head)

  /** The two heads of the snapshot, and the event kind that reports each. */
  datatype HeadKind = Best | Finalized

  function HeadOf(s: Snapshot, k: HeadKind): Head {
    match k
    case Best => s.best
    case Finalized => s.finalized
  }

  predicate Reports(e: Event, k: HeadKind) {
    match k
    case Best => e.NewChainHead?
    case Finalized => e.NewFinalized?
  }

  /** The block an event that reports a head names. */
  function Reported(e: Event): Head
    requires e.NewChainHead? || e.NewFinalized?
  {
    Head(e.number, e.hash.Into())
  }

  /** The update that consuming one event applies to the snapshot, given the
      value of the shared connection counter read at that moment. */
  function Step(s: Snapshot, e: Event, connections: U64): (r: Snapshot)
    ensures r.connections == connections
    ensures e.NewChainHead? ==> r.best == Head(e.number, e.hash.Into()) && r.finalized == s.finalized
    ensures e.NewFinalized? ==> r.finalized == Head(e.number, e.hash.Into()) && r.best == s.best
    ensures e.BlockAnnounceReceived? || e.NewNetworkExternalAddress? ==>
              r.best == s.best && r.finalized == s.finalized
  {
    var refreshed := s.(connections := connections);
    match e
    case NewChainHead(number, hash, _) => refreshed.(best := Head(number, hash.Into()))
    case NewFinalized(number, hash) => refreshed.(finalized := Head(number, hash.Into()))
    case BlockAnnounceReceived(_, _) => refreshed
    case NewNetworkExternalAddress(_) => refreshed
  }

  /** The snapshot after consuming `es` in order from `s`, the i-th event with
      the counter reading `readings[i]`: a left fold of `Step`. */
  function Fold(s: Snapshot, es: seq<Event>, readings: seq<U64>): Snapshot
    requires |readings| == |es|
    decreases |es|
  {
    if es == [] then s else Fold(Step(s, es[0], readings[0]), es[1..], readings[1..])
  }

  /** Reference definition: the block named by the latest event of `es` that
      reports head `k`, if there is one. */
  function LastReported(es: seq<Event>, k: HeadKind): (r: Option<Head>)
    ensures r.None? <==> forall i :: 0 <= i < |es| ==> !Reports(es[i], k)
    ensures r.Some? ==>
              exists i :: 0 <= i < |es| && Reports(es[i], k) && r.value == Reported(es[i]) &&
                forall j :: i < j < |es| ==> !Reports(es[j], k)
  {
    if es == [] then None
    else
      var last := es[|es| - 1];
      if Reports(last, k) then Some(Reported(last))
      else
        var r := LastReported(es[..|es| - 1], k);
        assert forall i :: 0 <= i < |es| - 1 ==> es[..|es| - 1][i] == es[i];
        r
  }

  /** The event with its chain-head classification erased. */
  function Unclassified(e: Event): Event {
    match e
    case NewChainHead(number, hash, _) => NewChainHead(number, hash, NoUpdate)
    case _ => e
  }

  /** Consuming events one after the other is folding their concatenation. */
  lemma {:induction false} FoldAppend(s: Snapshot, a: seq<Event>, ra: seq<U64>, b: seq<Event>, rb: seq<U64>)
    requires |ra| == |a| && |rb| == |b|
    ensures Fold(s, a + b, ra + rb) == Fold(Fold(s, a, ra), b, rb)
    decreases |a|
  {
    if a == [] {
      assert a + b == b && ra + rb == rb;
    } else {
      assert (a + b)[1..] == a[1..] + b;
      assert (ra + rb)[1..] == ra[1..] + rb;
      FoldAppend(Step(s, a[0], ra[0]), a[1..], ra[1..], b, rb);
    }
  }

  /** Each cached head is the one named by the latest event of its kind, or the
      initial head when no such event was consumed: other events never touch it. */
  lemma {:induction false} FoldHead(s: Snapshot, es: seq<Event>, readings: seq<U64>, k: HeadKind)
    requires |readings| == |es|
    ensures HeadOf(Fold(s, es, readings), k) == LastReported(es, k).GetOr(HeadOf(s, k))
    decreases |es|
  {
    if es != [] {
      var n := |es| - 1;
      assert es == es[..n] + [es[n]];
      assert readings == readings[..n] + [readings[n]];
      FoldAppend(s, es[..n], readings[..n], [es[n]], [readings[n]]);
      FoldHead(s, es[..n], readings[..n], k);
    }
  }

  /** The cached connection count is the counter value read at the latest
      consumption, or the initial one when nothing was consumed. */
  lemma {:induction false} FoldConnections(s: Snapshot, es: seq<Event>, readings: seq<U64>)
    requires |readings| == |es|
    ensures Fold(s, es, readings).connections ==
              if readings == [] then s.connections else readings[|readings| - 1]
    decreases |es|
  {
    if es != [] {
      FoldConnections(Step(s, es[0], readings[0]), es[1..], readings[1..]);
    }
  }

  /** The chain-head classification never gates an update: two event
      sequences that differ only in it lead to the same snapshot. */
  lemma {:induction false} FoldIgnoresHeadUpdate(s: Snapshot, es: seq<Event>, es': seq<Event>, readings: seq<U64>)
    requires |es| == |es'| == |readings|
    requires forall i :: 0 <= i < |es| ==> Unclassified(es[i]) == Unclassified(es'[i])
    ensures Fold(s, es, readings) == Fold(s, es', readings)
    decreases |es|
  {
    if es != [] {
      assert Unclassified(es[0]) == Unclassified(es'[0]);
      assert Step(s, es[0], readings[0]) == Step(s, es'[0], readings[0]);
      FoldIgnoresHeadUpdate(Step(s, es[0], readings[0]), es[1..], es'[1..], readings[1..]);
    }
  }

  /** The service. The event channel is represented by the part of its
      arrival-ordered stream not yet consumed; the snapshot fields change only
      in `NextEvent`. */
  class Service {
    var eventsIn: seq<Event>
    var numNetworkConnections: U64
    var bestBlockNumber: U64
    var bestBlockHash: Bytes32
    var finalizedBlockNumber: U64
    var finalizedBlockHash: Bytes32

    /** The snapshot the service was built with. */
    ghost const initial: Snapshot
    /** Every event the channel delivers, in arrival order. */
    ghost const stream: seq<Event>
    /** The events consumed so far and the counter read at each consumption. */
    ghost var consumed: seq<Event>
    ghost var readings: seq<U64>

    function Current(): Snapshot
      reads this
    {
      Snapshot(numNetworkConnections,
               Head(bestBlockNumber, bestBlockHash),
               Head(finalizedBlockNumber, finalizedBlockHash))
    }

    /** No event is lost, duplicated or reordered, and the cached snapshot is
        the fold of the consumed events over the initial one. */
    ghost predicate Valid()
      reads this
    {
      consumed + eventsIn == stream &&
      |readings| == |consumed| &&
      Current() == Fold(initial, consumed, readings)
    }

    constructor (init: Snapshot, events: seq<Event>)
      ensures Valid()
      ensures initial == init && stream == events
      ensures Current() == init && eventsIn == events && consumed == [] && readings == []
    {
      eventsIn := events;
      numNetworkConnections := init.connections;
      bestBlockNumber, bestBlockHash := init.best.number, init.best.hash;
      finalizedBlockNumber, finalizedBlockHash := init.finalized.number, init.finalized.hash;
      initial, stream := init, events;
      consumed, readings := [], [];
    }

    /** Pops the next event, refreshes the connection count from the counter
        value `connections`, updates the head the event reports and returns the
        event unchanged. A closed channel is fatal. */
    method NextEvent(connections: U64) returns (r: Result<Event>)
      requires Valid()
      modifies this
      ensures Valid()
      ensures old(eventsIn) == [] ==>
                r == Failure(BackgroundTasksTerminated) && unchanged(this)
      ensures old(eventsIn) != [] ==>
                r == Success(old(eventsIn)[0]) &&
                eventsIn == old(eventsIn)[1..] &&
                consumed == old(consumed) + [r.value] &&
                readings == old(readings) + [connections] &&
                Current() == Step(old(Current()), r.value, connections)
    {
      if eventsIn == [] {
        return Failure(BackgroundTasksTerminated);
      }
      var event := eventsIn[0];
      eventsIn := eventsIn[1..];

      numNetworkConnections := connections;

      match event {
        case NewChainHead(number, hash, _) =>
          bestBlockNumber := number;
          bestBlockHash := hash.Into();
        case NewFinalized(number, hash) =>
          finalizedBlockNumber := number;
          finalizedBlockHash := hash.Into();
        case BlockAnnounceReceived(_, _) =>
        case NewNetworkExternalAddress(_) =>
      }

      FoldAppend(initial, consumed, readings, [event], [connections]);
      consumed := consumed + [event];
      readings := readings + [connections];
      r := Success(event);
    }

    /** Connection count as of the latest consumed event. */
    function NumNetworkConnections(): (n: U64)
      reads this
      requires Valid()
      ensures n == if readings == [] then initial.connections else readings[|readings| - 1]
    {
      FoldConnections(initial, consumed, readings);
      numNetworkConnections
    }

    /** Number of the block named by the latest consumed `NewChainHead`. */
    function BestBlockNumber(): (n: U64)
      reads this
      requires Valid()
      ensures n == LastReported(consumed, Best).GetOr(initial.best).number
    {
      FoldHead(initial, consumed, readings, Best);
      bestBlockNumber
    }

    /** Hash of the block named by the latest consumed `NewChainHead`. */
    function BestBlockHash(): (h: Bytes32)
      reads this
      requires Valid()
      ensures h == LastReported(consumed, Best).GetOr(initial.best).hash
    {
      FoldHead(initial, consumed, readings, Best);
      bestBlockHash
    }

    /** Number of the block named by the latest consumed `NewFinalized`. */
    function FinalizedBlockNumber(): (n: U64)
      reads this
      requires Valid()
      ensures n == LastReported(consumed, Finalized).GetOr(initial.finalized).number
    {
      FoldHead(initial, consumed, readings, Finalized);
      finalizedBlockNumber
    }

    /** Hash of the block named by the latest consumed `NewFinalized`. */
    function FinalizedBlockHash(): (h: Bytes32)
      reads this
      requires Valid()
      ensures h == LastReported(consumed, Finalized).GetOr(initial.finalized).hash
    {
      FoldHead(initial, consumed, readings, Finalized);
      finalizedBlockHash
    }
  }
}
