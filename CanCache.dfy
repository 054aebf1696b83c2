/**
 * The four-slot receive cache (`CANHandler`): each poll drains the driver's
 * receive queue into slots 0, 1, 2, 3 in arrival order, stamping every
 * stored frame with the time of the poll; lookups go by slot or by the
 * first slot whose frame carries a given identifier, and liveness compares
 * the wrapping 32-bit millisecond clock against a timeout.
 */
module CanCache {
  import opened Bits
  import opened CanMessage

  /** Number of cache slots (`latestFrame[4]`). */
  const SLOTS: nat := 4

  /** Default offline timeout in milliseconds (`recieveTimeout`). */
  const RECEIVE_TIMEOUT: nat := 600

  // ---------------------------------------------------------------------------
  // Specification of a poll
  // ---------------------------------------------------------------------------

  /** How many of n waiting frames one poll stores. */
  function Stored(n: nat): nat
  {
    if n < SLOTS then n else SLOTS
  }

  /**
   * How many of n waiting frames one poll removes from the queue: the queue
   * is read before the slot count is tested, so with five or more waiting
   * the fifth is taken and dropped.
   */
  function Drained(n: nat): nat
  {
    if n <= SLOTS then n else SLOTS + 1
  }

  /** The slots after a poll: the first frames of the queue from slot 0 on, the other slots as they were. */
  function Poll(slots: seq<Frame>, pending: seq<Frame>): (r: seq<Frame>)
    requires |slots| == SLOTS
    ensures |r| == SLOTS
  {
    var k := Stored(|pending|);
    pending[..k] + slots[k..]
  }

  /** The timestamps after a poll that stored frames into the first slots at time `now`. */
  function Restamp(stamps: seq<UInt32>, n: nat, now: UInt32): (r: seq<UInt32>)
    requires |stamps| == SLOTS
    ensures |r| == SLOTS
  {
    var k := Stored(n);
    seq(k, _ => now) + stamps[k..]
  }

  // ---------------------------------------------------------------------------
  // Specification of the lookups
  // ---------------------------------------------------------------------------

  /** The frame in the lowest slot whose identifier is `id`, or the zeroed frame when there is none. */
  function FirstMatch(slots: seq<Frame>, id: UInt32): (f: Frame)
    ensures f == Empty() || (f in slots && f.id == id)
  {
    if slots == [] then Empty()
    else if slots[0].id == id then slots[0]
    else FirstMatch(slots[1..], id)
  }

  /** The clock reading d milliseconds after `since` on the wrapping 32-bit millisecond counter. */
  function ClockAfter(since: UInt32, d: nat): UInt32
  {
    (since + d) % WORD32
  }

  /** `now` is a reading of the wrapping clock at most `timeout` milliseconds after `since`. */
  ghost predicate HeardWithin(since: UInt32, now: UInt32, timeout: nat)
  {
    exists d: nat :: d <= timeout && ClockAfter(since, d) == now
  }

  // ---------------------------------------------------------------------------
  // The cache
  // ---------------------------------------------------------------------------

  class CanHandler {
    /** The cached frames, slot by slot. */
    const latestFrame: array<Frame>
    /** The time each slot was last written (`lastRecievedTime`). */
    const lastReceivedTime: array<UInt32>

    predicate Valid()
      reads this
    {
      latestFrame.Length == SLOTS && lastReceivedTime.Length == SLOTS
    }

    /** `CANHandler() = default`: zeroed frames, every timestamp 0. */
    constructor ()
      ensures Valid() && fresh(latestFrame) && fresh(lastReceivedTime)
      ensures latestFrame[..] == seq(SLOTS, _ => Empty())
      ensures lastReceivedTime[..] == seq(SLOTS, _ => 0)
    {
      latestFrame := new Frame[SLOTS](_ => Empty());
      lastReceivedTime := new UInt32[SLOTS](_ => 0);
    }

    /**
     * `update()`: drains the receive queue `pending` at time `now` and
     * returns what is left of it. The driver's `receive` is the removal of
     * the queue's head; a failed `receive` is the empty queue.
     */
    method Update(pending: seq<Frame>, now: UInt32) returns (rest: seq<Frame>)
      requires Valid()
      modifies latestFrame, lastReceivedTime
      ensures latestFrame[..] == Poll(old(latestFrame[..]), pending)
      ensures lastReceivedTime[..] == Restamp(old(lastReceivedTime[..]), |pending|, now)
      ensures rest == pending[Drained(|pending|)..]
      ensures pending == [] ==> latestFrame[..] == old(latestFrame[..]) && lastReceivedTime[..] == old(lastReceivedTime[..])
    {
      var queue := pending;
      var count := 0;
      while true
        invariant 0 <= count <= SLOTS && count <= |pending|
        invariant queue == pending[count..]
        invariant forall j :: 0 <= j < count ==> latestFrame[j] == pending[j] && lastReceivedTime[j] == now
        invariant forall j :: count <= j < SLOTS ==>
                    latestFrame[j] == old(latestFrame[j]) && lastReceivedTime[j] == old(lastReceivedTime[j])
        decreases |queue|
      {
        if queue == [] {
          break;
        }
        var message := queue[0];
        queue := queue[1..];
        if count >= SLOTS {
          break;
        }
        latestFrame[count] := message;
        lastReceivedTime[count] := now;
        count := count + 1;
      }
      assert count == Stored(|pending|);
      rest := queue;
    }

    /** `getIsOnline(id)`: slot id - 1 was written at most 600 ms before `now`. */
    function GetIsOnline(id: Byte, now: UInt32): (online: bool)
      reads this, lastReceivedTime
      requires Valid() && 1 <= id <= SLOTS
      ensures online <==> HeardWithin(lastReceivedTime[id - 1], now, RECEIVE_TIMEOUT)
    {
      ElapsedWithin(lastReceivedTime[id - 1], now, RECEIVE_TIMEOUT);
      Elapsed(now, lastReceivedTime[id - 1]) <= RECEIVE_TIMEOUT
    }

    /** `getLatestFrame(id)`: the frame in slot id - 1. */
    function GetLatestFrame(id: Byte): (f: Frame)
      reads this, latestFrame
      requires Valid() && 1 <= id <= SLOTS
      ensures f == latestFrame[..][id - 1] && f in latestFrame[..]
    {
      latestFrame[id - 1]
    }

    /** `getLatestMessage(targetId)`: scans the slots in order and returns the first frame with that identifier. */
    method GetLatestMessage(targetId: UInt32) returns (msg: Frame)
      requires Valid()
      ensures msg == FirstMatch(latestFrame[..], targetId)
    {
      for i := 0 to SLOTS
        invariant forall j :: 0 <= j < i ==> latestFrame[j].id != targetId
      {
        if latestFrame[i].id == targetId {
          FirstMatchIsLowest(latestFrame[..], targetId, i);
          return latestFrame[i];
        }
      }
      FirstMatchNone(latestFrame[..], targetId);
      return Empty();
    }

    /** `isMessageOnline(targetId, timeout)`: some slot, not only the first, holds that identifier and was written within the timeout. */
    method IsMessageOnline(targetId: UInt32, timeout: UInt32, now: UInt32) returns (online: bool)
      requires Valid()
      ensures online <==> exists i :: 0 <= i < SLOTS && latestFrame[i].id == targetId
                                      && HeardWithin(lastReceivedTime[i], now, timeout)
    {
      for i := 0 to SLOTS
        invariant forall j :: 0 <= j < i ==>
                    !(latestFrame[j].id == targetId && HeardWithin(lastReceivedTime[j], now, timeout))
      {
        ElapsedWithin(lastReceivedTime[i], now, timeout);
        if latestFrame[i].id == targetId && Elapsed(now, lastReceivedTime[i]) <= timeout {
          return true;
        }
      }
      return false;
    }
  }

  // ---------------------------------------------------------------------------
  // Lemmas
  // ---------------------------------------------------------------------------

  /** The wrapping subtraction `now - since` is at most `timeout` exactly when `now` lies within `timeout` ms after `since`. */
  lemma ElapsedWithin(since: UInt32, now: UInt32, timeout: nat)
    ensures Elapsed(now, since) <= timeout <==> HeardWithin(since, now, timeout)
  {
    var e := Elapsed(now, since);
    if e <= timeout {
      assert ClockAfter(since, e) == now;
    }
    if HeardWithin(since, now, timeout) {
      var d: nat :| d <= timeout && ClockAfter(since, d) == now;
      if d < WORD32 {
        ElapsedAfter(since, d);
      }
    }
  }

  /** Reading the clock d < 2^32 ms after `since` and subtracting `since` gives back d. */
  lemma ElapsedAfter(since: UInt32, d: nat)
    requires d < WORD32
    ensures Elapsed(ClockAfter(since, d), since) == d
  {
    if since + d < WORD32 {
      DivModUnique(since + d, WORD32, 0, since + d);
      DivModUnique(d, WORD32, 0, d);
    } else {
      DivModUnique(since + d, WORD32, 1, since + d - WORD32);
      DivModUnique(d - WORD32, WORD32, -1, d);
    }
  }

  /** The timeout is inclusive: a slot is online exactly `timeout` ms after its stamp and offline one ms later. */
  lemma OnlineBoundary(since: UInt32, timeout: UInt32)
    requires timeout + 1 < WORD32
    ensures HeardWithin(since, ClockAfter(since, timeout), timeout)
    ensures !HeardWithin(since, ClockAfter(since, timeout + 1), timeout)
  {
    ElapsedAfter(since, timeout);
    ElapsedWithin(since, ClockAfter(since, timeout), timeout);
    ElapsedAfter(since, timeout + 1);
    ElapsedWithin(since, ClockAfter(since, timeout + 1), timeout);
  }

  /** Before any frame arrives every slot is stamped 0, so every device reads as online until 600 ms and offline after. */
  lemma FreshCacheOnline(h: CanHandler, now: UInt32)
    requires h.Valid() && h.lastReceivedTime[..] == seq(SLOTS, _ => 0)
    ensures forall id: Byte :: 1 <= id <= SLOTS ==> (h.GetIsOnline(id, now) <==> now <= RECEIVE_TIMEOUT)
  {
    forall id: Byte | 1 <= id <= SLOTS
      ensures h.GetIsOnline(id, now) <==> now <= RECEIVE_TIMEOUT
    {
      assert h.lastReceivedTime[id - 1] == 0;
      ElapsedWithin(0, now, RECEIVE_TIMEOUT);
    }
  }

  /** `FirstMatch` picks the lowest slot carrying the identifier. */
  lemma {:induction false} FirstMatchIsLowest(slots: seq<Frame>, id: UInt32, i: nat)
    requires i < |slots| && slots[i].id == id
    requires forall j :: 0 <= j < i ==> slots[j].id != id
    ensures FirstMatch(slots, id) == slots[i]
  {
    if i > 0 {
      FirstMatchIsLowest(slots[1..], id, i - 1);
    }
  }

  /** With no slot carrying the identifier, `FirstMatch` is the zeroed frame. */
  lemma {:induction false} FirstMatchNone(slots: seq<Frame>, id: UInt32)
    requires forall j :: 0 <= j < |slots| ==> slots[j].id != id
    ensures FirstMatch(slots, id) == Empty()
  {
    if slots != [] {
      FirstMatchNone(slots[1..], id);
    }
  }

  /**
   * Slot k holds the k-th frame of the latest poll that stored more than k
   * frames, whatever its identifier; the slot index is arrival order and
   * not a device number.
   */
  lemma SlotHoldsArrival(slots: seq<Frame>, pending: seq<Frame>, k: nat)
    requires |slots| == SLOTS && k < SLOTS
    ensures Poll(slots, pending)[k] == (if k < |pending| then pending[k] else slots[k])
  {
  }

  /** A poll that stores at least as many frames as an earlier one hides that earlier poll completely. */
  lemma LaterPollHides(slots: seq<Frame>, first: seq<Frame>, second: seq<Frame>)
    requires |slots| == SLOTS && Stored(|first|) <= Stored(|second|)
    ensures Poll(Poll(slots, first), second) == Poll(slots, second)
  {
  }

  /**
   * The cache does not hold the last four arrivals: after a poll of four
   * frames and a poll of one more, slot 0 holds the newest frame and slots
   * 1-3 hold the second to fourth frames, while the first frame is lost.
   */
  lemma NotTheLastFour(slots: seq<Frame>, a: Frame, b: Frame, c: Frame, d: Frame, e: Frame)
    requires |slots| == SLOTS
    ensures Poll(Poll(slots, [a, b, c, d]), [e]) == [e, b, c, d]
  {
  }

  /** Of five or more waiting frames, one poll stores the first four and discards the fifth. */
  lemma FifthFrameDropped(slots: seq<Frame>, pending: seq<Frame>)
    requires |slots| == SLOTS && |pending| >= 5
    ensures Poll(slots, pending) == pending[..4]
    ensures pending[Drained(|pending|)..] == pending[5..]
  {
  }
}
