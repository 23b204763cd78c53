/** The iOS `Reachability` class of ReachabilityCore: the notifier
    registration and the per-notification verdict, which this class computes
    with reachableOnWWAN fixed to false. */
module ReachabilityCore {
  import opened Flags
  import opened FlagDecoder
  import opened Notifier

  class Reachability {
    /** Never reassigned in this class. */
    const reachableOnWWAN: bool := false

    /** `reachabilitySerialQueue != null`: the field starts null and this
        class never assigns it, so startNotifier hands SetDispatchQueue a null
        queue. */
    const hasSerialQueue: bool := false

    /** `reachabilityObject == this`; the field only ever holds this or null. */
    var registered: bool

    /** Every SetCallback / SetDispatchQueue call issued for this handle. */
    ghost var osLog: seq<OsCall>

    ghost predicate Valid()
      reads this
    {
      InSync(registered, hasSerialQueue, Replay(Detached, osLog))
    }

    constructor ()
      ensures Valid() && !registered && osLog == []
    {
      registered := false;
      osLog := [];
    }

    method StartNotifier(replies: OsReplies) returns (ok: bool)
      requires Valid()
      modifies this
      ensures Valid()
      ensures ok == Start(old(registered), replies, hasSerialQueue).result
      ensures registered == Start(old(registered), replies, hasSerialQueue).registered
      ensures osLog == old(osLog) + Start(old(registered), replies, hasSerialQueue).issued
      ensures Replay(Detached, osLog) == OsView(registered, false)
    {
      if registered {
        // startNotifier may be called repeatedly
        ok := true;
      } else {
        ok := false;
        osLog := osLog + [SetCallback(replies.callbackAccepted)];
        if replies.callbackAccepted {
          osLog := osLog + [SetDispatchQueue(replies.queueAccepted, hasSerialQueue)];
          if replies.queueAccepted {
            registered := true;
            ok := true;
          } else {
            osLog := osLog + [ClearCallback];
          }
        }
        if !ok {
          registered := false;
        }
      }
      assert osLog == old(osLog) + Start(old(registered), replies, hasSerialQueue).issued;
      StartKeepsInSync(old(registered), hasSerialQueue, Detached, old(osLog), replies);
    }

    method StopNotifier()
      requires Valid()
      modifies this
      ensures Valid()
      ensures !registered
      ensures osLog == old(osLog) + Stop(old(registered)).issued
      ensures Replay(Detached, osLog) == Detached
    {
      osLog := osLog + [ClearCallback];
      osLog := osLog + [ClearDispatchQueue];
      registered := false;
      assert osLog == old(osLog) + Stop(old(registered)).issued;
      StopKeepsInSync(old(registered), hasSerialQueue, Detached, old(osLog));
    }

    /** isReachableWithFlags: `connectionUP` is cleared step by step. */
    method IsReachableWithFlags(flags: Mask) returns (connectionUp: bool)
      ensures connectionUp == ReachableVerdict(reachableOnWWAN, flags)
      ensures connectionUp <==> Has(flags, Reachable) && Has(flags, Flags.IsWWAN)
    {
      connectionUp := true;
      if flags & Reachable == 0 {
        connectionUp := false;
      }
      if flags & Flags.IsWWAN == 0 {
        if !reachableOnWWAN {
          connectionUp := false;
        }
      }
    }
  }
}
