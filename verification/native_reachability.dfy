/** The `NativeReachability` class of the reachability module: the same
    registration protocol as ReachabilityCore, consumer-settable
    reachable/unreachable handlers, and one change notification per flag
    change. Handler bodies and the notification centre are outside the
    model; a ghost counter records each handler invocation and each posted
    notification. */
module NativeReachability {
  import opened Flags
  import opened FlagDecoder
  import opened Notifier

  class NativeReachability {
    /** The private constructor's parameter; both factories pass true (one
        by the default value). */
    const reachableOnWWAN: bool

    /** `reachabilitySerialQueue != null`: init creates the serial queue. */
    const hasSerialQueue: bool := true

    /** `reachabilityObject == this`; the field only ever holds this or null. */
    var registered: bool

    /** `reachableBlock != null` and `unreachableBlock != null`. */
    var hasReachableBlock: bool
    var hasUnreachableBlock: bool

    /** Every SetCallback / SetDispatchQueue call issued for this handle. */
    ghost var osLog: seq<OsCall>

    /** How often each handler ran, and how many change notifications were
        posted. */
    ghost var reachableRuns: nat
    ghost var unreachableRuns: nat
    ghost var notificationsPosted: nat

    ghost predicate Valid()
      reads this
    {
      InSync(registered, hasSerialQueue, Replay(Detached, osLog))
    }

    constructor (reachableOnWWAN: bool)
      ensures Valid()
      ensures this.reachableOnWWAN == reachableOnWWAN
      ensures !registered && osLog == []
      ensures !hasReachableBlock && !hasUnreachableBlock
      ensures reachableRuns == 0 && unreachableRuns == 0 && notificationsPosted == 0
    {
      this.reachableOnWWAN := reachableOnWWAN;
      registered := false;
      hasReachableBlock, hasUnreachableBlock := false, false;
      osLog := [];
      reachableRuns, unreachableRuns, notificationsPosted := 0, 0, 0;
    }

    method StartNotifier(replies: OsReplies) returns (ok: bool)
      requires Valid()
      modifies this`registered, this`osLog
      ensures Valid()
      ensures ok == Start(old(registered), replies, hasSerialQueue).result
      ensures registered == Start(old(registered), replies, hasSerialQueue).registered
      ensures osLog == old(osLog) + Start(old(registered), replies, hasSerialQueue).issued
      ensures Replay(Detached, osLog) == OsView(registered, registered)
    {
      if registered {
        // startNotifier may be called repeatedly
        ok := true;
      } else {
        ok := false;
        osLog := osLog + [SetCallback(replies.callbackAccepted)];
        if replies.callbackAccepted {
          osLog := osLog + [SetDispatchQueue(replies.queueAccepted, hasSerialQueue)];
          if replies.queueAccepted {
            registered := true;
            ok := true;
          } else {
            osLog := osLog + [ClearCallback];
          }
        }
        if !ok {
          registered := false;
        }
      }
      assert osLog == old(osLog) + Start(old(registered), replies, hasSerialQueue).issued;
      StartKeepsInSync(old(registered), hasSerialQueue, Detached, old(osLog), replies);
    }

    method StopNotifier()
      requires Valid()
      modifies this`registered, this`osLog
      ensures Valid()
      ensures !registered
      ensures osLog == old(osLog) + Stop(old(registered)).issued
      ensures Replay(Detached, osLog) == Detached
    {
      osLog := osLog + [ClearCallback];
      osLog := osLog + [ClearDispatchQueue];
      registered := false;
      assert osLog == old(osLog) + Stop(old(registered)).issued;
      StopKeepsInSync(old(registered), hasSerialQueue, Detached, old(osLog));
    }

    /** isReachableWithFlags: `connectionUP` is cleared step by step. */
    method IsReachableWithFlags(flags: Mask) returns (connectionUp: bool)
      ensures connectionUp == ReachableVerdict(reachableOnWWAN, flags)
      ensures reachableOnWWAN ==> (connectionUp <==> Has(flags, Reachable))
      ensures reachableOnWWAN ==> connectionUp == IntendedReachableVerdict(reachableOnWWAN, flags)
    {
      connectionUp := true;
      if flags & Reachable == 0 {
        connectionUp := false;
      }
      if flags & Flags.IsWWAN == 0 {
        if !reachableOnWWAN {
          connectionUp := false;
        }
      }
    }

    /** reachabilityChanged: runs the reachable handler when the verdict is
        reachable and the unreachable handler otherwise (each only if set),
        then posts one change notification. */
    method ReachabilityChanged(flags: Mask)
      modifies this`reachableRuns, this`unreachableRuns, this`notificationsPosted
      ensures reachableRuns == old(reachableRuns) +
                (if ReachableVerdict(reachableOnWWAN, flags) && hasReachableBlock then 1 else 0)
      ensures unreachableRuns == old(unreachableRuns) +
                (if !ReachableVerdict(reachableOnWWAN, flags) && hasUnreachableBlock then 1 else 0)
      ensures reachableRuns == old(reachableRuns) || unreachableRuns == old(unreachableRuns)
      ensures hasReachableBlock && hasUnreachableBlock ==>
                (reachableRuns - old(reachableRuns)) + (unreachableRuns - old(unreachableRuns)) == 1
      ensures notificationsPosted == old(notificationsPosted) + 1
    {
      var up := IsReachableWithFlags(flags);
      if up {
        if hasReachableBlock {
          reachableRuns := reachableRuns + 1;
        }
      } else {
        if hasUnreachableBlock {
          unreachableRuns := unreachableRuns + 1;
        }
      }
      notificationsPosted := notificationsPosted + 1;
    }
  }
}
