/** The registration protocol shared by both iOS classes' startNotifier and
    stopNotifier. The OS primitives are inputs: what SetCallback and
    SetDispatchQueue answer is an OsReplies record, and what they did is
    recorded as a log of OsCall values whose effect on the OS side is
    replayed into an OsView. */
module Notifier {

  /** One call into SystemConfiguration issued by the notifier. The two
      registering calls carry the OS's answer, and SetDispatchQueue also
      whether the queue it passes is non-null; the two unregistering calls
      (with null arguments) are issued without looking at the answer. */
  datatype OsCall =
    | SetCallback(accepted: bool)
    | ClearCallback
    | SetDispatchQueue(accepted: bool, withQueue: bool)
    | ClearDispatchQueue

  /** What the OS answers to SCNetworkReachabilitySetCallback and to
      SCNetworkReachabilitySetDispatchQueue during one startNotifier. */
  datatype OsReplies = OsReplies(callbackAccepted: bool, queueAccepted: bool)

  /** The OS side of one reachability handle: is a flag-change callback
      installed, is a delivery queue bound. */
  datatype OsView = OsView(callback: bool, queue: bool)

  /** A freshly created handle has neither. */
  const Detached := OsView(false, false)

  /** A call the OS refused changes nothing; an unregistering call takes
      effect; an accepted SetDispatchQueue binds a queue only when the queue
      it passes is non-null (a null queue unbinds). */
  function Apply(v: OsView, c: OsCall): (w: OsView)
    ensures c.SetCallback? || c.ClearCallback? ==> w.queue == v.queue
    ensures c.SetDispatchQueue? || c.ClearDispatchQueue? ==> w.callback == v.callback
    ensures c.ClearCallback? ==> !w.callback
    ensures c.ClearDispatchQueue? ==> !w.queue
    ensures c.SetDispatchQueue? ==> w.queue == (if c.accepted then c.withQueue else v.queue)
  {
    match c
    case SetCallback(accepted) => if accepted then v.(callback := true) else v
    case ClearCallback => v.(callback := false)
    case SetDispatchQueue(accepted, withQueue) => if accepted then v.(queue := withQueue) else v
    case ClearDispatchQueue => v.(queue := false)
  }

  /** The OS side after a sequence of calls, oldest first. */
  function Replay(v: OsView, log: seq<OsCall>): OsView
    decreases |log|
  {
    if log == [] then v else Replay(Apply(v, log[0]), log[1..])
  }

  /** Replaying a log in two pieces is replaying it whole. */
  lemma {:induction false} ReplayAppend(v: OsView, log: seq<OsCall>, more: seq<OsCall>)
    ensures Replay(v, log + more) == Replay(Replay(v, log), more)
    decreases |log|
  {
    if log == [] {
      assert log + more == more;
    } else {
      assert (log + more)[0] == log[0];
      assert (log + more)[1..] == log[1..] + more;
      ReplayAppend(Apply(v, log[0]), log[1..], more);
    }
  }

  /** The OS side matches the notifier's registered flag: a callback is held
      exactly while the notifier is registered, and a queue binding exactly
      while it is registered with a non-null serial queue. */
  ghost predicate InSync(registered: bool, hasQueue: bool, v: OsView) {
    v == OsView(registered, registered && hasQueue)
  }

  /** What one startNotifier returns, whether the notifier is registered
      afterwards, and the OS calls it issued. */
  datatype StartOutcome = StartOutcome(result: bool, registered: bool, issued: seq<OsCall>)

  /** startNotifier: a registered notifier answers true at once; otherwise
      the callback is installed, then the serial queue (null or not, as
      `hasQueue` says) handed to SetDispatchQueue, and a refused
      SetDispatchQueue rolls the callback back. */
  function Start(registered: bool, replies: OsReplies, hasQueue: bool): (o: StartOutcome)
    ensures registered ==> o.result && o.registered && o.issued == []
    ensures !registered ==> (o.result <==> replies.callbackAccepted && replies.queueAccepted)
    ensures o.registered == o.result
    ensures !registered ==> |o.issued| > 0 && o.issued[0] == SetCallback(replies.callbackAccepted)
    ensures !registered && !replies.callbackAccepted ==> o.issued == [SetCallback(false)]
    ensures !registered && replies.callbackAccepted ==>
              |o.issued| > 1 && o.issued[1] == SetDispatchQueue(replies.queueAccepted, hasQueue)
    ensures !registered && replies.callbackAccepted && replies.queueAccepted ==> |o.issued| == 2
    ensures !registered && replies.callbackAccepted && !replies.queueAccepted ==>
              |o.issued| == 3 && o.issued[2] == ClearCallback
    ensures Replay(OsView(registered, registered && hasQueue), o.issued) ==
            OsView(o.registered, o.registered && hasQueue)
  {
    if registered then
      StartOutcome(true, true, [])
    else if !replies.callbackAccepted then
      StartOutcome(false, false, [SetCallback(false)])
    else if replies.queueAccepted then
      var issued := [SetCallback(true), SetDispatchQueue(true, hasQueue)];
      assert issued[1..][1..] == [];
      assert Replay(OsView(false, false), issued) == Replay(OsView(true, false), issued[1..]);
      assert Replay(OsView(true, false), issued[1..]) == OsView(true, hasQueue);
      StartOutcome(true, true, issued)
    else
      var issued := [SetCallback(true), SetDispatchQueue(false, hasQueue), ClearCallback];
      assert issued[1..][1..] == [ClearCallback] && issued[1..][1..][1..] == [];
      assert Replay(OsView(false, false), issued) == Replay(OsView(true, false), issued[1..]);
      assert Replay(OsView(true, false), issued[1..]) == Replay(OsView(true, false), [ClearCallback]);
      assert Replay(OsView(true, false), [ClearCallback]) == OsView(false, false);
      StartOutcome(false, false, issued)
  }

  /** What one stopNotifier leaves behind and the OS calls it issued. */
  datatype StopOutcome = StopOutcome(registered: bool, issued: seq<OsCall>)

  /** stopNotifier: unregisters the callback and the queue whatever the state. */
  function Stop(registered: bool): (o: StopOutcome)
    ensures !o.registered
    ensures forall v :: Replay(v, o.issued) == Detached
  {
    StopOutcome(false, [ClearCallback, ClearDispatchQueue])
  }

  /** Starting from an OS side in sync with the flag, startNotifier leaves it
      in sync: no half-registered handle survives a failed start. */
  lemma StartKeepsInSync(registered: bool, hasQueue: bool, v: OsView, log: seq<OsCall>, replies: OsReplies)
    requires InSync(registered, hasQueue, Replay(v, log))
    ensures InSync(Start(registered, replies, hasQueue).registered, hasQueue,
                   Replay(v, log + Start(registered, replies, hasQueue).issued))
  {
    ReplayAppend(v, log, Start(registered, replies, hasQueue).issued);
  }

  /** stopNotifier always leaves the OS side in sync and detached. */
  lemma StopKeepsInSync(registered: bool, hasQueue: bool, v: OsView, log: seq<OsCall>)
    ensures InSync(Stop(registered).registered, hasQueue, Replay(v, log + Stop(registered).issued))
    ensures Replay(v, log + Stop(registered).issued) == Detached
  {
    ReplayAppend(v, log, Stop(registered).issued);
  }

  /** Stopping twice leaves the same state as stopping once. */
  lemma StopIdempotent(registered: bool, v: OsView)
    ensures Stop(Stop(registered).registered).registered == Stop(registered).registered
    ensures Replay(Replay(v, Stop(registered).issued), Stop(Stop(registered).registered).issued)
            == Replay(v, Stop(registered).issued)
  {
  }

  /** After stopNotifier a new startNotifier goes to the OS again, and
      succeeds exactly when both registering calls are accepted. */
  lemma StartAfterStopReattempts(registered: bool, replies: OsReplies, hasQueue: bool)
    ensures Start(Stop(registered).registered, replies, hasQueue).issued != []
    ensures Start(Stop(registered).registered, replies, hasQueue).issued[0] == SetCallback(replies.callbackAccepted)
    ensures Start(Stop(registered).registered, replies, hasQueue).result <==>
            replies.callbackAccepted && replies.queueAccepted
  {
  }

  /** A second startNotifier after a successful one returns true and issues
      no OS call. */
  lemma RestartIsIdempotent(registered: bool, first: OsReplies, second: OsReplies, hasQueue: bool)
    requires Start(registered, first, hasQueue).result
    ensures Start(Start(registered, first, hasQueue).registered, second, hasQueue) == StartOutcome(true, true, [])
  {
  }
}
