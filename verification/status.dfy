/** The platform-independent surface of ReachabilityCore: the status
    enumeration and the `isReachable()` projection of a status stream, which
    maps every emitted status, in order, to one boolean. */
module Status {

  datatype ReachabilityStatus = Unknown | NotReachable | ReachableViaWiFi | Reachable

  /** The enum's constants in declaration order. */
  const Declared: seq<ReachabilityStatus> := [Unknown, NotReachable, ReachableViaWiFi, Reachable]

  /** The enum ordinal: the position of the constant in declaration order. */
  function Ordinal(s: ReachabilityStatus): (n: nat)
    ensures n < |Declared| && Declared[n] == s
  {
    match s
    case Unknown => 0
    case NotReachable => 1
    case ReachableViaWiFi => 2
    case Reachable => 3
  }

  /** There are exactly four statuses and each is declared once. */
  lemma FourStatuses()
    ensures |Declared| == 4
    ensures forall s: ReachabilityStatus :: s in Declared
    ensures forall i, j :: 0 <= i < j < |Declared| ==> Declared[i] != Declared[j]
  {
    forall s: ReachabilityStatus
      ensures s in Declared
    {
      assert Declared[Ordinal(s)] == s;
    }
  }

  /** The element projection as written: `it != NotReachable || it != Unknown`.
      No status equals both constants, so one disjunct always holds. */
  function ReachableProjection(s: ReachabilityStatus): (b: bool)
    ensures b
  {
    s != NotReachable || s != Unknown
  }

  /** The projection with the conjunction evidently intended: a status counts
      as reachable exactly when it names an interface. */
  function IntendedReachableProjection(s: ReachabilityStatus): (b: bool)
    ensures b <==> s == ReachableViaWiFi || s == Reachable
  {
    s != NotReachable && s != Unknown
  }

  /** The written and the intended projection differ on exactly the two
      statuses that do not name an interface. */
  lemma ProjectionsDisagreeOnUnknownAndNotReachable(s: ReachabilityStatus)
    ensures ReachableProjection(s) != IntendedReachableProjection(s) <==> s == Unknown || s == NotReachable
  {
  }

  /** `isReachable()`: the status stream mapped element by element. */
  function IsReachableFlow(statuses: seq<ReachabilityStatus>): (flow: seq<bool>)
    ensures |flow| == |statuses|
    ensures forall i :: 0 <= i < |statuses| ==> flow[i] == ReachableProjection(statuses[i])
  {
    if statuses == [] then [] else [ReachableProjection(statuses[0])] + IsReachableFlow(statuses[1..])
  }

  /** Whatever the stream emits, the projected stream only ever says true. */
  lemma {:induction false} FlowIsAlwaysTrue(statuses: seq<ReachabilityStatus>)
    ensures IsReachableFlow(statuses) == seq(|statuses|, _ => true)
  {
    var flow := IsReachableFlow(statuses);
    forall i | 0 <= i < |statuses|
      ensures flow[i] == seq(|statuses|, _ => true)[i]
    {
    }
  }

  /** The projection commutes with concatenation: emitting two runs of
      statuses yields the two runs of booleans, in the same order. */
  lemma {:induction false} FlowOfConcatenation(a: seq<ReachabilityStatus>, b: seq<ReachabilityStatus>)
    ensures IsReachableFlow(a + b) == IsReachableFlow(a) + IsReachableFlow(b)
  {
    var whole, left, right := IsReachableFlow(a + b), IsReachableFlow(a), IsReachableFlow(b);
    forall i | 0 <= i < |a + b|
      ensures whole[i] == (left + right)[i]
    {
      if i < |a| {
        assert (a + b)[i] == a[i];
      } else {
        assert (a + b)[i] == b[i - |a|];
      }
    }
  }
}
