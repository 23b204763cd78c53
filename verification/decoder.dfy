/** The pure logic over one flag mask that both iOS classes share: the
    connection decoder, the one-shot bit projections, the per-notification
    verdict and the diagnostic flag code. Every one-shot query receives the
    answer of its own getFlags() call as an Option: None when the OS query
    failed. */
module FlagDecoder {
  import opened Flags

  /** connectionStatus(): an ordered chain of short-circuiting tests. The
      IsWWAN fallback is only reached once the Reachable test has passed. */
  function ConnectionStatus(flags: Option<Mask>): (up: bool)
    ensures flags.None? ==> !up
    ensures flags.Some? && !Has(flags.value, Reachable) ==> !up
    ensures flags.Some? && Has(flags.value, Reachable) && !Has(flags.value, ConnectionRequired) ==> up
    ensures (flags.Some? && Has(flags.value, Reachable) &&
             (Has(flags.value, ConnectionOnDemand) || Has(flags.value, ConnectionOnTraffic)) &&
             !Has(flags.value, InterventionRequired)) ==> up
    ensures (flags.Some? && Has(flags.value, Reachable) && Has(flags.value, ConnectionRequired) &&
             !((Has(flags.value, ConnectionOnDemand) || Has(flags.value, ConnectionOnTraffic)) &&
               !Has(flags.value, InterventionRequired)))
            ==> (up <==> Has(flags.value, Flags.IsWWAN))
  {
    match flags
    case None => false
    case Some(f) =>
      if f & Reachable == 0 then false
      else if f & ConnectionRequired == 0 then true
      else if (f & ConnectionOnDemand != 0 || f & ConnectionOnTraffic != 0) && f & InterventionRequired == 0 then true
      else if f & Flags.IsWWAN == Flags.IsWWAN then true
      else false
  }

  /** Bit `k` of a mask, read by shifting rather than by masking. */
  predicate BitAt(f: Mask, k: nat)
    requires k < 32
  {
    (f >> k) & 1 == 1
  }

  // One-shot projections: false when the flag query failed, otherwise the
  // single bit at the flag's position in the SystemConfiguration mask.

  function IsTransientConnection(flags: Option<Mask>): (r: bool)
    ensures r <==> flags.Some? && BitAt(flags.value, 0)
  {
    match flags
    case None => false
    case Some(f) => f & TransientConnection != 0
  }

  function IsReachable(flags: Option<Mask>): (r: bool)
    ensures r <==> flags.Some? && BitAt(flags.value, 1)
  {
    match flags
    case None => false
    case Some(f) => f & Reachable != 0
  }

  function IsConnectionRequired(flags: Option<Mask>): (r: bool)
    ensures r <==> flags.Some? && BitAt(flags.value, 2)
  {
    match flags
    case None => false
    case Some(f) => f & ConnectionRequired != 0
  }

  function IsConnectionOnTraffic(flags: Option<Mask>): (r: bool)
    ensures r <==> flags.Some? && BitAt(flags.value, 3)
  {
    match flags
    case None => false
    case Some(f) => f & ConnectionOnTraffic != 0
  }

  function IsInterventionRequired(flags: Option<Mask>): (r: bool)
    ensures r <==> flags.Some? && BitAt(flags.value, 4)
  {
    match flags
    case None => false
    case Some(f) => f & InterventionRequired != 0
  }

  function IsConnectionOnDemand(flags: Option<Mask>): (r: bool)
    ensures r <==> flags.Some? && BitAt(flags.value, 5)
  {
    match flags
    case None => false
    case Some(f) => f & ConnectionOnDemand != 0
  }

  /** Tests the union mask OnDemand | OnTraffic in one go. */
  function IsConnectionOnDemandOrTraffic(flags: Option<Mask>): (r: bool)
    ensures r <==> IsConnectionOnDemand(flags) || IsConnectionOnTraffic(flags)
  {
    match flags
    case None => false
    case Some(f) => f & (ConnectionOnDemand | ConnectionOnTraffic) != 0
  }

  function IsDirect(flags: Option<Mask>): (r: bool)
    ensures r <==> flags.Some? && BitAt(flags.value, 17)
  {
    match flags
    case None => false
    case Some(f) => f & Flags.IsDirect != 0
  }

  function IsWWAN(flags: Option<Mask>): (r: bool)
    ensures r <==> flags.Some? && BitAt(flags.value, 18)
  {
    match flags
    case None => false
    case Some(f) => f & Flags.IsWWAN != 0
  }

  /** isReachableViaWiFi() asks the OS twice: once inside isReachable() and
      once more for the IsWWAN test. */
  function IsReachableViaWiFi(first: Option<Mask>, second: Option<Mask>): (r: bool)
    ensures r ==> IsReachable(first) && second.Some?
    ensures r <==> IsReachable(first) && second.Some? && !IsWWAN(second)
  {
    if IsReachable(first) then
      match second
      case None => false
      case Some(f) => f & Flags.IsWWAN == 0
    else false
  }

  /** When both queries see the same answer, Wi-Fi reachability is
      "reachable and not cellular". */
  lemma ViaWiFiIsReachableAndNotWWAN(flags: Option<Mask>)
    ensures IsReachableViaWiFi(flags, flags) <==> IsReachable(flags) && !IsWWAN(flags)
    ensures IsReachableViaWiFi(flags, flags) <==>
            flags.Some? && Has(flags.value, Reachable) && !Has(flags.value, Flags.IsWWAN)
  {
  }

  /** The decoder restated through the one-shot projections of the same
      answer: reachable, and either no connection is required, or it can be
      set up on demand or on traffic without intervention, or the path is
      cellular. The Reachable bit is never overridden by IsWWAN. */
  lemma ConnectionStatusFromProjections(flags: Option<Mask>)
    ensures ConnectionStatus(flags) <==>
            IsReachable(flags) &&
            (!IsConnectionRequired(flags) ||
             (IsConnectionOnDemandOrTraffic(flags) && !IsInterventionRequired(flags)) ||
             IsWWAN(flags))
    ensures ConnectionStatus(flags) ==> IsReachable(flags)
  {
  }

  /** The decision table of connectionStatus on the masks that matter. */
  lemma ConnectionStatusExamples()
    ensures !ConnectionStatus(None)
    ensures !ConnectionStatus(Some(0))
    ensures ConnectionStatus(Some(Reachable))
    ensures !ConnectionStatus(Some(Reachable | ConnectionRequired))
    ensures ConnectionStatus(Some(Reachable | ConnectionRequired | ConnectionOnDemand))
    ensures ConnectionStatus(Some(Reachable | ConnectionRequired | ConnectionOnTraffic))
    ensures !ConnectionStatus(Some(Reachable | ConnectionRequired | ConnectionOnDemand | InterventionRequired))
    ensures ConnectionStatus(Some(Reachable | ConnectionRequired | ConnectionOnDemand | InterventionRequired | Flags.IsWWAN))
    ensures ConnectionStatus(Some(Reachable | ConnectionRequired | Flags.IsWWAN))
    ensures !ConnectionStatus(Some(Flags.IsWWAN))
  {
  }

  /** isReachableWithFlags as written: `connectionUP` starts true, is cleared
      when Reachable is absent, and is cleared again when IsWWAN is ABSENT and
      reachableOnWWAN is false. */
  function ReachableVerdict(reachableOnWWAN: bool, f: Mask): (up: bool)
    ensures !Has(f, Reachable) ==> !up
    ensures reachableOnWWAN ==> (up <==> Has(f, Reachable))
    ensures !reachableOnWWAN ==> (up <==> Has(f, Reachable) && Has(f, Flags.IsWWAN))
  {
    var afterReachable := f & Reachable != 0;
    if f & Flags.IsWWAN == 0 && !reachableOnWWAN then false else afterReachable
  }

  /** The verdict the surrounding comments describe: when reachableOnWWAN is
      false, a cellular path is what must not count as reachable. */
  function IntendedReachableVerdict(reachableOnWWAN: bool, f: Mask): (up: bool)
    ensures up <==> Has(f, Reachable) && (reachableOnWWAN || !Has(f, Flags.IsWWAN))
  {
    f & Reachable != 0 && (reachableOnWWAN || f & Flags.IsWWAN == 0)
  }

  /** With reachableOnWWAN true the inverted test is never taken, so the
      written and the intended verdicts agree on every mask. */
  lemma VerdictsAgreeWhenReachableOnWWAN(f: Mask)
    ensures ReachableVerdict(true, f) == IntendedReachableVerdict(true, f)
  {
  }

  /** With reachableOnWWAN false the written verdict is the opposite of the
      intended one on every mask with the Reachable bit set. */
  lemma VerdictsOpposeWhenNotReachableOnWWAN(f: Mask)
    requires Has(f, Reachable)
    ensures ReachableVerdict(false, f) != IntendedReachableVerdict(false, f)
  {
  }

  /** A Wi-Fi-only reachable mask is reported unreachable, a cellular one
      reachable. */
  lemma WiFiReportedUnreachable()
    ensures !ReachableVerdict(false, Reachable)
    ensures ReachableVerdict(false, Reachable | Flags.IsWWAN)
    ensures IntendedReachableVerdict(false, Reachable)
    ensures !IntendedReachableVerdict(false, Reachable | Flags.IsWWAN)
  {
  }

  // The diagnostic flag code of reachabilityFlags: ten characters, one per
  // flag, with a space after the first two.

  /** Which flag each position of the code reports; position 2 is the space. */
  const CodeFlags: seq<Mask> := [Flags.IsWWAN, Reachable, 0, ConnectionRequired, TransientConnection,
    InterventionRequired, ConnectionOnTraffic, ConnectionOnDemand, IsLocalAddress, Flags.IsDirect]

  /** The letter each position shows when its flag is set. */
  const CodeLetters: string := "WR ctiCDld"

  /** The nine flags the code reports, as one mask. */
  const CodedMask: Mask := Flags.IsWWAN | Reachable | ConnectionRequired | TransientConnection |
    InterventionRequired | ConnectionOnTraffic | ConnectionOnDemand | IsLocalAddress | Flags.IsDirect

  /** One position of the code: the letter when the flag is set, '-' otherwise. */
  function Mark(f: Mask, flag: Mask, letter: char): char {
    if Has(f, flag) then letter else '-'
  }

  /** reachabilityFlags: one letter or '-' per flag, a space at position 2. */
  function ReachabilityFlags(f: Mask): (code: string)
    ensures |code| == 10 && code[2] == ' '
    ensures forall k :: 0 <= k < 10 && k != 2 ==> code[k] == Mark(f, CodeFlags[k], CodeLetters[k])
  {
    seq(10, k requires 0 <= k < 10 => if k == 2 then ' ' else Mark(f, CodeFlags[k], CodeLetters[k]))
  }

  /** Position k shows its letter exactly when its flag is set, '-' otherwise. */
  lemma CodeAt(f: Mask, k: nat)
    requires k < 10 && k != 2
    ensures ReachabilityFlags(f)[k] == CodeLetters[k] <==> Has(f, CodeFlags[k])
    ensures ReachabilityFlags(f)[k] == '-' <==> !Has(f, CodeFlags[k])
  {
    if k == 0 {
    } else if k == 1 {
    } else if k == 3 {
    } else if k == 4 {
    } else if k == 5 {
    } else if k == 6 {
    } else if k == 7 {
    } else if k == 8 {
    } else {
    }
  }

  lemma EmptyMaskCode()
    ensures ReachabilityFlags(0) == "-- -------"
  {
  }

  /** Two masks agree on the coded flags exactly when they agree on each of
      the nine coded bits. */
  lemma SameCodedBits(f: Mask, g: Mask)
    ensures f & CodedMask == g & CodedMask <==>
            Has(f, Flags.IsWWAN) == Has(g, Flags.IsWWAN) && Has(f, Reachable) == Has(g, Reachable) &&
            Has(f, ConnectionRequired) == Has(g, ConnectionRequired) &&
            Has(f, TransientConnection) == Has(g, TransientConnection) &&
            Has(f, InterventionRequired) == Has(g, InterventionRequired) &&
            Has(f, ConnectionOnTraffic) == Has(g, ConnectionOnTraffic) &&
            Has(f, ConnectionOnDemand) == Has(g, ConnectionOnDemand) &&
            Has(f, IsLocalAddress) == Has(g, IsLocalAddress) && Has(f, Flags.IsDirect) == Has(g, Flags.IsDirect)
  {
  }

  /** Two masks print the same code exactly when they agree on the nine coded
      flags: the code loses nothing it reports and reports nothing else. */
  lemma CodeDeterminesCodedFlags(f: Mask, g: Mask)
    ensures ReachabilityFlags(f) == ReachabilityFlags(g) <==> f & CodedMask == g & CodedMask
  {
    var cf, cg := ReachabilityFlags(f), ReachabilityFlags(g);
    SameCodedBits(f, g);
    if cf == cg {
      assert cf[0] == cg[0] && cf[1] == cg[1] && cf[3] == cg[3] && cf[4] == cg[4] && cf[5] == cg[5];
      assert cf[6] == cg[6] && cf[7] == cg[7] && cf[8] == cg[8] && cf[9] == cg[9];
    }
  }

  /** The bit positions the projections read are the bits of the named flags. */
  lemma BitsAreFlags(f: Mask)
    ensures BitAt(f, 18) <==> Has(f, Flags.IsWWAN)
    ensures BitAt(f, 1) <==> Has(f, Reachable)
    ensures BitAt(f, 2) <==> Has(f, ConnectionRequired)
    ensures BitAt(f, 0) <==> Has(f, TransientConnection)
    ensures BitAt(f, 4) <==> Has(f, InterventionRequired)
    ensures BitAt(f, 3) <==> Has(f, ConnectionOnTraffic)
    ensures BitAt(f, 5) <==> Has(f, ConnectionOnDemand)
    ensures BitAt(f, 17) <==> Has(f, Flags.IsDirect)
  {
  }

  /** Each one-shot projection agrees with its letter in the flag code of the
      same answer. */
  lemma ProjectionsMatchCode(f: Mask)
    ensures IsWWAN(Some(f)) <==> ReachabilityFlags(f)[0] == 'W'
    ensures IsReachable(Some(f)) <==> ReachabilityFlags(f)[1] == 'R'
    ensures IsConnectionRequired(Some(f)) <==> ReachabilityFlags(f)[3] == 'c'
    ensures IsTransientConnection(Some(f)) <==> ReachabilityFlags(f)[4] == 't'
    ensures IsInterventionRequired(Some(f)) <==> ReachabilityFlags(f)[5] == 'i'
    ensures IsConnectionOnTraffic(Some(f)) <==> ReachabilityFlags(f)[6] == 'C'
    ensures IsConnectionOnDemand(Some(f)) <==> ReachabilityFlags(f)[7] == 'D'
    ensures IsDirect(Some(f)) <==> ReachabilityFlags(f)[9] == 'd'
  {
    BitsAreFlags(f);
    var code := ReachabilityFlags(f);
    assert code[0] == Mark(f, Flags.IsWWAN, 'W') && code[1] == Mark(f, Reachable, 'R');
    assert code[3] == Mark(f, ConnectionRequired, 'c') && code[4] == Mark(f, TransientConnection, 't');
    assert code[5] == Mark(f, InterventionRequired, 'i') && code[6] == Mark(f, ConnectionOnTraffic, 'C');
    assert code[7] == Mark(f, ConnectionOnDemand, 'D') && code[9] == Mark(f, Flags.IsDirect, 'd');
  }
}
