/** The lawn-mower entity: its activity, derived from the status label in the
    coordinator's data, and the three commands it forwards by name. */
module LawnMower {
  import opened Wrappers
  import opened Bytes
  import opened Text
  import opened Decoders
  import opened Store
  import opened Mower
  import opened Coordinator

  /** The activities the entity reports. */
  predicate IsActivity(a: string)
  {
    a == "mowing" || a == "returning_to_base" || a == "docked" || a == "paused" || a == "error"
  }

  /** The activity rule: the status is lowercased, then tested against the
      keyword pairs in order; the first pair with a keyword in the status
      decides, and "paused" is the fallback. */
  function ActivityFor(status: string): (a: string)
    ensures IsActivity(a)
  {
    var s := Lower(status);
    if Contains(s, "mowing") || Contains(s, "cutting") then "mowing"
    else if Contains(s, "returning") || Contains(s, "docking") then "returning_to_base"
    else if Contains(s, "charging") || Contains(s, "docked") then "docked"
    else if Contains(s, "idle") || Contains(s, "stopped") then "paused"
    else if Contains(s, "error") || Contains(s, "fault") then "error"
    else "paused"
  }

  /** `activity`: no data, no activity. The dictionary always has a status. */
  function Activity(data: Option<InfoDict>): (a: Option<string>)
    ensures a.None? <==> data.None?
    ensures a.Some? ==> IsActivity(a.value)
  {
    if data.None? then None else Some(ActivityFor(data.value.status))
  }

  /** The rule ignores letter case. */
  lemma ActivityIgnoresCase(status: string)
    ensures ActivityFor(Lower(status)) == ActivityFor(status)
  {
    LowerIdempotent(status);
  }

  /** An empty status falls back to "paused". */
  lemma EmptyStatusIsPaused()
    ensures ActivityFor("") == "paused"
  {
    assert !Contains("", "mowing") && !Contains("", "cutting");
    assert !Contains("", "returning") && !Contains("", "docking");
    assert !Contains("", "charging") && !Contains("", "docked");
    assert !Contains("", "idle") && !Contains("", "stopped");
    assert !Contains("", "error") && !Contains("", "fault");
  }

  /** A keyword with a character that the string lacks does not occur in it. */
  lemma MissingChar(s: string, p: string, j: nat)
    requires j < |p| && p[j] !in s
    ensures !Contains(s, p)
  {
    ContainsIff(s, p);
  }

  /** The activity the entity shows for each state. */
  function ExpectedActivity(s: MowerState): string
  {
    match s
    case Mowing => "mowing"
    case Returning => "returning_to_base"
    case Docked => "docked"
    case Stopped => "paused"
    case Idle => "paused"
    case Unknown => "paused"
    case Error => "error"
  }

  /** A string with no uppercase letter is its own lowercase. */
  lemma LowerOfLowercase(w: string)
    requires forall i :: 0 <= i < |w| ==> !IsUpper(w[i])
    ensures Lower(w) == w
  {
  }

  /** v has exactly the characters of w. Stating a state value this way,
      rather than as a string literal, keeps the keyword proofs below small. */
  predicate Spells(v: string, w: string)
  {
    |v| == |w| && forall i :: 0 <= i < |w| ==> v[i] == w[i]
  }

  /** The rule applied to each state's value. */
  lemma ActivityOfValue(s: MowerState)
    ensures ActivityFor(StateValue(s)) == ExpectedActivity(s)
  {
    var v := StateValue(s);
    match s
    case Mowing => ActivityOfMowingValue(v);
    case Returning => ActivityOfReturningValue(v);
    case Docked => ActivityOfDockedValue(v);
    case Stopped => ActivityOfStoppedValue(v);
    case Idle => ActivityOfIdleValue(v);
    case Unknown => ActivityOfUnknownValue(v);
    case Error => ActivityOfErrorValue(v);
  }

  /** The keywords the rule tests before "mowing" do not occur in "mowing"; "mowing" does. */
  lemma MowingValueKeywords(v: string)
    requires Spells(v, "mowing")
    ensures Contains(v, "mowing")
  {
    assert StartsWith(v, "mowing");
  }

  lemma ActivityOfMowingValue(v: string)
    requires Spells(v, "mowing")
    ensures ActivityFor(v) == ExpectedActivity(Mowing)
  {
    LowerOfLowercase(v);
    MowingValueKeywords(v);
  }

  /** The keywords the rule tests before "returning" do not occur in "returning"; "returning" does. */
  lemma ReturningValueKeywords(v: string)
    requires Spells(v, "returning")
    ensures !Contains(v, "mowing") && !Contains(v, "cutting") && Contains(v, "returning")
  {
    MissingChar(v, "mowing", 0);
    MissingChar(v, "cutting", 0);
    assert StartsWith(v, "returning");
  }

  lemma ActivityOfReturningValue(v: string)
    requires Spells(v, "returning")
    ensures ActivityFor(v) == ExpectedActivity(Returning)
  {
    LowerOfLowercase(v);
    ReturningValueKeywords(v);
  }

  /** The keywords the rule tests before "docked" do not occur in "docked"; "docked" does. */
  lemma DockedValueKeywords(v: string)
    requires Spells(v, "docked")
    ensures !Contains(v, "mowing") && !Contains(v, "cutting") && !Contains(v, "returning")
    ensures !Contains(v, "docking") && Contains(v, "docked")
  {
    MissingChar(v, "mowing", 0);
    MissingChar(v, "cutting", 1);
    MissingChar(v, "returning", 0);
    MissingChar(v, "docking", 4);
    assert StartsWith(v, "docked");
  }

  lemma ActivityOfDockedValue(v: string)
    requires Spells(v, "docked")
    ensures ActivityFor(v) == ExpectedActivity(Docked)
  {
    LowerOfLowercase(v);
    DockedValueKeywords(v);
  }

  /** The keywords the rule tests before "stopped" do not occur in "stopped"; "stopped" does. */
  lemma StoppedValueKeywords(v: string)
    requires Spells(v, "stopped")
    ensures !Contains(v, "mowing") && !Contains(v, "cutting") && !Contains(v, "returning")
    ensures !Contains(v, "docking") && !Contains(v, "charging") && !Contains(v, "docked")
    ensures Contains(v, "stopped")
  {
    MissingChar(v, "mowing", 0);
    MissingChar(v, "cutting", 0);
    MissingChar(v, "returning", 0);
    MissingChar(v, "docking", 2);
    MissingChar(v, "charging", 0);
    MissingChar(v, "docked", 2);
    assert StartsWith(v, "stopped");
  }

  lemma ActivityOfStoppedValue(v: string)
    requires Spells(v, "stopped")
    ensures ActivityFor(v) == ExpectedActivity(Stopped)
  {
    LowerOfLowercase(v);
    StoppedValueKeywords(v);
  }

  /** The keywords the rule tests before "idle" do not occur in "idle"; "idle" does. */
  lemma IdleValueKeywords(v: string)
    requires Spells(v, "idle")
    ensures !Contains(v, "mowing") && !Contains(v, "cutting") && !Contains(v, "returning")
    ensures !Contains(v, "docking") && !Contains(v, "charging") && !Contains(v, "docked")
    ensures Contains(v, "idle")
  {
    MissingChar(v, "mowing", 0);
    MissingChar(v, "cutting", 0);
    MissingChar(v, "returning", 0);
    MissingChar(v, "docking", 1);
    MissingChar(v, "charging", 0);
    MissingChar(v, "docked", 1);
    assert StartsWith(v, "idle");
  }

  lemma ActivityOfIdleValue(v: string)
    requires Spells(v, "idle")
    ensures ActivityFor(v) == ExpectedActivity(Idle)
  {
    LowerOfLowercase(v);
    IdleValueKeywords(v);
  }

  /** None of the first three keyword pairs of the rule occurs in "unknown". */
  lemma UnknownMissesFirstPairs(v: string)
    requires Spells(v, "unknown")
    ensures !Contains(v, "mowing") && !Contains(v, "cutting") && !Contains(v, "returning")
    ensures !Contains(v, "docking") && !Contains(v, "charging") && !Contains(v, "docked")
  {
    MissingChar(v, "mowing", 0);
    MissingChar(v, "cutting", 0);
    MissingChar(v, "returning", 0);
    MissingChar(v, "docking", 0);
    MissingChar(v, "charging", 0);
    MissingChar(v, "docked", 0);
  }

  /** Nor does either of the last two pairs. */
  lemma UnknownMissesLastPairs(v: string)
    requires Spells(v, "unknown")
    ensures !Contains(v, "idle") && !Contains(v, "stopped") && !Contains(v, "error") && !Contains(v, "fault")
  {
    MissingChar(v, "idle", 0);
    MissingChar(v, "stopped", 0);
    MissingChar(v, "error", 0);
    MissingChar(v, "fault", 0);
  }

  lemma ActivityOfUnknownValue(v: string)
    requires Spells(v, "unknown")
    ensures ActivityFor(v) == ExpectedActivity(Unknown)
  {
    LowerOfLowercase(v);
    UnknownMissesFirstPairs(v);
    UnknownMissesLastPairs(v);
  }

  /** The keywords the rule tests before "error" do not occur in "error"; "error" does. */
  lemma ErrorValueKeywords(v: string)
    requires Spells(v, "error")
    ensures !Contains(v, "mowing") && !Contains(v, "cutting") && !Contains(v, "returning")
    ensures !Contains(v, "docking") && !Contains(v, "charging") && !Contains(v, "docked")
    ensures !Contains(v, "idle") && !Contains(v, "stopped") && Contains(v, "error")
  {
    MissingChar(v, "mowing", 0);
    MissingChar(v, "cutting", 0);
    MissingChar(v, "returning", 2);
    MissingChar(v, "docking", 0);
    MissingChar(v, "charging", 0);
    MissingChar(v, "docked", 0);
    MissingChar(v, "idle", 0);
    MissingChar(v, "stopped", 0);
    assert StartsWith(v, "error");
  }

  lemma ActivityOfErrorValue(v: string)
    requires Spells(v, "error")
    ensures ActivityFor(v) == ExpectedActivity(Error)
  {
    LowerOfLowercase(v);
    ErrorValueKeywords(v);
  }

  /** What the entity shows for each state the mower can report, through the
      coordinator's label: mowing, returning to base, docked, "error" for the
      error state, and paused for stopped, idle and unknown. */
  lemma ActivityOfState(info: MowerInfo)
    ensures Activity(Some(ToDict(info))) == Some(ExpectedActivity(info.status))
  {
    ActivityIgnoresCase(StatusLabel(info.status));
    LowerOfStatusLabel(info.status);
    ActivityOfValue(info.status);
  }

  /** The entity: it only forwards commands to its coordinator. */
  class CloudHawkLawnMowerEntity {
    const coordinator: CloudHawkCoordinator

    constructor (coordinator: CloudHawkCoordinator)
      ensures this.coordinator == coordinator
    {
      this.coordinator := coordinator;
    }

    /** `async_start_mowing`: the "start" command, frame 05. */
    method StartMowing(writeOk: bool)
      modifies coordinator.mower`written
      ensures coordinator.mower.written ==
                if coordinator.mower.CanWrite() && writeOk then old(coordinator.mower.written) + [CommandFrame(START)]
                else old(coordinator.mower.written)
    {
      var _ := coordinator.SendCommand("start", writeOk);
    }

    /** `async_pause`: the "stop" command, frame 29. */
    method Pause(writeOk: bool)
      modifies coordinator.mower`written
      ensures coordinator.mower.written ==
                if coordinator.mower.CanWrite() && writeOk then old(coordinator.mower.written) + [CommandFrame(STOP)]
                else old(coordinator.mower.written)
    {
      var _ := coordinator.SendCommand("stop", writeOk);
    }

    /** `async_dock`: the "dock" command, frame 06. */
    method Dock(writeOk: bool)
      modifies coordinator.mower`written
      ensures coordinator.mower.written ==
                if coordinator.mower.CanWrite() && writeOk then old(coordinator.mower.written) + [CommandFrame(CHARGE)]
                else old(coordinator.mower.written)
    {
      var _ := coordinator.SendCommand("dock", writeOk);
    }
  }
}
