/** ROS stamps for camera clocks: a base pair (ROS time, camera time) taken at the first
    hardware-clock frame and taken anew whenever the camera's clock jumps back. */
module TimeBase {

  datatype Domain = HardwareClock | SystemTime | GlobalTime

  datatype Clock = Clock(isInitialized: bool, rosTimeBase: real, cameraTimeBase: real, previousFrameTime: real)

  const START := Clock(false, 0.0, 0.0, 0.0)

  // A frame reaching a callback; stamped says whether the callback goes on to ask for its stamp.
  datatype Arrival = Arrival(time: real, domain: Domain, now: real, stamped: bool)

  function Noticed(c: Clock, a: Arrival): Clock
  {
    if !c.isInitialized && a.domain.HardwareClock? then Clock(true, a.now, a.time, a.time) else c
  }

  predicate IsReset(c: Clock, a: Arrival)
  {
    a.domain.HardwareClock? && c.previousFrameTime > a.time
  }

  function Rebased(c: Clock, a: Arrival): Clock
  {
    if !a.domain.HardwareClock? then c
    else if IsReset(c, a) then c.(rosTimeBase := a.now, cameraTimeBase := a.time, previousFrameTime := a.time)
    else c.(previousFrameTime := a.time)
  }

  function StampAt(c: Clock, a: Arrival): real
  {
    if a.domain.HardwareClock? then c.rosTimeBase + (a.time - c.cameraTimeBase) / 1000.0 else a.time / 1000.0
  }

  function Tick(c: Clock, a: Arrival): Clock
  {
    if a.stamped then Rebased(Noticed(c, a), a) else Noticed(c, a)
  }

  // The clock after a run that starts from c, and the stamps given on the way.
  function After(c: Clock, s: seq<Arrival>): Clock
  {
    if s == [] then c else Tick(After(c, s[..|s| - 1]), s[|s| - 1])
  }

  function Stamps(c: Clock, s: seq<Arrival>): seq<real>
  {
    if s == [] then []
    else Stamps(c, s[..|s| - 1]) + if s[|s| - 1].stamped then [StampAt(After(c, s), s[|s| - 1])] else []
  }

  // The stamp a hardware frame carrying the previous frame's time would get.
  function LastStamp(c: Clock): real
  {
    c.rosTimeBase + (c.previousFrameTime - c.cameraTimeBase) / 1000.0
  }

  ghost predicate Behind(c: Clock)
  {
    c.isInitialized ==> c.cameraTimeBase <= c.previousFrameTime
  }

  ghost predicate AllHardware(s: seq<Arrival>)
  {
    forall i :: 0 <= i < |s| ==> s[i].domain.HardwareClock?
  }

  lemma Divided(a: real, b: real)
    requires a <= b
    ensures a / 1000.0 <= b / 1000.0
  {
  }

  lemma {:induction false} Initialized(c: Clock, s: seq<Arrival>)
    requires AllHardware(s) && (c.isInitialized || s != [])
    ensures After(c, s).isInitialized
  {
    if |s| > 1 || (s != [] && c.isInitialized) { Initialized(c, s[..|s| - 1]); }
  }

  /** For frames of any mixture of clocks, the camera base never passes the previous frame time, so
      no hardware stamp is earlier than the ROS base it is counted from. */
  lemma {:induction false} NeverBeforeBase(s: seq<Arrival>)
    ensures Behind(After(START, s))
    ensures s != [] && s[|s| - 1].stamped && s[|s| - 1].domain.HardwareClock? ==>
              StampAt(After(START, s), s[|s| - 1]) >= After(START, s).rosTimeBase
  {
    if s != [] {
      NeverBeforeBase(s[..|s| - 1]);
      var a := s[|s| - 1];
      if a.stamped && a.domain.HardwareClock? { Divided(0.0, a.time - After(START, s).cameraTimeBase); }
    }
  }

  // No stamped frame of the run finds the camera clock behind the previous frame.
  predicate ResetFree(c: Clock, s: seq<Arrival>)
  {
    s == [] ||
    (ResetFree(c, s[..|s| - 1]) && (s[|s| - 1].stamped ==> !IsReset(After(c, s[..|s| - 1]), s[|s| - 1])))
  }

  // The camera's own times, moved and scaled once and for all.
  function Elapsed(c: Clock, s: seq<Arrival>): seq<real>
  {
    if s == [] then []
    else
      Elapsed(c, s[..|s| - 1]) +
      (if s[|s| - 1].stamped then [c.rosTimeBase + (s[|s| - 1].time - c.cameraTimeBase) / 1000.0] else [])
  }

  /** Between two resets the ROS clock is the camera clock: every stamp is one fixed base plus the
      camera time since then over 1000, so stamp differences are camera differences. */
  lemma {:induction false} BetweenResets(c: Clock, s: seq<Arrival>)
    requires c.isInitialized && AllHardware(s) && ResetFree(c, s)
    ensures Stamps(c, s) == Elapsed(c, s)
    ensures After(c, s).rosTimeBase == c.rosTimeBase && After(c, s).cameraTimeBase == c.cameraTimeBase
  {
    if s != [] {
      BetweenResets(c, s[..|s| - 1]);
      Initialized(c, s[..|s| - 1]);
    }
  }

  ghost predicate NeverBack(stamps: seq<real>)
  {
    forall i, j :: 0 <= i <= j < |stamps| ==> stamps[i] <= stamps[j]
  }

  lemma NeverBackSnoc(stamps: seq<real>, t: real)
    ensures NeverBack(stamps + [t]) <==> NeverBack(stamps) && (stamps == [] || stamps[|stamps| - 1] <= t)
  {
    if NeverBack(stamps + [t]) {
      assert forall i :: 0 <= i < |stamps| ==> (stamps + [t])[i] == stamps[i];
      assert (stamps + [t])[|stamps|] == t;
    }
  }

  // At every clock reset, ROS time has reached the last stamp given.
  predicate NowKeepsUp(s: seq<Arrival>)
  {
    s == [] ||
    var u, a := s[..|s| - 1], s[|s| - 1];
    && NowKeepsUp(u)
    && (a.stamped && IsReset(Noticed(After(START, u), a), a) && Stamps(START, u) != [] ==>
          Stamps(START, u)[|Stamps(START, u)| - 1] <= a.now)
  }

  lemma {:induction false} LastStampIsLast(s: seq<Arrival>)
    requires AllHardware(s)
    ensures Stamps(START, s) != [] ==> Stamps(START, s)[|Stamps(START, s)| - 1] == LastStamp(After(START, s))
  {
    if s != [] {
      LastStampIsLast(s[..|s| - 1]);
      if |s| > 1 { Initialized(START, s[..|s| - 1]); }
    }
  }

  /** On the hardware clock, stamps never go back if and only if ROS time has reached the last stamp
      whenever the camera clock is reset. */
  lemma {:induction false} NeverBackIff(s: seq<Arrival>)
    requires AllHardware(s)
    ensures NeverBack(Stamps(START, s)) <==> NowKeepsUp(s)
  {
    if s != [] {
      var u, a := s[..|s| - 1], s[|s| - 1];
      NeverBackIff(u);
      LastStampIsLast(u);
      if a.stamped {
        NeverBackSnoc(Stamps(START, u), StampAt(After(START, s), a));
        if Stamps(START, u) != [] { Initialized(START, u); StampStep(After(START, u), a); }
      } else {
        assert Stamps(START, s) == Stamps(START, u);
      }
    }
  }

  // Without a reset a stamp follows the last one; at a reset it is ROS time itself.
  lemma StampStep(c: Clock, a: Arrival)
    requires c.isInitialized && a.domain.HardwareClock? && a.stamped
    ensures IsReset(c, a) ==> StampAt(Tick(c, a), a) == a.now
    ensures !IsReset(c, a) ==> StampAt(Tick(c, a), a) >= LastStamp(c)
    ensures LastStamp(Tick(c, a)) == StampAt(Tick(c, a), a)
  {
    if !IsReset(c, a) { Divided(c.previousFrameTime - c.cameraTimeBase, a.time - c.cameraTimeBase); }
  }

  // ---------- The same from the frames alone ----------

  ghost predicate Steady(s: seq<Arrival>)
  {
    forall i, j :: 0 <= i <= j < |s| ==> s[i].time <= s[j].time
  }

  // The clock once the first hardware frame has been taken as its base.
  function FromFirst(a: Arrival): Clock
  {
    Clock(true, a.now, a.time, a.time)
  }

  lemma {:induction false} SteadyClock(s: seq<Arrival>)
    requires s != [] && AllHardware(s) && Steady(s)
    ensures var c := After(START, s);
            && c.isInitialized && c.rosTimeBase == s[0].now && c.cameraTimeBase == s[0].time
            && s[0].time <= c.previousFrameTime <= s[|s| - 1].time
  {
    var u, a := s[..|s| - 1], s[|s| - 1];
    if u != [] {
      SteadyClock(u);
      assert u[0] == s[0] && u[|u| - 1].time <= a.time;
    } else {
      assert After(START, u) == START;
    }
  }

  /** On a hardware clock whose times never go back, the base is the first frame for good: every stamp is
      the ROS time of that frame plus the camera time since it over 1000. */
  lemma {:induction false} SteadyStamps(s: seq<Arrival>)
    requires s != [] && AllHardware(s) && Steady(s)
    ensures Stamps(START, s) == Elapsed(FromFirst(s[0]), s)
  {
    SteadyClock(s);
    if |s| > 1 {
      SteadyStamps(s[..|s| - 1]);
    } else {
      assert s[..0] == [] && Stamps(START, []) == [] && Elapsed(FromFirst(s[0]), []) == [];
    }
  }

  /** The latest stamp of such a run, in numbers. */
  lemma SteadyStampIs(s: seq<Arrival>)
    requires s != [] && AllHardware(s) && Steady(s) && s[|s| - 1].stamped
    ensures Stamps(START, s) != []
    ensures Stamps(START, s)[|Stamps(START, s)| - 1] == s[0].now + (s[|s| - 1].time - s[0].time) / 1000.0
  {
    SteadyClock(s);
  }

  // Frame p of the run was stamped from the hardware clock, and none after it.
  ghost predicate LastStamped(s: seq<Arrival>, p: nat)
  {
    && p < |s| && s[p].stamped && s[p].domain.HardwareClock?
    && forall i :: p < i < |s| ==> !s[i].stamped || !s[i].domain.HardwareClock?
  }

  lemma {:induction false} PreviousTime(s: seq<Arrival>, p: nat)
    requires LastStamped(s, p)
    ensures After(START, s).isInitialized && After(START, s).previousFrameTime == s[p].time
  {
    if p < |s| - 1 {
      var u := s[..|s| - 1];
      assert LastStamped(u, p);
      PreviousTime(u, p);
    }
  }

  /** A stamped hardware frame older than the one stamped before it gets exactly the ROS time of its own
      arrival; one that is not older is stamped from the same base as that one. */
  lemma ResetIff(s: seq<Arrival>, p: nat, a: Arrival)
    requires LastStamped(s, p) && a.stamped && a.domain.HardwareClock?
    ensures var c, t := After(START, s), Stamps(START, s + [a]);
            && t == Stamps(START, s) + [t[|t| - 1]]
            && (a.time < s[p].time ==> t[|t| - 1] == a.now)
            && (a.time >= s[p].time ==> t[|t| - 1] == c.rosTimeBase + (a.time - c.cameraTimeBase) / 1000.0)
  {
    PreviousTime(s, p);
    assert (s + [a])[..|s|] == s;
  }

  /** A frame of any other clock, system or global time, is stamped with its own time over 1000 and
      leaves the base as it is. */
  lemma OtherClocks(c: Clock, a: Arrival)
    requires a.domain == SystemTime || a.domain == GlobalTime
    ensures StampAt(Tick(c, a), a) == a.time / 1000.0 && Tick(c, a) == c
  {
  }

  /** The clock held by the node. */
  class Base {
    var isInitializedTimeBase: bool
    var rosTimeBase: real
    var cameraTimeBase: real
    var previousFrameTime: real

    function View(): Clock
      reads this
    {
      Clock(isInitializedTimeBase, rosTimeBase, cameraTimeBase, previousFrameTime)
    }

    constructor ()
      ensures View() == START
    {
      isInitializedTimeBase := false;
      rosTimeBase, cameraTimeBase, previousFrameTime := 0.0, 0.0, 0.0;
    }

    method SetBaseTime(a: Arrival) returns (done: bool)
      modifies this
      ensures done <==> a.domain.HardwareClock?
      ensures View() ==
              if !done then old(View())
              else old(View()).(rosTimeBase := a.now, cameraTimeBase := a.time, previousFrameTime := a.time)
    {
      if a.domain.HardwareClock? {
        rosTimeBase := a.now;
        cameraTimeBase := a.time;
        previousFrameTime := a.time;
        return true;
      }
      return false;
    }

    // The compare-and-exchange at the head of every callback.
    method Notice(a: Arrival)
      modifies this
      ensures View() == Noticed(old(View()), a)
    {
      if !isInitializedTimeBase {
        isInitializedTimeBase := true;
        var done := SetBaseTime(a);
        isInitializedTimeBase := done;
      }
    }

    method FrameSystemTimeSec(a: Arrival) returns (t: real)
      modifies this
      ensures View() == Rebased(old(View()), a) && t == StampAt(View(), a)
    {
      if a.domain.HardwareClock? {
        if previousFrameTime > a.time {
          rosTimeBase := a.now;
          cameraTimeBase := a.time;
        }
        previousFrameTime := a.time;
        var elapsedCamera := (a.time - cameraTimeBase) / 1000.0;
        return rosTimeBase + elapsedCamera;
      } else {
        return a.time / 1000.0;
      }
    }
  }
}
