/** The united IMU topic end to end: time base, merger, and a publisher that can hold messages back
    while an image is being processed. */
module ImuNode {
  import opened ImuSpec
  import ImuFuser
  import TimeBase

  // ---------- The hold-back publisher ----------

  // What the publisher holds and what it has handed to ROS.
  datatype Outbox = Outbox(isEnabled: bool, limit: nat, pauseMode: bool, pending: seq<Imu>, delivered: seq<Imu>)
  {
    predicate Full() { pauseMode && |pending| >= limit }

    // Everything accepted so far, in acceptance order.
    function Accepted(): seq<Imu> { delivered + pending }

    predicate Valid()
    {
      && (pending != [] ==> pauseMode)
      && |pending| <= limit
      && (pauseMode ==> isEnabled)
    }
  }

  function Sent(o: Outbox, m: Imu): Outbox
    requires !o.Full()
  {
    if o.pauseMode then o.(pending := o.pending + [m]) else o.(delivered := o.delivered + [m])
  }

  // Sending a batch: as many messages as fit, and whether all did.
  function SentAll(o: Outbox, msgs: seq<Imu>): (r: (Outbox, bool))
    ensures o.Valid() ==> r.0.Valid()
    ensures r.1 <==> !o.pauseMode || |o.pending| + |msgs| <= o.limit || msgs == []
    ensures r.1 && o.Valid() ==> r.0.Accepted() == o.Accepted() + msgs
    ensures !r.1 && o.Valid() ==>
              r.0.Accepted() == o.Accepted() + msgs[..o.limit - |o.pending|] && |r.0.pending| == o.limit
    decreases |msgs|
  {
    if msgs == [] then (o, true)
    else if o.Full() then (o, false)
    else SentAll(Sent(o, msgs[0]), msgs[1..])
  }

  function Paused(o: Outbox): Outbox
  {
    if o.isEnabled then o.(pauseMode := true) else o
  }

  function Resumed(o: Outbox): Outbox
  {
    o.(delivered := o.delivered + o.pending, pending := [], pauseMode := false)
  }

  class SyncedImuPublisher {
    const waitingListSize: nat
    const isEnabled: bool
    var pauseMode: bool
    var pendingMessages: seq<Imu>
    var published: seq<Imu>

    function View(): Outbox
      reads this
    {
      Outbox(isEnabled, waitingListSize, pauseMode, pendingMessages, published)
    }

    constructor (holdBack: bool, size: nat)
      ensures View() == Outbox(holdBack, size, false, [], [])
    {
      waitingListSize, isEnabled := size, holdBack;
      pauseMode, pendingMessages, published := false, [], [];
    }

    method Publish(msg: Imu) returns (thrown: bool)
      modifies this
      ensures thrown <==> old(View()).Full()
      ensures View() == if thrown then old(View()) else Sent(old(View()), msg)
    {
      if pauseMode {
        if |pendingMessages| >= waitingListSize {
          return true;
        }
        pendingMessages := pendingMessages + [msg];
      } else {
        published := published + [msg];
      }
      return false;
    }

    method Pause()
      modifies this
      ensures View() == Paused(old(View()))
    {
      if !isEnabled { return; }
      pauseMode := true;
    }

    method Resume()
      modifies this
      ensures View() == Resumed(old(View()))
    {
      PublishPendingMessages();
      pauseMode := false;
    }

    method PublishPendingMessages()
      modifies this
      ensures View() == old(View()).(delivered := old(published) + old(pendingMessages), pending := [])
    {
      ghost var was := pendingMessages;
      while |pendingMessages| > 0
        invariant pauseMode == old(pauseMode)
        invariant |pendingMessages| <= |was| && pendingMessages == was[|was| - |pendingMessages|..]
        invariant published == old(published) + was[..|was| - |pendingMessages|]
      {
        published := published + [pendingMessages[0]];
        pendingMessages := pendingMessages[1..];
      }
    }

    // The destructor's only statement.
    method Destroy()
      modifies this
      ensures View().pending == [] && View().delivered == old(View()).Accepted()
    {
      PublishPendingMessages();
    }
  }

  // ---------- The node ----------

  datatype SyncMethod = Copy | LinearInterpolation

  function Output(m: SyncMethod, s: seq<Sample>): seq<Imu>
  {
    match m case Copy => Copied(s) case LinearInterpolation => Fused(s)
  }

  function NewOutput(m: SyncMethod, seen: seq<Sample>, x: Sample): (r: seq<Imu>)
    ensures Output(m, seen + [x]) == Output(m, seen) + r
  {
    match m
    case Copy => ImuFuser.NewlyCopied(seen, x)
    case LinearInterpolation => ImuFuser.NewlyFused(seen, x)
  }

  // One step of the node: an IMU frame through imu_callback_sync, an image frame entering
  // frame_callback (Pause, then the time base), an image frame leaving it (Resume).
  datatype Event =
    | ImuFrame(kind: Kind, data: Vec3, at: TimeBase.Arrival)
    | FrameBegin(at: TimeBase.Arrival)
    | FrameEnd

  // seen and calls record, for the samples that reached the merger, the sample and its call number;
  // locked says that the callback's mutex was left locked by an exception.
  datatype State = State(clock: TimeBase.Clock, seq_: nat, seen: seq<Sample>, calls: seq<nat>, out: Outbox,
                         locked: bool)

  function Numbered(msgs: seq<Imu>, n: nat): (r: seq<Imu>)
    ensures |r| == |msgs|
  {
    seq(|msgs|, i requires 0 <= i < |msgs| => msgs[i].(seqNo := n))
  }

  // The merger's output on the samples seen, every message carrying the number of its call.
  function Expected(m: SyncMethod, seen: seq<Sample>, calls: seq<nat>): seq<Imu>
    requires |seen| == |calls|
  {
    if seen == [] then []
    else Expected(m, Init(seen), Init(calls)) + Numbered(NewOutput(m, Init(seen), Last(seen)), Last(calls))
  }

  function SampleOf(c: TimeBase.Clock, e: Event): Sample
    requires e.ImuFrame?
  {
    Sample(e.kind, e.data, TimeBase.StampAt(TimeBase.Rebased(c, e.at), e.at))
  }

  // What the callback does when the united topic has subscribers.
  function Merged(m: SyncMethod, s: State, e: Event): State
    requires e.ImuFrame?
  {
    var x := SampleOf(s.clock, e);
    var sent := SentAll(s.out, Numbered(NewOutput(m, s.seen, x), s.seq_));
    State(TimeBase.Rebased(s.clock, e.at), s.seq_, s.seen + [x], s.calls + [s.seq_], sent.0, !sent.1)
  }

  // For an IMU frame, at.stamped says whether the united topic has subscribers.
  function Arrived(s: State, at: TimeBase.Arrival): State
  {
    s.(clock := TimeBase.Noticed(s.clock, at), seq_ := s.seq_ + 1)
  }

  function Step(m: SyncMethod, s: State, e: Event): State
  {
    match e
    case ImuFrame(_, _, at) =>
      if s.locked then s
      else if !at.stamped then Arrived(s, at)
      else Merged(m, Arrived(s, at), e)
    case FrameBegin(at) => s.(clock := TimeBase.Tick(s.clock, at.(stamped := true)), out := Paused(s.out))
    case FrameEnd => s.(out := Resumed(s.out))
  }

  function Begin(holdBack: bool, limit: nat): State
  {
    State(TimeBase.START, 0, [], [], Outbox(holdBack, limit, false, [], []), false)
  }

  function Run(m: SyncMethod, s: State, es: seq<Event>): State
  {
    if es == [] then s else Step(m, Run(m, s, Init(es)), Last(es))
  }

  ghost predicate Increasing(calls: seq<nat>, bound: nat)
  {
    && (forall i, j :: 0 <= i < j < |calls| ==> calls[i] < calls[j])
    && (forall i :: 0 <= i < |calls| ==> calls[i] <= bound)
  }

  ghost predicate SeqOrdered(msgs: seq<Imu>)
  {
    forall i, j :: 0 <= i <= j < |msgs| ==> msgs[i].seqNo <= msgs[j].seqNo
  }

  lemma ExpectedSnoc(m: SyncMethod, seen: seq<Sample>, calls: seq<nat>, x: Sample, n: nat)
    requires |seen| == |calls|
    ensures Expected(m, seen + [x], calls + [n]) == Expected(m, seen, calls) + Numbered(NewOutput(m, seen, x), n)
  {
    Snoc(seen, x);
    Snoc(calls, n);
  }

  lemma IncreasingSnoc(calls: seq<nat>, bound: nat)
    requires Increasing(calls, bound)
    ensures Increasing(calls, bound + 1) && Increasing(calls + [bound + 1], bound + 1)
  {
  }

  lemma {:induction false} OutputGrows(m: SyncMethod, a: seq<Sample>, b: seq<Sample>)
    requires a <= b
    ensures Output(m, a) <= Output(m, b)
  {
    if a != b {
      OutputGrows(m, a, Init(b));
      var more := NewOutput(m, Init(b), Last(b));
      assert Init(b) + [Last(b)] == b;
    }
  }

  // The messages d are the first of o, with the same stamps and readings; only their numbers may differ.
  ghost predicate Begins(d: seq<Imu>, o: seq<Imu>)
  {
    && |d| <= |o|
    && forall i :: 0 <= i < |d| ==>
         d[i].stamp == o[i].stamp && d[i].angular == o[i].angular && d[i].linear == o[i].linear
  }

  lemma BeginsConcat(a: seq<Imu>, o: seq<Imu>, b: seq<Imu>, n: nat)
    requires Begins(a, o) && |a| == |o|
    ensures Begins(a + Numbered(b, n), o + b) && |a + Numbered(b, n)| == |o + b|
  {
  }

  lemma BeginsWithin(d: seq<Imu>, e: seq<Imu>, o: seq<Imu>, p: seq<Imu>)
    requires d <= e && Begins(e, o) && o <= p
    ensures Begins(d, p)
  {
  }

  // The messages expected for some of the samples begin what the merger outputs for all.
  lemma ExpectedWithin(m: SyncMethod, seen: seq<Sample>, calls: seq<nat>, all: seq<Sample>, d: seq<Imu>)
    requires |seen| == |calls| && seen <= all && d <= Expected(m, seen, calls)
    ensures Begins(d, Output(m, all))
    ensures seen == all && d == Expected(m, seen, calls) ==> |d| == |Output(m, all)|
  {
    ExpectedReadings(m, seen, calls);
    OutputGrows(m, seen, all);
    BeginsWithin(d, Expected(m, seen, calls), Output(m, seen), Output(m, all));
  }

  /** The messages expected have exactly the stamps and readings of the merger's output. */
  lemma {:induction false} ExpectedReadings(m: SyncMethod, seen: seq<Sample>, calls: seq<nat>)
    requires |seen| == |calls|
    ensures Begins(Expected(m, seen, calls), Output(m, seen)) && |Expected(m, seen, calls)| == |Output(m, seen)|
  {
    if seen != [] {
      hide NewOutput, Output, Begins;
      var u, x, c, n := Init(seen), Last(seen), Init(calls), Last(calls);
      assert seen == u + [x] && calls == c + [n];
      ExpectedReadings(m, u, c);
      ExpectedSnoc(m, u, c, x, n);
      BeginsConcat(Expected(m, u, c), Output(m, u), NewOutput(m, u, x), n);
    } else {
      assert Output(m, seen) == [];
    }
  }

  /** Every message expected carries the number of the call whose sample it was output for. */
  lemma {:induction false} ExpectedNumberIs(m: SyncMethod, seen: seq<Sample>, calls: seq<nat>, i: nat) returns (k: nat)
    requires |seen| == |calls| && i < |Expected(m, seen, calls)|
    ensures k < |seen| && Expected(m, seen, calls)[i].seqNo == calls[k]
    ensures |Output(m, seen[..k])| <= i < |Output(m, seen[..k + 1])|
  {
    hide NewOutput, Output;
    var u, c := Init(seen), Init(calls);
    ExpectedReadings(m, u, c);
    ExpectedReadings(m, seen, calls);
    if i < |Expected(m, u, c)| {
      k := ExpectedNumberIs(m, u, c, i);
      assert u[..k] == seen[..k] && u[..k + 1] == seen[..k + 1];
    } else {
      k := |seen| - 1;
      assert seen[..k] == u && seen[..k + 1] == seen;
    }
  }

  ghost predicate SeqBelow(msgs: seq<Imu>, bound: nat)
  {
    forall i :: 0 <= i < |msgs| ==> msgs[i].seqNo <= bound
  }

  lemma SeqAppend(a: seq<Imu>, msgs: seq<Imu>, n: nat, bound: nat)
    requires SeqOrdered(a) && SeqBelow(a, n) && n <= bound
    ensures SeqOrdered(a + Numbered(msgs, n)) && SeqBelow(a + Numbered(msgs, n), bound)
  {
  }

  lemma IncreasingInit(calls: seq<nat>, bound: nat)
    requires Increasing(calls, bound) && calls != []
    ensures Increasing(Init(calls), Last(calls)) && Last(calls) <= bound
  {
  }

  /** The numbers carried by the expected messages never decrease. */
  lemma {:induction false} ExpectedNumbers(m: SyncMethod, seen: seq<Sample>, calls: seq<nat>, bound: nat)
    requires |seen| == |calls| && Increasing(calls, bound)
    ensures SeqOrdered(Expected(m, seen, calls)) && SeqBelow(Expected(m, seen, calls), bound)
  {
    if seen != [] {
      hide NewOutput, Output, SeqOrdered, SeqBelow, Increasing;
      var u, x, c, n := Init(seen), Last(seen), Init(calls), Last(calls);
      assert seen == u + [x] && calls == c + [n];
      IncreasingInit(calls, bound);
      ExpectedNumbers(m, u, c, n);
      ExpectedSnoc(m, u, c, x, n);
      SeqAppend(Expected(m, u, c), NewOutput(m, u, x), n, bound);
    }
  }

  /** The callback is left locked exactly when a batch does not fit beside what is already held. */
  lemma LocksIff(m: SyncMethod, s: State, e: Event)
    requires s.out.Valid() && !s.locked
    ensures Step(m, s, e).locked <==>
              && e.ImuFrame? && e.at.stamped && s.out.pauseMode
              && var batch := NewOutput(m, s.seen, SampleOf(Arrived(s, e.at).clock, e));
                 batch != [] && |s.out.pending| + |batch| > s.out.limit
  {
  }

  // An image frame enters, one accelerometer sample arrives, then k gyro samples; the image frame stays.
  const AT := TimeBase.Arrival(1000.0, TimeBase.SystemTime, 0.0, true)

  function Flood(k: nat): seq<Event>
  {
    if k == 0 then [FrameBegin(AT)] + [ImuFrame(Accel, Vec3(0.0, 0.0, 0.0), AT)]
    else Flood(k - 1) + [ImuFrame(Gyro, Vec3(0.0, 0.0, 0.0), AT)]
  }

  lemma RunSnoc(m: SyncMethod, s: State, es: seq<Event>, e: Event)
    ensures Run(m, s, es + [e]) == Step(m, Run(m, s, es), e)
  {
    Snoc(es, e);
  }

  // What one gyro sample does to a copying node that is paused and has an accelerometer sample.
  lemma OneGyro(s: State, e: Event)
    requires e == ImuFrame(Gyro, Vec3(0.0, 0.0, 0.0), AT) && !s.locked && s.out.pauseMode && Base(s.seen).time == 1.0
    ensures var t := Step(Copy, s, e);
            && Base(t.seen).time == 1.0 && t.out.limit == s.out.limit && t.out.pauseMode
            && (t.locked <==> |s.out.pending| >= s.out.limit)
            && (!t.locked ==> |t.out.pending| == |s.out.pending| + 1)
  {
    var x := SampleOf(Arrived(s, e.at).clock, e);
    SnocGyro(s.seen, x);
    var batch := Numbered(NewOutput(Copy, s.seen, x), s.seq_ + 1);
    assert |batch| == 1;
    OneSent(s.out, batch);
    hide SentAll, Numbered, NewOutput, Base;
    assert Step(Copy, s, e).out == SentAll(s.out, batch).0;
  }

  lemma OneSent(o: Outbox, batch: seq<Imu>)
    requires |batch| == 1
    ensures SentAll(o, batch) == if o.Full() then (o, false) else (Sent(o, batch[0]), true)
  {
    assert batch[1..] == [];
  }

  lemma RunTwo(m: SyncMethod, s: State, a: Event, b: Event)
    ensures Run(m, s, [a] + [b]) == Step(m, Step(m, s, a), b)
  {
    hide Step;
    RunSnoc(m, s, [], a);
    RunSnoc(m, s, [a], b);
    assert [] + [a] == [a];
  }

  // Paused, with k messages held back.
  ghost predicate Filled(s: State, limit: nat, k: nat)
  {
    !s.locked && s.out.pauseMode && s.out.limit == limit && |s.out.pending| == k && Base(s.seen).time == 1.0
  }

  lemma {:induction false} FloodFills(limit: nat, k: nat)
    requires k <= limit
    ensures Filled(Run(Copy, Begin(true, limit), Flood(k)), limit, k)
  {
    hide Run, Step, Base;
    if k == 0 {
      RunTwo(Copy, Begin(true, limit), FrameBegin(AT), ImuFrame(Accel, Vec3(0.0, 0.0, 0.0), AT));
      FirstAccel(Begin(true, limit), ImuFrame(Accel, Vec3(0.0, 0.0, 0.0), AT));
    } else {
      FloodFills(limit, k - 1);
      RunSnoc(Copy, Begin(true, limit), Flood(k - 1), ImuFrame(Gyro, Vec3(0.0, 0.0, 0.0), AT));
      OneGyro(Run(Copy, Begin(true, limit), Flood(k - 1)), ImuFrame(Gyro, Vec3(0.0, 0.0, 0.0), AT));
    }
  }

  // The image frame enters, and the accelerometer sample arrives.
  lemma FirstAccel(s: State, e: Event)
    requires e == ImuFrame(Accel, Vec3(0.0, 0.0, 0.0), AT) && !s.locked && s.out.isEnabled && s.seen == []
    requires s.out.pending == []
    ensures var t := Step(Copy, Step(Copy, s, FrameBegin(AT)), e);
            && !t.locked && t.out.pauseMode && t.out.limit == s.out.limit && t.out.pending == []
            && Base(t.seen).time == 1.0
  {
    var r := Step(Copy, s, FrameBegin(AT));
    var x := SampleOf(Arrived(r, AT).clock, e);
    SnocAccel(r.seen, x);
    var n := r.seq_ + 1;
    assert Numbered(NewOutput(Copy, r.seen, x), n) == [];
    hide Numbered, NewOutput;
    assert Step(Copy, r, e).out == r.out;
  }

  /** It happens at every limit: while one image frame is being processed, one gyro sample more than the
      queue holds locks the callback for good. */
  lemma FloodLocks(limit: nat)
    ensures Run(Copy, Begin(true, limit), Flood(limit + 1)).locked
  {
    FloodFills(limit, limit);
    RunSnoc(Copy, Begin(true, limit), Flood(limit), ImuFrame(Gyro, Vec3(0.0, 0.0, 0.0), AT));
    OneGyro(Run(Copy, Begin(true, limit), Flood(limit)), ImuFrame(Gyro, Vec3(0.0, 0.0, 0.0), AT));
  }

  lemma AppendOrdered(s: seq<Sample>, x: Sample)
    requires Ordered(s) && (s != [] ==> Last(s).time <= x.time)
    ensures Ordered(s + [x]) && Last(s + [x]) == x
  {
  }

  // ---------- The node as it is written ----------

  class Node {
    const syncMethod: SyncMethod
    const base: TimeBase.Base
    const linear: ImuFuser.LinearFuser
    const copier: ImuFuser.CopyFuser
    const publisher: SyncedImuPublisher
    var seqNo: nat
    var locked: bool
    ghost var calls: seq<nat>

    ghost function Seen(): seq<Sample>
      reads this, linear, copier
    {
      if syncMethod.LinearInterpolation? then linear.seen else copier.seen
    }

    ghost function View(): State
      reads this, base, linear, copier, publisher
    {
      State(base.View(), seqNo, Seen(), calls, publisher.View(), locked)
    }

    ghost predicate Valid()
      reads this, base, linear, copier, publisher
    {
      linear.Valid() && copier.Valid()
    }

    constructor (m: SyncMethod, holdBack: bool, size: nat)
      ensures Valid() && View() == Begin(holdBack, size) && syncMethod == m
      ensures fresh(base) && fresh(linear) && fresh(copier) && fresh(publisher)
    {
      syncMethod := m;
      base := new TimeBase.Base();
      linear := new ImuFuser.LinearFuser();
      copier := new ImuFuser.CopyFuser();
      publisher := new SyncedImuPublisher(holdBack, size);
      seqNo, locked, calls := 0, false, [];
    }

    method FillImuData(x: Sample) returns (imuMsgs: seq<Imu>)
      requires Valid()
      modifies linear, copier
      ensures Valid() && Seen() == old(Seen()) + [x]
      ensures imuMsgs == NewOutput(syncMethod, old(Seen()), x)
    {
      match syncMethod {
        case Copy => imuMsgs := copier.FillImuDataCopy(x);
        case LinearInterpolation => imuMsgs := linear.FillImuDataLinearInterpolation(x);
      }
    }

    // The publishing loop of the callback; an exception ends it with the mutex still held.
    method PublishAll(imuMsgs: seq<Imu>) returns (thrown: bool)
      modifies publisher
      ensures (publisher.View(), !thrown) == SentAll(old(publisher.View()), Numbered(imuMsgs, seqNo))
    {
      var rest := imuMsgs;
      ghost var all := Numbered(imuMsgs, seqNo);
      while |rest| > 0
        invariant |rest| <= |imuMsgs| && rest == imuMsgs[|imuMsgs| - |rest|..]
        invariant SentAll(publisher.View(), Numbered(rest, seqNo)) == SentAll(old(publisher.View()), all)
      {
        var imuMsg := rest[0].(seqNo := seqNo);
        assert Numbered(rest, seqNo)[0] == imuMsg && Numbered(rest, seqNo)[1..] == Numbered(rest[1..], seqNo);
        thrown := publisher.Publish(imuMsg);
        if thrown { return; }
        rest := rest[1..];
      }
      return false;
    }

    // The part of the callback that runs when the united topic has subscribers.
    method Merge(e: Event) returns (thrown: bool)
      requires Valid() && e.ImuFrame?
      modifies this`calls, base, linear, copier, publisher
      ensures Valid()
      ensures View() == Merged(syncMethod, old(View()), e).(locked := locked)
      ensures thrown == Merged(syncMethod, old(View()), e).locked
    {
      var t := base.FrameSystemTimeSec(e.at);
      var imuMsgs := FillImuData(Sample(e.kind, e.data, t));
      calls := calls + [seqNo];
      thrown := PublishAll(imuMsgs);
    }

    method ImuCallbackSync(e: Event)
      requires Valid() && e.ImuFrame?
      modifies this, base, linear, copier, publisher
      ensures Valid() && View() == Step(syncMethod, old(View()), e)
    {
      if locked { return; }
      locked := true;
      base.Notice(e.at);
      seqNo := seqNo + 1;
      assert View() == Arrived(old(View()), e.at).(locked := true);
      if e.at.stamped {
        var thrown := Merge(e);
        if thrown { return; }
      }
      locked := false;
    }

    method FrameCallbackBegin(e: Event)
      requires Valid() && e.FrameBegin?
      modifies this, base, publisher
      ensures Valid() && View() == Step(syncMethod, old(View()), e)
    {
      publisher.Pause();
      base.Notice(e.at);
      var t := base.FrameSystemTimeSec(e.at);
    }

    method FrameCallbackEnd(e: Event)
      requires Valid() && e.FrameEnd?
      modifies this, publisher
      ensures Valid() && View() == Step(syncMethod, old(View()), e)
    {
      publisher.Resume();
    }
  }
}
