/** The united IMU topic message by message. The callback's mutex keeps other IMU frames out, but each
    Publish locks the publisher only for itself, and so do Pause and Resume: an image frame can begin
    or end between two messages of one batch. */
module ImuSchedule {
  import opened ImuSpec
  import opened ImuNode
  import TimeBase

  // ---------- The publisher by itself ----------

  datatype Request = Publish(msg: Imu) | Pause | Resume

  // What each request does; a Publish that finds the queue full throws and changes nothing.
  function Do(o: Outbox, q: Request): Outbox
  {
    match q
    case Publish(m) => if o.Full() then o else Sent(o, m)
    case Pause => Paused(o)
    case Resume => Resumed(o)
  }

  function QueueAfter(o: Outbox, qs: seq<Request>): Outbox
  {
    if qs == [] then o else Do(QueueAfter(o, Init(qs)), Last(qs))
  }

  // Read off the requests alone: whether the publisher is paused, and how many messages wait.
  datatype Tally = Tally(paused: bool, waiting: nat)

  function Count(holdBack: bool, limit: nat, qs: seq<Request>): Tally
  {
    if qs == [] then Tally(false, 0)
    else
      var t := Count(holdBack, limit, Init(qs));
      match Last(qs)
      case Publish(_) => if t.paused && t.waiting < limit then t.(waiting := t.waiting + 1) else t
      case Pause => if holdBack then t.(paused := true) else t
      case Resume => Tally(false, 0)
  }

  predicate Refused(t: Tally, limit: nat) { t.paused && t.waiting >= limit }

  // The messages taken, in the order of their requests: all but those that find the queue full.
  function Taken(holdBack: bool, limit: nat, qs: seq<Request>): seq<Imu>
  {
    if qs == [] then []
    else if Last(qs).Publish? && !Refused(Count(holdBack, limit, Init(qs)), limit) then
      Taken(holdBack, limit, Init(qs)) + [Last(qs).msg]
    else Taken(holdBack, limit, Init(qs))
  }

  /** Over every run of Publish, Pause and Resume, throwing or not: delivered followed by pending is the
      messages taken, in order; as many are pending as were taken since the last Resume while paused,
      never more than the limit; and none is when not paused. */
  lemma {:induction false} QueueRun(holdBack: bool, limit: nat, qs: seq<Request>)
    ensures var o, t := QueueAfter(Outbox(holdBack, limit, false, [], []), qs), Count(holdBack, limit, qs);
            && o.Valid() && o.limit == limit && o.isEnabled == holdBack
            && o.Accepted() == Taken(holdBack, limit, qs)
            && o.pauseMode == t.paused && |o.pending| == t.waiting
            && (!t.paused ==> o.delivered == Taken(holdBack, limit, qs))
  {
    if qs != [] { QueueRun(holdBack, limit, Init(qs)); }
  }

  // ---------- The node, one Publish at a time ----------

  // Where the callback stands: outside, inside with messages still to publish, or left by an exception
  // with its mutex held and the rest of its batch lost.
  datatype Phase = Idle | Publishing(todo: seq<Imu>) | Stuck(lost: seq<Imu>)

  function Rest(p: Phase): seq<Imu>
  {
    match p case Idle => [] case Publishing(todo) => todo case Stuck(lost) => lost
  }

  datatype Point = Point(clock: TimeBase.Clock, seq_: nat, seen: seq<Sample>, calls: seq<nat>, out: Outbox,
                         phase: Phase)

  // Enter: an IMU frame takes the mutex, is stamped and merged. ReadClock: an image frame is stamped.
  datatype Move =
    | Enter(kind: Kind, data: Vec3, at: TimeBase.Arrival)
    | PublishNext
    | Leave
    | PauseAll
    | ReadClock(at: TimeBase.Arrival)
    | ResumeAll

  function Entered(m: SyncMethod, s: Point, a: Move): Point
    requires a.Enter?
  {
    var c, n := TimeBase.Noticed(s.clock, a.at), s.seq_ + 1;
    if !a.at.stamped then s.(clock := c, seq_ := n, phase := Publishing([]))
    else
      var x := SampleOf(c, ImuFrame(a.kind, a.data, a.at));
      var batch := Numbered(NewOutput(m, s.seen, x), n);
      Point(TimeBase.Rebased(c, a.at), n, s.seen + [x], s.calls + [n], s.out, Publishing(batch))
  }

  // A move of the callback that is not its turn leaves everything as it is.
  function After(m: SyncMethod, s: Point, a: Move): Point
  {
    match a
    case Enter(_, _, _) => if s.phase.Idle? then Entered(m, s, a) else s
    case PublishNext =>
      if !s.phase.Publishing? || s.phase.todo == [] then s
      else if s.out.Full() then s.(phase := Stuck(s.phase.todo))
      else s.(out := Sent(s.out, s.phase.todo[0]), phase := Publishing(s.phase.todo[1..]))
    case Leave => if s.phase == Publishing([]) then s.(phase := Idle) else s
    case PauseAll => s.(out := Paused(s.out))
    case ReadClock(at) => s.(clock := TimeBase.Tick(s.clock, at.(stamped := true)))
    case ResumeAll => s.(out := Resumed(s.out))
  }

  function Start(holdBack: bool, limit: nat): Point
  {
    Point(TimeBase.START, 0, [], [], Outbox(holdBack, limit, false, [], []), Idle)
  }

  function Played(m: SyncMethod, s: Point, moves: seq<Move>): Point
  {
    if moves == [] then s else After(m, Played(m, s, Init(moves)), Last(moves))
  }

  ghost predicate Sound(m: SyncMethod, s: Point)
  {
    && |s.seen| == |s.calls| && Increasing(s.calls, s.seq_) && s.out.Valid()
    && s.out.Accepted() + Rest(s.phase) == Expected(m, s.seen, s.calls)
    && (s.phase.Stuck? ==> s.phase.lost != [])
  }

  lemma EnterKeepsSound(m: SyncMethod, s: Point, a: Move)
    requires Sound(m, s) && a.Enter? && s.phase.Idle?
    ensures Sound(m, After(m, s, a))
  {
    hide NewOutput, Expected, Numbered, Outbox.Valid, Outbox.Accepted;
    IncreasingSnoc(s.calls, s.seq_);
    var t := After(m, s, a);
    assert s.out.Accepted() + [] == s.out.Accepted();
    if a.at.stamped {
      var x := SampleOf(TimeBase.Noticed(s.clock, a.at), ImuFrame(a.kind, a.data, a.at));
      ExpectedSnoc(m, s.seen, s.calls, x, s.seq_ + 1);
    }
  }

  lemma PublishKeepsSound(m: SyncMethod, s: Point)
    requires Sound(m, s) && s.phase.Publishing? && s.phase.todo != []
    ensures Sound(m, After(m, s, PublishNext))
  {
    hide Expected;
    if !s.out.Full() {
      var a, x, rest := s.out.Accepted(), s.phase.todo[0], s.phase.todo[1..];
      assert s.phase.todo == [x] + rest;
      assert Sent(s.out, x).Accepted() == a + [x];
      assert a + ([x] + rest) == (a + [x]) + rest;
    }
  }

  lemma AfterKeepsSound(m: SyncMethod, s: Point, a: Move)
    requires Sound(m, s)
    ensures Sound(m, After(m, s, a))
  {
    match a
    case Enter(_, _, _) => if s.phase.Idle? { EnterKeepsSound(m, s, a); }
    case PublishNext => if s.phase.Publishing? && s.phase.todo != [] { PublishKeepsSound(m, s); }
    case Leave =>
    case PauseAll => assert Paused(s.out).Accepted() == s.out.Accepted();
    case ReadClock(_) =>
    case ResumeAll => assert Resumed(s.out).Accepted() == s.out.Accepted();
  }

  /** After every sequence of moves: delivered, pending and the rest of the batch in hand are together
      exactly the messages expected, in order, whatever images begin and end between two of them. */
  lemma {:induction false} EveryMove(m: SyncMethod, holdBack: bool, limit: nat, moves: seq<Move>)
    ensures Sound(m, Played(m, Start(holdBack, limit), moves))
  {
    if moves != [] {
      EveryMove(m, holdBack, limit, Init(moves));
      AfterKeepsSound(m, Played(m, Start(holdBack, limit), Init(moves)), Last(moves));
    } else {
      assert Sound(m, Start(holdBack, limit));
    }
  }

  /** An exception leaves the callback exactly when it publishes to a full queue; then the rest of the
      batch, and nothing else, is missing for good. */
  lemma StuckIff(m: SyncMethod, s: Point, a: Move)
    requires Sound(m, s)
    ensures var t := After(m, s, a);
            && (t.phase.Stuck? <==>
                  || s.phase.Stuck?
                  || (a.PublishNext? && Rest(s.phase) != [] && s.out.pauseMode && |s.out.pending| == s.out.limit))
            && (t.phase.Stuck? ==> t.phase.lost == Rest(s.phase) && t.out.Accepted() == s.out.Accepted())
  {
    assert Paused(s.out).Accepted() == s.out.Accepted() == Resumed(s.out).Accepted();
  }

  // ---------- What is delivered, from the moves alone ----------

  // The mutex: an IMU frame enters only when no other is inside.
  ghost predicate Excluded(m: SyncMethod, s: Point, moves: seq<Move>)
  {
    moves == [] || (Excluded(m, s, Init(moves)) && (Last(moves).Enter? ==> Played(m, s, Init(moves)).phase.Idle?))
  }

  // The frames stamped or noticed, in order.
  function Arrivals(moves: seq<Move>): seq<TimeBase.Arrival>
  {
    if moves == [] then []
    else
      match Last(moves)
      case Enter(_, _, at) => Arrivals(Init(moves)) + [at]
      case ReadClock(at) => Arrivals(Init(moves)) + [at.(stamped := true)]
      case _ => Arrivals(Init(moves))
  }

  // The IMU frames that found a subscriber, stamped by a clock that has seen all frames before.
  function SamplesOf(moves: seq<Move>): seq<Sample>
  {
    if moves == [] then []
    else if Last(moves).Enter? && Last(moves).at.stamped then
      SamplesOf(Init(moves)) +
      [Sample(Last(moves).kind, Last(moves).data,
              TimeBase.StampAt(TimeBase.After(TimeBase.START, Arrivals(moves)), Last(moves).at))]
    else SamplesOf(Init(moves))
  }

  lemma ArrivalsSnoc(s: seq<TimeBase.Arrival>, a: TimeBase.Arrival)
    ensures TimeBase.After(TimeBase.START, s + [a]) == TimeBase.Tick(TimeBase.After(TimeBase.START, s), a)
    ensures TimeBase.Stamps(TimeBase.START, s + [a]) ==
            TimeBase.Stamps(TimeBase.START, s) +
            if a.stamped then [TimeBase.StampAt(TimeBase.After(TimeBase.START, s + [a]), a)] else []
  {
    assert (s + [a])[..|s|] == s;
  }

  lemma {:induction false} SeenAre(m: SyncMethod, holdBack: bool, limit: nat, moves: seq<Move>)
    requires Excluded(m, Start(holdBack, limit), moves)
    ensures var s := Played(m, Start(holdBack, limit), moves);
            s.seen == SamplesOf(moves) && s.clock == TimeBase.After(TimeBase.START, Arrivals(moves))
  {
    if moves != [] {
      hide NewOutput, Numbered, TimeBase.After;
      SeenAre(m, holdBack, limit, Init(moves));
      match Last(moves)
      case Enter(_, _, at) => ArrivalsSnoc(Arrivals(Init(moves)), at);
      case ReadClock(at) => ArrivalsSnoc(Arrivals(Init(moves)), at.(stamped := true));
      case _ =>
    } else {
      assert TimeBase.After(TimeBase.START, []) == TimeBase.START;
    }
  }

  /** End to end, message by message: for every interleaving of IMU callbacks, their single messages and
      image frames that the mutex allows, the messages delivered are, numbers aside, a prefix of the
      merger's one-pass output on the samples that arrived, and exactly that output whenever the
      publisher is not paused and no message of a batch is outstanding; their numbers never decrease. */
  lemma EveryInterleaving(m: SyncMethod, holdBack: bool, limit: nat, moves: seq<Move>)
    requires Excluded(m, Start(holdBack, limit), moves)
    ensures var s := Played(m, Start(holdBack, limit), moves);
            var o := if m.Copy? then Copied(SamplesOf(moves)) else Fused(SamplesOf(moves));
            && Begins(s.out.delivered, o) && SeqOrdered(s.out.delivered)
            && (!s.out.pauseMode && Rest(s.phase) == [] ==> |s.out.delivered| == |o|)
  {
    EveryMove(m, holdBack, limit, moves);
    SeenAre(m, holdBack, limit, moves);
    hide Played, SamplesOf, Excluded, Sound;
    WhatIsDelivered(m, Played(m, Start(holdBack, limit), moves));
  }

  lemma WhatIsDelivered(m: SyncMethod, s: Point)
    requires Sound(m, s)
    ensures var o := if m.Copy? then Copied(s.seen) else Fused(s.seen);
            && Begins(s.out.delivered, o) && SeqOrdered(s.out.delivered)
            && (!s.out.pauseMode && Rest(s.phase) == [] ==> |s.out.delivered| == |o|)
  {
    hide NewOutput, Expected, Begins;
    var d, all := s.out.delivered, Expected(m, s.seen, s.calls);
    assert d + (s.out.pending + Rest(s.phase)) == all;
    ExpectedWithin(m, s.seen, s.calls, s.seen, d);
    ExpectedNumbers(m, s.seen, s.calls, s.seq_);
    assert d == all[..|d|];
  }

  // ---------- Stamps ----------

  lemma {:induction false} SamplesFollowStamps(moves: seq<Move>)
    requires TimeBase.NeverBack(TimeBase.Stamps(TimeBase.START, Arrivals(moves)))
    ensures Ordered(SamplesOf(moves))
    ensures var x, t := SamplesOf(moves), TimeBase.Stamps(TimeBase.START, Arrivals(moves));
            x != [] ==> t != [] && Last(x).time <= Last(t)
  {
    if moves != [] {
      hide TimeBase.NeverBack, TimeBase.Stamps, TimeBase.After, TimeBase.StampAt, Ordered;
      var u := Init(moves);
      match Last(moves) {
        case Enter(_, _, at) => StampsStep(moves, at);
        case ReadClock(at) => StampsStep(moves, at.(stamped := true));
        case _ =>
      }
      SamplesFollowStamps(u);
      if Last(moves).Enter? && Last(moves).at.stamped {
        AppendOrdered(SamplesOf(u), Last(SamplesOf(moves)));
      }
    } else {
      assert SamplesOf(moves) == [];
    }
  }

  lemma EndsIn(t: seq<real>, before: seq<real>)
    requires TimeBase.NeverBack(t) && t != [] && t == before + [Last(t)]
    ensures before != [] ==> Last(before) <= Last(t)
  {
    if before != [] { assert t[|before| - 1] == Last(before) && t[|before|] == Last(t); }
  }

  // One more arrival: the stamps before it never go back either, and none is later than the last.
  lemma StampsStep(moves: seq<Move>, a: TimeBase.Arrival)
    requires moves != [] && Arrivals(moves) == Arrivals(Init(moves)) + [a]
    requires TimeBase.NeverBack(TimeBase.Stamps(TimeBase.START, Arrivals(moves)))
    ensures var t := TimeBase.Stamps(TimeBase.START, Arrivals(moves));
            var before := TimeBase.Stamps(TimeBase.START, Arrivals(Init(moves)));
            var c := TimeBase.After(TimeBase.START, Arrivals(moves));
            && TimeBase.NeverBack(before)
            && (before != [] ==> t != [] && Last(before) <= Last(t))
            && (a.stamped ==> t != [] && Last(t) == TimeBase.StampAt(c, a))
  {
    ArrivalsSnoc(Arrivals(Init(moves)), a);
    if a.stamped {
      TimeBase.NeverBackSnoc(TimeBase.Stamps(TimeBase.START, Arrivals(Init(moves))),
                             TimeBase.StampAt(TimeBase.After(TimeBase.START, Arrivals(moves)), a));
      EndsIn(TimeBase.Stamps(TimeBase.START, Arrivals(moves)), TimeBase.Stamps(TimeBase.START, Arrivals(Init(moves))));
    } else {
      assert TimeBase.Stamps(TimeBase.START, Arrivals(moves)) == TimeBase.Stamps(TimeBase.START, Arrivals(Init(moves)));
    }
  }

  function Calls(moves: seq<Move>): nat
  {
    if moves == [] then 0 else Calls(Init(moves)) + if Last(moves).Enter? then 1 else 0
  }

  // The number of the call that merged each sample: how many IMU frames had entered by then.
  function NumbersOf(moves: seq<Move>): seq<nat>
  {
    if moves == [] then []
    else if Last(moves).Enter? && Last(moves).at.stamped then NumbersOf(Init(moves)) + [Calls(moves)]
    else NumbersOf(Init(moves))
  }

  lemma {:induction false} CallsAre(m: SyncMethod, holdBack: bool, limit: nat, moves: seq<Move>)
    requires Excluded(m, Start(holdBack, limit), moves)
    ensures var s := Played(m, Start(holdBack, limit), moves);
            s.calls == NumbersOf(moves) && s.seq_ == Calls(moves)
  {
    hide After;
    if moves != [] {
      var s := Played(m, Start(holdBack, limit), Init(moves));
      CallsAre(m, holdBack, limit, Init(moves));
      CallsNext(m, s, Last(moves));
      assert Played(m, Start(holdBack, limit), moves) == After(m, s, Last(moves));
      hide Played, Excluded;
    }
  }

  lemma CallsNext(m: SyncMethod, s: Point, a: Move)
    requires a.Enter? ==> s.phase.Idle?
    ensures After(m, s, a).seq_ == s.seq_ + if a.Enter? then 1 else 0
    ensures After(m, s, a).calls == if a.Enter? && a.at.stamped then s.calls + [s.seq_ + 1] else s.calls
  {
    hide NewOutput, Numbered, TimeBase.Noticed, TimeBase.Rebased, TimeBase.Tick, SampleOf;
  }

  /** Every message delivered is numbered by the IMU frames that had entered when its sample was merged. */
  lemma DeliveredNumber(m: SyncMethod, holdBack: bool, limit: nat, moves: seq<Move>, i: nat) returns (k: nat)
    requires Excluded(m, Start(holdBack, limit), moves)
    requires i < |Played(m, Start(holdBack, limit), moves).out.delivered|
    ensures k < |SamplesOf(moves)| == |NumbersOf(moves)|
    ensures |Output(m, SamplesOf(moves)[..k])| <= i < |Output(m, SamplesOf(moves)[..k + 1])|
    ensures Played(m, Start(holdBack, limit), moves).out.delivered[i].seqNo == NumbersOf(moves)[k]
  {
    EveryMove(m, holdBack, limit, moves);
    SeenAre(m, holdBack, limit, moves);
    CallsAre(m, holdBack, limit, moves);
    var s := Played(m, Start(holdBack, limit), moves);
    hide Played, SamplesOf, Excluded, NumbersOf, Output;
    k := NumberOfOne(m, s, i);
  }

  lemma NumberOfOne(m: SyncMethod, s: Point, i: nat) returns (k: nat)
    requires Sound(m, s) && i < |s.out.delivered|
    ensures k < |s.seen| == |s.calls| && s.out.delivered[i].seqNo == s.calls[k]
    ensures |Output(m, s.seen[..k])| <= i < |Output(m, s.seen[..k + 1])|
  {
    var d, all := s.out.delivered, Expected(m, s.seen, s.calls);
    assert d + (s.out.pending + Rest(s.phase)) == all;
    k := ExpectedNumberIs(m, s.seen, s.calls, i);
  }

  // What is delivered of an ordered stream has ordered stamps, whatever its numbers.
  lemma DeliveredInOrder(m: SyncMethod, x: seq<Sample>, d: seq<Imu>)
    requires Ordered(x) && Begins(d, if m.Copy? then Copied(x) else Fused(x))
    ensures Sorted(d)
  {
    FusedSorted(x);
    CopiedSorted(x);
  }

  /** On a hardware clock, if ROS time has reached the last stamp at every reset, the stamps delivered
      never go back, whatever the interleaving and the merging method. */
  lemma StampsNeverBack(m: SyncMethod, holdBack: bool, limit: nat, moves: seq<Move>)
    requires Excluded(m, Start(holdBack, limit), moves)
    requires TimeBase.AllHardware(Arrivals(moves)) && TimeBase.NowKeepsUp(Arrivals(moves))
    ensures Sorted(Played(m, Start(holdBack, limit), moves).out.delivered)
  {
    TimeBase.NeverBackIff(Arrivals(moves));
    SamplesFollowStamps(moves);
    EveryInterleaving(m, holdBack, limit, moves);
    DeliveredInOrder(m, SamplesOf(moves), Played(m, Start(holdBack, limit), moves).out.delivered);
  }

  // ---------- When the callback gets stuck, from the moves alone ----------

  // The messages of the batch in hand still to publish, were none refused.
  function Todo(m: SyncMethod, moves: seq<Move>): seq<Imu>
  {
    if moves == [] then []
    else
      match Last(moves)
      case Enter(_, _, at) =>
        if at.stamped then Numbered(NewOutput(m, SamplesOf(Init(moves)), Last(SamplesOf(moves))), Calls(moves)) else []
      case PublishNext => if Todo(m, Init(moves)) == [] then [] else Todo(m, Init(moves))[1..]
      case _ => Todo(m, Init(moves))
  }

  // What the publisher is asked to do.
  function Asked(m: SyncMethod, moves: seq<Move>): seq<Request>
  {
    if moves == [] then []
    else
      match Last(moves)
      case PublishNext =>
        var todo := Todo(m, Init(moves));
        Asked(m, Init(moves)) + if todo == [] then [] else [Publish(todo[0])]
      case PauseAll => Asked(m, Init(moves)) + [Pause]
      case ResumeAll => Asked(m, Init(moves)) + [Resume]
      case _ => Asked(m, Init(moves))
  }

  // Move k publishes a message while as many wait as the queue holds.
  ghost predicate OverflowsAt(m: SyncMethod, holdBack: bool, limit: nat, moves: seq<Move>, k: nat)
    requires k < |moves|
  {
    && moves[k].PublishNext? && Todo(m, moves[..k]) != []
    && Refused(Count(holdBack, limit, Asked(m, moves[..k])), limit)
  }

  // Until it gets stuck the node is what the moves alone say.
  ghost predicate AsTold(m: SyncMethod, holdBack: bool, limit: nat, moves: seq<Move>, s: Point)
  {
    && Rest(s.phase) == Todo(m, moves) && s.seq_ == Calls(moves) && s.seen == SamplesOf(moves)
    && s.out == QueueAfter(Outbox(holdBack, limit, false, [], []), Asked(m, moves))
  }

  lemma QueueSnoc(o: Outbox, qs: seq<Request>, q: Request)
    ensures QueueAfter(o, qs + [q]) == Do(QueueAfter(o, qs), q)
  {
    assert Init(qs + [q]) == qs;
  }

  lemma EnterAsTold(m: SyncMethod, holdBack: bool, limit: nat, moves: seq<Move>, s: Point)
    requires moves != [] && Last(moves).Enter? && s.phase.Idle? && AsTold(m, holdBack, limit, Init(moves), s)
    requires After(m, s, Last(moves)).seen == SamplesOf(moves)
    ensures AsTold(m, holdBack, limit, moves, After(m, s, Last(moves)))
  {
    hide NewOutput, Numbered, QueueAfter, TimeBase.Noticed, TimeBase.Rebased, TimeBase.StampAt, TimeBase.After;
    var a := Last(moves);
    var t := After(m, s, a);
    if a.at.stamped {
      var x := SampleOf(TimeBase.Noticed(s.clock, a.at), ImuFrame(a.kind, a.data, a.at));
      assert t.seen == s.seen + [x];
      Snoc(s.seen, x);
    }
  }

  lemma PublishAsTold(m: SyncMethod, holdBack: bool, limit: nat, moves: seq<Move>, s: Point)
    requires moves != [] && Last(moves).PublishNext? && !s.phase.Stuck? && AsTold(m, holdBack, limit, Init(moves), s)
    ensures var t, u := After(m, s, PublishNext), Init(moves);
            && (t.phase.Stuck? <==> Todo(m, u) != [] && Refused(Count(holdBack, limit, Asked(m, u)), limit))
            && (!t.phase.Stuck? ==> AsTold(m, holdBack, limit, moves, t))
  {
    hide SamplesOf, QueueAfter, Count;
    var u, o := Init(moves), Outbox(holdBack, limit, false, [], []);
    QueueRun(holdBack, limit, Asked(m, u));
    if Todo(m, u) != [] {
      QueueSnoc(o, Asked(m, u), Publish(Todo(m, u)[0]));
    } else {
      assert Asked(m, moves) == Asked(m, u) + [] == Asked(m, u);
    }
    assert SamplesOf(moves) == SamplesOf(u) by { SamplesQuiet(u, [PublishNext]); assert u + [PublishNext] == moves; }
  }

  /** Over every run the mutex allows: the callback is stuck if and only if some message was published
      while paused and with as many waiting as the queue holds, counted from the moves alone. */
  lemma {:induction false} StuckRun(m: SyncMethod, holdBack: bool, limit: nat, moves: seq<Move>)
    requires Excluded(m, Start(holdBack, limit), moves)
    ensures var s := Played(m, Start(holdBack, limit), moves);
            && (s.phase.Stuck? <==> exists k: nat :: k < |moves| && OverflowsAt(m, holdBack, limit, moves, k))
            && (!s.phase.Stuck? ==> AsTold(m, holdBack, limit, moves, s))
  {
    if moves != [] {
      var u, n := Init(moves), |moves| - 1;
      StuckRun(m, holdBack, limit, u);
      var s := Played(m, Start(holdBack, limit), u);
      SeenAre(m, holdBack, limit, moves);
      hide AsTold, SamplesOf, OverflowsAt, After;
      forall k: nat | k < n
        ensures OverflowsAt(m, holdBack, limit, moves, k) <==> OverflowsAt(m, holdBack, limit, u, k)
      {
        OverflowsBefore(m, holdBack, limit, moves, k);
      }
      if s.phase.Stuck? {
        StuckAfter(m, s, Last(moves));
      } else {
        NextAsTold(m, holdBack, limit, moves, s);
      }
    } else {
      assert AsTold(m, holdBack, limit, [], Start(holdBack, limit));
    }
  }

  lemma OverflowsBefore(m: SyncMethod, holdBack: bool, limit: nat, moves: seq<Move>, k: nat)
    requires k < |moves| - 1
    ensures OverflowsAt(m, holdBack, limit, moves, k) <==> OverflowsAt(m, holdBack, limit, Init(moves), k)
  {
    assert moves[..k] == Init(moves)[..k];
  }

  lemma StuckAfter(m: SyncMethod, s: Point, a: Move)
    requires s.phase.Stuck?
    ensures After(m, s, a).phase.Stuck?
  {
  }

  lemma NextAsTold(m: SyncMethod, holdBack: bool, limit: nat, moves: seq<Move>, s: Point)
    requires moves != [] && !s.phase.Stuck? && AsTold(m, holdBack, limit, Init(moves), s)
    requires Last(moves).Enter? ==> s.phase.Idle?
    requires After(m, s, Last(moves)).seen == SamplesOf(moves)
    ensures var t, n := After(m, s, Last(moves)), |moves| - 1;
            && (t.phase.Stuck? <==> OverflowsAt(m, holdBack, limit, moves, n))
            && (!t.phase.Stuck? ==> AsTold(m, holdBack, limit, moves, t))
  {
    assert moves[..|moves| - 1] == Init(moves);
    match Last(moves)
    case Enter(_, _, _) => hide AsTold; EnterAsTold(m, holdBack, limit, moves, s);
    case PublishNext => hide AsTold, After; PublishAsTold(m, holdBack, limit, moves, s);
    case _ => hide OverflowsAt; OtherAsTold(m, holdBack, limit, moves, s);
  }

  lemma OtherAsTold(m: SyncMethod, holdBack: bool, limit: nat, moves: seq<Move>, s: Point)
    requires moves != [] && !s.phase.Stuck? && AsTold(m, holdBack, limit, Init(moves), s)
    requires !Last(moves).Enter? && !Last(moves).PublishNext?
    ensures var t := After(m, s, Last(moves));
            !t.phase.Stuck? && (t.seen == SamplesOf(moves) ==> AsTold(m, holdBack, limit, moves, t))
  {
    hide SamplesOf, QueueAfter;
    var u, o := Init(moves), Outbox(holdBack, limit, false, [], []);
    match Last(moves)
    case PauseAll => QueueSnoc(o, Asked(m, u), Pause);
    case ResumeAll => QueueSnoc(o, Asked(m, u), Resume);
    case _ =>
  }

  // Moves that stamp nothing add no sample and no arrival.
  lemma {:induction false} SamplesQuiet(moves: seq<Move>, more: seq<Move>)
    requires forall a :: a in more ==> !a.Enter? && !a.ReadClock?
    ensures SamplesOf(moves + more) == SamplesOf(moves) && Arrivals(moves + more) == Arrivals(moves)
  {
    if more == [] {
      assert moves + more == moves;
    } else {
      SamplesQuiet(moves, Init(more));
      assert Init(moves + more) == moves + Init(more) && Last(moves + more) == Last(more);
      assert Last(more) in more;
    }
  }

  /** A node that does not hold messages back never gets stuck and never pauses: between batches it has
      delivered the whole output. */
  lemma {:induction false} WithoutHoldBack(m: SyncMethod, limit: nat, moves: seq<Move>)
    requires Excluded(m, Start(false, limit), moves)
    ensures var s := Played(m, Start(false, limit), moves);
            && !s.phase.Stuck? && !s.out.pauseMode
            && var o := if m.Copy? then Copied(SamplesOf(moves)) else Fused(SamplesOf(moves));
               Begins(s.out.delivered, o) && (Rest(s.phase) == [] ==> |s.out.delivered| == |o|)
  {
    StuckRun(m, false, limit, moves);
    forall k: nat | k < |moves| ensures !OverflowsAt(m, false, limit, moves, k) {
      NeverPaused(limit, Asked(m, moves[..k]));
    }
    NeverPaused(limit, Asked(m, moves));
    QueueRun(false, limit, Asked(m, moves));
    EveryInterleaving(m, false, limit, moves);
  }

  lemma {:induction false} NeverPaused(limit: nat, qs: seq<Request>)
    ensures !Count(false, limit, qs).paused
  {
    if qs != [] { NeverPaused(limit, Init(qs)); }
  }

  // ---------- The whole callback as one of these sequences ----------

  // The same state, the batch in hand forgotten.
  function Coarse(s: Point): State
  {
    State(s.clock, s.seq_, s.seen, s.calls, s.out, s.phase.Stuck?)
  }

  function Times(n: nat): seq<Move>
  {
    if n == 0 then [] else [PublishNext] + Times(n - 1)
  }

  lemma {:induction false} PlayedOn(m: SyncMethod, s: Point, a: seq<Move>, b: seq<Move>)
    ensures Played(m, s, a + b) == Played(m, Played(m, s, a), b)
  {
    if b == [] {
      assert a + b == a;
    } else {
      PlayedOn(m, s, a, Init(b));
      assert Init(a + b) == a + Init(b) && Last(a + b) == Last(b);
    }
  }

  lemma PlayedOne(m: SyncMethod, s: Point, a: Move)
    ensures Played(m, s, [a]) == After(m, s, a)
  {
    assert Init([a]) == [];
  }

  lemma {:induction false} StuckStays(m: SyncMethod, s: Point, n: nat)
    requires s.phase.Stuck?
    ensures Played(m, s, Times(n)) == s
  {
    if n > 0 {
      StuckStays(m, s, n - 1);
      PlayedOn(m, s, [PublishNext], Times(n - 1));
      PlayedOne(m, s, PublishNext);
    }
  }

  // Publishing a batch message by message, nothing coming between, is sending it as one.
  lemma {:induction false} BatchPlayed(m: SyncMethod, s: Point, batch: seq<Imu>)
    requires s.phase == Publishing(batch)
    ensures var t, sent := Played(m, s, Times(|batch|)), SentAll(s.out, batch);
            && t == s.(out := sent.0, phase := t.phase)
            && (sent.1 ==> t.phase == Publishing([])) && (!sent.1 ==> t.phase.Stuck?)
    decreases |batch|
  {
    if batch != [] {
      var u := After(m, s, PublishNext);
      PlayedOn(m, s, [PublishNext], Times(|batch| - 1));
      PlayedOne(m, s, PublishNext);
      if s.out.Full() {
        StuckStays(m, u, |batch| - 1);
      } else {
        BatchPlayed(m, u, batch[1..]);
      }
    }
  }

  // One event of the node as a sequence of moves: the undisturbed callback enters, publishes each
  // message and leaves; one that waits for a mutex left locked does nothing.
  function Script(m: SyncMethod, s: Point, e: Event): seq<Move>
  {
    match e
    case ImuFrame(kind, data, at) =>
      if s.phase.Idle? then
        var a := Enter(kind, data, at);
        [a] + (Times(|Rest(After(m, s, a).phase)|) + [Leave])
      else []
    case FrameBegin(at) => [PauseAll] + [ReadClock(at)]
    case FrameEnd => [ResumeAll]
  }

  /** The node's step, which the code's methods are shown to take, is such a sequence of moves. */
  lemma CallbackIsASequence(m: SyncMethod, s: Point, e: Event)
    requires !s.phase.Publishing?
    ensures var t := Played(m, s, Script(m, s, e));
            !t.phase.Publishing? && Coarse(t) == Step(m, Coarse(s), e)
  {
    match e
    case ImuFrame(_, _, _) => if s.phase.Idle? { FrameIsASequence(m, s, e); }
    case FrameBegin(at) =>
      hide After;
      PlayedOn(m, s, [PauseAll], [ReadClock(at)]);
      PlayedOne(m, s, PauseAll);
      PlayedOne(m, After(m, s, PauseAll), ReadClock(at));
      BeginIsTwoMoves(m, s, at);
    case FrameEnd => PlayedOne(m, s, ResumeAll);
  }

  lemma BeginIsTwoMoves(m: SyncMethod, s: Point, at: TimeBase.Arrival)
    ensures var t := After(m, After(m, s, PauseAll), ReadClock(at));
            t.phase == s.phase && Coarse(t) == Step(m, Coarse(s), FrameBegin(at))
  {
  }

  lemma FrameIsASequence(m: SyncMethod, s: Point, e: Event)
    requires e.ImuFrame? && s.phase.Idle?
    ensures var t := Played(m, s, Script(m, s, e));
            !t.phase.Publishing? && Coarse(t) == Step(m, Coarse(s), e)
  {
    hide Played, SentAll;
    var a := Enter(e.kind, e.data, e.at);
    var t := After(m, s, a);
    var n, sent := |Rest(t.phase)|, SentAll(s.out, Rest(t.phase));
    PlayedOn(m, s, [a], Times(n) + [Leave]);
    PlayedOn(m, t, Times(n), [Leave]);
    PlayedOne(m, s, a);
    BatchPlayed(m, t, Rest(t.phase));
    PlayedOne(m, Played(m, t, Times(n)), Leave);
    EntryIsTheStep(m, s, e);
  }

  // What entering decides, and the batch sent as one, is the step.
  lemma EntryIsTheStep(m: SyncMethod, s: Point, e: Event)
    requires e.ImuFrame? && s.phase.Idle?
    ensures var t := After(m, s, Enter(e.kind, e.data, e.at));
            var sent := SentAll(t.out, Rest(t.phase));
            Step(m, Coarse(s), e) == Coarse(t).(out := sent.0, locked := !sent.1)
  {
    if !e.at.stamped { assert SentAll(s.out, []) == (s.out, true); }
  }

  // A run of the node as one sequence of moves.
  function Scripts(m: SyncMethod, holdBack: bool, limit: nat, es: seq<Event>): seq<Move>
  {
    if es == [] then []
    else
      var u := Scripts(m, holdBack, limit, Init(es));
      u + Script(m, Played(m, Start(holdBack, limit), u), Last(es))
  }

  // The same frames and nothing else, read off the events alone.
  function Heard(es: seq<Event>): seq<Move>
  {
    if es == [] then []
    else
      match Last(es)
      case ImuFrame(kind, data, at) => Heard(Init(es)) + [Enter(kind, data, at)]
      case FrameBegin(at) => Heard(Init(es)) + [ReadClock(at)]
      case FrameEnd => Heard(Init(es))
  }

  lemma {:induction false} OnlyPublishes(n: nat)
    ensures forall a :: a in Times(n) ==> a.PublishNext?
  {
    if n > 0 { OnlyPublishes(n - 1); }
  }

  lemma {:induction false} ExcludedOn(m: SyncMethod, s: Point, a: seq<Move>, b: seq<Move>)
    requires Excluded(m, s, a) && Excluded(m, Played(m, s, a), b)
    ensures Excluded(m, s, a + b)
  {
    if b == [] {
      assert a + b == a;
    } else {
      ExcludedOn(m, s, a, Init(b));
      PlayedOn(m, s, a, Init(b));
      assert Init(a + b) == a + Init(b) && Last(a + b) == Last(b);
    }
  }

  lemma {:induction false} ExcludedIfNone(m: SyncMethod, s: Point, b: seq<Move>)
    requires forall a :: a in b ==> !a.Enter?
    ensures Excluded(m, s, b)
  {
    if b != [] {
      ExcludedIfNone(m, s, Init(b));
      assert Last(b) in b;
    }
  }

  lemma ScriptExcluded(m: SyncMethod, s: Point, e: Event)
    ensures Excluded(m, s, Script(m, s, e))
  {
    if e.ImuFrame? && s.phase.Idle? {
      var a := Enter(e.kind, e.data, e.at);
      var n := |Rest(After(m, s, a).phase)|;
      OnlyPublishes(n);
      ExcludedIfNone(m, After(m, s, a), Times(n) + [Leave]);
      PlayedOne(m, s, a);
      assert Init([a]) == [] && Excluded(m, s, []) && Played(m, s, []) == s;
      ExcludedOn(m, s, [a], Times(n) + [Leave]);
    } else {
      ExcludedIfNone(m, s, Script(m, s, e));
    }
  }

  lemma {:induction false} RunIsPlayed(m: SyncMethod, holdBack: bool, limit: nat, es: seq<Event>)
    ensures var moves := Scripts(m, holdBack, limit, es);
            && Excluded(m, Start(holdBack, limit), moves)
            && !Played(m, Start(holdBack, limit), moves).phase.Publishing?
            && Coarse(Played(m, Start(holdBack, limit), moves)) == Run(m, Begin(holdBack, limit), es)
  {
    if es != [] {
      hide Step, After, Script;
      RunIsPlayed(m, holdBack, limit, Init(es));
      var u := Scripts(m, holdBack, limit, Init(es));
      var s := Played(m, Start(holdBack, limit), u);
      CallbackIsASequence(m, s, Last(es));
      ScriptExcluded(m, s, Last(es));
      PlayedOn(m, Start(holdBack, limit), u, Script(m, s, Last(es)));
      ExcludedOn(m, Start(holdBack, limit), u, Script(m, s, Last(es)));
    }
  }

  // One frame more on both sides.
  lemma HeardToo(a: seq<Move>, b: seq<Move>, x: Move)
    requires SamplesOf(a) == SamplesOf(b) && Arrivals(a) == Arrivals(b)
    ensures SamplesOf(a + [x]) == SamplesOf(b + [x]) && Arrivals(a + [x]) == Arrivals(b + [x])
  {
    Snoc(a, x);
    Snoc(b, x);
  }

  lemma ScriptHeard(m: SyncMethod, s: Point, e: Event, u: seq<Move>, h: seq<Move>)
    requires s.phase.Idle? && SamplesOf(u) == SamplesOf(h) && Arrivals(u) == Arrivals(h)
    ensures var v := match e
                     case ImuFrame(kind, data, at) => h + [Enter(kind, data, at)]
                     case FrameBegin(at) => h + [ReadClock(at)]
                     case FrameEnd => h;
            SamplesOf(u + Script(m, s, e)) == SamplesOf(v) && Arrivals(u + Script(m, s, e)) == Arrivals(v)
  {
    hide SamplesOf, Arrivals, After;
    match e
    case ImuFrame(kind, data, at) =>
      var a := Enter(kind, data, at);
      var n := |Rest(After(m, s, a).phase)|;
      OnlyPublishes(n);
      HeardToo(u, h, a);
      SamplesQuiet(u + [a], Times(n) + [Leave]);
      assert u + Script(m, s, e) == (u + [a]) + (Times(n) + [Leave]);
    case FrameBegin(at) =>
      SamplesQuiet(u, [PauseAll]);
      HeardToo(u + [PauseAll], h, ReadClock(at));
      assert u + Script(m, s, e) == (u + [PauseAll]) + [ReadClock(at)];
    case FrameEnd => SamplesQuiet(u, [ResumeAll]);
  }

  lemma StuckHears(m: SyncMethod, s: Point, e: Event, u: seq<Move>)
    requires s.phase.Stuck?
    ensures SamplesOf(u + Script(m, s, e)) == SamplesOf(u)
  {
    match e
    case ImuFrame(_, _, _) => assert u + [] == u;
    case FrameBegin(at) =>
      SamplesQuiet(u, [PauseAll]);
      OneReading(u + [PauseAll], at);
      assert u + Script(m, s, e) == (u + [PauseAll]) + [ReadClock(at)];
    case FrameEnd => SamplesQuiet(u, [ResumeAll]);
  }

  lemma OneReading(moves: seq<Move>, at: TimeBase.Arrival)
    ensures SamplesOf(moves + [ReadClock(at)]) == SamplesOf(moves)
  {
    Snoc(moves, ReadClock(at));
  }

  // The samples merged are those heard, until the callback is stuck.
  lemma {:induction false} ScriptsHeard(m: SyncMethod, holdBack: bool, limit: nat, es: seq<Event>)
    ensures var moves := Scripts(m, holdBack, limit, es);
            && SamplesOf(moves) <= SamplesOf(Heard(es))
            && (!Played(m, Start(holdBack, limit), moves).phase.Stuck? ==>
                  SamplesOf(moves) == SamplesOf(Heard(es)) && Arrivals(moves) == Arrivals(Heard(es)))
  {
    if es != [] {
      ScriptsHeard(m, holdBack, limit, Init(es));
      RunIsPlayed(m, holdBack, limit, Init(es));
      var u := Scripts(m, holdBack, limit, Init(es));
      var s := Played(m, Start(holdBack, limit), u);
      PlayedOn(m, Start(holdBack, limit), u, Script(m, s, Last(es)));
      HeardGrows(es);
      if s.phase.Stuck? {
        StuckHears(m, s, Last(es), u);
        StuckForGood(m, s, Script(m, s, Last(es)));
      } else {
        ScriptHeard(m, s, Last(es), u, Heard(Init(es)));
      }
    }
  }

  lemma HeardGrows(es: seq<Event>)
    requires es != []
    ensures SamplesOf(Heard(Init(es))) <= SamplesOf(Heard(es))
  {
    match Last(es)
    case ImuFrame(kind, data, at) => Snoc(Heard(Init(es)), Enter(kind, data, at));
    case FrameBegin(at) => Snoc(Heard(Init(es)), ReadClock(at));
    case FrameEnd =>
  }

  lemma {:induction false} StuckForGood(m: SyncMethod, s: Point, moves: seq<Move>)
    requires s.phase.Stuck?
    ensures Played(m, s, moves).phase.Stuck?
  {
    if moves != [] { StuckForGood(m, s, Init(moves)); }
  }

  /** The same for whole callbacks, the steps the node's methods take: over every sequence of IMU frames
      and of image frames entering and leaving, delivered is, numbers aside, a prefix of the one-pass
      output on the samples read off the events, and all of it when neither locked nor paused. */
  lemma EndToEnd(m: SyncMethod, holdBack: bool, limit: nat, es: seq<Event>)
    ensures var s := Run(m, Begin(holdBack, limit), es);
            && s.out.Valid() && SeqOrdered(s.out.delivered)
            && var o := if m.Copy? then Copied(SamplesOf(Heard(es))) else Fused(SamplesOf(Heard(es)));
               Begins(s.out.delivered, o) && (!s.locked && !s.out.pauseMode ==> |s.out.delivered| == |o|)
  {
    var moves := Scripts(m, holdBack, limit, es);
    RunIsPlayed(m, holdBack, limit, es);
    ScriptsHeard(m, holdBack, limit, es);
    EveryInterleaving(m, holdBack, limit, moves);
    EveryMove(m, holdBack, limit, moves);
    hide Begins, SamplesOf, Played, Run, Scripts, Excluded;
    var d := Run(m, Begin(holdBack, limit), es).out.delivered;
    OutputGrows(m, SamplesOf(moves), SamplesOf(Heard(es)));
    BeginsWithin(d, d, Output(m, SamplesOf(moves)), Output(m, SamplesOf(Heard(es))));
  }

  /** And their stamps never go back, under the same condition on the clock. */
  lemma DeliveredStamps(m: SyncMethod, holdBack: bool, limit: nat, es: seq<Event>)
    requires TimeBase.AllHardware(Arrivals(Heard(es))) && TimeBase.NowKeepsUp(Arrivals(Heard(es)))
    ensures Sorted(Run(m, Begin(holdBack, limit), es).out.delivered)
  {
    EndToEnd(m, holdBack, limit, es);
    TimeBase.NeverBackIff(Arrivals(Heard(es)));
    SamplesFollowStamps(Heard(es));
    DeliveredInOrder(m, SamplesOf(Heard(es)), Run(m, Begin(holdBack, limit), es).out.delivered);
  }
}
