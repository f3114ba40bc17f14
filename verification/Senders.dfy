/** The two trajectory senders: both walk the points of a trajectory over a TCP link that may fail
    and be reconnected; one skips a point it could not deliver, the other gives up. */
module Senders {

  // ---------- The link ----------

  // tick counts the network operations so far, connects those that were connection attempts.
  datatype Link = Link(hasSocket: bool, connected: bool, tick: nat, connects: nat)
  {
    predicate Valid() { connected ==> hasSocket }
  }

  // The outcome of every network operation of a run, in order.
  type Net = nat -> bool

  // A link and whether the operation that led to it succeeded.
  datatype Done = Done(link: Link, ok: bool)

  const MAX_ATTEMPTS: nat := 3

  function Connect(net: Net, l: Link): Done
  {
    Done(Link(true, net(l.tick), l.tick + 1, l.connects + 1), net(l.tick))
  }

  function Disconnect(l: Link): Link
  {
    l.(hasSocket := false, connected := false)
  }

  // Sending six joint positions: nothing is tried on a link that is down.
  function Send(net: Net, l: Link): Done
  {
    if !l.connected then Done(l, false)
    else Done(l.(connected := net(l.tick), tick := l.tick + 1), net(l.tick))
  }

  function Attempts(net: Net, l: Link, n: nat): Done
    decreases n
  {
    if n == 0 then Done(l, false)
    else
      var c := Connect(net, l);
      if c.ok then c else Attempts(net, c.link, n - 1)
  }

  function Reconnect(net: Net, l: Link): Done
  {
    Attempts(net, Disconnect(l), MAX_ATTEMPTS)
  }

  /** Reconnecting succeeds exactly when one of the next three connection attempts does, leaves the
      link up exactly then, and stops at the first success. */
  lemma {:induction false} AttemptsOutcome(net: Net, l: Link, n: nat)
    requires !l.connected
    ensures var r := Attempts(net, l, n);
            && (r.ok <==> exists k :: l.tick <= k < l.tick + n && net(k))
            && r.link.connected == r.ok
            && 0 <= r.link.tick - l.tick == r.link.connects - l.connects <= n
            && (forall k :: l.tick <= k < r.link.tick - 1 ==> !net(k))
    decreases n
  {
    if n > 0 && !net(l.tick) {
      AttemptsOutcome(net, Connect(net, l).link, n - 1);
    }
  }

  // ---------- One point ----------

  // What sending one six-joint point comes to: the link after it, whether the point got through,
  // and whether there still is a link at all.
  datatype Sent = Sent(link: Link, delivered: bool, reachable: bool)

  function SendPoint(net: Net, l: Link): Sent
  {
    var first := Send(net, l);
    if first.ok then Sent(first.link, true, true)
    else
      var again := Reconnect(net, first.link);
      if !again.ok then Sent(again.link, false, false)
      else
        var second := Send(net, again.link);
        Sent(second.link, second.ok, true)
  }

  /** What the three operations do to a link, told by the network's next outcome: connecting makes a new
      socket and is up exactly if it succeeds, disconnecting leaves neither, sending does nothing on a
      link that is down and takes it down by failing. */
  lemma LinkMoves(net: Net, l: Link)
    ensures Connect(net, l) == Done(Link(true, net(l.tick), l.tick + 1, l.connects + 1), net(l.tick))
    ensures Disconnect(l) == Link(false, false, l.tick, l.connects)
    ensures !l.connected ==> Send(net, l) == Done(l, false)
    ensures l.connected ==>
              Send(net, l) == Done(Link(l.hasSocket, net(l.tick), l.tick + 1, l.connects), net(l.tick))
  {
  }

  // Of the three attempts from t on, the one at k is the first to succeed.
  ghost predicate Regained(net: Net, t: nat, k: nat)
  {
    t <= k < t + 3 && net(k) && forall j :: t <= j < k ==> !net(j)
  }

  /** One point in terms of the network: it is delivered exactly if it is sent at once, or one of the next
      three connection attempts succeeds and so does the operation after it; it finds the other side
      unreachable exactly if it is not sent at once and none of the three succeeds. */
  lemma PointOutcome(net: Net, l: Link)
    ensures var t := if l.connected then l.tick + 1 else l.tick;
            var atOnce := l.connected && net(l.tick);
            && (SendPoint(net, l).delivered <==> atOnce || exists k: nat :: Regained(net, t, k) && net(k + 1))
            && (SendPoint(net, l).reachable <==> atOnce || exists k: nat :: Regained(net, t, k))
  {
    var first := Send(net, l);
    if !first.ok {
      var down := Disconnect(first.link);
      var r := Attempts(net, down, MAX_ATTEMPTS);
      AttemptsOutcome(net, down, MAX_ATTEMPTS);
      AttemptsEnd(net, down, MAX_ATTEMPTS);
      if r.ok { assert Regained(net, down.tick, r.link.tick - 1); }
      if k: nat :| Regained(net, down.tick, k) { assert net(k) && r.ok && k == r.link.tick - 1; }
    }
  }

  // The last attempt made is the one that succeeded.
  lemma {:induction false} AttemptsEnd(net: Net, l: Link, n: nat)
    ensures var r := Attempts(net, l, n);
            r.ok ==> r.link.tick > l.tick && net(r.link.tick - 1)
    decreases n
  {
    if n > 0 && !net(l.tick) { AttemptsEnd(net, Connect(net, l).link, n - 1); }
  }

  // ---------- A trajectory ----------

  type Point = seq<real>

  datatype Mode = Lenient | Strict

  // The points delivered, by index; what the caller is told; the link at the end.
  datatype Report = Report(delivered: seq<nat>, result: bool, link: Link)

  // stop(i): the run was stopped, or ROS shut down, by the time point i is reached.
  function From(m: Mode, net: Net, stop: nat -> bool, points: seq<Point>, i: nat, l: Link): Report
    requires i <= |points|
    decreases |points| - i
  {
    if i == |points| then Report([], true, l)
    else if stop(i) then Report([], false, l)
    else if |points[i]| != 6 then From(m, net, stop, points, i + 1, l)
    else
      var s := SendPoint(net, l);
      if !s.reachable || (m.Strict? && !s.delivered) then Report([], false, s.link)
      else
        var rest := From(m, net, stop, points, i + 1, s.link);
        if s.delivered then rest.(delivered := [i] + rest.delivered) else rest
  }

  function Execute(m: Mode, net: Net, stop: nat -> bool, points: seq<Point>, l: Link): Report
  {
    if !l.connected || points == [] then Report([], false, l) else From(m, net, stop, points, 0, l)
  }

  // The six-joint points from i on, by index.
  function SixJoint(points: seq<Point>, i: nat): seq<nat>
    requires i <= |points|
    decreases |points| - i
  {
    if i == |points| then []
    else if |points[i]| == 6 then [i] + SixJoint(points, i + 1)
    else SixJoint(points, i + 1)
  }

  lemma {:induction false} StrictWithinLenientFrom(net: Net, stop: nat -> bool, points: seq<Point>, i: nat, l: Link)
    requires i <= |points|
    ensures var s, t := From(Strict, net, stop, points, i, l), From(Lenient, net, stop, points, i, l);
            && s.delivered <= t.delivered
            && (s.result ==> s == t)
    decreases |points| - i
  {
    if i < |points| && !stop(i) {
      if |points[i]| != 6 {
        StrictWithinLenientFrom(net, stop, points, i + 1, l);
      } else {
        StrictWithinLenientFrom(net, stop, points, i + 1, SendPoint(net, l).link);
      }
    }
  }

  /** Over the same trajectory, the same interruptions and the same network, what the strict sender
      delivers is a prefix of what the lenient one delivers; when the strict sender reports success
      the two have done exactly the same. */
  lemma StrictWithinLenient(net: Net, stop: nat -> bool, points: seq<Point>, l: Link)
    ensures var s, t := Execute(Strict, net, stop, points, l), Execute(Lenient, net, stop, points, l);
            && s.delivered <= t.delivered
            && (s.result ==> s == t)
  {
    if l.connected && points != [] { StrictWithinLenientFrom(net, stop, points, 0, l); }
  }

  /** On a link that is down, and for an empty trajectory, either sender fails at once: nothing is sent,
      no connection is attempted. */
  lemma NothingAtOnce(m: Mode, net: Net, stop: nat -> bool, points: seq<Point>, l: Link)
    requires !l.connected || points == []
    ensures Execute(m, net, stop, points, l) == Report([], false, l)
  {
  }

  lemma {:induction false} StoppedFrom(m: Mode, net: Net, stop: nat -> bool, points: seq<Point>, i: nat, l: Link,
                                       k: nat)
    requires i <= k < |points| && stop(k)
    ensures !From(m, net, stop, points, i, l).result
    ensures forall n :: n in From(m, net, stop, points, i, l).delivered ==> i <= n < k
    decreases |points| - i
  {
    if i < k && !stop(i) {
      StoppedFrom(m, net, stop, points, i + 1, if |points[i]| != 6 then l else SendPoint(net, l).link, k);
    }
  }

  /** A run stopped by the time a point is reached fails, and neither that point nor a later one is sent. */
  lemma StoppedBefore(m: Mode, net: Net, stop: nat -> bool, points: seq<Point>, l: Link, k: nat)
    requires k < |points| && stop(k)
    ensures !Execute(m, net, stop, points, l).result
    ensures forall n :: n in Execute(m, net, stop, points, l).delivered ==> n < k
  {
    if l.connected { StoppedFrom(m, net, stop, points, 0, l, k); }
  }

  // The link as point k finds it, every six-joint point from i on having been tried.
  function LinkAt(net: Net, points: seq<Point>, i: nat, l: Link, k: nat): Link
    requires i <= k <= |points|
    decreases k - i
  {
    if i == k then l
    else LinkAt(net, points, i + 1, if |points[i]| == 6 then SendPoint(net, l).link else l, k)
  }

  // Every point from i up to k lets the sender go on: it is not stopped there, and a six-joint point
  // leaves a link, and is delivered if the sender is strict.
  predicate Passes(m: Mode, net: Net, stop: nat -> bool, points: seq<Point>, i: nat, l: Link, k: nat)
    requires i <= k <= |points|
    decreases k - i
  {
    i == k ||
    (!stop(i) &&
     if |points[i]| != 6 then Passes(m, net, stop, points, i + 1, l, k)
     else
       var s := SendPoint(net, l);
       s.reachable && (s.delivered || m.Lenient?) && Passes(m, net, stop, points, i + 1, s.link, k))
  }

  lemma {:induction false} DeliveredFromIff(m: Mode, net: Net, stop: nat -> bool, points: seq<Point>, i: nat, l: Link,
                                            k: nat)
    requires i <= k < |points|
    ensures k in From(m, net, stop, points, i, l).delivered <==>
            && Passes(m, net, stop, points, i, l, k) && !stop(k)
            && |points[k]| == 6 && SendPoint(net, LinkAt(net, points, i, l, k)).delivered
    decreases |points| - i
  {
    var next := if |points[i]| == 6 then SendPoint(net, l).link else l;
    if i < k {
      DeliveredFromIff(m, net, stop, points, i + 1, next, k);
    } else {
      NoneBefore(m, net, stop, points, i + 1, next, i);
    }
  }

  lemma NoneBefore(m: Mode, net: Net, stop: nat -> bool, points: seq<Point>, i: nat, l: Link, k: nat)
    requires k < i <= |points|
    ensures k !in From(m, net, stop, points, i, l).delivered
  {
    DeliveredFrom(m, net, stop, points, i, l);
  }

  /** Which points get through: exactly the six-joint points that are reached without a stop, the link
      having come back after every point before (and every point before delivered, if the sender is
      strict), and that get through themselves. */
  lemma DeliveredIff(m: Mode, net: Net, stop: nat -> bool, points: seq<Point>, l: Link, k: nat)
    requires l.connected && k < |points|
    ensures k in Execute(m, net, stop, points, l).delivered <==>
            && Passes(m, net, stop, points, 0, l, k) && !stop(k)
            && |points[k]| == 6 && SendPoint(net, LinkAt(net, points, 0, l, k)).delivered
  {
    DeliveredFromIff(m, net, stop, points, 0, l, k);
  }

  // Strictly increasing indices of six-joint points, none before i.
  ghost predicate InOrder(points: seq<Point>, i: nat, d: seq<nat>)
  {
    && (forall a :: 0 <= a < |d| ==> i <= d[a] < |points| && |points[d[a]]| == 6)
    && (forall a, b :: 0 <= a < b < |d| ==> d[a] < d[b])
  }

  lemma InOrderCons(points: seq<Point>, i: nat, d: seq<nat>)
    requires i < |points| && |points[i]| == 6 && InOrder(points, i + 1, d)
    ensures InOrder(points, i, [i] + d)
  {
  }

  lemma {:induction false} DeliveredFrom(m: Mode, net: Net, stop: nat -> bool, points: seq<Point>, i: nat, l: Link)
    requires i <= |points|
    ensures InOrder(points, i, From(m, net, stop, points, i, l).delivered)
    ensures From(m, net, stop, points, i, l).link.connects <= l.connects + MAX_ATTEMPTS * |SixJoint(points, i)|
    decreases |points| - i
  {
    if i < |points| && !stop(i) {
      if |points[i]| != 6 {
        DeliveredFrom(m, net, stop, points, i + 1, l);
      } else {
        var s := SendPoint(net, l);
        PointConnects(net, l);
        DeliveredFrom(m, net, stop, points, i + 1, s.link);
        InOrderCons(points, i, From(m, net, stop, points, i + 1, s.link).delivered);
      }
    }
  }

  /** One point costs at most three connection attempts, none if its first sending gets through. */
  lemma PointConnects(net: Net, l: Link)
    ensures l.connects <= SendPoint(net, l).link.connects <= l.connects + 3
    ensures Send(net, l).ok ==> SendPoint(net, l).link.connects == l.connects
  {
    AttemptsOutcome(net, Disconnect(Send(net, l).link), MAX_ATTEMPTS);
  }

  /** With either sender each point is delivered at most once, in trajectory order, and only if it
      has six joints; a trajectory costs at most three connection attempts per six-joint point. */
  lemma DeliveredInOrder(m: Mode, net: Net, stop: nat -> bool, points: seq<Point>, l: Link)
    ensures InOrder(points, 0, Execute(m, net, stop, points, l).delivered)
    ensures Execute(m, net, stop, points, l).link.connects <= l.connects + 3 * |SixJoint(points, 0)|
  {
    if l.connected && points != [] { DeliveredFrom(m, net, stop, points, 0, l); }
  }

  lemma {:induction false} DeliveredCount(m: Mode, net: Net, stop: nat -> bool, points: seq<Point>, i: nat, l: Link)
    requires i <= |points|
    ensures |From(m, net, stop, points, i, l).delivered| <= |SixJoint(points, i)|
    decreases |points| - i
  {
    if i < |points| && !stop(i) {
      DeliveredCount(m, net, stop, points, i + 1, if |points[i]| != 6 then l else SendPoint(net, l).link);
    }
  }

  lemma {:induction false} SuccessFrom(net: Net, stop: nat -> bool, points: seq<Point>, i: nat, l: Link)
    requires i <= |points|
    ensures var s, t := From(Strict, net, stop, points, i, l), From(Lenient, net, stop, points, i, l);
            s.result <==> t.result && t.delivered == SixJoint(points, i)
    decreases |points| - i
  {
    if i < |points| && !stop(i) {
      if |points[i]| != 6 {
        SuccessFrom(net, stop, points, i + 1, l);
      } else {
        var p := SendPoint(net, l);
        SuccessFrom(net, stop, points, i + 1, p.link);
        DeliveredCount(Lenient, net, stop, points, i + 1, p.link);
        var rest := From(Lenient, net, stop, points, i + 1, p.link).delivered;
        assert ([i] + rest)[1..] == rest;
        assert ([i] + SixJoint(points, i + 1))[1..] == SixJoint(points, i + 1);
      }
    }
  }

  /** Strict success means complete delivery: the strict sender reports success if and only if the
      lenient one does and has delivered every six-joint point. */
  lemma StrictSuccessIff(net: Net, stop: nat -> bool, points: seq<Point>, l: Link)
    ensures var s, t := Execute(Strict, net, stop, points, l), Execute(Lenient, net, stop, points, l);
            && (s.result <==> t.result && t.delivered == SixJoint(points, 0))
            && (s.result ==> s.delivered == SixJoint(points, 0))
  {
    if l.connected && points != [] { SuccessFrom(net, stop, points, 0, l); }
    StrictWithinLenient(net, stop, points, l);
  }

  // The branch in which the lenient sender skips a point: the sending fails, the link comes back, and
  // the second sending fails as well.
  predicate Dropped(net: Net, l: Link)
  {
    var first := Send(net, l);
    !first.ok && Reconnect(net, first.link).ok && !Send(net, Reconnect(net, first.link).link).ok
  }

  // The branch in which either sender gives up: the sending fails and the link does not come back.
  predicate CutOff(net: Net, l: Link)
  {
    !Send(net, l).ok && !Reconnect(net, Send(net, l).link).ok
  }

  // Neither branch, at any six-joint point from i on, every link being the one the point before left.
  predicate NoneDropped(net: Net, points: seq<Point>, i: nat, l: Link)
    requires i <= |points|
    decreases |points| - i
  {
    i == |points| ||
    if |points[i]| != 6 then NoneDropped(net, points, i + 1, l)
    else !Dropped(net, l) && NoneDropped(net, points, i + 1, SendPoint(net, l).link)
  }

  predicate NeverCutOff(net: Net, points: seq<Point>, i: nat, l: Link)
    requires i <= |points|
    decreases |points| - i
  {
    i == |points| ||
    if |points[i]| != 6 then NeverCutOff(net, points, i + 1, l)
    else !CutOff(net, l) && NeverCutOff(net, points, i + 1, SendPoint(net, l).link)
  }

  // Of the three attempts from t on, the one at k is the first to succeed, and the operation after it fails.
  predicate LostAgain(net: Net, t: nat, k: nat)
  {
    t <= k < t + 3 && net(k) && !net(k + 1) && forall j :: t <= j < k ==> !net(j)
  }

  /** In terms of the network: a point is dropped exactly when it is not sent at once, one of the next
      three connection attempts succeeds, and the operation right after the first that does fails. */
  lemma DroppedIff(net: Net, l: Link)
    ensures var t := if l.connected then l.tick + 1 else l.tick;
            Dropped(net, l) <==>
              !(l.connected && net(l.tick)) && exists k :: LostAgain(net, t, k)
  {
    var first := Send(net, l);
    var r := Attempts(net, Disconnect(first.link), MAX_ATTEMPTS);
    AttemptsOutcome(net, Disconnect(first.link), MAX_ATTEMPTS);
    AttemptsEnd(net, Disconnect(first.link), MAX_ATTEMPTS);
    if Dropped(net, l) {
      assert LostAgain(net, Disconnect(first.link).tick, r.link.tick - 1);
    }
  }

  lemma {:induction false} LenientCompleteFrom(net: Net, stop: nat -> bool, points: seq<Point>, i: nat, l: Link)
    requires i <= |points|
    ensures var t := From(Lenient, net, stop, points, i, l);
            && (t.result <==> NeverCutOff(net, points, i, l) && forall k :: i <= k < |points| ==> !stop(k))
            && (t.result ==> (t.delivered == SixJoint(points, i) <==> NoneDropped(net, points, i, l)))
    decreases |points| - i
  {
    if i < |points| && !stop(i) {
      if |points[i]| != 6 {
        LenientCompleteFrom(net, stop, points, i + 1, l);
      } else {
        var p := SendPoint(net, l);
        LenientCompleteFrom(net, stop, points, i + 1, p.link);
        DeliveredCount(Lenient, net, stop, points, i + 1, p.link);
        var rest := From(Lenient, net, stop, points, i + 1, p.link).delivered;
        assert ([i] + rest)[1..] == rest;
        assert ([i] + SixJoint(points, i + 1))[1..] == SixJoint(points, i + 1);
      }
    }
  }

  /** The lenient sender reports success exactly when it was never stopped and the link always came
      back; what it then reports as success is complete if and only if no point was dropped. */
  lemma LenientCompleteIff(net: Net, stop: nat -> bool, points: seq<Point>, l: Link)
    requires l.connected && points != []
    ensures var t := Execute(Lenient, net, stop, points, l);
            && (t.result <==> NeverCutOff(net, points, 0, l) && forall k :: 0 <= k < |points| ==> !stop(k))
            && (t.result ==> (t.delivered == SixJoint(points, 0) <==> NoneDropped(net, points, 0, l)))
  {
    LenientCompleteFrom(net, stop, points, 0, l);
  }

  /** The strict sender reports success exactly when, moreover, no point was dropped. */
  lemma StrictSuccessByGuards(net: Net, stop: nat -> bool, points: seq<Point>, l: Link)
    requires l.connected && points != []
    ensures Execute(Strict, net, stop, points, l).result <==>
              && NeverCutOff(net, points, 0, l) && NoneDropped(net, points, 0, l)
              && forall k :: 0 <= k < |points| ==> !stop(k)
  {
    StrictSuccessIff(net, stop, points, l);
    LenientCompleteIff(net, stop, points, l);
  }

  /** The lenient sender's success says less: it can report success having delivered nothing. */
  lemma LenientSuccessCanBeEmpty()
    ensures var net: Net := k => k == 1;
            var point: Point := [0.0, 0.0, 0.0, 0.0, 0.0, 0.0];
            var t := Execute(Lenient, net, i => false, [point], Link(true, true, 0, 1));
            t.result && t.delivered == []
  {
    var net: Net := k => k == 1;
    var l := Link(true, true, 0, 1);
    assert Send(net, l) == Done(Link(true, false, 1, 1), false);
    assert Reconnect(net, Link(true, false, 1, 1)) == Done(Link(true, true, 2, 2), true);
    assert Send(net, Link(true, true, 2, 2)) == Done(Link(true, false, 3, 2), false);
  }

  /** A link that is down has had its socket taken away or has failed; one that is up has a socket. */
  lemma {:induction false} LinkStaysValid(m: Mode, net: Net, stop: nat -> bool, points: seq<Point>, i: nat, l: Link)
    requires i <= |points| && l.Valid()
    ensures From(m, net, stop, points, i, l).link.Valid()
    decreases |points| - i
  {
    if i < |points| && !stop(i) {
      if |points[i]| != 6 {
        LinkStaysValid(m, net, stop, points, i + 1, l);
      } else {
        AttemptsValid(net, Disconnect(Send(net, l).link), MAX_ATTEMPTS);
        LinkStaysValid(m, net, stop, points, i + 1, SendPoint(net, l).link);
      }
    }
  }

  lemma {:induction false} AttemptsValid(net: Net, l: Link, n: nat)
    requires l.Valid()
    ensures Attempts(net, l, n).link.Valid()
    decreases n
  {
    if n > 0 { AttemptsValid(net, Connect(net, l).link, n - 1); }
  }

  // ---------- The code ----------

  function Gather(points: seq<Point>, d: seq<nat>): seq<Point>
    requires forall a :: 0 <= a < |d| ==> d[a] < |points|
  {
    seq(|d|, a requires 0 <= a < |d| => points[d[a]])
  }

  class HkTcpClient {
    const net: Net
    var hasSocket: bool
    var connected: bool
    var tick: nat
    var connects: nat
    var received: seq<Point>

    function View(): Link
      reads this
    {
      Link(hasSocket, connected, tick, connects)
    }

    constructor (net: Net)
      ensures View() == Link(false, false, 0, 0) && received == [] && this.net == net
    {
      this.net := net;
      hasSocket, connected, tick, connects, received := false, false, 0, 0, [];
    }

    method ConnectOnce() returns (ok: bool)
      modifies this
      ensures Done(View(), ok) == Connect(net, old(View())) && received == old(received)
    {
      hasSocket := true;
      connects := connects + 1;
      ok := net(tick);
      tick := tick + 1;
      connected := ok;
    }

    method Close()
      modifies this
      ensures View() == Disconnect(old(View())) && received == old(received)
    {
      if hasSocket {
        hasSocket := false;
      }
      connected := false;
    }

    method SendJointPositions(p: Point) returns (ok: bool)
      requires View().Valid()
      modifies this
      ensures |p| == 6 ==> Done(View(), ok) == Send(net, old(View()))
      ensures |p| != 6 ==> View() == old(View()) && !ok
      ensures received == old(received) + if ok then [p] else []
    {
      if !connected {
        return false;
      }
      if |p| != 6 {
        return false;
      }
      assert hasSocket;
      ok := net(tick);
      tick := tick + 1;
      if ok {
        received := received + [p];
      } else {
        connected := false;
      }
    }

    method TryReconnect() returns (ok: bool)
      modifies this
      ensures Done(View(), ok) == Reconnect(net, old(View())) && received == old(received)
    {
      Close();
      var attempt := 0;
      while attempt < MAX_ATTEMPTS
        invariant attempt <= MAX_ATTEMPTS && received == old(received)
        invariant Attempts(net, View(), MAX_ATTEMPTS - attempt) == Reconnect(net, old(View()))
      {
        ok := ConnectOnce();
        if ok {
          return true;
        }
        attempt := attempt + 1;
      }
      return false;
    }
  }

  lemma GatherCons(points: seq<Point>, before: seq<nat>, i: nat, rest: seq<nat>)
    requires i < |points|
    requires forall a :: 0 <= a < |before| ==> before[a] < |points|
    requires forall a :: 0 <= a < |rest| ==> rest[a] < |points|
    ensures Gather(points, before + [i]) == Gather(points, before) + [points[i]]
    ensures before + ([i] + rest) == (before + [i]) + rest
  {
  }

  // A report whose deliveries come after those already made.
  function After(before: seq<nat>, r: Report): Report
  {
    r.(delivered := before + r.delivered)
  }

  ghost predicate Known(points: seq<Point>, d: seq<nat>)
  {
    forall a :: 0 <= a < |d| ==> d[a] < |points|
  }

  // The driver package's handler.
  class LenientHandler {
    const client: HkTcpClient
    var executing: bool

    constructor (client: HkTcpClient)
      ensures this.client == client && !executing
    {
      this.client, executing := client, false;
    }

    method StopExecution()
      modifies this
      ensures !executing
    {
      executing := false;
    }

    method ExecuteTrajectory(points: seq<Point>, stop: nat -> bool) returns (result: bool, delivered: seq<nat>)
      requires client.View().Valid()
      modifies this, client
      ensures Report(delivered, result, client.View()) == Execute(Lenient, client.net, stop, points, old(client.View()))
      ensures Known(points, delivered) && client.received == old(client.received) + Gather(points, delivered)
      ensures old(client.connected) && points != [] ==> !executing
    {
      delivered := [];
      if !client.connected {
        return false, delivered;
      }
      if |points| == 0 {
        return false, delivered;
      }
      executing := true;
      var i := 0;
      while i < |points|
        invariant i <= |points| && executing && client.View().Valid() && Known(points, delivered)
        invariant client.received == old(client.received) + Gather(points, delivered)
        invariant After(delivered, From(Lenient, client.net, stop, points, i, client.View())) ==
                  From(Lenient, client.net, stop, points, 0, old(client.View()))
      {
        if stop(i) { StopExecution(); }
        if !executing {
          return false, delivered;
        }
        if |points[i]| != 6 {
          i := i + 1;
          continue;
        }
        ghost var l := client.View();
        AttemptsValid(client.net, Disconnect(Send(client.net, l).link), MAX_ATTEMPTS);
        var success := client.SendJointPositions(points[i]);
        if !success {
          var again := client.TryReconnect();
          if !again {
            executing := false;
            return false, delivered;
          }
          success := client.SendJointPositions(points[i]);
          if !success {
            i := i + 1;
            continue;
          }
        }
        GatherCons(points, delivered, i, []);
        Reassociate(delivered, i, From(Lenient, client.net, stop, points, i + 1, client.View()).delivered);
        delivered := delivered + [i];
        i := i + 1;
      }
      executing := false;
      return true, delivered;
    }
  }

  lemma Reassociate(before: seq<nat>, i: nat, rest: seq<nat>)
    ensures before + ([i] + rest) == (before + [i]) + rest
  {
  }

  // The demo package's handler.
  class StrictHandler {
    const client: HkTcpClient
    var currentTrajectory: seq<Point>
    var executing: bool

    constructor (client: HkTcpClient)
      ensures this.client == client && !executing && currentTrajectory == []
    {
      this.client, currentTrajectory, executing := client, [], false;
    }

    method StopExecution()
      modifies this`executing
      ensures !executing
    {
      executing := false;
    }

    method ExecuteTrajectory(points: seq<Point>, stop: nat -> bool) returns (result: bool, delivered: seq<nat>)
      requires client.View().Valid()
      modifies this, client
      ensures Report(delivered, result, client.View()) == Execute(Strict, client.net, stop, points, old(client.View()))
      ensures Known(points, delivered) && client.received == old(client.received) + Gather(points, delivered)
      ensures old(client.connected) && points != [] ==> !executing && currentTrajectory == points
    {
      delivered := [];
      if !client.connected {
        return false, delivered;
      }
      if |points| == 0 {
        return false, delivered;
      }
      executing := true;
      currentTrajectory := points;
      var i := 0;
      while i < |points|
        invariant i <= |points| && executing && currentTrajectory == points
        invariant client.View().Valid() && Known(points, delivered)
        invariant client.received == old(client.received) + Gather(points, delivered)
        invariant After(delivered, From(Strict, client.net, stop, points, i, client.View())) ==
                  From(Strict, client.net, stop, points, 0, old(client.View()))
      {
        if stop(i) { StopExecution(); }
        if !executing {
          return false, delivered;
        }
        if |points[i]| != 6 {
          i := i + 1;
          continue;
        }
        ghost var l := client.View();
        AttemptsValid(client.net, Disconnect(Send(client.net, l).link), MAX_ATTEMPTS);
        var success := client.SendJointPositions(points[i]);
        if !success {
          var again := client.TryReconnect();
          if !again {
            executing := false;
            return false, delivered;
          }
          success := client.SendJointPositions(points[i]);
          if !success {
            executing := false;
            return false, delivered;
          }
        }
        GatherCons(points, delivered, i, []);
        Reassociate(delivered, i, From(Strict, client.net, stop, points, i + 1, client.View()).delivered);
        delivered := delivered + [i];
        i := i + 1;
      }
      executing := false;
      return true, delivered;
    }
  }
}
