/** The accelerometer/gyroscope merger of the RealSense node, as mathematics: what the two
    merging methods are to output for a whole stream of samples. */
module ImuSpec {
  import opened Common

  datatype Kind = Accel | Gyro

  datatype Vec3 = Vec3(x: real, y: real, z: real)

  datatype Sample = Sample(kind: Kind, data: Vec3, time: real)
  {
    // A sample counts as present only when its time is positive.
    predicate IsSet() { time > 0.0 }
  }

  // An acceleration computed by dividing by a zero time difference is infinite or not a number.
  datatype Reading = Finite(v: Vec3) | NonFinite

  datatype Imu = Imu(seqNo: nat, stamp: real, angular: Vec3, linear: Reading)

  // The value of a default-constructed sample: present nowhere, dated before every stream.
  const UNSET := Sample(Accel, Vec3(0.0, 0.0, 0.0), -1.0)

  function Lerp(a: real, b: real, t: real): real
  {
    a * (1.0 - t) + b * t
  }

  function LerpVec(a: Vec3, b: Vec3, t: real): Vec3
  {
    Vec3(Lerp(a.x, b.x, t), Lerp(a.y, b.y, t), Lerp(a.z, b.z, t))
  }

  function Alpha(a0: Sample, a1: Sample, g: Sample): real
    requires a0.time != a1.time
  {
    (g.time - a0.time) / (a1.time - a0.time)
  }

  function Blend(a0: Sample, a1: Sample, g: Sample): Reading
  {
    if a0.time == a1.time then NonFinite else Finite(LerpVec(a0.data, a1.data, Alpha(a0, a1, g)))
  }

  // CreateUnitedMessage: the gyro's reading and stamp, with an acceleration beside it.
  function Unite(accel: Reading, g: Sample): Imu
  {
    Imu(0, g.time, g.data, accel)
  }

  function Last<T>(s: seq<T>): T
    requires s != []
  {
    s[|s| - 1]
  }

  function Init<T>(s: seq<T>): seq<T>
    requires s != []
  {
    s[..|s| - 1]
  }

  // The latest accelerometer sample of a stream.
  function Base(s: seq<Sample>): Sample
  {
    if s == [] then UNSET else if Last(s).kind == Accel then Last(s) else Base(Init(s))
  }

  // The gyro samples that wait for the accelerometer sample closing their interval.
  function Pending(s: seq<Sample>): seq<Sample>
  {
    if s == [] || Last(s).kind == Accel then []
    else if Base(s).IsSet() && Last(s).time >= Base(s).time then Pending(Init(s)) + [Last(s)]
    else Pending(Init(s))
  }

  function Blends(a0: Sample, a1: Sample, gyros: seq<Sample>): (r: seq<Imu>)
    ensures |r| == |gyros|
  {
    seq(|gyros|, i requires 0 <= i < |gyros| => Unite(Blend(a0, a1, gyros[i]), gyros[i]))
  }

  /** Everything linear interpolation is to output for the stream s. */
  function Fused(s: seq<Sample>): seq<Imu>
  {
    if s == [] then []
    else if Last(s).kind == Accel then Fused(Init(s)) + Blends(Base(Init(s)), Last(s), Pending(Init(s)))
    else Fused(Init(s))
  }

  /** Everything the copy method is to output for the stream s. */
  function Copied(s: seq<Sample>): seq<Imu>
  {
    if s == [] then []
    else if Last(s).kind == Gyro && Base(s).time >= 0.0 then
      Copied(Init(s)) + [Unite(Finite(Base(s).data), Last(s))]
    else Copied(Init(s))
  }

  lemma Snoc<T>(s: seq<T>, x: T)
    ensures Last(s + [x]) == x && Init(s + [x]) == s
  {
  }

  lemma SnocAccel(s: seq<Sample>, x: Sample)
    requires x.kind == Accel
    ensures Base(s + [x]) == x && Pending(s + [x]) == []
    ensures Fused(s + [x]) == Fused(s) + Blends(Base(s), x, Pending(s))
    ensures Copied(s + [x]) == Copied(s)
  {
    Snoc(s, x);
  }

  lemma SnocGyro(s: seq<Sample>, x: Sample)
    requires x.kind == Gyro
    ensures Base(s + [x]) == Base(s) && Fused(s + [x]) == Fused(s)
    ensures Pending(s + [x]) == if Base(s).IsSet() && x.time >= Base(s).time then Pending(s) + [x] else Pending(s)
    ensures Copied(s + [x]) ==
            if Base(s).time >= 0.0 then Copied(s) + [Unite(Finite(Base(s).data), x)] else Copied(s)
  {
    Snoc(s, x);
  }

  // ---------- Cutting a stream at an accelerometer sample ----------

  lemma {:induction false} CutState(u: seq<Sample>, v: seq<Sample>)
    requires v != [] && v[0].kind == Accel
    ensures Base(u + v) == Base(v) && Pending(u + v) == Pending(v)
  {
    var x := Last(v);
    assert u + v == (u + Init(v)) + [x];
    assert v == Init(v) + [x];
    if x.kind == Accel {
      SnocAccel(u + Init(v), x);
      SnocAccel(Init(v), x);
    } else {
      CutState(u, Init(v));
      SnocGyro(u + Init(v), x);
      SnocGyro(Init(v), x);
    }
  }

  /** Work done before an accelerometer sample never has to be looked at again: what a stream
      outputs is what it outputs up to that sample, then what the rest outputs on its own. */
  lemma {:induction false} CutAtAccel(u: seq<Sample>, v: seq<Sample>)
    requires v != [] && v[0].kind == Accel
    ensures Fused(u + v) == Fused(u + [v[0]]) + Fused(v)
  {
    var x := Last(v);
    assert u + v == (u + Init(v)) + [x];
    assert v == Init(v) + [x];
    if |v| == 1 {
      assert v == [v[0]] && Fused(v) == [] by { SnocAccel([], x); assert [] + [x] == v; }
    } else {
      CutAtAccel(u, Init(v));
      if x.kind == Accel {
        CutState(u, Init(v));
        SnocAccel(u + Init(v), x);
        SnocAccel(Init(v), x);
      } else {
        SnocGyro(u + Init(v), x);
        SnocGyro(Init(v), x);
      }
    }
  }

  // A stream of at most two samples has nothing to output: the reason why short histories are kept.
  lemma {:induction false} ShortIsSilent(s: seq<Sample>)
    requires |s| < 3
    ensures Fused(s) == []
  {
    if |s| > 0 {
      assert s == Init(s) + [Last(s)];
      ShortIsSilent(Init(s));
      if |s| == 2 {
        SnocPending(s[0]);
        assert Init(s) == [s[0]];
      }
      if Last(s).kind == Accel { SnocAccel(Init(s), Last(s)); } else { SnocGyro(Init(s), Last(s)); }
    }
  }

  lemma SnocPending(x: Sample)
    ensures Pending([x]) == []
  {
    assert [x] == [] + [x];
    if x.kind == Gyro { SnocGyro([], x); }
  }

  // ---------- The same output, said sample by sample ----------

  // The index of the accelerometer sample nearest before k, or -1.
  function Prev(s: seq<Sample>, k: nat): int
    requires k <= |s|
  {
    if k == 0 then -1 else if s[k - 1].kind == Accel then k - 1 else Prev(s, k - 1)
  }

  // The index of the accelerometer sample nearest at or after k, or |s|.
  function Next(s: seq<Sample>, k: nat): nat
    requires k <= |s|
    decreases |s| - k
  {
    if k == |s| || s[k].kind == Accel then k else Next(s, k + 1)
  }

  // Sample k is a gyro sample between two accelerometer samples and no older than the first.
  predicate Due(s: seq<Sample>, k: nat)
    requires k < |s|
  {
    && s[k].kind == Gyro
    && 0 <= Prev(s, k) < |s| && s[Prev(s, k)].IsSet() && s[k].time >= s[Prev(s, k)].time
    && Next(s, k) < |s|
  }

  function At(s: seq<Sample>, k: nat): seq<Imu>
    requires k < |s|
  {
    if Due(s, k) then [Unite(Blend(s[Prev(s, k)], s[Next(s, k)], s[k]), s[k])] else []
  }

  // One look at every sample, in arrival order.
  function OnePass(s: seq<Sample>, n: nat): seq<Imu>
    requires n <= |s|
  {
    if n == 0 then [] else OnePass(s, n - 1) + At(s, n - 1)
  }

  lemma {:induction false} PrevIsBase(s: seq<Sample>, k: nat)
    requires k <= |s|
    ensures -1 <= Prev(s, k) < k
    ensures Base(s[..k]) == if Prev(s, k) >= 0 then s[Prev(s, k)] else UNSET
    ensures forall m :: Prev(s, k) < m < k ==> s[m].kind == Gyro
    ensures Prev(s, k) >= 0 ==> s[Prev(s, k)].kind == Accel
  {
    if k > 0 {
      assert s[..k] == s[..k - 1] + [s[k - 1]];
      Snoc(s[..k - 1], s[k - 1]);
      PrevIsBase(s, k - 1);
    }
  }

  lemma {:induction false} NextFacts(s: seq<Sample>, k: nat)
    requires k <= |s|
    ensures k <= Next(s, k) <= |s|
    ensures forall m :: k <= m < Next(s, k) ==> s[m].kind == Gyro
    ensures Next(s, k) < |s| ==> s[Next(s, k)].kind == Accel
    decreases |s| - k
  {
    if k < |s| && s[k].kind == Gyro { NextFacts(s, k + 1); }
  }

  lemma {:induction false} PrevExtends(s: seq<Sample>, x: Sample, k: nat)
    requires k <= |s|
    ensures Prev(s + [x], k) == Prev(s, k)
  {
    if k > 0 { PrevExtends(s, x, k - 1); }
  }

  lemma {:induction false} NextExtends(s: seq<Sample>, x: Sample, k: nat)
    requires k <= |s|
    ensures Next(s, k) < |s| ==> Next(s + [x], k) == Next(s, k)
    ensures Next(s, k) == |s| ==> Next(s + [x], k) == if x.kind == Accel then |s| else |s| + 1
    decreases |s| - k
  {
    NextFacts(s, k);
    if k < |s| && s[k].kind == Gyro {
      NextExtends(s, x, k + 1);
    } else if k == |s| && x.kind == Gyro {
      assert Next(s + [x], |s| + 1) == |s| + 1;
    }
  }

  // A later sample changes the fate of sample k only by closing its interval.
  lemma AtExtends(s: seq<Sample>, x: Sample, k: nat)
    requires k < |s| && (x.kind == Gyro || Next(s, k) < |s|)
    ensures At(s + [x], k) == At(s, k)
  {
    PrevExtends(s, x, k);
    NextExtends(s, x, k);
    NextFacts(s, k);
    PrevIsBase(s, k);
  }

  lemma {:induction false} OnePassExtendsGyro(s: seq<Sample>, x: Sample, n: nat)
    requires n <= |s| && x.kind == Gyro
    ensures OnePass(s + [x], n) == OnePass(s, n)
  {
    if n > 0 {
      OnePassExtendsGyro(s, x, n - 1);
      AtExtends(s, x, n - 1);
    }
  }

  // The samples after the last accelerometer sample output nothing until the next one arrives.
  lemma {:induction false} OnePassTail(s: seq<Sample>, n: nat)
    requires Prev(s, |s|) < n <= |s|
    ensures OnePass(s, |s|) == OnePass(s, n)
    decreases |s| - n
  {
    if n < |s| {
      PrevIsBase(s, |s|);
      OnePassTail(s, n + 1);
      NextTail(s, n);
    }
  }

  lemma {:induction false} NextTail(s: seq<Sample>, k: nat)
    requires k <= |s| && forall m :: k <= m < |s| ==> s[m].kind == Gyro
    ensures Next(s, k) == |s|
    decreases |s| - k
  {
    if k < |s| { NextTail(s, k + 1); }
  }

  lemma {:induction false} PrevTail(s: seq<Sample>, k: nat)
    requires k <= |s| && Prev(s, |s|) < k
    ensures Prev(s, k) == Prev(s, |s|)
    decreases |s| - k
  {
    PrevIsBase(s, |s|);
    if k < |s| {
      PrevTail(s, k + 1);
    }
  }

  lemma {:induction false} PrefixPrev(s: seq<Sample>, n: nat, k: nat)
    requires k <= n <= |s|
    ensures Prev(s[..n], k) == Prev(s, k)
  {
    if k > 0 { PrefixPrev(s, n, k - 1); }
  }

  // A closing accelerometer sample changes nothing up to the last one ...
  lemma {:induction false} OnePassBeforeAccel(s: seq<Sample>, x: Sample, n: nat)
    requires n <= |s| && n <= Prev(s, |s|) + 1
    ensures OnePass(s + [x], n) == OnePass(s, n)
  {
    if n > 0 {
      OnePassBeforeAccel(s, x, n - 1);
      PrevIsBase(s, |s|);
      NextBefore(s, n - 1, Prev(s, |s|));
      AtExtends(s, x, n - 1);
    }
  }

  // ... and makes the waiting samples after it due.
  lemma OnePassExtendsAccel(s: seq<Sample>, x: Sample)
    requires x.kind == Accel
    ensures OnePass(s + [x], |s|) == OnePass(s, |s|) + Blends(Base(s), x, Pending(s))
  {
    PrevIsBase(s, |s|);
    var p := Prev(s, |s|) + 1;
    OnePassBeforeAccel(s, x, p);
    OnePassTail(s, p);
    OnePassSplit(s + [x], p, |s|);
    SpanIsBlends(s, x, p, |s|);
    assert s[..|s|] == s;
  }

  // What the samples from m up to n output.
  function Span(s: seq<Sample>, m: nat, n: nat): seq<Imu>
    requires m <= n <= |s|
  {
    if m == n then [] else Span(s, m, n - 1) + At(s, n - 1)
  }

  lemma {:induction false} OnePassSplit(s: seq<Sample>, m: nat, n: nat)
    requires m <= n <= |s|
    ensures OnePass(s, n) == OnePass(s, m) + Span(s, m, n)
  {
    if m < n {
      OnePassSplit(s, m, n - 1);
      Regroup(OnePass(s, m), Span(s, m, n - 1), At(s, n - 1));
    }
  }

  lemma {:induction false} SpanIsBlends(s: seq<Sample>, x: Sample, m: nat, n: nat)
    requires m == Prev(s, |s|) + 1 && m <= n <= |s| && x.kind == Accel
    ensures Span(s + [x], m, n) == Blends(Base(s), x, Pending(s[..n]))
  {
    if m == n {
      NoneWaiting(s, n);
    } else {
      SpanIsBlends(s, x, m, n - 1);
      WaitingGrows(s, x, n - 1);
    }
  }

  lemma NoneWaiting(s: seq<Sample>, n: nat)
    requires n <= |s| && n == Prev(s, |s|) + 1
    ensures Pending(s[..n]) == []
  {
    PrevIsBase(s, |s|);
    if n > 0 { assert Last(s[..n]) == s[n - 1]; }
  }

  // What the closing sample x makes of the waiting sample k.
  lemma WaitingGrows(s: seq<Sample>, x: Sample, k: nat)
    requires Prev(s, |s|) < k < |s| && x.kind == Accel
    ensures Blends(Base(s), x, Pending(s[..k + 1])) == Blends(Base(s), x, Pending(s[..k])) + At(s + [x], k)
  {
    ClosedBy(s, x, k);
    PendingSnoc(s, k);
    BlendsGrow(Base(s), x, Pending(s[..k]), Pending(s[..k + 1]), s[k], At(s + [x], k));
  }

  lemma PendingSnoc(s: seq<Sample>, k: nat)
    requires k < |s| && s[k].kind == Gyro
    ensures Pending(s[..k + 1]) ==
            if Base(s[..k]).IsSet() && s[k].time >= Base(s[..k]).time then Pending(s[..k]) + [s[k]] else Pending(s[..k])
  {
    assert s[..k + 1] == s[..k] + [s[k]];
    SnocGyro(s[..k], s[k]);
  }

  lemma BlendsGrow(a0: Sample, a1: Sample, p: seq<Sample>, q: seq<Sample>, g: Sample, more: seq<Imu>)
    requires q == if a0.IsSet() && g.time >= a0.time then p + [g] else p
    requires more == if a0.IsSet() && g.time >= a0.time then [Unite(Blend(a0, a1, g), g)] else []
    ensures Blends(a0, a1, q) == Blends(a0, a1, p) + more
  {
    if a0.IsSet() && g.time >= a0.time { BlendsSnoc(a0, a1, p, g); }
  }

  lemma ClosedBy(s: seq<Sample>, x: Sample, k: nat)
    requires Prev(s, |s|) < k < |s| && x.kind == Accel
    ensures s[k].kind == Gyro && Base(s[..k]) == Base(s)
    ensures At(s + [x], k) == if Base(s).IsSet() && s[k].time >= Base(s).time
                              then [Unite(Blend(Base(s), x, s[k]), s[k])] else []
  {
    PrevIsBase(s, |s|);
    PrevIsBase(s, k);
    PrevTail(s, k);
    NextTail(s, k);
    PrevExtends(s, x, k);
    NextExtends(s, x, k);
    assert s[..|s|] == s;
  }

  lemma {:induction false} NextBefore(s: seq<Sample>, k: nat, p: nat)
    requires k <= p < |s| && s[p].kind == Accel
    ensures Next(s, k) <= p
    decreases p - k
  {
    if k < p && s[k].kind == Gyro { NextBefore(s, k + 1, p); }
  }

  lemma BlendsSnoc(a0: Sample, a1: Sample, gyros: seq<Sample>, g: Sample)
    ensures Blends(a0, a1, gyros + [g]) == Blends(a0, a1, gyros) + [Unite(Blend(a0, a1, g), g)]
  {
  }

  /** Interpolation is a one-pass function of the whole stream: sample by sample in arrival order,
      exactly the gyro samples that lie between two accelerometer samples and are no older than the
      first, each once, each blended from its own two neighbours. */
  lemma {:induction false} FusedIsOnePass(s: seq<Sample>)
    ensures Fused(s) == OnePass(s, |s|)
  {
    if s != [] {
      var u, x := Init(s), Last(s);
      assert s == u + [x];
      FusedIsOnePass(u);
      LastLook(u, x);
      if x.kind == Accel {
        SnocAccel(u, x);
        OnePassExtendsAccel(u, x);
      } else {
        SnocGyro(u, x);
        OnePassExtendsGyro(u, x, |u|);
      }
    }
  }

  // The last sample of a stream outputs nothing of its own.
  lemma LastLook(u: seq<Sample>, x: Sample)
    ensures OnePass(u + [x], |u| + 1) == OnePass(u + [x], |u|)
  {
    var s := u + [x];
    if x.kind == Gyro {
      NextTail(s, |u|);
      PrevIsBase(s, |u|);
    }
    assert At(s, |u|) == [];
  }

  // ---------- What every output message is ----------

  ghost predicate Bracket(s: seq<Sample>, i: nat, k: nat, j: nat)
  {
    && i < k < j < |s|
    && s[i].kind == Accel && s[j].kind == Accel
    && (forall m :: i < m < j ==> s[m].kind == Gyro)
    && s[i].time > 0.0 && s[i].time <= s[k].time
  }

  lemma {:induction false} OnePassMember(s: seq<Sample>, n: nat, r: nat) returns (i: nat, k: nat, j: nat)
    requires n <= |s| && r < |OnePass(s, n)|
    ensures Bracket(s, i, k, j) && k < n && Due(s, k) && i == Prev(s, k) && j == Next(s, k)
    ensures OnePass(s, n)[r] == Unite(Blend(s[i], s[j], s[k]), s[k])
  {
    if r < |OnePass(s, n - 1)| {
      i, k, j := OnePassMember(s, n - 1, r);
    } else {
      PrevIsBase(s, n - 1);
      NextFacts(s, n - 1);
      i, k, j := Prev(s, n - 1), n - 1, Next(s, n - 1);
    }
  }

  /** Each output message comes from a gyro sample and the two accelerometer samples around it. */
  lemma FusedMember(s: seq<Sample>, r: nat) returns (i: nat, k: nat, j: nat)
    requires r < |Fused(s)|
    ensures Bracket(s, i, k, j) && Due(s, k) && i == Prev(s, k) && j == Next(s, k)
    ensures Fused(s)[r] == Unite(Blend(s[i], s[j], s[k]), s[k])
    ensures Fused(s)[r].stamp == s[k].time && Fused(s)[r].angular == s[k].data
    ensures Interpolated(s[i], s[j], s[k], Fused(s)[r].linear)
  {
    hide Blend, Interpolated;
    FusedIsOnePass(s);
    i, k, j := OnePassMember(s, |s|, r);
    BlendIs(s[i], s[j], s[k]);
  }

  // The mean of the two accelerations, weighted by the gyro's place between their times.
  predicate Interpolated(a: Sample, b: Sample, g: Sample, v: Reading)
  {
    if a.time == b.time then v == NonFinite
    else
      var t := (g.time - a.time) / (b.time - a.time);
      v == Finite(Vec3(
        a.data.x * (1.0 - t) + b.data.x * t,
        a.data.y * (1.0 - t) + b.data.y * t,
        a.data.z * (1.0 - t) + b.data.z * t))
  }

  lemma BlendIs(a: Sample, b: Sample, g: Sample)
    ensures Interpolated(a, b, g, Blend(a, b, g))
  {
  }

  // ---------- Dividing by the time between two accelerometer samples ----------

  // Every gyro sample to be output lies between two accelerometer samples of different times.
  ghost predicate Apart(s: seq<Sample>)
  {
    forall k :: 0 <= k < |s| && Due(s, k) ==> s[Prev(s, k)].time != s[Next(s, k)].time
  }

  // A sample that is due has been output by the time all before n have been looked at.
  lemma {:induction false} DueIsOutput(s: seq<Sample>, n: nat, k: nat) returns (r: nat)
    requires k < n <= |s| && Due(s, k)
    ensures r < |OnePass(s, n)| && OnePass(s, n)[r] == Unite(Blend(s[Prev(s, k)], s[Next(s, k)], s[k]), s[k])
  {
    if k == n - 1 {
      r := |OnePass(s, n - 1)|;
    } else {
      r := DueIsOutput(s, n - 1, k);
    }
  }

  /** Every output acceleration is a finite number if and only if no gyro sample is output between two
      accelerometer samples of the same time. */
  lemma FiniteIff(s: seq<Sample>)
    ensures (forall r :: 0 <= r < |Fused(s)| ==> Fused(s)[r].linear.Finite?) <==> Apart(s)
  {
    if Apart(s) {
      forall r | 0 <= r < |Fused(s)| ensures Fused(s)[r].linear.Finite? {
        var i, k, j := FusedMember(s, r);
      }
    } else {
      var k :| 0 <= k < |s| && Due(s, k) && s[Prev(s, k)].time == s[Next(s, k)].time;
      FusedIsOnePass(s);
      var r := DueIsOutput(s, |s|, k);
      assert !Fused(s)[r].linear.Finite?;
    }
  }

  /** Three samples of one time are enough: the middle one is output with no finite acceleration. */
  lemma OneTimeIsNotFinite(v: Vec3, turn: Vec3, w: Vec3, t: real)
    requires t > 0.0
    ensures Fused([Sample(Accel, v, t), Sample(Gyro, turn, t), Sample(Accel, w, t)]) == [Imu(0, t, turn, NonFinite)]
  {
    var a, g, b := Sample(Accel, v, t), Sample(Gyro, turn, t), Sample(Accel, w, t);
    assert [a, g, b] == (([] + [a]) + [g]) + [b];
    SnocAccel([], a);
    SnocGyro([] + [a], g);
    SnocAccel(([] + [a]) + [g], b);
  }

  // ---------- Streams in time order ----------

  ghost predicate Ordered(s: seq<Sample>)
  {
    forall i, j :: 0 <= i <= j < |s| ==> s[i].time <= s[j].time
  }

  predicate Between(a: real, r: real, b: real)
  {
    a <= r <= b || b <= r <= a
  }

  predicate BetweenVec(a: Vec3, r: Vec3, b: Vec3)
  {
    Between(a.x, r.x, b.x) && Between(a.y, r.y, b.y) && Between(a.z, r.z, b.z)
  }

  lemma ProductSign(a: real, b: real)
    requires 0.0 <= a && 0.0 <= b
    ensures 0.0 <= a * b
    ensures 0.0 < a && 0.0 < b ==> 0.0 < a * b
  {
  }

  lemma LerpBetween(a: real, b: real, t: real)
    requires 0.0 <= t <= 1.0
    ensures Between(a, Lerp(a, b, t), b)
  {
    assert Lerp(a, b, t) == a + (b - a) * t == b + (a - b) * (1.0 - t);
    if a <= b {
      ProductSign(b - a, t);
      ProductSign(b - a, 1.0 - t);
    } else {
      ProductSign(a - b, t);
      ProductSign(a - b, 1.0 - t);
    }
  }

  lemma QuotientInUnit(e: real, d: real)
    requires 0.0 <= e <= d && 0.0 < d
    ensures 0.0 <= e / d <= 1.0
  {
    var t := e / d;
    assert t * d == e;
    assert (t - 1.0) * d == e - d && (-t) * d == -e;
    if t < 0.0 { ProductSign(-t, d); }
    if t > 1.0 { ProductSign(t - 1.0, d); }
  }

  /** On a stream in time order, every finite output acceleration (all of them, by FiniteIff, unless
      something is output between two accelerometer samples of one time) was made with a weight in
      [0, 1] and lies, component by component, between the two it was made from. */
  lemma InterpolationBound(s: seq<Sample>, r: nat) returns (i: nat, k: nat, j: nat)
    requires Ordered(s) && r < |Fused(s)| && Fused(s)[r].linear.Finite?
    ensures Bracket(s, i, k, j) && s[i].time < s[j].time
    ensures 0.0 <= Alpha(s[i], s[j], s[k]) <= 1.0
    ensures Fused(s)[r].stamp == s[k].time && Fused(s)[r].angular == s[k].data
    ensures BetweenVec(s[i].data, Fused(s)[r].linear.v, s[j].data)
  {
    i, k, j := FusedMember(s, r);
    var dt, e := s[j].time - s[i].time, s[k].time - s[i].time;
    assert 0.0 <= e <= dt && dt > 0.0;
    var t := Alpha(s[i], s[j], s[k]);
    QuotientInUnit(e, dt);
    LerpBetween(s[i].data.x, s[j].data.x, t);
    LerpBetween(s[i].data.y, s[j].data.y, t);
    LerpBetween(s[i].data.z, s[j].data.z, t);
  }

  function Affine(c: Vec3, d: Vec3, t: real): Vec3
  {
    Vec3(c.x + d.x * t, c.y + d.y * t, c.z + d.z * t)
  }

  lemma LerpAffine(c: real, d: real, t0: real, t1: real, t: real)
    requires t0 != t1
    ensures Lerp(c + d * t0, c + d * t1, (t - t0) / (t1 - t0)) == c + d * t
  {
    var w := (t - t0) / (t1 - t0);
    assert w * (t1 - t0) == t - t0;
    assert Lerp(c + d * t0, c + d * t1, w) == c + d * t0 + d * (w * (t1 - t0));
  }

  /** Interpolation is exact on motions it can represent: when the accelerometer follows an affine
      function of time, every finite output acceleration is that function at the gyro's own time. */
  lemma AffineIsExact(s: seq<Sample>, c: Vec3, d: Vec3, r: nat)
    requires r < |Fused(s)|
    requires forall i :: 0 <= i < |s| && s[i].kind == Accel ==> s[i].data == Affine(c, d, s[i].time)
    ensures Fused(s)[r].linear.Finite? ==> Fused(s)[r].linear.v == Affine(c, d, Fused(s)[r].stamp)
    ensures Apart(s) ==> Fused(s)[r].linear == Finite(Affine(c, d, Fused(s)[r].stamp))
  {
    var i, k, j := FusedMember(s, r);
    if s[i].time != s[j].time { BlendAffine(c, d, s[i], s[j], s[k]); }
  }

  lemma BlendAffine(c: Vec3, d: Vec3, a0: Sample, a1: Sample, g: Sample)
    requires a0.time != a1.time
    requires a0.data == Affine(c, d, a0.time) && a1.data == Affine(c, d, a1.time)
    ensures Blend(a0, a1, g) == Finite(Affine(c, d, g.time))
  {
    LerpAffine(c.x, d.x, a0.time, a1.time, g.time);
    LerpAffine(c.y, d.y, a0.time, a1.time, g.time);
    LerpAffine(c.z, d.z, a0.time, a1.time, g.time);
  }

  ghost predicate Sorted(msgs: seq<Imu>)
  {
    forall i, j :: 0 <= i <= j < |msgs| ==> msgs[i].stamp <= msgs[j].stamp
  }

  ghost predicate Within(s: seq<Sample>, lo: real, hi: real)
  {
    forall i :: 0 <= i < |s| ==> lo <= s[i].time <= hi
  }

  lemma InitOrdered(s: seq<Sample>)
    requires Ordered(s) && s != []
    ensures Ordered(Init(s))
    ensures Init(s) != [] ==> Last(Init(s)).time <= Last(s).time
  {
  }

  lemma OrderedSnoc(s: seq<Sample>, lo: real, x: Sample)
    requires Ordered(s) && Within(s, lo, x.time) && lo <= x.time
    ensures Ordered(s + [x]) && Within(s + [x], lo, x.time)
  {
  }

  lemma {:induction false} PendingBounds(s: seq<Sample>, t: real)
    requires Ordered(s) && (s != [] ==> Last(s).time <= t)
    ensures Ordered(Pending(s)) && Within(Pending(s), Base(s).time, t)
  {
    if s != [] && Last(s).kind == Gyro {
      var u, x := Init(s), Last(s);
      assert s == u + [x];
      InitOrdered(s);
      PendingBounds(u, x.time);
      SnocGyro(u, x);
      if Base(u).time <= x.time { OrderedSnoc(Pending(u), Base(u).time, x); }
    }
  }

  lemma BlendsSorted(a0: Sample, a1: Sample, gyros: seq<Sample>)
    requires Ordered(gyros)
    ensures Sorted(Blends(a0, a1, gyros))
  {
  }

  lemma SortedConcat(a: seq<Imu>, b: seq<Imu>, t: real)
    requires Sorted(a) && Sorted(b)
    requires forall r :: 0 <= r < |a| ==> a[r].stamp <= t
    requires forall r :: 0 <= r < |b| ==> t <= b[r].stamp
    ensures Sorted(a + b)
  {
  }

  /** On a stream in time order the output stamps never go back, over the whole run, and never pass
      the latest accelerometer sample. */
  lemma {:induction false} FusedSorted(s: seq<Sample>)
    requires Ordered(s)
    ensures Sorted(Fused(s))
    ensures forall r :: 0 <= r < |Fused(s)| ==> Fused(s)[r].stamp <= Base(s).time
  {
    if s != [] {
      var u, x := Init(s), Last(s);
      assert s == u + [x];
      InitOrdered(s);
      FusedSorted(u);
      if x.kind == Accel {
        SnocAccel(u, x);
        PendingBounds(u, x.time);
        BlendsSorted(Base(u), x, Pending(u));
        SortedConcat(Fused(u), Blends(Base(u), x, Pending(u)), Base(u).time);
        BaseBefore(u);
      } else {
        SnocGyro(u, x);
      }
    }
  }

  lemma {:induction false} BaseBefore(s: seq<Sample>)
    ensures Base(s) in s || (Base(s) == UNSET && Pending(s) == [] && Fused(s) == [])
  {
    if s != [] {
      var u, x := Init(s), Last(s);
      assert s == u + [x];
      if x.kind == Accel { SnocAccel(u, x); } else { BaseBefore(u); SnocGyro(u, x); }
    }
  }

  lemma {:induction false} CopiedSorted(s: seq<Sample>)
    requires Ordered(s)
    ensures Sorted(Copied(s))
    ensures forall r :: 0 <= r < |Copied(s)| ==> s != [] && Copied(s)[r].stamp <= Last(s).time
  {
    if s != [] {
      var u, x := Init(s), Last(s);
      assert s == u + [x];
      InitOrdered(s);
      CopiedSorted(u);
      if x.kind == Accel { SnocAccel(u, x); } else { SnocGyro(u, x); }
    }
  }

  // ---------- The two methods compared ----------

  // The gyro side of a list of messages, and of a list of samples.
  function Turns(msgs: seq<Imu>): (r: seq<(real, Vec3)>)
    ensures |r| == |msgs|
  {
    seq(|msgs|, i requires 0 <= i < |msgs| => (msgs[i].stamp, msgs[i].angular))
  }

  function SampleTurns(s: seq<Sample>): (r: seq<(real, Vec3)>)
    ensures |r| == |s|
  {
    seq(|s|, i requires 0 <= i < |s| => (s[i].time, s[i].data))
  }

  // Interpolation skips the gyro sample k although the copy method outputs it.
  predicate Skipped(s: seq<Sample>, k: nat)
    requires k < |s|
  {
    && s[k].kind == Gyro && Base(s[..k]).time >= 0.0
    && !(Base(s[..k]).IsSet() && s[k].time >= Base(s[..k]).time)
  }

  ghost predicate NoneSkipped(s: seq<Sample>)
  {
    forall k :: 0 <= k < |s| ==> !Skipped(s, k)
  }

  lemma NoneSkippedSnoc(u: seq<Sample>, x: Sample)
    ensures NoneSkipped(u + [x]) <==> NoneSkipped(u) && !Skipped(u + [x], |u|)
  {
    var s := u + [x];
    assert forall k :: 0 <= k < |u| ==> s[..k] == u[..k];
    assert forall k :: 0 <= k < |u| ==> (Skipped(s, k) <==> Skipped(u, k));
  }

  lemma TurnsOfBlends(a0: Sample, a1: Sample, gyros: seq<Sample>)
    ensures Turns(Blends(a0, a1, gyros)) == SampleTurns(gyros)
  {
  }

  lemma TurnsConcat(a: seq<Imu>, b: seq<Imu>)
    ensures Turns(a + b) == Turns(a) + Turns(b)
  {
  }

  lemma {:induction false} Comparison(s: seq<Sample>)
    ensures |Fused(s)| + |Pending(s)| <= |Copied(s)|
    ensures |Fused(s)| + |Pending(s)| == |Copied(s)| <==> NoneSkipped(s)
    ensures NoneSkipped(s) ==> Turns(Copied(s)) == Turns(Fused(s)) + SampleTurns(Pending(s))
  {
    if s != [] {
      var u, x := Init(s), Last(s);
      assert s == u + [x] && s[..|u|] == u;
      Comparison(u);
      NoneSkippedSnoc(u, x);
      if x.kind == Accel {
        SnocAccel(u, x);
        TurnsOfBlends(Base(u), x, Pending(u));
        TurnsConcat(Fused(u), Blends(Base(u), x, Pending(u)));
      } else {
        SnocGyro(u, x);
        if Base(u).time >= 0.0 { TurnsConcat(Copied(u), [Unite(Finite(Base(u).data), x)]); }
        if NoneSkipped(s) {
          assert Turns(Copied(s)) == Turns(Fused(s)) + SampleTurns(Pending(s));
        }
      }
    }
  }

  /** At an accelerometer sample both methods have output the same gyro readings, in the same order,
      if and only if no gyro sample was older than the accelerometer sample before it. */
  lemma MethodsAgree(s: seq<Sample>)
    requires s != [] && Last(s).kind == Accel
    ensures Turns(Fused(s)) == Turns(Copied(s)) <==> NoneSkipped(s)
  {
    Comparison(s);
    if Turns(Fused(s)) == Turns(Copied(s)) {
      assert |Turns(Fused(s))| == |Turns(Copied(s))|;
    }
  }

  /** On positive times in order, interpolation lags behind the copy method by exactly the gyro
      samples since the last accelerometer sample. */
  lemma {:induction false} InterpolationLags(s: seq<Sample>)
    requires Ordered(s) && forall i :: 0 <= i < |s| ==> s[i].IsSet()
    ensures NoneSkipped(s)
    ensures Turns(Fused(s)) <= Turns(Copied(s))
    ensures Turns(Copied(s)) == Turns(Fused(s)) + SampleTurns(Pending(s))
  {
    forall k | 0 <= k < |s| ensures !Skipped(s, k) {
      PrevIsBase(s, k);
    }
    Comparison(s);
  }

  // ---------- Which gyro samples get an accelerometer reading ----------

  // Every gyro sample of the stream, in order.
  function GyroTurns(s: seq<Sample>): seq<(real, Vec3)>
  {
    if s == [] then []
    else GyroTurns(Init(s)) + if Last(s).kind == Gyro then [(Last(s).time, Last(s).data)] else []
  }

  ghost predicate AllDue(s: seq<Sample>, n: nat)
    requires n <= |s|
  {
    forall k :: 0 <= k < n && s[k].kind == Gyro ==> Due(s, k)
  }

  lemma {:induction false} DueSoFar(s: seq<Sample>, n: nat)
    requires n <= |s|
    ensures |OnePass(s, n)| <= |GyroTurns(s[..n])|
    ensures |OnePass(s, n)| == |GyroTurns(s[..n])| <==> AllDue(s, n)
    ensures AllDue(s, n) ==> Turns(OnePass(s, n)) == GyroTurns(s[..n])
  {
    if n > 0 {
      DueSoFar(s, n - 1);
      assert s[..n] == s[..n - 1] + [s[n - 1]];
      Snoc(s[..n - 1], s[n - 1]);
      TurnsConcat(OnePass(s, n - 1), At(s, n - 1));
      AllDueSnoc(s, n - 1);
      AtTurns(s, n - 1);
      hide At, Due, Turns, AllDue;
    } else {
      assert s[..0] == [];
    }
  }

  lemma AllDueSnoc(s: seq<Sample>, k: nat)
    requires k < |s|
    ensures AllDue(s, k + 1) <==> AllDue(s, k) && (s[k].kind == Gyro ==> Due(s, k))
  {
  }

  lemma AtTurns(s: seq<Sample>, k: nat)
    requires k < |s|
    ensures Turns(At(s, k)) == if Due(s, k) then [(s[k].time, s[k].data)] else []
    ensures Due(s, k) ==> s[k].kind == Gyro
  {
  }

  lemma {:induction false} PrevIs(s: seq<Sample>, i: nat, k: nat)
    requires i < k <= |s| && s[i].kind == Accel && forall m :: i < m < k ==> s[m].kind == Gyro
    ensures Prev(s, k) == i
  {
    if k > i + 1 { PrevIs(s, i, k - 1); }
  }

  lemma {:induction false} NextIs(s: seq<Sample>, k: nat, j: nat)
    requires k <= j < |s| && s[j].kind == Accel && forall m :: k <= m < j ==> s[m].kind == Gyro
    ensures Next(s, k) == j
    decreases j - k
  {
    if k < j { NextIs(s, k + 1, j); }
  }

  /** A sample is output if and only if it is a gyro sample with an accelerometer sample next to it on
      either side, the first of positive time and no later than it. */
  lemma DueIff(s: seq<Sample>, k: nat)
    requires k < |s|
    ensures Due(s, k) <==> s[k].kind == Gyro && exists i: nat, j: nat :: Bracket(s, i, k, j)
  {
    if Due(s, k) {
      PrevIsBase(s, k);
      NextFacts(s, k);
      assert Bracket(s, Prev(s, k), k, Next(s, k));
    }
    if i: nat, j: nat :| s[k].kind == Gyro && Bracket(s, i, k, j) {
      PrevIs(s, i, k);
      NextIs(s, k, j);
    }
  }

  /** Every gyro message gets an interpolated accelerometer reading if and only if each stands between
      two accelerometer samples, the first of positive time and no later than it. */
  lemma EveryGyroFusedIff(s: seq<Sample>)
    ensures Turns(Fused(s)) == GyroTurns(s) <==>
            forall k: nat :: k < |s| && s[k].kind == Gyro ==> exists i: nat, j: nat :: Bracket(s, i, k, j)
  {
    FusedIsOnePass(s);
    DueSoFar(s, |s|);
    assert s[..|s|] == s;
    assert |Turns(Fused(s))| == |OnePass(s, |s|)|;
    forall k: nat | k < |s| && s[k].kind == Gyro ensures Due(s, k) <==> exists i: nat, j: nat :: Bracket(s, i, k, j) {
      DueIff(s, k);
    }
  }

  // The indices below n with property p, in order.
  ghost function Picked(p: nat -> bool, n: nat): seq<nat>
  {
    if n == 0 then [] else Picked(p, n - 1) + if p(n - 1) then [n - 1] else []
  }

  lemma {:induction false} PickedBelow(p: nat -> bool, n: nat, r: nat)
    requires r < |Picked(p, n)|
    ensures Picked(p, n)[r] < n && p(Picked(p, n)[r])
  {
    if r < |Picked(p, n - 1)| { PickedBelow(p, n - 1, r); }
  }

  lemma {:induction false} PickedRises(p: nat -> bool, n: nat, a: nat, b: nat)
    requires a < b < |Picked(p, n)|
    ensures Picked(p, n)[a] < Picked(p, n)[b]
  {
    PickedBelow(p, n - 1, a);
    if b < |Picked(p, n - 1)| { PickedRises(p, n - 1, a, b); }
  }

  lemma {:induction false} PickedHas(p: nat -> bool, n: nat, k: nat) returns (r: nat)
    requires k < n && p(k)
    ensures r < |Picked(p, n)| && Picked(p, n)[r] == k
  {
    if k == n - 1 { r := |Picked(p, n - 1)|; } else { r := PickedHas(p, n - 1, k); }
  }

  // Message o carries the time and the reading of sample k.
  ghost predicate FromGyro(s: seq<Sample>, k: nat, o: Imu)
  {
    k < |s| && o.stamp == s[k].time && o.angular == s[k].data
  }

  lemma {:induction false} OnePassNext(s: seq<Sample>, k: nat) returns (o: Imu)
    requires k < |s|
    ensures OnePass(s, k + 1) == OnePass(s, k) + if Due(s, k) then [o] else []
    ensures Due(s, k) ==> FromGyro(s, k, o)
  {
    o := if Due(s, k) then At(s, k)[0] else Imu(0, 0.0, UNSET.data, NonFinite);
  }

  ghost function DueOf(s: seq<Sample>): nat -> bool
  {
    (k: nat) => k < |s| && Due(s, k)
  }

  lemma {:induction false} OnePassInOrder(s: seq<Sample>, n: nat, r: nat)
    requires n <= |s|
    ensures |OnePass(s, n)| == |Picked(DueOf(s), n)|
    ensures r < |OnePass(s, n)| ==> FromGyro(s, Picked(DueOf(s), n)[r], OnePass(s, n)[r])
  {
    hide Due, FromGyro;
    if n > 0 {
      OnePassInOrder(s, n - 1, r);
      var o := OnePassNext(s, n - 1);
    }
  }

  /** The output, in order: message r carries the time and the reading of the r-th sample that is due. */
  lemma FusedInOrder(s: seq<Sample>, r: nat)
    ensures |Fused(s)| == |Picked(DueOf(s), |s|)|
    ensures r < |Fused(s)| ==> FromGyro(s, Picked(DueOf(s), |s|)[r], Fused(s)[r])
  {
    FusedIsOnePass(s);
    OnePassInOrder(s, |s|, r);
  }

  // Sample i is the accelerometer sample nearest before k.
  ghost predicate Latest(s: seq<Sample>, i: nat, k: nat)
  {
    i < k <= |s| && s[i].kind == Accel && forall m :: i < m < k ==> s[m].kind == Gyro
  }

  // Sample k is a gyro sample that has an accelerometer sample before it, the nearest not of negative time.
  ghost predicate HasReading(s: seq<Sample>, k: nat)
  {
    k < |s| && s[k].kind == Gyro && exists i: nat :: Latest(s, i, k) && s[i].time >= 0.0
  }

  lemma HasReadingIff(s: seq<Sample>, k: nat)
    requires k < |s| && s[k].kind == Gyro
    ensures HasReading(s, k) <==> Base(s[..k]).time >= 0.0
    ensures HasReading(s, k) ==> Prev(s, k) >= 0 && Latest(s, Prev(s, k), k) && Base(s[..k]) == s[Prev(s, k)]
  {
    PrevIsBase(s, k);
    if Prev(s, k) >= 0 { assert Latest(s, Prev(s, k), k); }
    if i: nat :| Latest(s, i, k) && s[i].time >= 0.0 { PrevIs(s, i, k); }
  }

  // Message o is what copying makes of gyro sample k.
  ghost predicate CopyOf(s: seq<Sample>, k: nat, o: Imu)
  {
    && k < |s|
    && exists i: nat ::
         Latest(s, i, k) && s[i].time >= 0.0 && o == Imu(0, s[k].time, s[k].data, Finite(s[i].data))
  }

  lemma CopiedNext(s: seq<Sample>, k: nat) returns (o: Imu)
    requires k < |s|
    ensures Copied(s[..k + 1]) == Copied(s[..k]) + if HasReading(s, k) then [o] else []
    ensures HasReading(s, k) ==> CopyOf(s, k, o)
  {
    var u, x := s[..k], s[k];
    assert s[..k + 1] == u + [x];
    o := Unite(Finite(Base(u).data), x);
    if x.kind == Gyro {
      SnocGyro(u, x);
      HasReadingIff(s, k);
      if HasReading(s, k) { assert Latest(s, Prev(s, k), k) && CopyOf(s, k, o); }
    } else {
      SnocAccel(u, x);
    }
  }

  ghost function ReadingOf(s: seq<Sample>): nat -> bool
  {
    (k: nat) => HasReading(s, k)
  }

  /** The copy method's output, in order: message r carries the time and the reading of the r-th gyro
      sample with an accelerometer sample before it, and the nearest such sample's acceleration. */
  lemma {:induction false} CopiedInOrder(s: seq<Sample>, n: nat, r: nat)
    requires n <= |s|
    ensures |Copied(s[..n])| == |Picked(ReadingOf(s), n)|
    ensures r < |Copied(s[..n])| ==> CopyOf(s, Picked(ReadingOf(s), n)[r], Copied(s[..n])[r])
  {
    hide HasReading, CopyOf;
    if n > 0 {
      CopiedInOrder(s, n - 1, r);
      var o := CopiedNext(s, n - 1);
    }
  }

  /** So a stream that ends with a gyro sample always misses one. */
  lemma LastGyroIsMissed(s: seq<Sample>)
    requires s != [] && Last(s).kind == Gyro
    ensures Turns(Fused(s)) != GyroTurns(s)
  {
    EveryGyroFusedIff(s);
    var k := |s| - 1;
    assert forall i: nat, j: nat :: !Bracket(s, i, k, j);
  }

  /** With the copy method every gyro message gets one if and only if each comes after an accelerometer
      sample, the latest of them not of negative time. */
  lemma {:induction false} EveryGyroCopiedIff(s: seq<Sample>)
    ensures |Copied(s)| <= |GyroTurns(s)|
    ensures |Copied(s)| == |GyroTurns(s)| ==> Turns(Copied(s)) == GyroTurns(s)
    ensures Turns(Copied(s)) == GyroTurns(s) <==>
            forall k :: 0 <= k < |s| && s[k].kind == Gyro ==> Base(s[..k]).time >= 0.0
  {
    if s != [] {
      var u, x := Init(s), Last(s);
      assert s == u + [x] && s[..|u|] == u && s[|u|] == x;
      EveryGyroCopiedIff(u);
      assert forall k :: 0 <= k < |u| ==> s[..k] == u[..k] && s[k] == u[k];
      assert |Turns(Copied(u))| == |Copied(u)|;
      if x.kind == Gyro {
        SnocGyro(u, x);
        if Base(u).time >= 0.0 { TurnsConcat(Copied(u), [Unite(Finite(Base(u).data), x)]); }
      } else {
        SnocAccel(u, x);
      }
    }
  }
}
