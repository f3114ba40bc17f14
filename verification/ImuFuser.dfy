/** The incremental mergers: one call per sample, a history kept between calls. */
module ImuFuser {
  import opened ImuSpec

  // What one more sample adds to a method's output.
  function NewlyFused(seen: seq<Sample>, x: Sample): (r: seq<Imu>)
    ensures Fused(seen + [x]) == Fused(seen) + r
  {
    Snoc(seen, x);
    if x.kind == Accel then Blends(Base(seen), x, Pending(seen)) else []
  }

  function NewlyCopied(seen: seq<Sample>, x: Sample): (r: seq<Imu>)
    ensures Copied(seen + [x]) == Copied(seen) + r
  {
    if x.kind == Gyro then
      SnocGyro(seen, x);
      if Base(seen).time >= 0.0 then [Unite(Finite(Base(seen).data), x)] else []
    else
      SnocAccel(seen, x);
      []
  }

  class LinearFuser {
    var history: seq<Sample>
    ghost var seen: seq<Sample>
    ghost var cut: nat

    // The history is the stream since some accelerometer sample (or since the start), and holds
    // nothing that could have been output already.
    ghost predicate Valid()
      reads this
    {
      && cut <= |seen| && history == seen[cut..]
      && (cut > 0 ==> history != [] && history[0].kind == Accel)
      && Fused(history) == []
    }

    constructor ()
      ensures Valid() && seen == []
    {
      history, seen, cut := [], [], 0;
    }

    lemma Local(x: Sample)
      requires Valid()
      ensures Fused(history + [x]) == NewlyFused(seen, x)
    {
      var h := history + [x];
      if cut == 0 {
        assert history == seen;
      } else {
        assert seen + [x] == seen[..cut] + h && seen == seen[..cut] + history;
        CutAtAccel(seen[..cut], h);
        CutAtAccel(seen[..cut], history);
        assert h[0] == history[0];
      }
      assert Fused(seen + [x]) == Fused(seen) + Fused(h);
      assert Fused(seen) + Fused(h) == Fused(seen) + NewlyFused(seen, x);
      AppendCancels(Fused(seen), Fused(h), NewlyFused(seen, x));
    }

    // The inner loop: close the interval between two accelerometer samples.
    static method DrainGyros(accel0: Sample, accel1: Sample, gyros: seq<Sample>, msgs: seq<Imu>)
      returns (imuMsgs: seq<Imu>)
      ensures imuMsgs == msgs + Blends(accel0, accel1, gyros)
    {
      var gyrosData := gyros;
      imuMsgs := msgs;
      while |gyrosData| > 0
        invariant |gyrosData| <= |gyros| && gyrosData == gyros[|gyros| - |gyrosData|..]
        invariant imuMsgs == msgs + Blends(accel0, accel1, gyros)[..|gyros| - |gyrosData|]
        decreases |gyrosData|
      {
        var crntGyro := gyrosData[0];
        gyrosData := gyrosData[1..];
        imuMsgs := imuMsgs + [Unite(Blend(accel0, accel1, crntGyro), crntGyro)];
      }
    }

    // The outer loop: pop the whole history, remembering the last sample popped.
    method DrainHistory() returns (imuMsgs: seq<Imu>, crntImu: Sample)
      requires history != []
      modifies this`history
      ensures history == [] && imuMsgs == Fused(old(history)) && crntImu == Last(old(history))
    {
      var gyrosData: seq<Sample> := [];
      var accel0 := UNSET;
      crntImu := UNSET;
      imuMsgs := [];
      ghost var all, done := history, [];
      while |history| > 0
        invariant |done| + |history| == |all| && done == all[..|done|] && history == all[|done|..]
        invariant accel0 == Base(done) && gyrosData == Pending(done) && imuMsgs == Fused(done)
        invariant done != [] ==> crntImu == Last(done)
        decreases |history|
      {
        assert done + [history[0]] == all[..|done| + 1] && history[1..] == all[|done| + 1..];
        crntImu := history[0];
        history := history[1..];
        Unfold(done, crntImu);
        if !accel0.IsSet() && crntImu.kind == Accel {
          BaseUnset(done);
          accel0 := crntImu;
        } else if accel0.IsSet() && crntImu.kind == Accel {
          var accel1 := crntImu;
          imuMsgs := DrainGyros(accel0, accel1, gyrosData, imuMsgs);
          gyrosData := [];
          accel0 := accel1;
        } else if accel0.IsSet() && crntImu.time >= accel0.time && crntImu.kind == Gyro {
          gyrosData := gyrosData + [crntImu];
        }
        done := done + [crntImu];
      }
      assert done == all;
    }

    /** One call outputs exactly what its sample adds to the one-pass output of the whole stream,
        for every stream, including when fewer than three samples are held. */
    method FillImuDataLinearInterpolation(imuData: Sample) returns (imuMsgs: seq<Imu>)
      requires Valid()
      modifies this
      ensures Valid() && seen == old(seen) + [imuData]
      ensures imuMsgs == NewlyFused(old(seen), imuData)
      ensures imuData.kind == Accel ==> |history| <= 2
    {
      Local(imuData);
      history := history + [imuData];
      seen := seen + [imuData];
      imuMsgs := [];
      if imuData.kind != Accel || |history| < 3 {
        if imuData.kind == Accel { ShortIsSilent(history); }
        assert imuData.kind != Accel ==> Fused(history) == [];
        return;
      }

      var crntImu;
      imuMsgs, crntImu := DrainHistory();
      history := history + [crntImu];
      cut := |seen| - 1;
      ShortIsSilent(history);
    }
  }

  lemma AppendCancels<T>(a: seq<T>, b: seq<T>, c: seq<T>)
    requires a + b == a + c
    ensures b == c
  {
    assert b == (a + b)[|a|..] && c == (a + c)[|a|..];
  }

  lemma Unfold(s: seq<Sample>, x: Sample)
    ensures x.kind == Accel ==>
              && Base(s + [x]) == x && Pending(s + [x]) == []
              && Fused(s + [x]) == Fused(s) + Blends(Base(s), x, Pending(s))
    ensures x.kind == Gyro ==>
              && Base(s + [x]) == Base(s) && Fused(s + [x]) == Fused(s)
              && Pending(s + [x]) == if Base(s).IsSet() && x.time >= Base(s).time then Pending(s) + [x] else Pending(s)
  {
    if x.kind == Accel { SnocAccel(s, x); } else { SnocGyro(s, x); }
  }

  // Nothing waits while no accelerometer sample is set.
  lemma {:induction false} BaseUnset(s: seq<Sample>)
    ensures !Base(s).IsSet() ==> Pending(s) == []
  {
    if s != [] && Last(s).kind == Gyro {
      Snoc(Init(s), Last(s));
      BaseUnset(Init(s));
    }
  }

  class CopyFuser {
    var accelData: Sample
    ghost var seen: seq<Sample>

    ghost predicate Valid()
      reads this
    {
      accelData == Base(seen)
    }

    constructor ()
      ensures Valid() && seen == []
    {
      accelData, seen := UNSET, [];
    }

    method FillImuDataCopy(imuData: Sample) returns (imuMsgs: seq<Imu>)
      requires Valid()
      modifies this
      ensures Valid() && seen == old(seen) + [imuData]
      ensures imuMsgs == NewlyCopied(old(seen), imuData)
    {
      Unfold(seen, imuData);
      seen := seen + [imuData];
      imuMsgs := [];
      if imuData.kind == Accel {
        accelData := imuData;
        return;
      }
      if accelData.time < 0.0 {
        return;
      }
      imuMsgs := imuMsgs + [Unite(Finite(accelData.data), imuData)];
    }
  }
}
