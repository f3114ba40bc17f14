/** The life of the Orbbec camera node's image streams: which are enabled, which are believed to be
    started, and which the driver is really running. */
module StreamLifecycle {
  import opened Common

  datatype Stream = Depth | Infra1 | Color

  const IMAGE_STREAMS: seq<Stream> := [Depth, Infra1, Color]

  datatype VideoMode = VideoMode(width: int, height: int, fps: int, format: int)

  // What the node is built on and does not change: the device, and two build-time choices.
  datatype Device = Device(
    sensors: set<Stream>,                        // has a sensor of the stream's type
    supported: map<Stream, seq<VideoMode>>,      // the driver's list of modes
    formats: map<Stream, int>,                   // the pixel format asked for
    useUvcCamera: bool,                          // colour comes from a UVC camera instead
    isAstraPro: bool)                            // product whose colour is not started here
  {
    // The streams started through this node.
    predicate Ours(i: Stream) { !(i == Color && (useUvcCamera || isAstraPro)) }

    predicate Uvc(i: Stream) { i == Color && useUvcCamera }

    function Modes(i: Stream): seq<VideoMode> { if i in supported then supported[i] else [] }

    function Format(i: Stream): int { if i in formats then formats[i] else 0 }
  }

  // What the outside decides during one step: subscribers, and whether the driver obliges.
  datatype Env = Env(subscribed: set<Stream>, canCreate: set<Stream>, canStart: set<Stream>)

  // The requested width, height and frame rate of each stream.
  type Config = Stream -> (int, int, int)

  // objects: streams that have a stream object; running: streams the driver runs; aborted: a CHECK
  // failed or a missing stream object was used.
  datatype State = State(
    isRunning: bool,
    enable: set<Stream>,
    started: set<Stream>,
    objects: set<Stream>,
    modes: map<Stream, VideoMode>,
    running: set<Stream>,
    aborted: bool)

  // ---------- Choosing a video mode ----------

  function Wanted(d: Device, c: Config, i: Stream): VideoMode
  {
    VideoMode(c(i).0, c(i).1, c(i).2, d.Format(i))
  }

  // Same size and pixel format, any frame rate.
  predicate Alike(m: VideoMode, want: VideoMode)
  {
    m.width == want.width && m.height == want.height && m.format == want.format
  }

  // The last mode of the list that differs from the wanted one at most in frame rate.
  function LastAlike(modes: seq<VideoMode>, want: VideoMode): Option<VideoMode>
  {
    if modes == [] then None
    else if Alike(modes[|modes| - 1], want) then Some(modes[|modes| - 1])
    else LastAlike(modes[..|modes| - 1], want)
  }

  function Choose(modes: seq<VideoMode>, want: VideoMode): Option<VideoMode>
  {
    if want in modes then Some(want) else LastAlike(modes, want)
  }

  /** The chosen mode is always one the device supports, of the size and format asked for; it is the
      mode asked for whenever that is supported; and only when the device has no mode of that size
      and format is none chosen. */
  lemma {:induction false} ChoiceIsSupported(modes: seq<VideoMode>, want: VideoMode)
    ensures Choose(modes, want).Some? ==>
              var m := Choose(modes, want).value;
              m in modes && m.width == want.width && m.height == want.height && m.format == want.format
    ensures Choose(modes, want) == Some(want) <==> want in modes
    ensures Choose(modes, want) == None <==>
            forall m :: m in modes ==> m.width != want.width || m.height != want.height || m.format != want.format
  {
    LastAlikeFacts(modes, want);
    if want in modes { assert Alike(want, want); }
  }

  lemma {:induction false} LastAlikeFacts(modes: seq<VideoMode>, want: VideoMode)
    ensures LastAlike(modes, want).Some? ==>
              LastAlike(modes, want).value in modes && Alike(LastAlike(modes, want).value, want)
    ensures LastAlike(modes, want) == None <==> forall m :: m in modes ==> !Alike(m, want)
  {
    if modes != [] {
      var u, x := modes[..|modes| - 1], modes[|modes| - 1];
      assert modes == u + [x];
      LastAlikeFacts(u, want);
      if !Alike(x, want) {
        assert forall m :: m in modes <==> m in u || m == x;
      }
    }
  }

  /** When the mode asked for is not supported, the choice is the last one of its size and format. */
  lemma {:induction false} LastOneIsChosen(modes: seq<VideoMode>, want: VideoMode, k: nat)
    requires want !in modes && k < |modes|
    requires modes[k].width == want.width && modes[k].height == want.height && modes[k].format == want.format
    requires forall j :: k < j < |modes| ==>
               modes[j].width != want.width || modes[j].height != want.height || modes[j].format != want.format
    ensures Choose(modes, want) == Some(modes[k])
  {
    if k < |modes| - 1 { LastOneIsChosen(modes[..|modes| - 1], want, k); }
  }

  // The scan of the supported modes.
  method ScanModes(modes: seq<VideoMode>, want: VideoMode) returns (r: Option<VideoMode>)
    ensures r == Choose(modes, want)
  {
    var isDefaultModeSupported := false;
    var defaultMode := want;
    var k := 0;
    while k < |modes|
      invariant k <= |modes| && want !in modes[..k]
      invariant Alike(defaultMode, want)
      invariant LastAlike(modes[..k], want) == if isDefaultModeSupported then Some(defaultMode) else None
    {
      var item := modes[k];
      assert modes[..k + 1] == modes[..k] + [item];
      if want == item {
        return Some(want);
      }
      if Alike(item, want) {
        defaultMode := defaultMode.(fps := item.fps);
        isDefaultModeSupported := true;
      }
      k := k + 1;
    }
    assert modes[..k] == modes;
    if isDefaultModeSupported {
      return Some(defaultMode);
    }
    return None;
  }

  // ---------- The steps ----------

  function StartStream(d: Device, s: State, i: Stream, e: Env): State
  {
    if s.aborted || !s.isRunning || i !in s.enable || !d.Ours(i) || i in s.started || i !in e.subscribed then s
    else if i !in s.modes then s.(aborted := true)
    else if i !in s.objects && i in d.sensors && i !in e.canCreate then s
    else if i !in s.objects && i !in d.sensors then s.(aborted := true)
    else
      var t := s.(objects := s.objects + {i});
      if i in e.canStart then t.(started := t.started + {i}, running := t.running + {i}) else t
  }

  function StopStream(s: State, i: Stream): State
  {
    if s.aborted || i !in s.enable || i !in s.started then s
    else if i !in s.objects then s.(aborted := true)
    else s.(started := s.started - {i}, running := s.running - {i})
  }

  function StartAll(d: Device, s: State, e: Env, order: seq<Stream>): State
    decreases |order|
  {
    if order == [] then s
    else
      var i := order[0];
      StartAll(d, if i in s.enable && i !in s.started then StartStream(d, s, i, e) else s, e, order[1..])
  }

  function StopAll(s: State, order: seq<Stream>): State
    decreases |order|
  {
    if order == [] then s
    else StopAll(if order[0] in s.started then StopStream(s, order[0]) else s, order[1..])
  }

  // One stream of setupVideoMode.
  function PickMode(d: Device, s: State, c: Config, i: Stream): State
  {
    if s.aborted || i !in d.sensors || i !in s.enable || d.Uvc(i) then s
    else if i !in s.objects then s.(aborted := true)
    else
      match Choose(d.Modes(i), Wanted(d, c, i))
      case Some(m) => s.(modes := s.modes[i := m])
      case None => s.(enable := s.enable - {i})
  }

  function PickAll(d: Device, s: State, c: Config, order: seq<Stream>): State
    decreases |order|
  {
    if order == [] then s else PickAll(d, PickMode(d, s, c, order[0]), c, order[1..])
  }

  // Infrared gives way to colour when both would come from this device.
  function GiveWay(d: Device, s: State): State
  {
    if !s.aborted && !d.useUvcCamera && Infra1 in s.enable && Color in s.enable then s.(enable := s.enable - {Infra1})
    else s
  }

  function SetupVideoMode(d: Device, s: State, c: Config): State
  {
    PickAll(d, GiveWay(d, s), c, IMAGE_STREAMS)
  }

  // One stream of setupDevices; None is the exception for a stream that cannot be created.
  function SetupDevice(d: Device, s: State, i: Stream, e: Env): Option<State>
  {
    if i in s.enable && i in d.sensors then
      if d.Uvc(i) then Some(s.(started := s.started - {i}))
      else if i !in e.canCreate then None
      else Some(s.(started := s.started - {i}, objects := s.objects + {i}))
    else
      Some(s.(started := s.started - {i}, objects := s.objects - {i}, enable := s.enable - {i}))
  }

  function SetupDevices(d: Device, s: State, e: Env, order: seq<Stream>): Option<State>
    decreases |order|
  {
    if order == [] then Some(s)
    else
      match SetupDevice(d, s, order[0], e)
      case None => None
      case Some(t) => SetupDevices(d, t, e, order[1..])
  }

  // The node once set up with the streams asked for.
  function SetUp(d: Device, wanted: set<Stream>, c: Config, e: Env): Option<State>
  {
    match SetupDevices(d, State(true, wanted, {}, {}, map[], {}, false), e, IMAGE_STREAMS)
    case None => None
    case Some(s) => Some(SetupVideoMode(d, s, c))
  }

  datatype Step =
    | Subscribe(i: Stream)
    | Unsubscribe(i: Stream)
    | Start(i: Stream)
    | Stop(i: Stream)
    | StartEvery
    | StopEvery
    | Reconfigure(c: Config)
    | Toggle(i: Stream, on: bool)

  // One step; a node that has aborted takes none.
  function Next(d: Device, s: State, step: Step, e: Env): State
  {
    if s.aborted then s else
    match step
    case Subscribe(i) => if !s.isRunning || i in s.started then s else StartStream(d, s, i, e)
    case Unsubscribe(i) => if i !in s.started || i in e.subscribed then s else StopStream(s, i)
    case Start(i) => StartStream(d, s, i, e)
    case Stop(i) => StopStream(s, i)
    case StartEvery => StartAll(d, s, e, IMAGE_STREAMS)
    case StopEvery => StopAll(s, IMAGE_STREAMS)
    case Reconfigure(c) =>
      StartAll(d, SetupVideoMode(d, StopAll(s, IMAGE_STREAMS), c), e, IMAGE_STREAMS)
    case Toggle(i, on) =>
      if i !in d.sensors then s
      else
        var t := s.(enable := if on then s.enable + {i} else s.enable - {i});
        StartAll(d, StopAll(t, IMAGE_STREAMS), e, IMAGE_STREAMS)
  }

  function Run(d: Device, s: State, steps: seq<(Step, Env)>): State
  {
    if steps == [] then s else Next(d, Run(d, s, steps[..|steps| - 1]), steps[|steps| - 1].0, steps[|steps| - 1].1)
  }

  // ---------- What every step keeps ----------

  // The node's belief is the driver's truth, and only streams that exist run.
  ghost predicate Truthful(s: State)
  {
    s.started == s.running && s.started <= s.objects
  }

  // Moreover only enabled streams run, and every enabled stream can be started.
  ghost predicate Orderly(d: Device, s: State)
  {
    && Truthful(s) && !s.aborted
    && s.started <= s.enable <= d.sensors
    && (forall i :: i in s.enable && !d.Uvc(i) ==> i in s.objects && i in s.modes)
  }

  lemma {:induction false} StartAllKeeps(d: Device, s: State, e: Env, order: seq<Stream>)
    requires Truthful(s)
    ensures Truthful(StartAll(d, s, e, order))
    ensures StartAll(d, s, e, order).enable == s.enable
    ensures Orderly(d, s) ==> Orderly(d, StartAll(d, s, e, order))
    decreases |order|
  {
    if order != [] {
      var i := order[0];
      StartAllKeeps(d, if i in s.enable && i !in s.started then StartStream(d, s, i, e) else s, e, order[1..]);
    }
  }

  lemma {:induction false} StopAllStops(s: State, order: seq<Stream>)
    requires Truthful(s) && !s.aborted
    ensures var t := StopAll(s, order);
            && t == s.(started := t.started, running := t.running) && Truthful(t)
            && t.running == s.running - (s.enable * set i | i in order)
    decreases |order|
  {
    if order != [] {
      var i := order[0];
      StopAllStops(if i in s.started then StopStream(s, i) else s, order[1..]);
      assert (set j | j in order) == {i} + set j | j in order[1..];
    }
  }

  lemma AllStreams()
    ensures forall i: Stream :: i in IMAGE_STREAMS
    ensures (set i | i in IMAGE_STREAMS) == {Depth, Infra1, Color}
  {
    assert IMAGE_STREAMS[0] == Depth && IMAGE_STREAMS[1] == Infra1 && IMAGE_STREAMS[2] == Color;
    forall i: Stream ensures i in IMAGE_STREAMS {
      match i { case Depth => case Infra1 => case Color => }
    }
  }

  /** Stopping all streams stops exactly the enabled ones: afterwards nothing runs if and only if
      nothing was running while disabled. */
  lemma StopEveryStops(d: Device, s: State, e: Env)
    requires Truthful(s) && !s.aborted
    ensures var t := Next(d, s, StopEvery, e);
            && t.running == s.running - s.enable && t.enable == s.enable
            && (t.running == {} <==> s.running <= s.enable)
  {
    AllStreams();
    StopAllStops(s, IMAGE_STREAMS);
    forall i | i in s.enable ensures i in {Depth, Infra1, Color} {
      match i { case Depth => case Infra1 => case Color => }
    }
    assert s.enable * {Depth, Infra1, Color} == s.enable;
    if s.running - s.enable == {} {
      forall i | i in s.running ensures i in s.enable { assert i !in s.running - s.enable; }
    }
  }

  lemma {:induction false} PickAllKeeps(d: Device, s: State, c: Config, order: seq<Stream>)
    requires s.running == s.started == {} && !s.aborted && s.enable <= d.sensors
    requires forall i :: i in s.enable && !d.Uvc(i) ==> i in s.objects
    ensures var t := PickAll(d, s, c, order);
            && t == s.(enable := t.enable, modes := t.modes) && t.enable <= s.enable
            && (forall i :: i in s.modes ==> i in t.modes)
            && (forall i :: i in s.modes && i !in order ==> t.modes[i] == s.modes[i])
            && (forall i :: i in order && i in t.enable && !d.Uvc(i) ==>
                  i in t.modes && Some(t.modes[i]) == Choose(d.Modes(i), Wanted(d, c, i)))
    decreases |order|
  {
    if order != [] {
      var i := order[0];
      var t := PickMode(d, s, c, i);
      PickAllKeeps(d, t, c, order[1..]);
      if i in t.enable && !d.Uvc(i) { PickAllSteady(d, t, c, order[1..], i); }
    }
  }

  // Going over a stream a second time chooses the same mode.
  lemma {:induction false} PickAllSteady(d: Device, s: State, c: Config, order: seq<Stream>, i: Stream)
    requires i in s.modes && Some(s.modes[i]) == Choose(d.Modes(i), Wanted(d, c, i))
    ensures var t := PickAll(d, s, c, order);
            i in t.modes && t.modes[i] == s.modes[i]
    decreases |order|
  {
    if order != [] {
      PickAllSteady(d, PickMode(d, s, c, order[0]), c, order[1..], i);
    }
  }

  /** After setupVideoMode every stream of ours still enabled has a stored mode, one that its device
      supports and that has the width, height and pixel format asked for. */
  lemma VideoModesAreSupported(d: Device, s: State, c: Config, i: Stream)
    requires s.running == s.started == {} && !s.aborted && s.enable <= d.sensors
    requires forall j :: j in s.enable && !d.Uvc(j) ==> j in s.objects
    requires i in SetupVideoMode(d, s, c).enable && !d.Uvc(i)
    ensures i in SetupVideoMode(d, s, c).modes
    ensures var m := SetupVideoMode(d, s, c).modes[i];
            && m in d.Modes(i)
            && m.width == c(i).0 && m.height == c(i).1 && m.format == d.Format(i)
            && (VideoMode(c(i).0, c(i).1, c(i).2, d.Format(i)) in d.Modes(i) ==> m.fps == c(i).2)
  {
    AllStreams();
    PickAllKeeps(d, GiveWay(d, s), c, IMAGE_STREAMS);
    ChoiceIsSupported(d.Modes(i), Wanted(d, c, i));
  }

  lemma SetupVideoModeOrderly(d: Device, s: State, c: Config)
    requires s.running == s.started == {} && !s.aborted && s.enable <= d.sensors
    requires forall j :: j in s.enable && !d.Uvc(j) ==> j in s.objects
    ensures Orderly(d, SetupVideoMode(d, s, c))
  {
    AllStreams();
    PickAllKeeps(d, GiveWay(d, s), c, IMAGE_STREAMS);
  }

  lemma {:induction false} SetupDevicesFacts(d: Device, s: State, e: Env, order: seq<Stream>)
    requires s.running == s.started == {} && !s.aborted
    ensures var t := SetupDevices(d, s, e, order);
            t.Some? ==>
              && t.value.running == t.value.started == {} && !t.value.aborted
              && t.value.enable <= s.enable
              && (forall i :: i in order && i in t.value.enable ==>
                    i in d.sensors && (!d.Uvc(i) ==> i in t.value.objects))
    decreases |order|
  {
    if order != [] && SetupDevice(d, s, order[0], e).Some? {
      var t := SetupDevice(d, s, order[0], e).value;
      SetupDevicesFacts(d, t, e, order[1..]);
      if order[0] in t.enable { SetupDevicesSteady(d, t, e, order[1..], order[0]); }
    }
  }

  lemma {:induction false} SetupDevicesSteady(d: Device, s: State, e: Env, order: seq<Stream>, i: Stream)
    requires i in d.sensors && (!d.Uvc(i) ==> i in s.objects)
    ensures var t := SetupDevices(d, s, e, order);
            t.Some? && i in t.value.enable && !d.Uvc(i) ==> i in t.value.objects
    decreases |order|
  {
    if order != [] && SetupDevice(d, s, order[0], e).Some? {
      var t := SetupDevice(d, s, order[0], e).value;
      if i !in t.objects && !d.Uvc(i) {
        assert i == order[0] && i !in s.enable;
        NeverEnabledAgain(d, t, e, order[1..], i);
      } else {
        SetupDevicesSteady(d, t, e, order[1..], i);
      }
    }
  }

  lemma {:induction false} NeverEnabledAgain(d: Device, s: State, e: Env, order: seq<Stream>, i: Stream)
    requires i !in s.enable
    ensures SetupDevices(d, s, e, order).Some? ==> i !in SetupDevices(d, s, e, order).value.enable
    decreases |order|
  {
    if order != [] && SetupDevice(d, s, order[0], e).Some? {
      NeverEnabledAgain(d, SetupDevice(d, s, order[0], e).value, e, order[1..], i);
    }
  }

  /** The node starts orderly. */
  lemma SetUpIsOrderly(d: Device, wanted: set<Stream>, c: Config, e: Env)
    requires SetUp(d, wanted, c, e).Some?
    ensures Orderly(d, SetUp(d, wanted, c, e).value)
  {
    AllStreams();
    var s := State(true, wanted, {}, {}, map[], {}, false);
    SetupDevicesFacts(d, s, e, IMAGE_STREAMS);
    SetupVideoModeOrderly(d, SetupDevices(d, s, e, IMAGE_STREAMS).value, c);
  }

  lemma NextKeepsOrder(d: Device, s: State, step: Step, e: Env)
    requires Orderly(d, s) && !step.Toggle?
    ensures Orderly(d, Next(d, s, step, e))
  {
    match step
    case Subscribe(_) =>
    case Unsubscribe(_) =>
    case Start(_) =>
    case Stop(_) =>
    case StartEvery => StartAllKeeps(d, s, e, IMAGE_STREAMS);
    case StopEvery => StopEveryStops(d, s, e); StopAllStops(s, IMAGE_STREAMS);
    case Reconfigure(c) =>
      StopEveryStops(d, s, e);
      StopAllStops(s, IMAGE_STREAMS);
      var t := StopAll(s, IMAGE_STREAMS);
      SetupVideoModeOrderly(d, t, c);
      StartAllKeeps(d, SetupVideoMode(d, t, c), e, IMAGE_STREAMS);
  }

  /** Over every run of subscribing, unsubscribing, starting, stopping and reconfiguring, from set-up
      on: a stream is marked started exactly when the driver runs it, only enabled streams run, each
      has a stream object, every enabled stream has a stored mode, and no internal check fails. */
  lemma {:induction false} RunStaysOrderly(d: Device, s: State, steps: seq<(Step, Env)>)
    requires Orderly(d, s) && forall k :: 0 <= k < |steps| ==> !steps[k].0.Toggle?
    ensures Orderly(d, Run(d, s, steps))
  {
    if steps != [] {
      var u := steps[..|steps| - 1];
      RunStaysOrderly(d, s, u);
      NextKeepsOrder(d, Run(d, s, u), steps[|steps| - 1].0, steps[|steps| - 1].1);
    }
  }

  /** On such runs, stopping all streams leaves nothing running. */
  lemma OrderlyStop(d: Device, s: State, e: Env)
    requires Orderly(d, s)
    ensures Next(d, s, StopEvery, e).running == {}
  {
    StopEveryStops(d, s, e);
  }

  // ---------- The toggle service ----------

  /** Switching a stream off does not stop it: the stream is disabled first, and stopping skips
      disabled streams. It runs afterwards if and only if it ran before. */
  lemma ToggleOffDoesNotStop(d: Device, s: State, i: Stream, e: Env)
    requires Truthful(s) && !s.aborted && i in d.sensors
    ensures i in Next(d, s, Toggle(i, false), e).running <==> i in s.running
  {
    AllStreams();
    var t := s.(enable := s.enable - {i});
    StopAllStops(t, IMAGE_STREAMS);
    StartAllFrame(d, StopAll(t, IMAGE_STREAMS), e, IMAGE_STREAMS, i);
  }

  /** A run in which it keeps running: set up with depth alone, someone subscribes, depth is switched off. */
  lemma ToggledOffStillRuns()
    ensures var m := VideoMode(640, 480, 30, 1);
            var d := Device({Depth}, map[Depth := [m]], map[Depth := 1], false, false);
            var c: Config := i => (640, 480, 30);
            var e := Env({Depth}, {Depth}, {Depth});
            var s := SetUp(d, {Depth}, c, e);
            s.Some? && Depth in Run(d, s.value, [(Subscribe(Depth), e), (Toggle(Depth, false), e)]).running
  {
    var m := VideoMode(640, 480, 30, 1);
    var d := Device({Depth}, map[Depth := [m]], map[Depth := 1], false, false);
    var c: Config := i => (640, 480, 30);
    var e := Env({Depth}, {Depth}, {Depth});
    OnlyDepth(d, m, c, e);
    var s := SetUp(d, {Depth}, c, e).value;
    var steps := [(Subscribe(Depth), e), (Toggle(Depth, false), e)];
    assert steps[..1] == [(Subscribe(Depth), e)] && steps[..1][..0] == [];
    assert Run(d, s, []) == s;
    assert Run(d, s, steps[..1]) == Next(d, s, Subscribe(Depth), e);
    SetUpIsOrderly(d, {Depth}, c, e);
    NextKeepsOrder(d, s, Subscribe(Depth), e);
    ToggleOffDoesNotStop(d, Next(d, s, Subscribe(Depth), e), Depth, e);
  }

  // Setting up with depth alone leaves it enabled, with its one mode.
  lemma OnlyDepth(d: Device, m: VideoMode, c: Config, e: Env)
    requires d.sensors == {Depth} && d.Modes(Depth) == [m] && Wanted(d, c, Depth) == m && e.canCreate == {Depth}
    ensures SetUp(d, {Depth}, c, e).Some?
    ensures var s := SetUp(d, {Depth}, c, e).value;
            s.isRunning && s.enable == {Depth} && Depth in s.modes && Depth in s.objects && s.started == {}
  {
    var s := State(true, {Depth}, {}, {}, map[], {}, false);
    var t := s.(objects := {Depth});
    var u := t.(modes := map[Depth := m]);
    assert IMAGE_STREAMS[1..] == [Infra1, Color] && [Infra1, Color][1..] == [Color] && [Color][1..] == [];
    assert s.started - {Depth} == {} && s.objects + {Depth} == {Depth};
    assert t.started - {Infra1} == {} && t.objects - {Infra1} == {Depth} && t.enable - {Infra1} == {Depth};
    assert t.started - {Color} == {} && t.objects - {Color} == {Depth} && t.enable - {Color} == {Depth};
    assert SetupDevice(d, s, Depth, e) == Some(t);
    assert SetupDevice(d, t, Infra1, e) == Some(t);
    assert SetupDevice(d, t, Color, e) == Some(t);
    assert SetupDevices(d, t, e, [Color]) == Some(t);
    assert SetupDevices(d, t, e, [Infra1, Color]) == Some(t);
    assert SetupDevices(d, s, e, IMAGE_STREAMS) == Some(t);
    assert m in [m] && Choose(d.Modes(Depth), Wanted(d, c, Depth)) == Some(m);
    assert PickMode(d, t, c, Depth) == u && PickMode(d, u, c, Infra1) == u && PickMode(d, u, c, Color) == u;
    assert PickAll(d, u, c, [Color]) == u;
    assert PickAll(d, u, c, [Infra1, Color]) == u;
    assert PickAll(d, t, c, IMAGE_STREAMS) == u;
  }

  lemma {:induction false} StartAllFrame(d: Device, s: State, e: Env, order: seq<Stream>, i: Stream)
    requires i !in s.enable
    ensures i in StartAll(d, s, e, order).running <==> i in s.running
    decreases |order|
  {
    if order != [] {
      var j := order[0];
      StartAllFrame(d, if j in s.enable && j !in s.started then StartStream(d, s, j, e) else s, e, order[1..], i);
    }
  }

  // The streams whose start would fail its check for a stored mode.
  predicate Missing(d: Device, s: State, e: Env, i: Stream)
  {
    s.isRunning && i in s.enable && d.Ours(i) && i !in s.started && i in e.subscribed && i !in s.modes
  }

  lemma {:induction false} StartAllAborts(d: Device, s: State, e: Env, order: seq<Stream>)
    requires !s.aborted && s.enable <= d.sensors
    ensures StartAll(d, s, e, order).aborted <==> exists i :: i in order && Missing(d, s, e, i)
    decreases |order|
  {
    if order != [] {
      var i := order[0];
      var t := if i in s.enable && i !in s.started then StartStream(d, s, i, e) else s;
      if Missing(d, s, e, i) {
        StaysAborted(d, t, e, order[1..]);
        assert i in order;
      } else {
        StartAllAborts(d, t, e, order[1..]);
        assert forall j :: Missing(d, t, e, j) <==> Missing(d, s, e, j) && !(j == i && i in t.started);
        if j :| j in order[1..] && Missing(d, t, e, j) { assert j in order; }
        if j :| j in order && Missing(d, s, e, j) {
          assert j != i && j in order[1..];
          assert Missing(d, t, e, j);
        }
      }
    }
  }

  lemma {:induction false} StaysAborted(d: Device, s: State, e: Env, order: seq<Stream>)
    requires s.aborted
    ensures StartAll(d, s, e, order).aborted
    decreases |order|
  {
    if order != [] {
      var i := order[0];
      StaysAborted(d, if i in s.enable && i !in s.started then StartStream(d, s, i, e) else s, e, order[1..]);
    }
  }

  // What the toggle service can leave behind is still this much in order.
  ghost predicate Sound(d: Device, s: State)
  {
    Truthful(s) && s.enable <= d.sensors
  }

  // Some enabled stream would be started without a stored mode.
  ghost predicate SomeMissing(d: Device, s: State, e: Env)
  {
    exists i :: Missing(d, s, e, i)
  }

  // Some enabled stream would be asked for its modes without having an object.
  ghost predicate SomeUnmade(d: Device, s: State)
  {
    exists i :: i in s.enable && !d.Uvc(i) && i !in s.objects
  }

  // The state in which every enabled stream has been stopped.
  function Stopped(s: State): State
  {
    s.(started := s.started - s.enable, running := s.running - s.enable)
  }

  function Flagged(s: State, i: Stream, on: bool): State
  {
    s.(enable := if on then s.enable + {i} else s.enable - {i})
  }

  // The steps that abort the node, in terms of the state before them.
  ghost predicate Fatal(d: Device, s: State, step: Step, e: Env)
  {
    match step
    case Subscribe(i) => Missing(d, s, e, i)
    case Unsubscribe(_) => false
    case Start(i) => Missing(d, s, e, i)
    case Stop(_) => false
    case StartEvery => SomeMissing(d, s, e)
    case StopEvery => false
    case Reconfigure(_) => SomeUnmade(d, GiveWay(d, s))
    case Toggle(i, on) => i in d.sensors && SomeMissing(d, Stopped(Flagged(s, i, on)), e)
  }

  lemma StopAllIs(s: State)
    requires Truthful(s) && !s.aborted
    ensures StopAll(s, IMAGE_STREAMS) == Stopped(s)
  {
    AllStreams();
    StopAllStops(s, IMAGE_STREAMS);
    EveryStream(s.enable);
  }

  lemma EveryStream(a: set<Stream>)
    ensures a * (set i | i in IMAGE_STREAMS) == a
  {
    AllStreams();
    forall i | i in a ensures i in (set j | j in IMAGE_STREAMS) {
      assert i in IMAGE_STREAMS;
    }
  }

  lemma StartAllAbortsIff(d: Device, s: State, e: Env)
    requires Sound(d, s) && !s.aborted
    ensures StartAll(d, s, e, IMAGE_STREAMS).aborted <==> SomeMissing(d, s, e)
  {
    AllStreams();
    StartAllAborts(d, s, e, IMAGE_STREAMS);
    if i :| Missing(d, s, e, i) { assert i in IMAGE_STREAMS; }
  }

  // Choosing modes aborts exactly at a stream without an object; otherwise every enabled stream of the
  // list has a stored mode afterwards.
  lemma {:induction false} PickAllAborts(d: Device, s: State, c: Config, order: seq<Stream>)
    requires !s.aborted && s.enable <= d.sensors
    ensures var t := PickAll(d, s, c, order);
            && (t.aborted <==> exists i :: i in order && i in s.enable && !d.Uvc(i) && i !in s.objects)
            && t == s.(enable := t.enable, modes := t.modes, aborted := t.aborted) && t.enable <= s.enable
            && s.modes.Keys <= t.modes.Keys
            && (!t.aborted ==> forall i :: i in order && i in t.enable && !d.Uvc(i) ==> i in t.modes)
    decreases |order|
  {
    if order != [] {
      var i := order[0];
      var t := PickMode(d, s, c, i);
      if t.aborted {
        AbortedPick(d, t, c, order[1..]);
      } else {
        PickAllAborts(d, t, c, order[1..]);
        assert forall j :: j in order <==> j == i || j in order[1..];
        assert i in s.enable && !d.Uvc(i) ==> i in s.objects;
        assert forall j :: j != i ==> (j in t.enable <==> j in s.enable);
      }
    }
  }

  lemma ReconfigureAborts(d: Device, s: State, c: Config, e: Env)
    requires Sound(d, s) && !s.aborted
    ensures Next(d, s, Reconfigure(c), e).aborted <==> SomeUnmade(d, GiveWay(d, s))
    ensures Sound(d, SetupVideoMode(d, Stopped(s), c))
  {
    StopAllIs(s);
    AllStreams();
    var t := Stopped(s);
    var u := SetupVideoMode(d, t, c);
    PickAllAborts(d, GiveWay(d, t), c, IMAGE_STREAMS);
    assert u.aborted <==> SomeUnmade(d, GiveWay(d, s)) by {
      if i :| i in GiveWay(d, s).enable && !d.Uvc(i) && i !in s.objects { assert i in IMAGE_STREAMS; }
    }
    if u.aborted {
      AbortedStart(d, u, e, IMAGE_STREAMS);
    } else {
      StartAllAbortsIff(d, u, e);
      forall i ensures !Missing(d, u, e, i) {
        assert i in IMAGE_STREAMS;
        assert i in u.enable && d.Ours(i) ==> i in u.modes;
      }
    }
  }

  /** One step: it aborts the node exactly when it is fatal, and the node's belief stays the driver's
      truth either way. */
  lemma AbortsIff(d: Device, s: State, step: Step, e: Env)
    requires Sound(d, s) && !s.aborted
    ensures Next(d, s, step, e).aborted <==> Fatal(d, s, step, e)
    ensures Sound(d, Next(d, s, step, e))
  {
    match step
    case Subscribe(_) =>
    case Unsubscribe(_) =>
    case Start(_) =>
    case Stop(_) =>
    case StartEvery =>
      StartAllAbortsIff(d, s, e);
      StartAllKeeps(d, s, e, IMAGE_STREAMS);
    case StopEvery => StopAllIs(s);
    case Reconfigure(c) =>
      ReconfigureAborts(d, s, c, e);
      StopAllIs(s);
      StartAllKeeps(d, SetupVideoMode(d, Stopped(s), c), e, IMAGE_STREAMS);
    case Toggle(i, on) =>
      if i in d.sensors {
        var t := Flagged(s, i, on);
        StopAllIs(t);
        StartAllAbortsIff(d, Stopped(t), e);
        StartAllKeeps(d, Stopped(t), e, IMAGE_STREAMS);
      }
  }

  // The step numbered k of a run is fatal.
  ghost predicate FatalAt(d: Device, s: State, steps: seq<(Step, Env)>, k: nat)
    requires k < |steps|
  {
    !Run(d, s, steps[..k]).aborted && Fatal(d, Run(d, s, steps[..k]), steps[k].0, steps[k].1)
  }

  // Over every run, even if streams without a service were toggled: a stream is marked started exactly
  // when the driver runs it, and the node has aborted if and only if some step of the run was fatal.
  lemma {:induction false} EveryRun(d: Device, s: State, steps: seq<(Step, Env)>)
    requires Sound(d, s) && !s.aborted
    ensures Sound(d, Run(d, s, steps))
    ensures Run(d, s, steps).aborted <==> exists k: nat :: k < |steps| && FatalAt(d, s, steps, k)
  {
    if steps != [] {
      var u, n := steps[..|steps| - 1], |steps| - 1;
      EveryRun(d, s, u);
      var r := Run(d, s, u);
      assert forall k: nat :: k < n ==> u[..k] == steps[..k];
      assert forall k: nat :: k < n ==> (FatalAt(d, s, u, k) <==> FatalAt(d, s, steps, k));
      if !r.aborted { AbortsIff(d, r, steps[n].0, steps[n].1); }
      assert FatalAt(d, s, steps, n) <==> !r.aborted && Fatal(d, r, steps[n].0, steps[n].1);
    }
  }

  /** Switching a stream on aborts the node exactly when the stream, or another enabled one, is ours,
      has subscribers, and was never given a video mode; in a node that has not been toggled before it
      can only be the stream itself, disabled by set-up before choosing a mode. */
  lemma ToggleOnAbortsIff(d: Device, s: State, i: Stream, e: Env)
    requires Sound(d, s) && !s.aborted && i in d.sensors
    ensures Next(d, s, Toggle(i, true), e).aborted <==>
            s.isRunning && exists j :: j in s.enable + {i} && d.Ours(j) && j in e.subscribed && j !in s.modes
    ensures Orderly(d, s) ==>
              (Next(d, s, Toggle(i, true), e).aborted <==>
               s.isRunning && d.Ours(i) && i in e.subscribed && i !in s.modes)
  {
    AbortsIff(d, s, Toggle(i, true), e);
    var t := Stopped(Flagged(s, i, true));
    assert forall j :: Missing(d, t, e, j) <==>
             s.isRunning && j in s.enable + {i} && d.Ours(j) && j in e.subscribed && j !in s.modes;
    if Orderly(d, s) {
      forall j | Missing(d, t, e, j) ensures j == i { assert !d.Uvc(j); }
      assert Missing(d, t, e, i) <==> s.isRunning && d.Ours(i) && i in e.subscribed && i !in s.modes;
    }
  }

  /** If nobody listens when such a stream is switched on, the first subscription finds the node
      aborted or aborts it: a stream of ours without a stored mode cannot be started. */
  lemma {:induction false} LaterSubscribeAborts(d: Device, s: State, i: Stream, e: Env, f: Env)
    requires Sound(d, s) && !s.aborted && s.isRunning && i in d.sensors && d.Ours(i) && i !in s.modes
    requires i !in e.subscribed && i in f.subscribed
    ensures var t := Next(d, s, Toggle(i, true), e);
            Next(d, t, Subscribe(i), f).aborted && (Orderly(d, s) ==> !t.aborted)
  {
    ToggleOnAbortsIff(d, s, i, e);
    AbortsIff(d, s, Toggle(i, true), e);
    var u := Stopped(Flagged(s, i, true));
    StopAllIs(Flagged(s, i, true));
    StartAllKeeps(d, u, e, IMAGE_STREAMS);
    StartAllModes(d, u, e, IMAGE_STREAMS, i);
    var t := Next(d, s, Toggle(i, true), e);
    assert i in t.enable && i !in t.modes && i !in t.started && t.isRunning;
    if !t.aborted { AbortsIff(d, t, Subscribe(i), f); }
  }

  lemma {:induction false} StartAllGrows(d: Device, s: State, e: Env, order: seq<Stream>)
    ensures var t := StartAll(d, s, e, order);
            s.objects <= t.objects && t.modes == s.modes && t.enable == s.enable && t.isRunning == s.isRunning
    decreases |order|
  {
    if order != [] {
      var i := order[0];
      StartAllGrows(d, if i in s.enable && i !in s.started then StartStream(d, s, i, e) else s, e, order[1..]);
    }
  }

  lemma {:induction false} StartAllModes(d: Device, s: State, e: Env, order: seq<Stream>, i: Stream)
    requires i !in e.subscribed && i !in s.started
    ensures var t := StartAll(d, s, e, order);
            t.modes == s.modes && t.isRunning == s.isRunning && i !in t.started
    decreases |order|
  {
    if order != [] {
      var j := order[0];
      StartAllModes(d, if j in s.enable && j !in s.started then StartStream(d, s, j, e) else s, e, order[1..], i);
    }
  }

  // ---------- The streams that have services ----------

  // The streams enabled when setupDevices ends: only for these does the node advertise a toggle service
  // and an image topic.
  function Served(d: Device, wanted: set<Stream>, e: Env): set<Stream>
  {
    match SetupDevices(d, State(true, wanted, {}, {}, map[], {}, false), e, IMAGE_STREAMS)
    case None => {}
    case Some(s) => s.enable
  }

  // A step that the outside can cause, its environment included.
  predicate Reaches(served: set<Stream>, step: Step, e: Env)
  {
    && e.subscribed <= served
    && ((step.Toggle? || step.Subscribe? || step.Unsubscribe?) ==> step.i in served)
  }

  ghost predicate AllReach(served: set<Stream>, steps: seq<(Step, Env)>)
  {
    forall k :: 0 <= k < |steps| ==> Reaches(served, steps[k].0, steps[k].1)
  }

  // Only served streams are enabled, and every one of them that is not UVC has an object.
  ghost predicate Made(d: Device, served: set<Stream>, s: State)
  {
    Sound(d, s) && s.enable <= served <= d.sensors && forall i :: i in served && !d.Uvc(i) ==> i in s.objects
  }

  // The fatal steps left: those that start a stream without a stored mode.
  ghost predicate Modeless(d: Device, s: State, step: Step, e: Env)
  {
    !step.Reconfigure? && Fatal(d, s, step, e)
  }

  // Objects and modes are added, and none is taken away.
  predicate Grown(s: State, t: State)
  {
    s.objects <= t.objects && s.modes.Keys <= t.modes.Keys && t.isRunning == s.isRunning
  }

  lemma StartStreamGrows(d: Device, s: State, i: Stream, e: Env)
    ensures Grown(s, StartStream(d, s, i, e)) && StartStream(d, s, i, e).enable == s.enable
  {
  }

  lemma ReconfigureGrows(d: Device, s: State, c: Config, e: Env)
    requires Sound(d, s) && !s.aborted
    ensures Grown(s, Next(d, s, Reconfigure(c), e)) && Next(d, s, Reconfigure(c), e).enable <= s.enable
  {
    hide StartAll, PickAll;
    StopAllIs(s);
    PickAllAborts(d, GiveWay(d, Stopped(s)), c, IMAGE_STREAMS);
    StartAllGrows(d, SetupVideoMode(d, Stopped(s), c), e, IMAGE_STREAMS);
  }

  lemma ToggleGrows(d: Device, s: State, i: Stream, on: bool, e: Env)
    requires Sound(d, s) && !s.aborted
    ensures Grown(s, Next(d, s, Toggle(i, on), e))
    ensures Next(d, s, Toggle(i, on), e).enable <= s.enable + if on then {i} else {}
  {
    hide StartAll, StopAll;
    if i in d.sensors {
      StopAllIs(Flagged(s, i, on));
      StartAllGrows(d, Stopped(Flagged(s, i, on)), e, IMAGE_STREAMS);
    }
  }

  lemma NextGrows(d: Device, s: State, step: Step, e: Env)
    requires Sound(d, s) && !s.aborted
    ensures Grown(s, Next(d, s, step, e))
    ensures Next(d, s, step, e).enable <= s.enable + if step.Toggle? && step.on then {step.i} else {}
  {
    hide StartAll, StopAll, StartStream, SetupVideoMode;
    match step
    case Subscribe(i) => StartStreamGrows(d, s, i, e);
    case Unsubscribe(_) =>
    case Start(i) => StartStreamGrows(d, s, i, e);
    case Stop(_) =>
    case StartEvery => StartAllGrows(d, s, e, IMAGE_STREAMS);
    case StopEvery => StopAllIs(s);
    case Reconfigure(c) => ReconfigureGrows(d, s, c, e);
    case Toggle(i, on) => ToggleGrows(d, s, i, on, e);
  }

  lemma NextKeepsMade(d: Device, served: set<Stream>, s: State, step: Step, e: Env)
    requires Made(d, served, s) && !s.aborted && Reaches(served, step, e)
    ensures Made(d, served, Next(d, s, step, e)) && Grown(s, Next(d, s, step, e))
    ensures Next(d, s, step, e).aborted <==> Modeless(d, s, step, e)
  {
    AbortsIff(d, s, step, e);
    NextGrows(d, s, step, e);
    if step.Reconfigure? { assert !SomeUnmade(d, GiveWay(d, s)); }
  }

  lemma {:induction false} SetUpIsMade(d: Device, wanted: set<Stream>, c: Config, e: Env)
    requires SetUp(d, wanted, c, e).Some?
    ensures var s := SetUp(d, wanted, c, e).value;
            Made(d, Served(d, wanted, e), s) && Orderly(d, s) && s.isRunning
    ensures forall i :: i in SetUp(d, wanted, c, e).value.modes ==> i in SetUp(d, wanted, c, e).value.enable
  {
    AllStreams();
    var s0 := State(true, wanted, {}, {}, map[], {}, false);
    SetUpIsOrderly(d, wanted, c, e);
    SetupDevicesFacts(d, s0, e, IMAGE_STREAMS);
    SetupDevicesFrame(d, s0, e, IMAGE_STREAMS);
    var s := SetupDevices(d, s0, e, IMAGE_STREAMS).value;
    assert forall i :: i in s.enable ==> i in IMAGE_STREAMS;
    PickAllAborts(d, GiveWay(d, s), c, IMAGE_STREAMS);
    PickAllModes(d, GiveWay(d, s), c, IMAGE_STREAMS);
  }

  lemma {:induction false} SetupDevicesFrame(d: Device, s: State, e: Env, order: seq<Stream>)
    ensures var t := SetupDevices(d, s, e, order);
            t.Some? ==> t.value.modes == s.modes && t.value.isRunning == s.isRunning
    decreases |order|
  {
    if order != [] && SetupDevice(d, s, order[0], e).Some? {
      SetupDevicesFrame(d, SetupDevice(d, s, order[0], e).value, e, order[1..]);
    }
  }

  // A stream given a mode here is left enabled; going over it again does not change that.
  lemma {:induction false} PickAllModes(d: Device, s: State, c: Config, order: seq<Stream>)
    requires !s.aborted && s.enable <= d.sensors && forall i :: i in s.enable && !d.Uvc(i) ==> i in s.objects
    requires forall i :: i in s.modes ==> i in s.enable && Choose(d.Modes(i), Wanted(d, c, i)).Some?
    ensures forall i :: i in PickAll(d, s, c, order).modes ==> i in PickAll(d, s, c, order).enable
    decreases |order|
  {
    if order != [] { PickAllModes(d, PickMode(d, s, c, order[0]), c, order[1..]); }
  }

  lemma {:induction false} MadeRun(d: Device, served: set<Stream>, s: State, steps: seq<(Step, Env)>)
    requires Made(d, served, s) && !s.aborted && AllReach(served, steps)
    ensures Made(d, served, Run(d, s, steps)) && Grown(s, Run(d, s, steps))
    ensures Run(d, s, steps).aborted <==> exists k: nat :: k < |steps| && ModelessAt(d, s, steps, k)
  {
    hide Made, Modeless, Next;
    if steps != [] {
      var u, n := steps[..|steps| - 1], |steps| - 1;
      MadeRun(d, served, s, u);
      var r := Run(d, s, u);
      assert forall k: nat :: k < n ==> u[..k] == steps[..k];
      assert forall k: nat :: k < n ==> (ModelessAt(d, s, u, k) <==> ModelessAt(d, s, steps, k));
      assert Reaches(served, steps[n].0, steps[n].1);
      if r.aborted {
        AbortedNext(d, r, steps[n].0, steps[n].1);
      } else {
        NextKeepsMade(d, served, r, steps[n].0, steps[n].1);
      }
      assert ModelessAt(d, s, steps, n) <==> !r.aborted && Modeless(d, r, steps[n].0, steps[n].1);
    }
  }

  lemma AbortedNext(d: Device, s: State, step: Step, e: Env)
    requires s.aborted
    ensures Next(d, s, step, e) == s
  {
  }

  /** Over every run from set-up that the outside can cause: a stream is marked started exactly when the
      driver runs it, every served stream that is not UVC keeps its object, and the node has aborted if
      and only if some step started a stream that has no stored mode. No reconfiguration aborts. */
  lemma {:induction false} ServedRun(d: Device, wanted: set<Stream>, c: Config, e: Env, steps: seq<(Step, Env)>)
    requires SetUp(d, wanted, c, e).Some? && AllReach(Served(d, wanted, e), steps)
    ensures var s := SetUp(d, wanted, c, e).value;
            Made(d, Served(d, wanted, e), Run(d, s, steps)) && Grown(s, Run(d, s, steps)) && s.isRunning
    ensures var s := SetUp(d, wanted, c, e).value;
            Run(d, s, steps).aborted <==> exists k: nat :: k < |steps| && ModelessAt(d, s, steps, k)
  {
    SetUpIsMade(d, wanted, c, e);
    hide Made, ModelessAt, Run, AllReach;
    MadeRun(d, Served(d, wanted, e), SetUp(d, wanted, c, e).value, steps);
  }

  // Step k of the run is the one that starts a stream without a stored mode.
  ghost predicate ModelessAt(d: Device, s: State, steps: seq<(Step, Env)>, k: nat)
    requires k < |steps|
  {
    !Run(d, s, steps[..k]).aborted && Modeless(d, Run(d, s, steps[..k]), steps[k].0, steps[k].1)
  }

  /** Seen from set-up: some run aborts the node if and only if the choice of video modes disabled a
      stream that is served and started through this node. If it disabled none, no run ever does. */
  lemma {:induction false} CanAbortIff(d: Device, wanted: set<Stream>, c: Config, e: Env)
    requires SetUp(d, wanted, c, e).Some?
    ensures var s, served := SetUp(d, wanted, c, e).value, Served(d, wanted, e);
            (exists steps :: AllReach(served, steps) && Run(d, s, steps).aborted) <==>
            exists i :: i in served && d.Ours(i) && i !in s.enable
  {
    var s, served := SetUp(d, wanted, c, e).value, Served(d, wanted, e);
    SetUpIsMade(d, wanted, c, e);
    if i :| i in served && d.Ours(i) && i !in s.enable {
      var f := Env({i}, {}, {});
      var steps := [(Toggle(i, true), f)];
      ToggleOnAbortsIff(d, s, i, f);
      assert steps[..0] == [] && Run(d, s, []) == s;
      assert AllReach(served, steps) && Run(d, s, steps).aborted;
    }
    if steps: seq<(Step, Env)> :| AllReach(served, steps) && Run(d, s, steps).aborted {
      ServedRun(d, wanted, c, e, steps);
      var k: nat :| k < |steps| && ModelessAt(d, s, steps, k);
      assert AllReach(served, steps[..k]);
      ServedRun(d, wanted, c, e, steps[..k]);
      assert Reaches(served, steps[k].0, steps[k].1);
      var i := ModelessStream(d, served, Run(d, s, steps[..k]), steps[k].0, steps[k].1);
      assert i !in s.modes;
    }
  }

  // A fatal step is fatal for some served stream of ours without a stored mode.
  lemma ModelessStream(d: Device, served: set<Stream>, s: State, step: Step, e: Env) returns (i: Stream)
    requires s.enable <= served && Reaches(served, step, e) && Modeless(d, s, step, e)
    ensures i in served && d.Ours(i) && i !in s.modes
  {
    match step
    case Subscribe(j) => i := j;
    case Start(j) => i := j;
    case StartEvery => i :| Missing(d, s, e, i);
    case Toggle(j, on) => i :| Missing(d, Stopped(Flagged(s, j, on)), e, i);
    case _ => i := Depth;
  }

  /** A set-up in which it does: infrared and colour both asked for, so that infrared is disabled for
      colour's sake, then infrared switched on while someone listens. */
  lemma ToggleOnCanAbort()
    ensures var m := VideoMode(640, 480, 30, 1);
            var d := Device({Depth, Infra1, Color}, map[Depth := [m], Infra1 := [m], Color := [m]],
                            map[Depth := 1, Infra1 := 1, Color := 1], false, false);
            var c: Config := i => (640, 480, 30);
            var e := Env({Infra1}, {Depth, Infra1, Color}, {Depth, Infra1, Color});
            var s := SetUp(d, {Depth, Infra1, Color}, c, e);
            s.Some? && Next(d, s.value, Toggle(Infra1, true), e).aborted
  {
    var m := VideoMode(640, 480, 30, 1);
    var d := Device({Depth, Infra1, Color}, map[Depth := [m], Infra1 := [m], Color := [m]],
                    map[Depth := 1, Infra1 := 1, Color := 1], false, false);
    var c: Config := i => (640, 480, 30);
    var e := Env({Infra1}, {Depth, Infra1, Color}, {Depth, Infra1, Color});
    var s0 := State(true, {Depth, Infra1, Color}, {}, {}, map[], {}, false);
    var s1 := State(true, {Depth, Infra1, Color}, {}, {Depth, Infra1, Color}, map[], {}, false);
    AllStreams();
    ConcreteDevices(d, s0, e, s1);
    var g := s1.(enable := {Depth, Color});
    assert GiveWay(d, s1) == g;
    PickAllKeeps(d, g, c, IMAGE_STREAMS);
    ConcreteMode(d, g, c);
    SetUpIsOrderly(d, {Depth, Infra1, Color}, c, e);
    ToggleOnAbortsIff(d, SetUp(d, {Depth, Infra1, Color}, c, e).value, Infra1, e);
  }

  lemma ConcreteDevices(d: Device, s: State, e: Env, t: State)
    requires d.sensors == s.enable == e.canCreate == {Depth, Infra1, Color} && !d.useUvcCamera
    requires s.objects == s.started == {}
    requires t == s.(objects := {Depth, Infra1, Color})
    ensures SetupDevices(d, s, e, IMAGE_STREAMS) == Some(t)
  {
    var a, b := s.(objects := {Depth}), s.(objects := {Depth, Infra1});
    assert s.started - {Depth} == s.started - {Infra1} == s.started - {Color} == {};
    assert s.objects + {Depth} == {Depth} && {Depth} + {Infra1} == {Depth, Infra1};
    assert {Depth, Infra1} + {Color} == {Depth, Infra1, Color};
    assert IMAGE_STREAMS[1..] == [Infra1, Color] && [Infra1, Color][1..] == [Color];
    assert SetupDevice(d, s, Depth, e) == Some(a);
    assert SetupDevice(d, a, Infra1, e) == Some(b);
    assert SetupDevice(d, b, Color, e) == Some(t);
    assert SetupDevices(d, t, e, []) == Some(t);
    assert SetupDevices(d, b, e, [Color]) == Some(t);
    assert SetupDevices(d, a, e, [Infra1, Color]) == Some(t);
  }

  // A disabled stream is not given a mode.
  lemma ConcreteMode(d: Device, s: State, c: Config)
    requires Infra1 !in s.enable && Infra1 !in s.modes
    ensures Infra1 !in PickAll(d, s, c, IMAGE_STREAMS).modes
  {
    NoMode(d, s, c, IMAGE_STREAMS, Infra1);
  }

  lemma {:induction false} NoMode(d: Device, s: State, c: Config, order: seq<Stream>, i: Stream)
    requires i !in s.enable && i !in s.modes
    ensures i !in PickAll(d, s, c, order).modes
    decreases |order|
  {
    if order != [] { NoMode(d, PickMode(d, s, c, order[0]), c, order[1..], i); }
  }

  // ---------- What the steps do, in terms of the streams ----------

  // A stream that can be started here and now.
  predicate Startable(d: Device, s: State, e: Env, i: Stream)
  {
    && s.isRunning && i in s.enable && !(i == Color && (d.useUvcCamera || d.isAstraPro))
    && i in e.subscribed && i in s.modes && (i in s.objects || i in e.canCreate) && i in e.canStart
  }

  /** A subscription starts its stream exactly if that is possible, and no other stream. */
  lemma SubscribeStarts(d: Device, s: State, i: Stream, e: Env, j: Stream)
    requires Sound(d, s) && !s.aborted
    ensures var t := Next(d, s, Subscribe(i), e);
            j in t.running <==> j in s.running || (j == i && Startable(d, s, e, i))
  {
  }

  /** Starting or stopping one stream by itself: a start does what a subscription does, a stop stops the
      stream if it is enabled, and neither touches another. */
  lemma StartAndStopOne(d: Device, s: State, i: Stream, e: Env, j: Stream)
    requires Sound(d, s) && !s.aborted
    ensures j in Next(d, s, Start(i), e).running <==> j in s.running || (j == i && Startable(d, s, e, i))
    ensures j in Next(d, s, Stop(i), e).running <==> j in s.running && !(j == i && i in s.enable)
  {
  }

  /** The end of a subscription stops its stream exactly if nobody is left and the stream is enabled. */
  lemma UnsubscribeStops(d: Device, s: State, i: Stream, e: Env, j: Stream)
    requires Sound(d, s) && !s.aborted
    ensures var t := Next(d, s, Unsubscribe(i), e);
            j in t.running <==> j in s.running && !(j == i && i !in e.subscribed && i in s.enable)
  {
  }

  lemma {:induction false} StartAllStarts(d: Device, s: State, e: Env, order: seq<Stream>, j: Stream)
    requires Sound(d, s) && !s.aborted && forall i :: i in order ==> !Missing(d, s, e, i)
    ensures var t := StartAll(d, s, e, order);
            j in t.running <==> j in s.running || (j in order && Startable(d, s, e, j))
    decreases |order|
  {
    if order != [] {
      var i := order[0];
      var t := if i in s.enable && i !in s.started then StartStream(d, s, i, e) else s;
      assert i in order && !Missing(d, s, e, i);
      assert !t.aborted && Sound(d, t);
      forall k | k in order[1..] ensures !Missing(d, t, e, k) {
        assert k in order && !Missing(d, s, e, k);
      }
      StartAllStarts(d, t, e, order[1..], j);
      assert j in order <==> j == i || j in order[1..];
    }
  }

  /** Starting all streams, when none lacks a mode, starts exactly those that can be. */
  lemma StartEveryStarts(d: Device, s: State, e: Env, j: Stream)
    requires Sound(d, s) && !s.aborted && !SomeMissing(d, s, e)
    ensures j in Next(d, s, StartEvery, e).running <==> j in s.running || Startable(d, s, e, j)
  {
    AllStreams();
    StartAllStarts(d, s, e, IMAGE_STREAMS, j);
  }

  // The device has a mode of the size asked for, in the stream's pixel format.
  predicate HasMode(d: Device, c: Config, i: Stream)
  {
    exists m :: m in d.Modes(i) && m.width == c(i).0 && m.height == c(i).1 && m.format == d.Format(i)
  }

  // Infrared does not give way: colour comes from elsewhere, or only one of the two is enabled.
  predicate NotInTheWay(d: Device, enable: set<Stream>, i: Stream)
  {
    i == Infra1 && Color in enable ==> d.useUvcCamera
  }

  lemma {:induction false} PickAllEnables(d: Device, s: State, c: Config, order: seq<Stream>, i: Stream)
    requires !s.aborted && s.enable <= d.sensors && forall j :: j in s.enable && !d.Uvc(j) ==> j in s.objects
    ensures i in PickAll(d, s, c, order).enable <==>
            i in s.enable && (i in order && !d.Uvc(i) ==> Choose(d.Modes(i), Wanted(d, c, i)).Some?)
    decreases |order|
  {
    if order != [] {
      PickAllEnables(d, PickMode(d, s, c, order[0]), c, order[1..], i);
      assert i in order <==> i == order[0] || i in order[1..];
    }
  }

  /** The choice of modes leaves a stream enabled exactly if it does not give way to colour and, unless
      it is UVC colour, the device has a mode for it. */
  lemma VideoModesEnable(d: Device, s: State, c: Config, i: Stream)
    requires !s.aborted && s.enable <= d.sensors && forall j :: j in s.enable && !d.Uvc(j) ==> j in s.objects
    ensures i in SetupVideoMode(d, s, c).enable <==>
            i in s.enable && NotInTheWay(d, s.enable, i) && ((i == Color && d.useUvcCamera) || HasMode(d, c, i))
  {
    AllStreams();
    PickAllEnables(d, GiveWay(d, s), c, IMAGE_STREAMS, i);
    ChoiceIsSupported(d.Modes(i), Wanted(d, c, i));
    if HasMode(d, c, i) {
      var m :| m in d.Modes(i) && m.width == c(i).0 && m.height == c(i).1 && m.format == d.Format(i);
      assert Alike(m, Wanted(d, c, i));
    }
  }

  /** Reconfiguring an orderly node: exactly the streams that stay enabled and can be started run. */
  lemma ReconfigureRestarts(d: Device, s: State, c: Config, e: Env, j: Stream)
    requires Orderly(d, s)
    ensures var t := Next(d, s, Reconfigure(c), e);
            && (j in t.enable <==>
                  && j in s.enable && NotInTheWay(d, s.enable, j)
                  && ((j == Color && d.useUvcCamera) || HasMode(d, c, j)))
            && (j in t.running <==>
                  && s.isRunning && j in t.enable && !(j == Color && (d.useUvcCamera || d.isAstraPro))
                  && j in e.subscribed && j in e.canStart)
  {
    StopAllIs(s);
    var u := Stopped(s);
    assert u.running == {} && u.started == {};
    VideoModesEnable(d, u, c, j);
    SetupVideoModeOrderly(d, u, c);
    var v := SetupVideoMode(d, u, c);
    AllStreams();
    PickAllKeeps(d, GiveWay(d, u), c, IMAGE_STREAMS);
    assert forall i :: !Missing(d, v, e, i) by {
      assert forall i :: i in v.enable && !d.Uvc(i) ==> i in v.modes;
    }
    StartAllStarts(d, v, e, IMAGE_STREAMS, j);
    StartAllKeeps(d, v, e, IMAGE_STREAMS);
  }

  /** Setting up: exactly the streams asked for that the device has, that do not give way to colour, and
      that, unless they are UVC colour, have a mode, end enabled. */
  lemma {:induction false} SetUpEnables(d: Device, wanted: set<Stream>, c: Config, e: Env, i: Stream)
    requires SetUp(d, wanted, c, e).Some?
    ensures i in SetUp(d, wanted, c, e).value.enable <==>
            && i in wanted && i in d.sensors && NotInTheWay(d, wanted * d.sensors, i)
            && ((i == Color && d.useUvcCamera) || HasMode(d, c, i))
  {
    AllStreams();
    var s0 := State(true, wanted, {}, {}, map[], {}, false);
    var s := SetupDevices(d, s0, e, IMAGE_STREAMS).value;
    SetupDevicesFacts(d, s0, e, IMAGE_STREAMS);
    forall j ensures j in s.enable <==> j in wanted && j in d.sensors {
      SetupDevicesEnable(d, s0, e, IMAGE_STREAMS, j);
    }
    assert s.enable == wanted * d.sensors;
    VideoModesEnable(d, s, c, i);
  }

  /** Set-up fails exactly if some stream asked for, that the device has and that is not UVC colour, cannot
      be created. */
  lemma SetUpFailsIff(d: Device, wanted: set<Stream>, c: Config, e: Env)
    ensures SetUp(d, wanted, c, e).None? <==>
            exists i :: i in wanted && i in d.sensors && !(i == Color && d.useUvcCamera) && i !in e.canCreate
  {
    AllStreams();
    var s0 := State(true, wanted, {}, {}, map[], {}, false);
    SetupDevicesFail(d, s0, e, IMAGE_STREAMS);
    if i :| i in wanted && i in d.sensors && !(i == Color && d.useUvcCamera) && i !in e.canCreate {
      assert i in IMAGE_STREAMS;
    }
  }

  lemma {:induction false} SetupDevicesFail(d: Device, s: State, e: Env, order: seq<Stream>)
    ensures SetupDevices(d, s, e, order).None? <==>
            exists i :: i in order && i in s.enable && i in d.sensors && !d.Uvc(i) && i !in e.canCreate
    decreases |order|
  {
    if order != [] {
      var i := order[0];
      assert forall j :: j in order <==> j == i || j in order[1..];
      if SetupDevice(d, s, i, e).Some? {
        var t := SetupDevice(d, s, i, e).value;
        SetupDevicesFail(d, t, e, order[1..]);
        assert forall j :: j in t.enable && j in d.sensors <==> j in s.enable && j in d.sensors;
      } else {
        assert i in order;
      }
    }
  }

  lemma {:induction false} SetupDevicesEnable(d: Device, s: State, e: Env, order: seq<Stream>, i: Stream)
    requires SetupDevices(d, s, e, order).Some?
    ensures i in SetupDevices(d, s, e, order).value.enable <==> i in s.enable && (i in order ==> i in d.sensors)
    decreases |order|
  {
    if order != [] {
      SetupDevicesEnable(d, SetupDevice(d, s, order[0], e).value, e, order[1..], i);
      assert i in order <==> i == order[0] || i in order[1..];
    }
  }

  /** Toggling a stream, when nothing enabled afterwards lacks a mode: the streams then disabled keep
      running if they ran, and of the others exactly those run that can be started. */
  lemma ToggleRestarts(d: Device, s: State, i: Stream, on: bool, e: Env, j: Stream)
    requires Sound(d, s) && !s.aborted && i in d.sensors && !Fatal(d, s, Toggle(i, on), e)
    ensures var u := s.(enable := if on then s.enable + {i} else s.enable - {i});
            && Next(d, s, Toggle(i, on), e).enable == u.enable
            && (j in Next(d, s, Toggle(i, on), e).running <==>
                  (j in s.running && j !in u.enable) || Startable(d, u, e, j))
  {
    hide StartAll, StopAll, Missing;
    var u := Flagged(s, i, on);
    var v := Stopped(u);
    StopAllIs(u);
    assert Next(d, s, Toggle(i, on), e) == StartAll(d, v, e, IMAGE_STREAMS);
    StartEveryStarts(d, v, e, j);
    StartAllKeeps(d, v, e, IMAGE_STREAMS);
    assert Startable(d, v, e, j) <==> Startable(d, u, e, j);
  }

  // ---------- The code ----------

  class ObCameraNode {
    const device: Device
    var isRunning: bool
    var enable: set<Stream>
    var streamStarted: set<Stream>
    var streams: set<Stream>
    var streamVideoMode: map<Stream, VideoMode>
    var driverRunning: set<Stream>
    var aborted: bool

    function View(): State
      reads this
    {
      State(isRunning, enable, streamStarted, streams, streamVideoMode, driverRunning, aborted)
    }

    constructor (d: Device, wanted: set<Stream>)
      ensures device == d && View() == State(true, wanted, {}, {}, map[], {}, false)
    {
      device, isRunning, enable, streamStarted, streams := d, true, wanted, {}, {};
      streamVideoMode, driverRunning, aborted := map[], {}, false;
    }

    method SetupAllDevices(e: Env) returns (ok: bool)
      modifies this
      ensures SetupDevices(device, old(View()), e, IMAGE_STREAMS) == if ok then Some(View()) else None
    {
      var k := 0;
      while k < |IMAGE_STREAMS|
        invariant k <= |IMAGE_STREAMS|
        invariant SetupDevices(device, View(), e, IMAGE_STREAMS[k..]) ==
                  SetupDevices(device, old(View()), e, IMAGE_STREAMS)
      {
        var i := IMAGE_STREAMS[k];
        streamStarted := streamStarted - {i};
        if i in enable && i in device.sensors {
          if device.useUvcCamera && i == Color {
            k := k + 1;
            continue;
          }
          if i !in e.canCreate {
            return false;
          }
          streams := streams + {i};
        } else {
          streams := streams - {i};
          enable := enable - {i};
        }
        k := k + 1;
      }
      return true;
    }

    method SetupVideoModes(c: Config)
      requires !aborted
      modifies this
      ensures View() == SetupVideoMode(device, old(View()), c)
    {
      if !device.useUvcCamera && Infra1 in enable && Color in enable {
        enable := enable - {Infra1};
      }
      ghost var s0 := View();
      assert s0 == GiveWay(device, old(View()));
      hide PickMode;
      var k := 0;
      while k < |IMAGE_STREAMS|
        invariant k <= |IMAGE_STREAMS| && !aborted
        invariant PickAll(device, View(), c, IMAGE_STREAMS[k..]) == PickAll(device, s0, c, IMAGE_STREAMS)
      {
        SetupOneMode(IMAGE_STREAMS[k], c);
        if aborted {
          AbortedPick(device, View(), c, IMAGE_STREAMS[k + 1..]);
          return;
        }
        k := k + 1;
      }
    }

    // The body of the loop of setupVideoMode.
    method SetupOneMode(i: Stream, c: Config)
      requires !aborted
      modifies this
      ensures View() == PickMode(device, old(View()), c, i)
    {
      if i in device.sensors && i in enable {
        if device.useUvcCamera && i == Color { return; }
        if i !in streams {
          aborted := true;
          return;
        }
        var chosen := ScanModes(device.Modes(i), Wanted(device, c, i));
        match chosen {
          case Some(m) => streamVideoMode := streamVideoMode[i := m];
          case None => enable := enable - {i};
        }
      }
    }

    method StartOne(i: Stream, e: Env)
      requires !aborted
      modifies this
      ensures View() == StartStream(device, old(View()), i, e)
    {
      if !isRunning { return; }
      if i !in enable { return; }
      if i == Color && device.useUvcCamera { return; }
      if device.isAstraPro && i == Color { return; }
      if i in streamStarted { return; }
      if i !in e.subscribed { return; }
      if i !in streamVideoMode { aborted := true; return; }
      if i !in streams && i in device.sensors {
        if i !in e.canCreate { return; }
        streams := streams + {i};
      }
      if i !in streams { aborted := true; return; }
      if i in e.canStart {
        driverRunning := driverRunning + {i};
        streamStarted := streamStarted + {i};
      }
      assert old(View()).objects + {i} == streams;
    }

    method StopOne(i: Stream)
      requires !aborted
      modifies this
      ensures View() == StopStream(old(View()), i)
    {
      if i !in enable { return; }
      if i !in streamStarted { return; }
      if i !in streams { aborted := true; return; }
      driverRunning := driverRunning - {i};
      streamStarted := streamStarted - {i};
    }

    method StartStreams(e: Env)
      requires !aborted
      modifies this
      ensures View() == StartAll(device, old(View()), e, IMAGE_STREAMS)
    {
      var k := 0;
      while k < |IMAGE_STREAMS|
        invariant k <= |IMAGE_STREAMS| && !aborted
        invariant StartAll(device, View(), e, IMAGE_STREAMS[k..]) == StartAll(device, old(View()), e, IMAGE_STREAMS)
      {
        var i := IMAGE_STREAMS[k];
        if i in enable && i !in streamStarted {
          StartOne(i, e);
          if aborted {
            AbortedStart(device, View(), e, IMAGE_STREAMS[k + 1..]);
            return;
          }
        }
        k := k + 1;
      }
    }

    method StopStreams()
      requires !aborted
      modifies this
      ensures View() == StopAll(old(View()), IMAGE_STREAMS)
    {
      var k := 0;
      while k < |IMAGE_STREAMS|
        invariant k <= |IMAGE_STREAMS| && !aborted
        invariant StopAll(View(), IMAGE_STREAMS[k..]) == StopAll(old(View()), IMAGE_STREAMS)
      {
        var i := IMAGE_STREAMS[k];
        if i in streamStarted {
          StopOne(i);
          if aborted {
            AbortedStop(View(), IMAGE_STREAMS[k + 1..]);
            return;
          }
        }
        k := k + 1;
      }
    }

    method ImageSubscribedCallback(i: Stream, e: Env)
      requires !aborted
      modifies this
      ensures View() == Next(device, old(View()), Subscribe(i), e)
    {
      if !isRunning { return; }
      if i in streamStarted { return; }
      StartOne(i, e);
    }

    method ImageUnsubscribedCallback(i: Stream, e: Env)
      requires !aborted
      modifies this
      ensures View() == Next(device, old(View()), Unsubscribe(i), e)
    {
      if i !in streamStarted { return; }
      if i !in e.subscribed {
        StopOne(i);
      }
    }

    method ReconfigureCallback(c: Config, e: Env)
      requires !aborted
      modifies this
      ensures View() == Next(device, old(View()), Reconfigure(c), e)
      ensures old(Orderly(device, View())) ==> Orderly(device, View())
    {
      if Orderly(device, View()) { NextKeepsOrder(device, View(), Reconfigure(c), e); }
      StopStreams();
      if aborted {
        AbortedPick(device, View(), c, IMAGE_STREAMS);
        AbortedStart(device, View(), e, IMAGE_STREAMS);
        return;
      }
      SetupVideoModes(c);
      if aborted {
        AbortedStart(device, View(), e, IMAGE_STREAMS);
        return;
      }
      StartStreams(e);
    }

    method ToggleSensor(i: Stream, enabled: bool, e: Env) returns (ok: bool)
      requires !aborted
      modifies this
      ensures ok <==> i in device.sensors
      ensures View() == Next(device, old(View()), Toggle(i, enabled), e)
    {
      if i !in device.sensors {
        return false;
      }
      if enabled {
        enable := enable + {i};
      } else {
        enable := enable - {i};
      }
      StopStreams();
      if aborted {
        AbortedStart(device, View(), e, IMAGE_STREAMS);
        return true;
      }
      StartStreams(e);
      return true;
    }
  }

  lemma {:induction false} AbortedPick(d: Device, s: State, c: Config, order: seq<Stream>)
    requires s.aborted
    ensures PickAll(d, s, c, order) == s
    decreases |order|
  {
    if order != [] { AbortedPick(d, s, c, order[1..]); }
  }

  lemma {:induction false} AbortedStart(d: Device, s: State, e: Env, order: seq<Stream>)
    requires s.aborted
    ensures StartAll(d, s, e, order) == s
    decreases |order|
  {
    if order != [] { AbortedStart(d, s, e, order[1..]); }
  }

  lemma {:induction false} AbortedStop(s: State, order: seq<Stream>)
    requires s.aborted
    ensures StopAll(s, order) == s
    decreases |order|
  {
    if order != [] { AbortedStop(s, order[1..]); }
  }
}
