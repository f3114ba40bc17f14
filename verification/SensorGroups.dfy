/** Choosing a profile for every enabled stream of a RealSense device, and opening, starting, stopping
    and closing the hardware modules that several streams share. */
module SensorGroups {
  import opened Common

  // A stream: its type and index.
  datatype Stream = Stream(kind: int, index: int)

  datatype Profile = Profile(stream: Stream, format: int, width: int, height: int, fps: int, isDefault: bool)

  // What is asked of a stream: zero asks for nothing. Motion streams are asked only for a rate.
  datatype Request = Request(motion: bool, width: int, height: int, fps: int, format: Option<int>)

  predicate Owns(r: Request, s: Stream, p: Profile)
  {
    p.stream.kind == s.kind && (r.motion || p.stream.index == s.index)
  }

  predicate Meets(r: Request, p: Profile)
  {
    && (r.fps == 0 || p.fps == r.fps)
    && (r.motion ||
        ((r.width == 0 || p.width == r.width) && (r.height == 0 || p.height == r.height) &&
         (r.format.None? || p.format == r.format.value)))
  }

  function FirstMatch(r: Request, s: Stream, ps: seq<Profile>): Option<Profile>
  {
    if ps == [] then None
    else if Owns(r, s, ps[0]) && Meets(r, ps[0]) then Some(ps[0])
    else FirstMatch(r, s, ps[1..])
  }

  function LastDefault(r: Request, s: Stream, ps: seq<Profile>): Option<Profile>
  {
    if ps == [] then None
    else if Owns(r, s, ps[|ps| - 1]) && ps[|ps| - 1].isDefault then Some(ps[|ps| - 1])
    else LastDefault(r, s, ps[..|ps| - 1])
  }

  function Choose(r: Request, s: Stream, ps: seq<Profile>): Option<Profile>
  {
    if FirstMatch(r, s, ps).Some? then FirstMatch(r, s, ps) else LastDefault(r, s, ps)
  }

  // A profile of the stream: of its type, and of its index unless it is a motion stream.
  predicate IsOf(r: Request, s: Stream, p: Profile)
  {
    p.stream.kind == s.kind && (p.stream.index == s.index || r.motion)
  }

  // What was asked for: the rate, and for an image stream size and format too; zero asks for nothing.
  predicate AsAsked(r: Request, p: Profile)
  {
    && (r.fps != 0 ==> p.fps == r.fps)
    && (!r.motion && r.width != 0 ==> p.width == r.width)
    && (!r.motion && r.height != 0 ==> p.height == r.height)
    && (!r.motion && r.format.Some? ==> p.format == r.format.value)
  }

  /** The choice by position: the first profile of the stream that is as asked, or else its last default
      profile, or else none. */
  lemma ChosenAt(r: Request, s: Stream, ps: seq<Profile>, k: nat)
    requires k < |ps| && IsOf(r, s, ps[k])
    ensures AsAsked(r, ps[k]) && (forall j :: 0 <= j < k ==> !(IsOf(r, s, ps[j]) && AsAsked(r, ps[j]))) ==>
              Choose(r, s, ps) == Some(ps[k])
    ensures ps[k].isDefault && (forall j :: k < j < |ps| ==> !(IsOf(r, s, ps[j]) && ps[j].isDefault)) &&
            (forall j :: 0 <= j < |ps| ==> !(IsOf(r, s, ps[j]) && AsAsked(r, ps[j]))) ==>
              Choose(r, s, ps) == Some(ps[k])
  {
    if AsAsked(r, ps[k]) && forall j :: 0 <= j < k ==> !(IsOf(r, s, ps[j]) && AsAsked(r, ps[j])) {
      FirstMatchSkips(r, s, ps, k);
    }
    if ps[k].isDefault && (forall j :: k < j < |ps| ==> !(IsOf(r, s, ps[j]) && ps[j].isDefault)) &&
       forall j :: 0 <= j < |ps| ==> !(IsOf(r, s, ps[j]) && AsAsked(r, ps[j]))
    {
      FirstMatchSkips(r, s, ps, |ps|);
      LastDefaultAt(r, s, ps, k);
    }
  }

  lemma {:induction false} LastDefaultAt(r: Request, s: Stream, ps: seq<Profile>, k: nat)
    requires k < |ps| && Owns(r, s, ps[k]) && ps[k].isDefault
    requires forall j :: k < j < |ps| ==> !(Owns(r, s, ps[j]) && ps[j].isDefault)
    ensures LastDefault(r, s, ps) == Some(ps[k])
  {
    if k < |ps| - 1 { LastDefaultAt(r, s, ps[..|ps| - 1], k); }
  }

  /** The chosen profile is one of the sensor's own for that stream; it meets every nonzero request
      whenever some profile does, and is a default profile otherwise; nothing is chosen only when the
      stream has neither. */
  lemma ChosenProfile(r: Request, s: Stream, ps: seq<Profile>)
    ensures var c := Choose(r, s, ps);
            && (c.Some? ==> c.value in ps && IsOf(r, s, c.value))
            && ((exists p :: p in ps && IsOf(r, s, p) && AsAsked(r, p)) ==> c.Some? && AsAsked(r, c.value))
            && (c.Some? && !AsAsked(r, c.value) ==> c.value.isDefault)
            && (c == None <==> forall p :: p in ps && IsOf(r, s, p) ==> !AsAsked(r, p) && !p.isDefault)
  {
    FirstMatchFacts(r, s, ps);
    LastDefaultFacts(r, s, ps);
  }

  lemma {:induction false} FirstMatchFacts(r: Request, s: Stream, ps: seq<Profile>)
    ensures var c := FirstMatch(r, s, ps);
            && (c.Some? ==> c.value in ps && Owns(r, s, c.value) && Meets(r, c.value))
            && (c == None <==> forall p :: p in ps && Owns(r, s, p) ==> !Meets(r, p))
  {
    if ps != [] {
      FirstMatchFacts(r, s, ps[1..]);
      assert forall p :: p in ps <==> p == ps[0] || p in ps[1..];
    }
  }

  lemma {:induction false} LastDefaultFacts(r: Request, s: Stream, ps: seq<Profile>)
    ensures var c := LastDefault(r, s, ps);
            && (c.Some? ==> c.value in ps && Owns(r, s, c.value) && c.value.isDefault)
            && (c == None <==> forall p :: p in ps && Owns(r, s, p) ==> !p.isDefault)
  {
    if ps != [] {
      LastDefaultFacts(r, s, ps[..|ps| - 1]);
      assert forall p :: p in ps <==> p == ps[|ps| - 1] || p in ps[..|ps| - 1];
    }
  }

  lemma {:induction false} FirstMatchSkips(r: Request, s: Stream, ps: seq<Profile>, k: nat)
    requires k <= |ps| && forall j :: 0 <= j < k ==> !(Owns(r, s, ps[j]) && Meets(r, ps[j]))
    ensures FirstMatch(r, s, ps) == FirstMatch(r, s, ps[k..])
  {
    if k > 0 {
      FirstMatchSkips(r, s, ps[1..], k - 1);
      assert ps[1..][k - 1..] == ps[k..];
    }
  }

  // The scan of a sensor's profiles.
  method ScanProfiles(r: Request, s: Stream, ps: seq<Profile>) returns (selected: Option<Profile>)
    ensures selected == Choose(r, s, ps)
  {
    var default: Option<Profile> := None;
    selected := None;
    var k := 0;
    while k < |ps|
      invariant k <= |ps| && selected == None && default == LastDefault(r, s, ps[..k])
      invariant forall j :: 0 <= j < k ==> !(Owns(r, s, ps[j]) && Meets(r, ps[j]))
    {
      var p := ps[k];
      assert ps[..k + 1] == ps[..k] + [p];
      if Owns(r, s, p) {
        if p.isDefault {
          default := Some(p);
        }
        if Meets(r, p) {
          FirstMatchSkips(r, s, ps, k);
          return Some(p);
        }
      }
      k := k + 1;
    }
    assert ps[..k] == ps;
    FirstMatchSkips(r, s, ps, k);
    if selected.None? {
      selected := default;
    }
  }

  // ---------- Enabling the streams ----------

  // The streams still enabled, and the profiles chosen for them.
  datatype Enabled = Enabled(enable: set<Stream>, profiles: map<Stream, seq<Profile>>)

  function EnableOne(req: Stream -> Request, sensors: Stream -> seq<Profile>, e: Enabled, s: Stream): Enabled
  {
    if s !in e.enable then e
    else
      match Choose(req(s), s, sensors(s))
      case Some(p) => e.(profiles := e.profiles[s := (if s in e.profiles then e.profiles[s] else []) + [p]])
      case None => e.(enable := e.enable - {s})
  }

  function EnableAll(req: Stream -> Request, sensors: Stream -> seq<Profile>, e: Enabled, order: seq<Stream>): Enabled
  {
    if order == [] then e
    else EnableOne(req, sensors, EnableAll(req, sensors, e, order[..|order| - 1]), order[|order| - 1])
  }

  /** Each stream of the list that stays enabled ends with exactly one profile, the chosen one; a
      stream loses its place exactly when there is nothing to choose. */
  lemma {:induction false} OneProfileEach(req: Stream -> Request, sensors: Stream -> seq<Profile>,
                                          enable: set<Stream>, order: seq<Stream>)
    requires forall i, j :: 0 <= i < j < |order| ==> order[i] != order[j]
    ensures var e := EnableAll(req, sensors, Enabled(enable, map[]), order);
            && (forall s :: s in e.enable <==> s in enable && (s in order ==> Choose(req(s), s, sensors(s)).Some?))
            && (forall s :: s in e.profiles <==> s in order && s in e.enable)
            && (forall s :: s in e.profiles ==> Choose(req(s), s, sensors(s)).Some? &&
                                                e.profiles[s] == [Choose(req(s), s, sensors(s)).value])
  {
    if order != [] {
      var u, x := order[..|order| - 1], order[|order| - 1];
      assert order == u + [x];
      OneProfileEach(req, sensors, enable, u);
      assert x !in u;
      assert forall s :: s in order <==> s in u || s == x;
    }
  }

  class StreamTable {
    const req: Stream -> Request
    const sensors: Stream -> seq<Profile>
    var enable: set<Stream>
    var enabledProfiles: map<Stream, seq<Profile>>

    constructor (req: Stream -> Request, sensors: Stream -> seq<Profile>, enable: set<Stream>)
      ensures this.req == req && this.sensors == sensors && this.enable == enable && enabledProfiles == map[]
    {
      this.req, this.sensors, this.enable, enabledProfiles := req, sensors, enable, map[];
    }

    method EnableDevices(order: seq<Stream>)
      modifies this
      ensures Enabled(enable, enabledProfiles) == EnableAll(req, sensors, old(Enabled(enable, enabledProfiles)), order)
    {
      var k := 0;
      while k < |order|
        invariant k <= |order|
        invariant Enabled(enable, enabledProfiles) ==
                  EnableAll(req, sensors, old(Enabled(enable, enabledProfiles)), order[..k])
      {
        var elem := order[k];
        assert order[..k + 1][..k] == order[..k];
        if elem in enable {
          var selected := ScanProfiles(req(elem), elem, sensors(elem));
          match selected {
            case Some(p) =>
              var before := if elem in enabledProfiles then enabledProfiles[elem] else [];
              enabledProfiles := enabledProfiles[elem := before + [p]];
            case None =>
              enable := enable - {elem};
          }
        }
        k := k + 1;
      }
      assert order[..k] == order;
    }
  }

  // ---------- Grouping by module ----------

  // One entry of the table of enabled profiles, with the name of the module its sensor is.
  datatype Entry = Entry(moduleName: string, profiles: seq<Profile>)

  function At(g: map<string, seq<Profile>>, name: string): seq<Profile>
  {
    if name in g then g[name] else []
  }

  function Grouped(entries: seq<Entry>): map<string, seq<Profile>>
  {
    if entries == [] then map[]
    else
      var g, e := Grouped(entries[..|entries| - 1]), entries[|entries| - 1];
      g[e.moduleName := e.profiles + At(g, e.moduleName)]
  }

  function Names(entries: seq<Entry>): set<string>
  {
    set i | 0 <= i < |entries| :: entries[i].moduleName
  }

  // All profiles of the streams of one module.
  function ProfilesOf(entries: seq<Entry>, name: string): multiset<Profile>
  {
    if entries == [] then multiset{}
    else
      ProfilesOf(entries[..|entries| - 1], name) +
      (if entries[|entries| - 1].moduleName == name then multiset(entries[|entries| - 1].profiles) else multiset{})
  }

  lemma NamesSnoc(entries: seq<Entry>)
    requires entries != []
    ensures Names(entries) == Names(entries[..|entries| - 1]) + {entries[|entries| - 1].moduleName}
  {
    var u := entries[..|entries| - 1];
    forall n | n in Names(entries) ensures n in Names(u) + {entries[|entries| - 1].moduleName} {
      var i :| 0 <= i < |entries| && entries[i].moduleName == n;
      if i < |u| { assert u[i].moduleName == n; }
    }
    forall n | n in Names(u) ensures n in Names(entries) {
      var i :| 0 <= i < |u| && u[i].moduleName == n;
      assert entries[i].moduleName == n;
    }
    assert entries[|entries| - 1].moduleName in Names(entries);
  }

  /** Grouping loses and duplicates nothing: every module of some stream is there, with exactly the
      profiles of all its streams. */
  lemma {:induction false} GroupingConserves(entries: seq<Entry>)
    ensures Grouped(entries).Keys == Names(entries)
    ensures forall n :: n in Grouped(entries) ==> multiset(Grouped(entries)[n]) == ProfilesOf(entries, n)
  {
    if entries != [] {
      var u, e := entries[..|entries| - 1], entries[|entries| - 1];
      GroupingConserves(u);
      NamesSnoc(entries);
      forall n | n in Grouped(entries) ensures multiset(Grouped(entries)[n]) == ProfilesOf(entries, n) {
        if n !in Grouped(u) { NoProfiles(u, n); }
      }
    }
  }

  /** Within a module the profiles of the stream met last come first. */
  lemma GroupedInFront(entries: seq<Entry>, e: Entry)
    ensures Grouped(entries + [e])[e.moduleName] ==
            e.profiles + if e.moduleName in Grouped(entries) then Grouped(entries)[e.moduleName] else []
    ensures forall n :: n in Grouped(entries) && n != e.moduleName ==>
              n in Grouped(entries + [e]) && Grouped(entries + [e])[n] == Grouped(entries)[n]
  {
    assert (entries + [e])[..|entries|] == entries;
  }

  lemma {:induction false} NoProfiles(entries: seq<Entry>, n: string)
    requires n !in Names(entries)
    ensures ProfilesOf(entries, n) == multiset{}
  {
    if entries != [] {
      NamesSnoc(entries);
      NoProfiles(entries[..|entries| - 1], n);
    }
  }

  // ---------- From enabled streams to opened modules ----------

  // The table of enabled profiles in the order of the streams of a list, each with its sensor's module.
  function EntriesOf(e: Enabled, moduleOf: Stream -> string, streams: seq<Stream>): seq<Entry>
    requires forall s :: s in streams ==> s in e.profiles
  {
    seq(|streams|, i requires 0 <= i < |streams| => Entry(moduleOf(streams[i]), e.profiles[streams[i]]))
  }

  // The profile chosen for each stream of a list, one after the other.
  function ChosenFor(req: Stream -> Request, sensors: Stream -> seq<Profile>, streams: seq<Stream>): seq<Profile>
  {
    if streams == [] then []
    else
      var s := streams[|streams| - 1];
      ChosenFor(req, sensors, streams[..|streams| - 1]) +
      (if Choose(req(s), s, sensors(s)).Some? then [Choose(req(s), s, sensors(s)).value] else [])
  }

  // The streams of a list that belong to one module.
  function OfModule(moduleOf: Stream -> string, streams: seq<Stream>, name: string): seq<Stream>
  {
    if streams == [] then []
    else
      OfModule(moduleOf, streams[..|streams| - 1], name) +
      (if moduleOf(streams[|streams| - 1]) == name then [streams[|streams| - 1]] else [])
  }

  // The profiles modules are opened with, over a list of actions.
  function OpenedWith(log: seq<Action>): multiset<Profile>
  {
    if log == [] then multiset{}
    else
      OpenedWith(log[..|log| - 1]) +
      (if log[|log| - 1].Open? then multiset(log[|log| - 1].profiles) else multiset{})
  }

  // A list of the streams in a table, each once: the table's order is not the program's to choose.
  ghost predicate ListsStreams(streams: seq<Stream>, e: Enabled)
  {
    && (forall s :: s in streams <==> s in e.profiles)
    && (forall i, j :: 0 <= i < j < |streams| ==> streams[i] != streams[j])
  }

  // Every stream of the list has its chosen profile and no other in the table.
  ghost predicate HaveChosen(req: Stream -> Request, sensors: Stream -> seq<Profile>, e: Enabled, streams: seq<Stream>)
  {
    forall s :: s in streams ==>
      s in e.profiles && Choose(req(s), s, sensors(s)).Some? && e.profiles[s] == [Choose(req(s), s, sensors(s)).value]
  }

  lemma EntriesSnoc(e: Enabled, moduleOf: Stream -> string, streams: seq<Stream>)
    requires streams != [] && forall s :: s in streams ==> s in e.profiles
    ensures var u, s := streams[..|streams| - 1], streams[|streams| - 1];
            && (forall x :: x in u ==> x in streams)
            && EntriesOf(e, moduleOf, streams) == EntriesOf(e, moduleOf, u) + [Entry(moduleOf(s), e.profiles[s])]
  {
  }

  lemma {:induction false} ModuleHasChosen(req: Stream -> Request, sensors: Stream -> seq<Profile>,
                                           moduleOf: Stream -> string, e: Enabled, streams: seq<Stream>, name: string)
    requires HaveChosen(req, sensors, e, streams)
    ensures ProfilesOf(EntriesOf(e, moduleOf, streams), name) ==
            multiset(ChosenFor(req, sensors, OfModule(moduleOf, streams, name)))
  {
    if streams != [] {
      var u, s := streams[..|streams| - 1], streams[|streams| - 1];
      EntriesSnoc(e, moduleOf, streams);
      ProfilesOfSnoc(EntriesOf(e, moduleOf, u), Entry(moduleOf(s), e.profiles[s]), name);
      ModuleHasChosen(req, sensors, moduleOf, e, u, name);
      ChosenSnoc(req, sensors, OfModule(moduleOf, u, name), s);
      hide ProfilesOf, ChosenFor, EntriesOf, Choose;
      assert e.profiles[s] == [Choose(req(s), s, sensors(s)).value];
      if moduleOf(s) == name {
        assert OfModule(moduleOf, streams, name) == OfModule(moduleOf, u, name) + [s];
      } else {
        assert OfModule(moduleOf, streams, name) == OfModule(moduleOf, u, name);
      }
    } else {
      assert EntriesOf(e, moduleOf, streams) == [];
    }
  }

  lemma ProfilesOfSnoc(entries: seq<Entry>, e: Entry, name: string)
    ensures ProfilesOf(entries + [e], name) ==
            ProfilesOf(entries, name) + if e.moduleName == name then multiset(e.profiles) else multiset{}
  {
    assert (entries + [e])[..|entries|] == entries;
  }

  lemma ChosenSnoc(req: Stream -> Request, sensors: Stream -> seq<Profile>, streams: seq<Stream>, s: Stream)
    requires Choose(req(s), s, sensors(s)).Some?
    ensures ChosenFor(req, sensors, streams + [s]) ==
            ChosenFor(req, sensors, streams) + [Choose(req(s), s, sensors(s)).value]
  {
    assert (streams + [s])[..|streams|] == streams;
  }

  // All profiles of a table of entries.
  function AllProfiles(entries: seq<Entry>): multiset<Profile>
  {
    if entries == [] then multiset{}
    else AllProfiles(entries[..|entries| - 1]) + multiset(entries[|entries| - 1].profiles)
  }

  lemma {:induction false} AllAreChosen(req: Stream -> Request, sensors: Stream -> seq<Profile>,
                                        moduleOf: Stream -> string, e: Enabled, streams: seq<Stream>)
    requires HaveChosen(req, sensors, e, streams)
    ensures AllProfiles(EntriesOf(e, moduleOf, streams)) == multiset(ChosenFor(req, sensors, streams))
  {
    if streams != [] {
      EntriesSnoc(e, moduleOf, streams);
      assert EntriesOf(e, moduleOf, streams)[..|streams| - 1] == EntriesOf(e, moduleOf, streams[..|streams| - 1]);
      AllAreChosen(req, sensors, moduleOf, e, streams[..|streams| - 1]);
    }
  }

  // What the modules of a list have between them.
  function Sum(entries: seq<Entry>, names: seq<string>): multiset<Profile>
  {
    if names == [] then multiset{}
    else Sum(entries, names[..|names| - 1]) + ProfilesOf(entries, names[|names| - 1])
  }

  // One more entry adds its profiles to the sum once, if its module is listed.
  lemma {:induction false} SumSnoc(entries: seq<Entry>, names: seq<string>)
    requires entries != [] && forall i, j :: 0 <= i < j < |names| ==> names[i] != names[j]
    ensures var u, e := entries[..|entries| - 1], entries[|entries| - 1];
            Sum(entries, names) == Sum(u, names) + if e.moduleName in names then multiset(e.profiles) else multiset{}
  {
    if names != [] {
      var v := names[..|names| - 1];
      assert names == v + [names[|names| - 1]];
      SumSnoc(entries, v);
    }
  }

  lemma {:induction false} SumOfNone(names: seq<string>)
    ensures Sum([], names) == multiset{}
  {
    if names != [] { SumOfNone(names[..|names| - 1]); }
  }

  lemma {:induction false} SumIsAll(entries: seq<Entry>, names: seq<string>)
    requires Names(entries) <= Listed(names) && forall i, j :: 0 <= i < j < |names| ==> names[i] != names[j]
    ensures Sum(entries, names) == AllProfiles(entries)
  {
    if entries == [] {
      SumOfNone(names);
    } else {
      NamesSnoc(entries);
      SumSnoc(entries, names);
      SumIsAll(entries[..|entries| - 1], names);
    }
  }

  lemma {:induction false} OpenedSum(entries: seq<Entry>, names: seq<string>)
    requires forall n :: n in names ==> n in Grouped(entries)
    ensures OpenedWith(Opened(Grouped(entries), names)) == Sum(entries, names)
  {
    if names != [] {
      var v, n, g := names[..|names| - 1], names[|names| - 1], Grouped(entries);
      OpenedSum(entries, v);
      GroupingConserves(entries);
      OpenedOne(Opened(g, v), n, g[n]);
      hide OpenedWith, ProfilesOf, Grouped;
      assert Opened(g, names) == Opened(g, v) + [Open(n, g[n]), Begin(n)];
    }
  }

  lemma OpenedOne(log: seq<Action>, n: string, ps: seq<Profile>)
    ensures OpenedWith(log + [Open(n, ps), Begin(n)]) == OpenedWith(log) + multiset(ps)
  {
    var mid := log + [Open(n, ps)];
    assert log + [Open(n, ps), Begin(n)] == mid + [Begin(n)];
    assert (mid + [Begin(n)])[..|mid|] == mid && mid[..|log|] == log;
  }

  /** From requests to hardware: after choosing profiles for a list of streams, start-up opens modules
      with exactly one profile for every stream still enabled, the chosen one, in the module of that
      stream's sensor; no other profile is opened and none twice, whatever order the tables have. */
  lemma ChosenAreOpenedOnce(req: Stream -> Request, sensors: Stream -> seq<Profile>, moduleOf: Stream -> string,
                            enable: set<Stream>, order: seq<Stream>, streams: seq<Stream>, done: seq<string>)
    requires forall i, j :: 0 <= i < j < |order| ==> order[i] != order[j]
    requires ListsStreams(streams, EnableAll(req, sensors, Enabled(enable, map[]), order))
    requires Lists(done, Names(EntriesOf(EnableAll(req, sensors, Enabled(enable, map[]), order), moduleOf, streams)))
    ensures var g := Grouped(EntriesOf(EnableAll(req, sensors, Enabled(enable, map[]), order), moduleOf, streams));
            && (forall s :: s in streams <==> s in order && s in enable && Choose(req(s), s, sensors(s)).Some?)
            && OpenedWith(Opened(g, done)) == multiset(ChosenFor(req, sensors, streams))
            && (forall n :: n in g ==>
                  multiset(g[n]) == multiset(ChosenFor(req, sensors, OfModule(moduleOf, streams, n))))
  {
    var e := EnableAll(req, sensors, Enabled(enable, map[]), order);
    OneProfileEach(req, sensors, enable, order);
    var entries := EntriesOf(e, moduleOf, streams);
    GroupingConserves(entries);
    OpenedSum(entries, done);
    ListedIs(done, Names(entries));
    SumIsAll(entries, done);
    AllAreChosen(req, sensors, moduleOf, e, streams);
    forall n | n in Grouped(entries)
      ensures multiset(Grouped(entries)[n]) == multiset(ChosenFor(req, sensors, OfModule(moduleOf, streams, n)))
    {
      ModuleHasChosen(req, sensors, moduleOf, e, streams, n);
    }
  }

  // ---------- The hardware ----------

  // The modules that are open and streaming, with the profiles they were opened with. A module that
  // is open refuses to be opened, one that is not refuses to be stopped: both are faults.
  datatype Hardware = Hardware(streaming: map<string, seq<Profile>>, fault: bool)

  function Toggled(g: map<string, seq<Profile>>, h: Hardware, on: bool): Hardware
  {
    if h.fault then h
    else if on then
      if g.Keys * h.streaming.Keys == {} then h.(streaming := h.streaming + g) else h.(fault := true)
    else
      if g.Keys <= h.streaming.Keys then h.(streaming := h.streaming - g.Keys) else h.(fault := true)
  }

  function AfterToggles(g: map<string, seq<Profile>>, h: Hardware, toggles: seq<bool>): Hardware
  {
    if toggles == [] then h else Toggled(g, AfterToggles(g, h, toggles[..|toggles| - 1]), toggles[|toggles| - 1])
  }

  // Off, on, off, on, ...
  predicate Alternating(toggles: seq<bool>)
  {
    forall i :: 0 <= i < |toggles| ==> toggles[i] == (i % 2 == 1)
  }

  lemma AlternatingSnoc(u: seq<bool>, x: bool)
    ensures Alternating(u + [x]) <==> Alternating(u) && x == (|u| % 2 == 1)
  {
    var t := u + [x];
    assert forall i :: 0 <= i < |u| ==> t[i] == u[i];
    assert t[|u|] == x;
  }

  lemma OneToggle(g: map<string, seq<Profile>>, name: string, up: bool, on: bool)
    requires name in g
    ensures var h := Toggled(g, Hardware(if up then g else map[], false), on);
            && (h.fault <==> on == up)
            && (!h.fault ==> h.streaming == if on then g else map[])
  {
    assert name in g.Keys * g.Keys;
    assert g - g.Keys == map[] && map[] + g == g;
  }

  lemma {:induction false} TogglesOf(g: map<string, seq<Profile>>, name: string, toggles: seq<bool>)
    requires name in g
    ensures var h := AfterToggles(g, Hardware(g, false), toggles);
            && (!h.fault <==> Alternating(toggles))
            && (!h.fault ==> h.streaming == if |toggles| % 2 == 0 then g else map[])
  {
    if toggles != [] {
      var u, x := toggles[..|toggles| - 1], toggles[|toggles| - 1];
      assert toggles == u + [x];
      TogglesOf(g, name, u);
      AlternatingSnoc(u, x);
      OneToggle(g, name, |u| % 2 == 0, x);
    }
  }

  /** After start-up any run of switching off and on keeps the hardware balanced: no module is ever
      opened twice or stopped twice if and only if the run alternates, beginning with off; then after
      each step the modules streaming are all of them, with all their profiles, or none. */
  lemma TogglesBalanced(entries: seq<Entry>, toggles: seq<bool>)
    requires entries != []
    ensures var g := Grouped(entries);
            var h := AfterToggles(g, Hardware(g, false), toggles);
            && (!h.fault <==> Alternating(toggles))
            && (!h.fault ==> h.streaming == if |toggles| % 2 == 0 then g else map[])
  {
    GroupingConserves(entries);
    assert entries[0].moduleName in Names(entries);
    TogglesOf(Grouped(entries), entries[0].moduleName, toggles);
  }

  // What was done to the hardware, in order.
  datatype Action =
    | Open(name: string, profiles: seq<Profile>)
    | Begin(name: string)
    | Halt(name: string)
    | Close(name: string)

  class Modules {
    const entries: seq<Entry>
    var streaming: map<string, seq<Profile>>
    var log: seq<Action>

    constructor (entries: seq<Entry>)
      ensures this.entries == entries && streaming == map[] && log == []
    {
      this.entries, streaming, log := entries, map[], [];
    }

    // One sensor: open and start, refused if it is open already.
    method OpenAndStart(name: string, profiles: seq<Profile>) returns (fault: bool)
      modifies this
      ensures fault <==> name in old(streaming)
      ensures !fault ==> streaming == old(streaming)[name := profiles]
      ensures !fault ==> log == old(log) + [Open(name, profiles), Begin(name)]
      ensures fault ==> streaming == old(streaming) && log == old(log)
    {
      if name in streaming { return true; }
      log := log + [Open(name, profiles), Begin(name)];
      streaming := streaming[name := profiles];
      return false;
    }

    method StopAndClose(name: string) returns (fault: bool)
      modifies this
      ensures fault <==> name !in old(streaming)
      ensures !fault ==> streaming == old(streaming) - {name} && log == old(log) + [Halt(name), Close(name)]
      ensures fault ==> streaming == old(streaming) && log == old(log)
    {
      if name !in streaming { return true; }
      log := log + [Halt(name), Close(name)];
      streaming := streaming - {name};
      return false;
    }

    /** Start-up, and switching on: group the profiles by module, then open each module once. done are
        the modules opened, in order: all of them, or those reached before one that was open already. */
    method SwitchOn() returns (fault: bool, ghost done: seq<string>)
      modifies this
      ensures fault == Toggled(Grouped(entries), Hardware(old(streaming), false), true).fault
      ensures !fault ==> streaming == Toggled(Grouped(entries), Hardware(old(streaming), false), true).streaming
      ensures Lists(done, Listed(done)) && Listed(done) <= Grouped(entries).Keys - old(streaming).Keys
      ensures !fault ==> Listed(done) == Grouped(entries).Keys
      ensures streaming == old(streaming) + Only(Grouped(entries), Listed(done))
      ensures log == old(log) + Opened(Grouped(entries), done)
    {
      var profiles := GroupProfiles();
      fault, done := OpenAll(profiles);
    }

    method GroupProfiles() returns (profiles: map<string, seq<Profile>>)
      ensures profiles == Grouped(entries)
    {
      profiles := map[];
      var k := 0;
      while k < |entries|
        invariant k <= |entries| && profiles == Grouped(entries[..k])
      {
        assert entries[..k + 1][..k] == entries[..k];
        var e := entries[k];
        profiles := profiles[e.moduleName := e.profiles + At(profiles, e.moduleName)];
        k := k + 1;
      }
      assert entries[..k] == entries;
    }

    method OpenAll(g: map<string, seq<Profile>>) returns (fault: bool, ghost done: seq<string>)
      modifies this
      ensures fault == Toggled(g, Hardware(old(streaming), false), true).fault
      ensures !fault ==> streaming == old(streaming) + g && Listed(done) == g.Keys
      ensures Lists(done, Listed(done)) && Listed(done) <= g.Keys - old(streaming).Keys
      ensures streaming == old(streaming) + Only(g, Listed(done)) && log == old(log) + Opened(g, done)
    {
      done := [];
      var rest := g.Keys;
      ghost var begun: set<string> := {};
      hide Lists, Opened;
      NothingListed(g);
      while rest != {}
        invariant begun + rest == g.Keys && begun !! rest
        invariant begun !! old(streaming).Keys
        invariant streaming == old(streaming) + Only(g, begun)
        invariant Lists(done, begun) && log == old(log) + Opened(g, done)
        decreases rest
      {
        var name :| name in rest;
        fault := OpenAndStart(name, g[name]);
        if fault {
          assert name in g.Keys * old(streaming).Keys;
          ListedIs(done, begun);
          return;
        }
        ListsSnoc(done, begun, name);
        OpenedSnoc(g, done, name);
        assert Only(g, begun)[name := g[name]] == Only(g, begun + {name});
        rest := rest - {name};
        begun := begun + {name};
        done := done + [name];
      }
      assert begun == g.Keys && Only(g, begun) == g;
      ListedIs(done, begun);
      fault := false;
    }

    /** Switching off: stop and close the module of each stream, unless a stream before had the same.
        done are the modules closed, in order: all of them, or those before one that was not open. */
    method SwitchOff() returns (fault: bool, ghost done: seq<string>)
      modifies this
      ensures fault == Toggled(Grouped(entries), Hardware(old(streaming), false), false).fault
      ensures !fault ==> streaming == Toggled(Grouped(entries), Hardware(old(streaming), false), false).streaming
      ensures Lists(done, Listed(done)) && Listed(done) <= Grouped(entries).Keys * old(streaming).Keys
      ensures !fault ==> Listed(done) == Grouped(entries).Keys
      ensures streaming == old(streaming) - Listed(done) && log == old(log) + Closed(done)
    {
      GroupingConserves(entries);
      fault, done := CloseAll();
    }

    method CloseAll() returns (fault: bool, ghost done: seq<string>)
      modifies this
      ensures fault <==> !(Names(entries) <= old(streaming).Keys)
      ensures !fault ==> Listed(done) == Names(entries)
      ensures Lists(done, Listed(done)) && Listed(done) <= Names(entries) * old(streaming).Keys
      ensures streaming == old(streaming) - Listed(done) && log == old(log) + Closed(done)
    {
      var moduleNames: set<string> := {};
      done := [];
      var k := 0;
      assert Names(entries[..0]) == {} && Closed([]) == [];
      hide Lists, Closed, Names;
      NothingListed(map[]);
      while k < |entries|
        invariant k <= |entries| && moduleNames == Names(entries[..k])
        invariant Lists(done, moduleNames) && moduleNames <= old(streaming).Keys
        invariant streaming == old(streaming) - moduleNames
        invariant log == old(log) + Closed(done)
      {
        NamesSnoc(entries[..k + 1]);
        assert entries[..k + 1][..k] == entries[..k];
        var name := entries[k].moduleName;
        if name !in moduleNames {
          fault := StopAndClose(name);
          if fault {
            NameOf(entries, k);
            NamesOfSome(entries, k);
            ListedIs(done, moduleNames);
            return;
          }
          ListsSnoc(done, moduleNames, name);
          ClosedSnoc(done, name);
          done := done + [name];
          moduleNames := moduleNames + {name};
        }
        k := k + 1;
      }
      assert entries[..k] == entries;
      ListedIs(done, moduleNames);
      fault := false;
    }
  }

  lemma NamesOfSome(entries: seq<Entry>, k: nat)
    requires k <= |entries|
    ensures Names(entries[..k]) <= Names(entries)
  {
    forall n | n in Names(entries[..k]) ensures n in Names(entries) {
      var i :| 0 <= i < k && entries[..k][i].moduleName == n;
      assert entries[i].moduleName == n;
    }
  }

  function Listed(names: seq<string>): set<string>
  {
    set n | n in names
  }

  function Only(g: map<string, seq<Profile>>, names: set<string>): map<string, seq<Profile>>
  {
    map n | n in g && n in names :: g[n]
  }

  lemma ListedIs(names: seq<string>, s: set<string>)
    requires Lists(names, s)
    ensures Listed(names) == s
  {
  }

  lemma NameOf(entries: seq<Entry>, k: nat)
    requires k < |entries|
    ensures entries[k].moduleName in Names(entries)
  {
  }

  lemma NothingListed(g: map<string, seq<Profile>>)
    ensures Lists([], {}) && Opened(g, []) == []
  {
  }

  lemma OpenedSnoc(g: map<string, seq<Profile>>, names: seq<string>, n: string)
    requires n in g
    ensures Opened(g, names + [n]) == Opened(g, names) + [Open(n, g[n]), Begin(n)]
  {
    assert (names + [n])[..|names|] == names;
  }

  lemma ClosedSnoc(names: seq<string>, n: string)
    ensures Closed(names + [n]) == Closed(names) + [Halt(n), Close(n)]
  {
    assert (names + [n])[..|names|] == names;
  }

  // The names of a set, each once.
  ghost predicate Lists(names: seq<string>, s: set<string>)
  {
    && (forall i :: 0 <= i < |names| ==> names[i] in s)
    && (forall n :: n in s ==> n in names)
    && (forall i, j :: 0 <= i < j < |names| ==> names[i] != names[j])
  }

  lemma ListsSnoc(names: seq<string>, s: set<string>, n: string)
    requires Lists(names, s) && n !in s
    ensures Lists(names + [n], s + {n})
  {
  }

  function Opened(g: map<string, seq<Profile>>, names: seq<string>): seq<Action>
  {
    if names == [] then []
    else
      var n := names[|names| - 1];
      Opened(g, names[..|names| - 1]) + [Open(n, At(g, n)), Begin(n)]
  }

  function Closed(names: seq<string>): seq<Action>
  {
    if names == [] then []
    else Closed(names[..|names| - 1]) + [Halt(names[|names| - 1]), Close(names[|names| - 1])]
  }
}
