/** Reference counting of video frames: frames are shared by any number of VideoFrameRef objects and
    freed by the driver when the last reference is released. */
module FrameRefs {
  import opened Common

  /** Who holds what, and what the driver has counted. R names references, F names frames; a frame
      whose count reaches zero is freed; broken records that a freed frame was touched. */
  datatype Ledger<R, F> = Ledger(held: map<R, Option<F>>, count: map<F, int>, broken: bool)

  // The references that hold frame f.
  ghost function Holding<R, F>(held: map<R, Option<F>>, f: F): set<R>
  {
    set r | r in held && held[r] == Some(f)
  }

  ghost predicate Balanced<R, F>(l: Ledger<R, F>)
  {
    && !l.broken
    && (forall f :: f in l.count ==> l.count[f] == |Holding(l.held, f)|)
    && (forall r :: r in l.held && l.held[r].Some? ==> l.held[r].value in l.count)
  }

  // A frame is freed when nothing counts it any more.
  predicate Freed<R(==), F(==)>(l: Ledger<R, F>, f: F)
  {
    f in l.count && l.count[f] <= 0
  }

  // oniFrameAddRef and oniFrameRelease.
  function AddRef<R(==), F(==)>(l: Ledger<R, F>, f: F): Ledger<R, F>
    requires f in l.count
  {
    l.(count := l.count[f := l.count[f] + 1], broken := l.broken || l.count[f] <= 0)
  }

  function DropRef<R(==), F(==)>(l: Ledger<R, F>, f: F): Ledger<R, F>
    requires f in l.count
  {
    l.(count := l.count[f := l.count[f] - 1], broken := l.broken || l.count[f] <= 0)
  }

  ghost predicate Known<R, F>(l: Ledger<R, F>)
  {
    forall r :: r in l.held && l.held[r].Some? ==> l.held[r].value in l.count
  }

  function Release<R(==), F(==)>(l: Ledger<R, F>, r: R): Ledger<R, F>
    requires r in l.held && (l.held[r].Some? ==> l.held[r].value in l.count)
  {
    if l.held[r].None? then l
    else
      var d := DropRef(l, l.held[r].value);
      d.(held := d.held[r := None])
  }

  function SetReference<R(==), F(==)>(l: Ledger<R, F>, r: R, f: Option<F>): Ledger<R, F>
    requires r in l.held && (l.held[r].Some? ==> l.held[r].value in l.count)
  {
    var d := Release(l, r);
    d.(held := d.held[r := f])
  }

  function SetFrame<R(==), F(==)>(l: Ledger<R, F>, r: R, f: Option<F>): Ledger<R, F>
    requires r in l.held && (l.held[r].Some? ==> l.held[r].value in l.count)
    requires f.Some? ==> f.value in l.count
  {
    var d := SetReference(l, r, f);
    if f.Some? then AddRef(d, f.value) else d
  }

  // What a program can do with references. Read says what the driver hands out: nothing on failure,
  // or a frame (new, or one still alive) with one count added for the receiver.
  datatype Op<R, F> =
    | New(r: R)
    | Copy(r: R, other: R)
    | Assign(r: R, other: R)
    | ReleaseRef(r: R)
    | Destroy(r: R)
    | Read(r: R, frame: Option<F>)

  predicate Legal<R(==), F(==)>(l: Ledger<R, F>, op: Op<R, F>)
  {
    match op
    case New(r) => r !in l.held
    case Copy(r, other) => r !in l.held && other in l.held
    case Assign(r, other) => r in l.held && other in l.held
    case ReleaseRef(r) => r in l.held
    case Destroy(r) => r in l.held
    case Read(r, frame) => r in l.held && (frame.Some? ==> !Freed(l, frame.value))
  }

  function HandOut<R(==), F(==)>(l: Ledger<R, F>, f: F): Ledger<R, F>
  {
    l.(count := l.count[f := (if f in l.count then l.count[f] else 0) + 1])
  }

  ghost function Apply<R, F>(l: Ledger<R, F>, op: Op<R, F>): Ledger<R, F>
    requires Known(l) && Legal(l, op)
  {
    match op
    case New(r) => l.(held := l.held[r := None])
    case Copy(r, other) => SetFrame(l.(held := l.held[r := None]), r, l.held[other])
    case Assign(r, other) => SetFrame(l, r, l.held[other])
    case ReleaseRef(r) => Release(l, r)
    case Destroy(r) => var d := Release(l, r); d.(held := d.held - {r})
    case Read(r, frame) =>
      if frame.None? then SetReference(l, r, None) else SetReference(HandOut(l, frame.value), r, frame)
  }

  // A reference assigned to itself while it is the only holder of its frame.
  predicate SoleSelfAssignment<R(==), F(==)>(l: Ledger<R, F>, op: Op<R, F>)
  {
    && op.Assign? && op.r == op.other && op.r in l.held && l.held[op.r].Some?
    && l.held[op.r].value in l.count && l.count[l.held[op.r].value] == 1
  }

  // ---------- Counting ----------

  function Tick(b: bool): int { if b then 1 else 0 }

  lemma HoldingUpdate<R, F>(held: map<R, Option<F>>, r: R, v: Option<F>, f: F)
    ensures |Holding(held[r := v], f)| ==
            |Holding(held, f)| - Tick(r in held && held[r] == Some(f)) + Tick(v == Some(f))
  {
    var before, after := Holding(held, f), Holding(held[r := v], f);
    if v == Some(f) {
      assert after == before + {r};
    } else {
      assert after == before - {r};
    }
  }

  lemma HoldingRemove<R, F>(held: map<R, Option<F>>, r: R, f: F)
    requires r in held && held[r] == None
    ensures Holding(held - {r}, f) == Holding(held, f)
  {
  }

  // The books balance but for one count of frame f that no reference holds yet.
  ghost predicate InFlight<R, F>(l: Ledger<R, F>, extra: Option<F>)
  {
    && !l.broken && Known(l)
    && (extra.Some? ==> extra.value in l.count)
    && (forall f :: f in l.count ==> l.count[f] == |Holding(l.held, f)| + Tick(extra == Some(f)))
  }

  lemma ReleaseBalances<R, F>(l: Ledger<R, F>, r: R, extra: Option<F>)
    requires InFlight(l, extra) && r in l.held
    ensures InFlight(Release(l, r), extra) && Release(l, r).held == l.held[r := None]
  {
    if l.held[r].Some? {
      var f := l.held[r].value;
      assert r in Holding(l.held, f);
      assert l.count[f] >= 1;
      var d := Release(l, r);
      forall g | g in d.count ensures d.count[g] == |Holding(d.held, g)| + Tick(extra == Some(g)) {
        HoldingUpdate(l.held, r, None, g);
      }
    } else {
      assert l.held[r := None] == l.held;
    }
  }

  lemma SetReferenceBalances<R, F>(l: Ledger<R, F>, r: R, f: Option<F>)
    requires InFlight(l, f) && r in l.held
    ensures Balanced(SetReference(l, r, f))
  {
    ReleaseBalances(l, r, f);
    var d := Release(l, r);
    var t := SetReference(l, r, f);
    forall g | g in t.count ensures t.count[g] == |Holding(t.held, g)| {
      HoldingUpdate(d.held, r, f, g);
    }
  }

  /** Assignment touches a freed frame exactly when a sole owner is assigned to itself; otherwise it
      leaves the books balanced. */
  lemma SetFrameBreaksIff<R, F>(l: Ledger<R, F>, r: R, f: Option<F>)
    requires Balanced(l) && r in l.held && (f.Some? ==> f.value in l.count && l.count[f.value] >= 1)
    ensures SetFrame(l, r, f).broken <==> f.Some? && l.held[r] == f && l.count[f.value] == 1
    ensures !SetFrame(l, r, f).broken ==> Balanced(SetFrame(l, r, f))
  {
    ReleaseBalances(l, r, None);
    var d := Release(l, r);
    if f.Some? && !SetFrame(l, r, f).broken {
      var t := SetFrame(l, r, f);
      forall g | g in t.count ensures t.count[g] == |Holding(t.held, g)| {
        HoldingUpdate(d.held, r, f, g);
      }
    } else if f.None? {
      SetReferenceBalances(l, r, f);
    }
  }

  lemma HandOutInFlight<R, F>(l: Ledger<R, F>, f: F)
    requires Balanced(l)
    ensures InFlight(HandOut(l, f), Some(f))
  {
    var d := HandOut(l, f);
    if f !in l.count {
      assert Holding(l.held, f) == {};
    }
  }

  lemma HeldIsAlive<R, F>(l: Ledger<R, F>, r: R)
    requires Balanced(l) && r in l.held && l.held[r].Some?
    ensures l.held[r].value in l.count && l.count[l.held[r].value] >= 1
  {
    assert r in Holding(l.held, l.held[r].value);
  }

  lemma TwoHolders<R, F>(l: Ledger<R, F>, r: R, other: R)
    requires Balanced(l) && r in l.held && other in l.held && r != other
    requires l.held[r].Some? && l.held[r] == l.held[other]
    ensures l.count[l.held[r].value] >= 2
  {
    var h := Holding(l.held, l.held[r].value);
    assert {r, other} <= h;
    assert |h - {r}| >= 1 by { assert other in h - {r}; }
  }

  lemma CopyBalances<R, F>(l: Ledger<R, F>, r: R, other: R)
    requires Balanced(l) && r !in l.held && other in l.held
    ensures Balanced(Apply(l, Copy(r, other)))
  {
    NewBalances(l, r);
    var d := l.(held := l.held[r := None]);
    if l.held[other].Some? { HeldIsAlive(l, other); }
    SetFrameBreaksIff(d, r, l.held[other]);
  }

  lemma NewBalances<R, F>(l: Ledger<R, F>, r: R)
    requires Balanced(l) && r !in l.held
    ensures Balanced(l.(held := l.held[r := None]))
  {
    var d := l.(held := l.held[r := None]);
    forall f | f in d.count ensures d.count[f] == |Holding(d.held, f)| {
      HoldingUpdate(l.held, r, None, f);
    }
  }

  lemma BalancedInFlight<R, F>(l: Ledger<R, F>)
    ensures Balanced(l) <==> InFlight(l, None)
  {
  }

  /** One operation: it touches a freed frame if and only if it assigns a sole owner to itself, and
      otherwise every frame's count is again the number of references holding it. */
  lemma ApplyBalances<R, F>(l: Ledger<R, F>, op: Op<R, F>)
    requires Balanced(l) && Legal(l, op)
    ensures Apply(l, op).broken <==> SoleSelfAssignment(l, op)
    ensures !SoleSelfAssignment(l, op) ==> Balanced(Apply(l, op))
  {
    BalancedInFlight(l);
    match op
    case New(r) => NewBalances(l, r);
    case Copy(r, other) => CopyBalances(l, r, other);
    case Assign(r, other) =>
      if l.held[other].Some? { HeldIsAlive(l, other); }
      if r != other && l.held[r].Some? && l.held[r] == l.held[other] { TwoHolders(l, r, other); }
      SetFrameBreaksIff(l, r, l.held[other]);
    case ReleaseRef(r) =>
      ReleaseBalances(l, r, None);
      BalancedInFlight(Release(l, r));
    case Destroy(r) =>
      ReleaseBalances(l, r, None);
      var d := Release(l, r);
      var t := Apply(l, op);
      forall f | f in t.count ensures t.count[f] == |Holding(t.held, f)| { HoldingRemove(d.held, r, f); }
    case Read(r, frame) =>
      if frame.Some? {
        HandOutInFlight(l, frame.value);
        SetReferenceBalances(HandOut(l, frame.value), r, frame);
      } else {
        SetReferenceBalances(l, r, None);
      }
  }

  /** Who holds what after an operation: the reference it names holds what it should, and no other
      reference holds anything else than before. */
  lemma HeldAfter<R, F>(l: Ledger<R, F>, op: Op<R, F>)
    requires Known(l) && Legal(l, op)
    ensures Apply(l, op).held ==
            match op
            case New(r) => l.held[r := None]
            case Copy(r, other) => l.held[r := l.held[other]]
            case Assign(r, other) => l.held[r := l.held[other]]
            case ReleaseRef(r) => l.held[r := None]
            case Destroy(r) => l.held - {r}
            case Read(r, frame) => l.held[r := frame]
  {
  }

  /** In a balanced ledger a frame's count changes by the references that take it up or let it go. */
  lemma CountAfter<R, F>(l: Ledger<R, F>, op: Op<R, F>, f: F)
    requires Balanced(l) && Legal(l, op) && !SoleSelfAssignment(l, op)
    ensures f in Apply(l, op).count <==> f in l.count || (op.Read? && op.frame == Some(f))
    ensures f in Apply(l, op).count ==> Apply(l, op).count[f] == |Holding(Apply(l, op).held, f)|
  {
    ApplyBalances(l, op);
  }

  // ---------- Runs ----------

  // A run of operations from no references and no frames, each allowed where it happens, none of
  // them a sole owner's self-assignment.
  ghost predicate Proper<R, F>(ops: seq<Op<R, F>>)
  {
    ops == [] ||
    var u, op := ops[..|ops| - 1], ops[|ops| - 1];
    Proper(u) && Known(After(u)) && Legal(After(u), op) && !SoleSelfAssignment(After(u), op)
  }

  ghost function After<R, F>(ops: seq<Op<R, F>>): Ledger<R, F>
  {
    if ops == [] then Ledger(map[], map[], false)
    else
      var l := After(ops[..|ops| - 1]);
      if Known(l) && Legal(l, ops[|ops| - 1]) then Apply(l, ops[|ops| - 1]) else l
  }

  /** Conservation, over every run of creating, copying, assigning, releasing, destroying and reading
      into any number of references: each frame's count is the number of references holding it; so a
      frame has been freed exactly when no reference holds it, and no freed frame is ever touched. */
  lemma {:induction false} Conservation<R, F>(ops: seq<Op<R, F>>)
    requires Proper(ops)
    ensures Balanced(After(ops))
    ensures forall f :: f in After(ops).count ==>
              (Freed(After(ops), f) <==> forall r :: r in After(ops).held ==> After(ops).held[r] != Some(f))
  {
    var l := After(ops);
    if ops != [] {
      var u := ops[..|ops| - 1];
      Conservation(u);
      ApplyBalances(After(u), ops[|ops| - 1]);
    }
    forall f | f in l.count
      ensures Freed(l, f) <==> forall r :: r in l.held ==> l.held[r] != Some(f)
    {
      if Holding(l.held, f) == {} {
        forall r | r in l.held ensures l.held[r] != Some(f) {
          assert r !in Holding(l.held, f);
        }
      } else {
        var r :| r in Holding(l.held, f);
      }
    }
  }

  // Operation k of the run is a sole owner's self-assignment, the first to touch a freed frame.
  ghost predicate BreaksAt<R, F>(ops: seq<Op<R, F>>, k: nat)
    requires k < |ops|
  {
    !After(ops[..k]).broken && SoleSelfAssignment(After(ops[..k]), ops[k])
  }

  /** Over every run whatever, operations that are not allowed where they stand being skipped: a freed
      frame has been touched if and only if some operation assigned a sole owner to itself, and until
      then every count is the number of holders. */
  lemma {:induction false} AnyRun<R, F>(ops: seq<Op<R, F>>)
    ensures !After(ops).broken ==> Balanced(After(ops))
    ensures After(ops).broken <==> exists k: nat :: k < |ops| && BreaksAt(ops, k)
  {
    if ops != [] {
      hide Balanced, Apply;
      var u, n, op := ops[..|ops| - 1], |ops| - 1, ops[|ops| - 1];
      AnyRun(u);
      var l := After(u);
      forall k: nat | k < n ensures BreaksAt(u, k) <==> BreaksAt(ops, k) { assert u[..k] == ops[..k]; }
      assert BreaksAt(ops, n) <==> !l.broken && SoleSelfAssignment(l, op);
      if l.broken {
        StaysBroken(l, op);
      } else {
        BalancedIsKnown(l);
        if Legal(l, op) { ApplyBalances(l, op); }
        assert SoleSelfAssignment(l, op) ==> Legal(l, op);
      }
    } else {
      assert Balanced(After(ops));
    }
  }

  lemma BalancedIsKnown<R, F>(l: Ledger<R, F>)
    requires Balanced(l)
    ensures Known(l) && !l.broken
  {
  }

  lemma StaysBroken<R, F>(l: Ledger<R, F>, op: Op<R, F>)
    requires l.broken
    ensures Known(l) && Legal(l, op) ==> Apply(l, op).broken
  {
  }

  // A run is continued by one more operation.
  lemma AfterSnoc<R, F>(ops: seq<Op<R, F>>, op: Op<R, F>)
    requires Known(After(ops)) && Legal(After(ops), op)
    ensures After(ops + [op]) == Apply(After(ops), op)
  {
    assert (ops + [op])[..|ops|] == ops;
  }

  /** The exception occurs: whatever the reference and the frame, create, read, then assign to oneself. */
  lemma SelfAssignmentBreaks<R, F>(r: R, f: F)
    ensures var ops := [New(r), Read(r, Some(f)), Assign(r, r)];
            Proper(ops[..2]) && After(ops).broken
  {
    var a: Op<R, F>, b, c := New(r), Read(r, Some(f)), Assign(r, r);
    var none: seq<Op<R, F>> := [];
    AfterSnoc(none, a);
    AfterSnoc([a], b);
    AfterSnoc([a] + [b], c);
    assert none + [a] == [a] && [a] + [b] + [c] == [a, b, c] && [a, b, c][..2] == [a] + [b];
    assert [a][..0] == none && ([a] + [b])[..1] == [a] && Proper(none) && Proper([a]);
  }

  /** A driver that reported failure but left a frame it had not counted for the reader would leave the
      books out of balance. */
  lemma UncountedReadUnbalances<R, F>(l: Ledger<R, F>, r: R, f: F)
    requires Balanced(l) && r in l.held && f in l.count
    ensures !Balanced(SetReference(l, r, Some(f)))
  {
    BalancedInFlight(l);
    ReleaseBalances(l, r, None);
    HoldingUpdate(Release(l, r).held, r, Some(f), f);
  }

  // ---------- The code ----------

  // The driver's frame.
  class OniFrame {
    var refCount: int

    constructor ()
      ensures refCount == 1
    {
      refCount := 1;
    }
  }

  function Opt(f: OniFrame?): Option<OniFrame>
  {
    if f == null then None else var g: OniFrame := f; Some(g)
  }

  // Bookkeeping of a program's references and frames, for specifications only.
  ghost function View(refs: set<VideoFrameRef>, frames: set<OniFrame>, broken: bool): Ledger<VideoFrameRef, OniFrame>
    reads refs, frames
  {
    Ledger(map r | r in refs :: Opt(r.frame), map f | f in frames :: f.refCount, broken)
  }

  class VideoFrameRef {
    var frame: OniFrame?

    constructor ()
      ensures frame == null
    {
      frame := null;
    }

    // Gives up the reference; broken says that the frame had already been freed.
    method ReleaseFrame(ghost refs: set<VideoFrameRef>, ghost frames: set<OniFrame>) returns (ghost broken: bool)
      requires this in refs && (frame != null ==> frame in frames)
      modifies this, frame
      ensures frame == null
      ensures View(refs, frames, broken) == Release(old(View(refs, frames, false)), this)
    {
      broken := false;
      if frame != null {
        broken := frame.refCount <= 0;
        frame.refCount := frame.refCount - 1;
        frame := null;
      }
    }

    method SetFrameReference(pFrame: OniFrame?, ghost refs: set<VideoFrameRef>, ghost frames: set<OniFrame>)
      returns (ghost broken: bool)
      requires this in refs && (frame != null ==> frame in frames)
      modifies this, frame
      ensures frame == pFrame
      ensures View(refs, frames, broken) == SetReference(old(View(refs, frames, false)), this, Opt(pFrame))
    {
      broken := ReleaseFrame(refs, frames);
      frame := pFrame;
    }

    method SetSharedFrame(pFrame: OniFrame?, ghost refs: set<VideoFrameRef>, ghost frames: set<OniFrame>)
      returns (ghost broken: bool)
      requires this in refs && (frame != null ==> frame in frames) && (pFrame != null ==> pFrame in frames)
      modifies this, frame, pFrame
      ensures frame == pFrame
      ensures View(refs, frames, broken) == SetFrame(old(View(refs, frames, false)), this, Opt(pFrame))
    {
      broken := SetFrameReference(pFrame, refs, frames);
      if pFrame != null {
        broken := broken || pFrame.refCount <= 0;
        pFrame.refCount := pFrame.refCount + 1;
      }
    }

    // The assignment operator.
    method AssignFrom(other: VideoFrameRef, ghost refs: set<VideoFrameRef>, ghost frames: set<OniFrame>)
      returns (ghost broken: bool)
      requires this in refs && other in refs
      requires forall r :: r in refs && r.frame != null ==> r.frame in frames
      modifies this, frame, other.frame
      ensures View(refs, frames, broken) == Apply(old(View(refs, frames, false)), Assign(this, other))
      ensures frame == old(other.frame)
    {
      broken := SetSharedFrame(other.frame, refs, frames);
    }
  }

  /** The copy constructor. */
  method CopyOf(other: VideoFrameRef, ghost refs: set<VideoFrameRef>, ghost frames: set<OniFrame>)
    returns (r: VideoFrameRef, ghost broken: bool)
    requires other in refs
    requires forall q :: q in refs && q.frame != null ==> q.frame in frames
    modifies other.frame
    ensures fresh(r)
    ensures View(refs + {r}, frames, broken) == Apply(old(View(refs, frames, false)), Copy(r, other))
    ensures r.frame == old(other.frame)
  {
    r := new VideoFrameRef();
    broken := r.SetSharedFrame(other.frame, refs + {r}, frames);
  }

  class VideoStream {
    var valid: bool

    constructor (valid: bool)
      ensures this.valid == valid
    {
      this.valid := valid;
    }

    /** Reading: the driver's answer (a status, and nothing or a frame with one count added for the
        reader) goes into the reference after the old frame is released. An invalid stream touches
        neither the driver nor the reference. */
    method ReadFrame(r: VideoFrameRef, handed: OniFrame?, status: bool, ghost refs: set<VideoFrameRef>,
                     ghost frames: set<OniFrame>)
      returns (ok: bool, ghost broken: bool)
      requires r in refs && (handed != null ==> handed in frames)
      requires forall q :: q in refs && q.frame != null ==> q.frame in frames
      modifies r, r.frame
      ensures ok <==> valid && status
      ensures r.frame == if valid then handed else old(r.frame)
      ensures View(refs, frames, broken) ==
              var was := old(View(refs, frames, false));
              if valid then SetReference(was, r, Opt(handed)) else was
    {
      if !valid {
        return false, false;
      }
      broken := r.SetFrameReference(handed, refs, frames);
      return status, broken;
    }
  }
}
