/** Publishing the RealSense point cloud: valid vertices are compacted to the front of the message
    buffer, each with its texture colour. */
module PointCloud {
  import opened Common

  type Byte = bv8

  datatype Vertex = Vertex(x: real, y: real, z: real)

  datatype TexCoord = TexCoord(u: real, v: real)

  // A texture frame with its number of bytes per pixel: three for RGB8, one for Y8. The colour field
  // of a published point has four bytes. memory is what lies from the start of the frame's data on:
  // Size() bytes are the texture's own, the rest is whatever comes after it.
  datatype Texture = Texture(width: nat, height: nat, numColors: nat, memory: nat -> Byte)
  {
    predicate Valid() { 0 < numColors <= 4 }

    function Size(): nat { width * height * numColors }
  }

  datatype Config = Config(ordered: bool, allowNoTexture: bool)

  // ---------- Addressing a texel ----------

  predicate ValidColor(t: TexCoord)
  {
    0.0 <= t.u <= 1.0 && 0.0 <= t.v <= 1.0
  }

  function PixX(tx: Texture, t: TexCoord): int { (t.u * tx.width as real).Floor }

  function PixY(tx: Texture, t: TexCoord): int { (t.v * tx.height as real).Floor }

  // The number of the texel, row by row.
  function Index(tx: Texture, t: TexCoord): int { PixY(tx, t) * tx.width + PixX(tx, t) }

  function Offset(tx: Texture, t: TexCoord): int { Index(tx, t) * tx.numColors }

  predicate InBounds(tx: Texture, t: TexCoord)
  {
    0 <= Offset(tx, t) && Offset(tx, t) + tx.numColors <= tx.Size()
  }

  lemma FloorBelow(a: real, n: nat)
    requires 0.0 <= a <= 1.0
    ensures 0 <= (a * n as real).Floor <= n
    ensures a < 1.0 && n > 0 ==> (a * n as real).Floor < n
    ensures a == 1.0 ==> (a * n as real).Floor == n
  {
    var x := a * n as real;
    assert 0.0 <= x <= n as real;
    if a < 1.0 && n > 0 { assert (1.0 - a) * n as real > 0.0; }
    if a == 1.0 { assert x == n as real; }
  }

  // A texel ends inside the data exactly when its index is below the number of texels.
  lemma EndsInside(index: nat, texels: nat, n: nat)
    requires n > 0
    ensures index * n + n <= texels * n <==> index < texels
  {
    if index < texels { Scaled(index + 1, texels, n); } else { Scaled(texels, index, n); }
    assert (index + 1) * n == index * n + n;
  }

  // Index y * w + x with x <= w, against h rows of w.
  lemma IndexBelow(y: nat, x: nat, w: nat, h: nat)
    requires x <= w && 0 < w && y <= h
    ensures y * w + x < h * w <==> y < h && (x < w || y + 1 < h)
  {
    if y + 1 == h {
      assert h * w == y * w + w;
    } else if y < h {
      Scaled(y + 2, h, w);
      assert (y + 2) * w == y * w + 2 * w;
    }
  }

  lemma PixelRange(tx: Texture, t: TexCoord)
    requires tx.width > 0 && tx.height > 0 && ValidColor(t)
    ensures 0 <= PixX(tx, t) <= tx.width && 0 <= PixY(tx, t) <= tx.height
    ensures PixX(tx, t) < tx.width <==> t.u < 1.0
    ensures PixY(tx, t) < tx.height <==> t.v < 1.0
  {
    FloorBelow(t.u, tx.width);
    FloorBelow(t.v, tx.height);
  }

  lemma IndexNotNegative(y: nat, x: nat, w: nat, n: nat)
    ensures 0 <= y * w + x && 0 <= (y * w + x) * n
  {
  }

  lemma InBoundsByIndex(tx: Texture, t: TexCoord)
    requires tx.Valid() && PixX(tx, t) >= 0 && PixY(tx, t) >= 0
    ensures InBounds(tx, t) <==> Index(tx, t) < tx.height * tx.width
  {
    hide PixX, PixY;
    IndexNotNegative(PixY(tx, t), PixX(tx, t), tx.width, tx.numColors);
    EndsInside(Index(tx, t), tx.width * tx.height, tx.numColors);
  }

  /** The texel read stays inside the texture exactly when v is below one and, if u is exactly one,
      the row below exists: with both coordinates in [0, 1) it always does. */
  lemma TexelInBoundsIff(tx: Texture, t: TexCoord)
    requires tx.Valid() && tx.width > 0 && tx.height > 0 && ValidColor(t)
    ensures InBounds(tx, t) <==> t.v < 1.0 && (t.u < 1.0 || PixY(tx, t) + 1 < tx.height)
    ensures t.u < 1.0 && t.v < 1.0 ==> InBounds(tx, t)
  {
    hide PixX, PixY, InBounds;
    PixelRange(tx, t);
    InBoundsByIndex(tx, t);
    IndexBelow(PixY(tx, t), PixX(tx, t), tx.width, tx.height);
  }

  /** The corner of every texture, u and v both exactly one, is a valid coordinate outside it. */
  lemma CornerIsOutside(tx: Texture)
    requires tx.Valid() && tx.width > 0 && tx.height > 0
    ensures ValidColor(TexCoord(1.0, 1.0)) && !InBounds(tx, TexCoord(1.0, 1.0))
  {
    hide InBounds;
    TexelInBoundsIff(tx, TexCoord(1.0, 1.0));
  }

  // ---------- Which points are published ----------

  // A coordinate on the texture, its edges included.
  predicate OnTexture(t: TexCoord)
  {
    t.u >= 0.0 && t.u <= 1.0 && t.v >= 0.0 && t.v <= 1.0
  }

  // A point, with its texture coordinate if there is a texture.
  predicate Kept(c: Config, p: Vertex, t: Option<TexCoord>)
  {
    c.ordered || (p.z > 0.0 && (t.None? || ValidColor(t.value) || c.allowNoTexture))
  }

  function CoordAt(ts: Option<seq<TexCoord>>, i: nat): Option<TexCoord>
    requires ts.Some? ==> i < |ts.value|
  {
    if ts.Some? then Some(ts.value[i]) else None
  }

  predicate Fits(ps: seq<Vertex>, ts: Option<seq<TexCoord>>)
  {
    ts.Some? ==> |ts.value| == |ps|
  }

  // The indices of the published points among the first n.
  function Selected(c: Config, ps: seq<Vertex>, ts: Option<seq<TexCoord>>, n: nat): seq<nat>
    requires n <= |ps| && Fits(ps, ts)
  {
    if n == 0 then []
    else Selected(c, ps, ts, n - 1) + (if Kept(c, ps[n - 1], CoordAt(ts, n - 1)) then [n - 1] else [])
  }

  /** The published points are exactly the points to be kept, each once, in their order. */
  lemma {:induction false} SelectedIsExact(c: Config, ps: seq<Vertex>, ts: Option<seq<TexCoord>>, n: nat)
    requires n <= |ps| && Fits(ps, ts)
    ensures var s := Selected(c, ps, ts, n);
            && |s| <= n
            && (forall a, b :: 0 <= a < b < |s| ==> s[a] < s[b])
            && (forall i: nat :: i in s ==> i < n)
            && (forall i: nat :: i < n ==>
                  (i in s <==>
                     c.ordered || (ps[i].z > 0.0 && (c.allowNoTexture || ts.None? || OnTexture(ts.value[i])))))
  {
    if n > 0 {
      SelectedIsExact(c, ps, ts, n - 1);
      var u := Selected(c, ps, ts, n - 1);
      forall a | 0 <= a < |u| ensures u[a] < n - 1 { assert u[a] in u; }
    }
  }

  /** In ordered mode every vertex keeps its index. */
  lemma {:induction false} OrderedKeepsIndex(c: Config, ps: seq<Vertex>, ts: Option<seq<TexCoord>>, n: nat)
    requires n <= |ps| && Fits(ps, ts) && c.ordered
    ensures |Selected(c, ps, ts, n)| == n
    ensures forall i :: 0 <= i < n ==> Selected(c, ps, ts, n)[i] == i
  {
    if n > 0 { OrderedKeepsIndex(c, ps, ts, n - 1); }
  }

  // ---------- The buffer ----------

  lemma OffsetNotNegative(tx: Texture, t: TexCoord)
    requires ValidColor(t)
    ensures Offset(tx, t) >= 0
  {
    FloorBelow(t.u, tx.width);
    FloorBelow(t.v, tx.height);
    IndexNotNegative(PixY(tx, t), PixX(tx, t), tx.width, tx.numColors);
  }

  // Byte b of the colour field of a published point: the texel reversed, or left as it was.
  function ColorByte(tx: Texture, t: TexCoord, b: nat, was: Byte): Byte
  {
    if ValidColor(t) && b < tx.numColors then
      OffsetNotNegative(tx, t);
      tx.memory(Offset(tx, t) + tx.numColors - 1 - b)
    else was
  }

  // reverse_memcpy of n bytes.
  method ReverseMemcpy(dst: array<Byte>, to: nat, src: nat -> Byte, from: nat, n: nat)
    requires to + n <= dst.Length
    modifies dst
    ensures forall k :: to <= k < to + n ==> dst[k] == src(from + n - 1 - (k - to))
    ensures forall k :: 0 <= k < dst.Length && !(to <= k < to + n) ==> dst[k] == old(dst[k])
  {
    var i := 0;
    while i < n
      invariant i <= n
      invariant forall k :: to + n - i <= k < to + n ==> dst[k] == src(from + n - 1 - (k - to))
      invariant forall k :: 0 <= k < dst.Length && !(to <= k < to + n) ==> dst[k] == old(dst[k])
    {
      dst[to + n - 1 - i] := src(from + i);
      i := i + 1;
    }
  }

  /** The message's header fields. */
  datatype Header = Header(width: nat, height: nat, isDense: bool)

  // The points written so far are the selected ones.
  ghost predicate Compacted(ps: seq<Vertex>, sel: seq<nat>, xyz: seq<Vertex>)
  {
    |sel| <= |xyz| && forall k :: 0 <= k < |sel| ==> sel[k] < |ps| && xyz[k] == ps[sel[k]]
  }

  // Byte j of the colour buffer belongs to point j / 4.
  ghost predicate Colored(tx: Texture, ts: seq<TexCoord>, sel: seq<nat>, was: seq<Byte>, color: seq<Byte>)
  {
    && |color| == |was| && 4 * |sel| <= |color|
    && (forall k :: 0 <= k < |sel| ==> sel[k] < |ts|)
    && (forall j :: 0 <= j < 4 * |sel| ==> color[j] == ColorByte(tx, ts[sel[j / 4]], j % 4, was[j]))
    && (forall j :: 4 * |sel| <= j < |color| ==> color[j] == was[j])
  }

  /** The textured loop: the kept points in order, each with its texel reversed into the colour field;
      a point without a valid texture coordinate keeps whatever its colour field held. A texel outside
      the texture is whatever lies there in memory. */
  method PublishTextured(c: Config, width: nat, height: nat, ps: seq<Vertex>, ts: seq<TexCoord>, tx: Texture,
                         xyz: array<Vertex>, color: array<Byte>) returns (header: Header)
    requires |ps| == |ts| <= xyz.Length && color.Length == 4 * xyz.Length && tx.Valid()
    modifies xyz, color
    ensures var sel := Selected(c, ps, Some(ts), |ps|);
            && header == (if c.ordered then Header(width, height, false) else Header(|sel|, 1, true))
            && Compacted(ps, sel, xyz[..]) && Colored(tx, ts, sel, old(color[..]), color[..])
  {
    var validCount := 0;
    var i := 0;
    ColoredNone(tx, ts, color[..]);
    hide Colored, Compacted, ColorByte, Index;
    while i < |ps|
      invariant i <= |ps| && validCount <= i && validCount == |Selected(c, ps, Some(ts), i)|
      invariant Compacted(ps, Selected(c, ps, Some(ts), i), xyz[..])
      invariant Colored(tx, ts, Selected(c, ps, Some(ts), i), old(color[..]), color[..])
    {
      var validColorPixel := ts[i].u >= 0.0 && ts[i].u <= 1.0 && ts[i].v >= 0.0 && ts[i].v <= 1.0;
      var validPixel := ps[i].z > 0.0 && (validColorPixel || c.allowNoTexture);
      if validPixel || c.ordered {
        WritePoint(ps, ts, tx, xyz, color, validCount, i, validColorPixel,
                   Selected(c, ps, Some(ts), i), old(color[..]));
        validCount := validCount + 1;
      }
      i := i + 1;
    }
    header := if c.ordered then Header(width, height, false) else Header(validCount, 1, true);
  }

  // The body of the textured loop for a point to be kept.
  method WritePoint(ps: seq<Vertex>, ts: seq<TexCoord>, tx: Texture, xyz: array<Vertex>, color: array<Byte>,
                    at: nat, i: nat, validColorPixel: bool, ghost sel: seq<nat>, ghost was: seq<Byte>)
    requires i < |ps| == |ts| && tx.Valid() && validColorPixel == ValidColor(ts[i])
    requires at == |sel| < xyz.Length && color.Length == 4 * xyz.Length == |was|
    requires Compacted(ps, sel, xyz[..]) && Colored(tx, ts, sel, was, color[..])
    modifies xyz, color
    ensures Compacted(ps, sel + [i], xyz[..]) && Colored(tx, ts, sel + [i], was, color[..])
  {
    ghost var points, before := xyz[..], color[..];
    CompactedGrows(ps, sel, points, i);
    ColoredNeeds(tx, ts, sel, was, before);
    hide Colored, Compacted, ColorByte, Index;
    xyz[at] := ps[i];
    assert xyz[..] == points[at := ps[i]];
    if validColorPixel {
      OffsetNotNegative(tx, ts[i]);
      ReverseMemcpy(color, 4 * at, tx.memory, Offset(tx, ts[i]), tx.numColors);
    }
    ColoredGrows(tx, ts, sel, i, was, before, color[..]);
  }

  lemma ColoredNeeds(tx: Texture, ts: seq<TexCoord>, sel: seq<nat>, was: seq<Byte>, color: seq<Byte>)
    requires Colored(tx, ts, sel, was, color)
    ensures |color| == |was| && 4 * |sel| <= |color|
  {
  }

  // The pixel of a length n that the coordinate a falls on, counting from zero.
  predicate FallsOn(a: real, n: nat, pixel: nat)
  {
    pixel as real <= a * n as real < pixel as real + 1.0
  }

  /** The colour of a published point, from the texture's bytes: those of the texel its coordinate falls
      on, column by u and row by v, last byte first. */
  lemma TexelOf(tx: Texture, ts: seq<TexCoord>, sel: seq<nat>, was: seq<Byte>, color: seq<Byte>, k: nat, b: nat)
    returns (x: nat, y: nat)
    requires tx.Valid() && Colored(tx, ts, sel, was, color) && k < |sel| && b < 4
    ensures sel[k] < |ts| && 4 * k + b < |color| == |was|
    ensures var t := ts[sel[k]];
            && (OnTexture(t) ==> FallsOn(t.u, tx.width, x) && FallsOn(t.v, tx.height, y))
            && (OnTexture(t) && b < tx.numColors ==>
                  color[4 * k + b] == tx.memory((y * tx.width + x) * tx.numColors + (tx.numColors - 1 - b)))
            && (!OnTexture(t) || b >= tx.numColors ==> color[4 * k + b] == was[4 * k + b])
  {
    assert (4 * k + b) / 4 == k && (4 * k + b) % 4 == b;
    assert color[4 * k + b] == ColorByte(tx, ts[sel[k]], b, was[4 * k + b]);
    hide Colored, ColorByte;
    x, y := TexelByte(tx, ts[sel[k]], b, was[4 * k + b]);
  }

  lemma TexelByte(tx: Texture, t: TexCoord, b: nat, was: Byte) returns (x: nat, y: nat)
    requires tx.Valid() && b < 4
    ensures OnTexture(t) ==> FallsOn(t.u, tx.width, x) && FallsOn(t.v, tx.height, y)
    ensures OnTexture(t) && b < tx.numColors ==>
              ColorByte(tx, t, b, was) == tx.memory((y * tx.width + x) * tx.numColors + (tx.numColors - 1 - b))
    ensures !OnTexture(t) || b >= tx.numColors ==> ColorByte(tx, t, b, was) == was
  {
    if OnTexture(t) {
      OffsetNotNegative(tx, t);
      x, y := TexelAt(tx, t);
      hide Offset, FallsOn;
      assert (y * tx.width + x) * tx.numColors == Offset(tx, t);
    } else {
      x, y := 0, 0;
    }
  }

  lemma TexelAt(tx: Texture, t: TexCoord) returns (x: nat, y: nat)
    requires OnTexture(t)
    ensures FallsOn(t.u, tx.width, x) && FallsOn(t.v, tx.height, y)
    ensures Offset(tx, t) == (y * tx.width + x) * tx.numColors
  {
    FloorBelow(t.u, tx.width);
    FloorBelow(t.v, tx.height);
    x, y := PixX(tx, t), PixY(tx, t);
  }

  lemma ColoredNone(tx: Texture, ts: seq<TexCoord>, was: seq<Byte>)
    ensures Colored(tx, ts, [], was, was)
  {
  }

  lemma CompactedGrows(ps: seq<Vertex>, sel: seq<nat>, xyz: seq<Vertex>, i: nat)
    requires Compacted(ps, sel, xyz) && |sel| < |xyz| && i < |ps|
    ensures Compacted(ps, sel + [i], xyz[|sel| := ps[i]])
  {
  }

  lemma ColoredGrows(tx: Texture, ts: seq<TexCoord>, sel: seq<nat>, i: nat, was: seq<Byte>, before: seq<Byte>,
                     after: seq<Byte>)
    requires tx.Valid() && i < |ts| && Colored(tx, ts, sel, was, before)
    requires |after| == |was| && 4 * (|sel| + 1) <= |was|
    requires forall j :: 0 <= j < |was| && !(4 * |sel| <= j < 4 * |sel| + tx.numColors) ==> after[j] == before[j]
    requires ValidColor(ts[i]) ==> Offset(tx, ts[i]) >= 0
    requires ValidColor(ts[i]) ==>
               forall j :: 4 * |sel| <= j < 4 * |sel| + tx.numColors ==>
                 after[j] == tx.memory(Offset(tx, ts[i]) + tx.numColors - 1 - (j - 4 * |sel|))
    requires !ValidColor(ts[i]) ==> after == before
    ensures Colored(tx, ts, sel + [i], was, after)
  {
    forall j | 0 <= j < 4 * (|sel| + 1)
      ensures after[j] == ColorByte(tx, ts[(sel + [i])[j / 4]], j % 4, was[j])
    {
      if j < 4 * |sel| {
        assert j / 4 < |sel|;
      } else {
        assert j / 4 == |sel| && j % 4 == j - 4 * |sel|;
      }
    }
  }

  /** The loop without texture: the vertices in front of the camera (all of them in ordered mode). */
  method PublishUntextured(c: Config, width: nat, height: nat, ps: seq<Vertex>, xyz: array<Vertex>)
    returns (header: Header)
    requires |ps| <= xyz.Length
    modifies xyz
    ensures var sel := Selected(c, ps, None, |ps|);
            && header == (if c.ordered then Header(width, height, false) else Header(|sel|, 1, true))
            && Compacted(ps, sel, xyz[..])
  {
    var validCount := 0;
    var i := 0;
    while i < |ps|
      invariant i <= |ps| && validCount <= i && validCount == |Selected(c, ps, None, i)|
      invariant Compacted(ps, Selected(c, ps, None, i), xyz[..])
    {
      var validPixel := ps[i].z > 0.0;
      if validPixel || c.ordered {
        xyz[validCount] := ps[i];
        validCount := validCount + 1;
      }
      i := i + 1;
    }
    header := if c.ordered then Header(width, height, false) else Header(validCount, 1, true);
  }
}
