/** Building a coloured point cloud from a depth image and a colour image by walking pointers through
    both buffers, against the definition pixel by pixel. */
module StrideWalk {
  import opened Common

  type Byte = bv8

  datatype Encoding = RGB8 | RGBA8 | BGR8 | BGRA8 | MONO8 | Other(name: string)

  datatype Image = Image(width: nat, height: nat, step: nat, encoding: Encoding, data: seq<Byte>)

  // Where the colour channels of a pixel lie, and how far apart pixels are.
  datatype Layout = Layout(red: nat, green: nat, blue: nat, colorStep: nat)

  // One type of depth reading: its size in bytes and what its bytes mean.
  datatype Traits<!T> = Traits(size: nat, decode: seq<Byte> -> T, valid: T -> bool, value: T -> real,
                               toMeters: T -> real)

  datatype Camera = Camera(centerX: real, centerY: real, constantX: real, constantY: real)

  datatype Coordinate = NaN | Meters(v: real)

  datatype CloudPoint = CloudPoint(x: Coordinate, y: Coordinate, z: Coordinate, r: Byte, g: Byte, b: Byte, a: Byte)

  function BytesPerPixel(e: Encoding): nat
  {
    match e
    case RGB8 => 3
    case RGBA8 => 4
    case BGR8 => 3
    case BGRA8 => 4
    case MONO8 => 1
    case Other(_) => 0
  }

  // A whole image: every row holds its pixels, every row is there.
  predicate Whole(i: Image)
  {
    i.width * BytesPerPixel(i.encoding) <= i.step && |i.data| == i.height * i.step
  }

  // Room for w pixels of n bytes in each of h rows.
  predicate Holds(i: Image, h: nat, w: nat, n: nat)
  {
    h > 0 && w > 0 ==> (h - 1) * i.step + w * n <= |i.data|
  }

  // ---------- The definition pixel by pixel ----------

  function DepthOffset<T>(t: Traits<T>, depth: Image, v: nat, u: nat): nat
  {
    v * depth.step + u * t.size
  }

  function Project(pixel: nat, center: real, depth: real, constant: real): real
  {
    (pixel as real - center) * depth * constant
  }

  function Point<T>(cam: Camera, t: Traits<T>, d: T, v: nat, u: nat, rgb: Image, lay: Layout, at: nat): CloudPoint
    requires at + lay.red < |rgb.data| && at + lay.green < |rgb.data| && at + lay.blue < |rgb.data|
  {
    var r, g, b := rgb.data[at + lay.red], rgb.data[at + lay.green], rgb.data[at + lay.blue];
    if !t.valid(d) then CloudPoint(NaN, NaN, NaN, r, g, b, 255)
    else
      CloudPoint(
        Meters(Project(u, cam.centerX, t.value(d), cam.constantX)),
        Meters(Project(v, cam.centerY, t.value(d), cam.constantY)),
        Meters(t.toMeters(d)), r, g, b, 255)
  }

  // A scene the conversion can be run on: sizes equal, buffers long enough, channels inside a pixel.
  ghost predicate Ready<T(!new)>(t: Traits<T>, depth: Image, rgb: Image, lay: Layout)
  {
    && rgb.width == depth.width && rgb.height == depth.height
    && t.size > 0
    && lay.red < lay.colorStep && lay.green < lay.colorStep && lay.blue < lay.colorStep
    && Holds(depth, depth.height, depth.width, t.size)
    && Holds(rgb, depth.height, depth.width, lay.colorStep)
  }

  // Byte offset of element (v, u) when rows are counted in whole elements.
  function WalkedOffset<T>(t: Traits<T>, depth: Image, v: nat, u: nat): nat
    requires t.size > 0
  {
    (v * (depth.step / t.size) + u) * t.size
  }

  lemma WholeElements(step: nat, size: nat)
    requires size > 0
    ensures step / size * size <= step
    ensures step / size * size == step <==> step % size == 0
  {
  }

  lemma WalkedIs<T>(t: Traits<T>, depth: Image, v: nat, u: nat)
    requires t.size > 0
    ensures WalkedOffset(t, depth, v, u) == v * (depth.step / t.size * t.size) + u * t.size
  {
  }

  /** The walk over depth rows reads the byte offsets of the direct definition in row v exactly when
      v is the first row or rows are a whole number of elements long. */
  lemma WalkIsDirectIff<T>(t: Traits<T>, depth: Image, v: nat, u: nat)
    requires t.size > 0
    ensures WalkedOffset(t, depth, v, u) == DepthOffset(t, depth, v, u) <==> v == 0 || depth.step % t.size == 0
  {
    WalkedIs(t, depth, v, u);
    WholeElements(depth.step, t.size);
    MultiplesDiffer(v, depth.step / t.size * t.size, depth.step);
    hide WalkedOffset;
  }

  lemma MultiplesDiffer(v: nat, a: nat, b: nat)
    requires a <= b
    ensures v * a == v * b <==> v == 0 || a == b
  {
    if v > 0 && a < b { assert v * (b - a) > 0; }
  }

  /** Rows of three bytes and elements of two: the second row is read one byte early. */
  lemma OddRowsAreMissed<T>(t: Traits<T>, depth: Image)
    requires t.size == 2 && depth.step == 3
    ensures WalkedOffset(t, depth, 1, 0) == 2 && DepthOffset(t, depth, 1, 0) == 3
  {
    WalkedIs(t, depth, 1, 0);
  }

  // Every depth element the walk reads lies in the buffer ...
  lemma DepthInBounds<T>(t: Traits<T>, depth: Image, v: nat, u: nat)
    requires t.size > 0 && Holds(depth, depth.height, depth.width, t.size) && v < depth.height && u < depth.width
    ensures WalkedOffset(t, depth, v, u) + t.size <= |depth.data|
  {
    WalkedIs(t, depth, v, u);
    WholeElements(depth.step, t.size);
    var w := depth.step / t.size * t.size;
    Scaled(v, depth.height - 1, depth.step);
    Scaled(w, depth.step, v);
    Scaled(u + 1, depth.width, t.size);
    assert v * w <= v * depth.step && (u + 1) * t.size == u * t.size + t.size;
  }

  // ... and so does every colour channel.
  lemma ColorInBounds(rgb: Image, lay: Layout, h: nat, w: nat, v: nat, u: nat)
    requires Holds(rgb, h, w, lay.colorStep) && v < h && u < w
    ensures v * rgb.step + u * lay.colorStep + lay.colorStep <= |rgb.data|
  {
    Scaled(v, h - 1, rgb.step);
    Scaled(u + 1, w, lay.colorStep);
    assert (u + 1) * lay.colorStep == u * lay.colorStep + lay.colorStep;
  }

  function ColorOffset(rgb: Image, lay: Layout, v: nat, u: nat): nat
  {
    v * rgb.step + u * lay.colorStep
  }

  /** Every read for a pixel is inside its buffer. */
  lemma PixelInBounds<T(!new)>(t: Traits<T>, depth: Image, rgb: Image, lay: Layout, v: nat, u: nat)
    requires Ready(t, depth, rgb, lay) && v < depth.height && u < depth.width
    ensures WalkedOffset(t, depth, v, u) + t.size <= |depth.data|
    ensures ColorOffset(rgb, lay, v, u) + lay.colorStep <= |rgb.data|
  {
    DepthInBounds(t, depth, v, u);
    ColorInBounds(rgb, lay, depth.height, depth.width, v, u);
  }

  // Pixel (v, u) of the cloud: depth in whole elements from the start, colour in bytes.
  function PointAt<T(!new)>(cam: Camera, t: Traits<T>, depth: Image, rgb: Image, lay: Layout,
                            v: nat, u: nat): CloudPoint
    requires Ready(t, depth, rgb, lay) && v < depth.height && u < depth.width
  {
    hide Holds, WalkedOffset, ColorOffset;
    PixelInBounds(t, depth, rgb, lay, v, u);
    var o := WalkedOffset(t, depth, v, u);
    Point(cam, t, t.decode(depth.data[o..o + t.size]), v, u, rgb, lay, ColorOffset(rgb, lay, v, u))
  }

  function Row<T(!new)>(cam: Camera, t: Traits<T>, depth: Image, rgb: Image, lay: Layout,
                        v: nat, n: nat): (r: seq<CloudPoint>)
    requires Ready(t, depth, rgb, lay) && v < depth.height && n <= depth.width
    ensures |r| == n
  {
    seq(n, u requires 0 <= u < n => PointAt(cam, t, depth, rgb, lay, v, u))
  }

  function Rows<T(!new)>(cam: Camera, t: Traits<T>, depth: Image, rgb: Image, lay: Layout, n: nat): seq<CloudPoint>
    requires Ready(t, depth, rgb, lay) && n <= depth.height
  {
    if n == 0 then [] else Rows(cam, t, depth, rgb, lay, n - 1) + Row(cam, t, depth, rgb, lay, n - 1, depth.width)
  }

  lemma Successor(v: nat, w: nat)
    ensures (v + 1) * w == v * w + w
  {
  }

  /** In the finished cloud, pixel (v, u) is at v * width + u and is the point of the depth
      element and the colour bytes that the pointers address. */
  lemma {:induction false} CloudAt<T(!new)>(cam: Camera, t: Traits<T>, depth: Image, rgb: Image, lay: Layout, n: nat,
                                            v: nat, u: nat)
    requires Ready(t, depth, rgb, lay) && n <= depth.height && v < n && u < depth.width
    ensures |Rows(cam, t, depth, rgb, lay, n)| == n * depth.width
    ensures v * depth.width + u < n * depth.width
    ensures Rows(cam, t, depth, rgb, lay, n)[v * depth.width + u] == PointAt(cam, t, depth, rgb, lay, v, u)
  {
    Successor(n - 1, depth.width);
    RowsLength(cam, t, depth, rgb, lay, n - 1);
    RowsLength(cam, t, depth, rgb, lay, n);
    if v < n - 1 {
      CloudAt(cam, t, depth, rgb, lay, n - 1, v, u);
    }
  }

  // Every element of the image itself lies in its buffer.
  lemma ElementInBounds<T>(t: Traits<T>, depth: Image, v: nat, u: nat)
    requires Holds(depth, depth.height, depth.width, t.size) && v < depth.height && u < depth.width
    ensures DepthOffset(t, depth, v, u) + t.size <= |depth.data|
  {
    Scaled(v, depth.height - 1, depth.step);
    Scaled(u + 1, depth.width, t.size);
    assert (u + 1) * t.size == u * t.size + t.size;
  }

  // The point the two images define at (v, u): each read at its own row step.
  function ImagePoint<T(!new)>(cam: Camera, t: Traits<T>, depth: Image, rgb: Image, lay: Layout,
                               v: nat, u: nat): CloudPoint
    requires Ready(t, depth, rgb, lay) && v < depth.height && u < depth.width
  {
    hide Holds, DepthOffset, ColorOffset;
    ElementInBounds(t, depth, v, u);
    PixelInBounds(t, depth, rgb, lay, v, u);
    var o := DepthOffset(t, depth, v, u);
    Point(cam, t, t.decode(depth.data[o..o + t.size]), v, u, rgb, lay, ColorOffset(rgb, lay, v, u))
  }

  /** The finished cloud is the one the two images define, pixel by pixel: in the first row always, in
      every row when the depth rows are a whole number of elements long. */
  lemma CloudIsOfImages<T(!new)>(cam: Camera, t: Traits<T>, depth: Image, rgb: Image, lay: Layout, v: nat, u: nat)
    requires Ready(t, depth, rgb, lay) && v < depth.height && u < depth.width
    requires v == 0 || depth.step % t.size == 0
    ensures v * depth.width + u < |Rows(cam, t, depth, rgb, lay, depth.height)|
    ensures Rows(cam, t, depth, rgb, lay, depth.height)[v * depth.width + u] ==
            ImagePoint(cam, t, depth, rgb, lay, v, u)
  {
    hide Holds, WalkedOffset, DepthOffset, ColorOffset;
    CloudAt(cam, t, depth, rgb, lay, depth.height, v, u);
    WalkIsDirectIff(t, depth, v, u);
  }

  /** The colours of the finished cloud, from the bytes of the image: each pixel has its own red, green
      and blue and is opaque. */
  lemma PixelColors<T(!new)>(cam: Camera, t: Traits<T>, depth: Image, rgb: Image, lay: Layout, v: nat, u: nat)
    requires Ready(t, depth, rgb, lay) && v < depth.height && u < depth.width
    ensures v * depth.width + u < |Rows(cam, t, depth, rgb, lay, depth.height)|
    ensures v * rgb.step + u * lay.colorStep + lay.colorStep <= |rgb.data|
    ensures var p := Rows(cam, t, depth, rgb, lay, depth.height)[v * depth.width + u];
            && p.r == rgb.data[v * rgb.step + u * lay.colorStep + lay.red]
            && p.g == rgb.data[v * rgb.step + u * lay.colorStep + lay.green]
            && p.b == rgb.data[v * rgb.step + u * lay.colorStep + lay.blue]
            && p.a == 255
  {
    hide Holds, WalkedOffset;
    CloudAt(cam, t, depth, rgb, lay, depth.height, v, u);
    PixelInBounds(t, depth, rgb, lay, v, u);
  }

  // What the coordinates of pixel (v, u) are to be, given its reading.
  predicate Located<T>(cam: Camera, t: Traits<T>, d: T, v: nat, u: nat, p: CloudPoint)
  {
    if !t.valid(d) then p.x == NaN && p.y == NaN && p.z == NaN
    else
      && p.z == Meters(t.toMeters(d)) && p.x.Meters? && p.y.Meters?
      && (t.value(d) * cam.constantX != 0.0 ==> p.x.v / (t.value(d) * cam.constantX) + cam.centerX == u as real)
      && (t.value(d) * cam.constantY != 0.0 ==> p.y.v / (t.value(d) * cam.constantY) + cam.centerY == v as real)
      && (t.value(d) * cam.constantX == 0.0 ==> p.x.v == 0.0)
      && (t.value(d) * cam.constantY == 0.0 ==> p.y.v == 0.0)
  }

  lemma ProjectBack(pixel: nat, center: real, depth: real, constant: real)
    ensures depth * constant == 0.0 ==> Project(pixel, center, depth, constant) == 0.0
    ensures depth * constant != 0.0 ==>
              Project(pixel, center, depth, constant) / (depth * constant) + center == pixel as real
  {
    var k, w := depth * constant, pixel as real - center;
    assert Project(pixel, center, depth, constant) == w * k;
    if k != 0.0 { assert w * k / k == w; }
  }

  lemma PointLocated<T>(cam: Camera, t: Traits<T>, d: T, v: nat, u: nat, rgb: Image, lay: Layout, at: nat)
    requires at + lay.red < |rgb.data| && at + lay.green < |rgb.data| && at + lay.blue < |rgb.data|
    ensures Located(cam, t, d, v, u, Point(cam, t, d, v, u, rgb, lay, at))
  {
    hide Project;
    if t.valid(d) {
      ProjectBack(u, cam.centerX, t.value(d), cam.constantX);
      ProjectBack(v, cam.centerY, t.value(d), cam.constantY);
    }
  }

  /** The coordinates of the finished cloud: an invalid reading is nowhere; a valid one lies as far away
      as it says, in the direction from which the camera model projects it back to its own pixel. */
  lemma PixelCoordinates<T(!new)>(cam: Camera, t: Traits<T>, depth: Image, rgb: Image, lay: Layout,
                                  v: nat, u: nat) returns (at: nat, o: nat)
    requires Ready(t, depth, rgb, lay) && v < depth.height && u < depth.width
    ensures at == v * depth.width + u && o == (v * (depth.step / t.size) + u) * t.size
    ensures at < |Rows(cam, t, depth, rgb, lay, depth.height)| && o + t.size <= |depth.data|
    ensures Located(cam, t, t.decode(depth.data[o..o + t.size]), v, u, Rows(cam, t, depth, rgb, lay, depth.height)[at])
  {
    hide Rows, Located, Holds, PointAt;
    CloudAt(cam, t, depth, rgb, lay, depth.height, v, u);
    at := v * depth.width + u;
    o := PixelLocated(cam, t, depth, rgb, lay, v, u);
  }

  lemma PixelLocated<T(!new)>(cam: Camera, t: Traits<T>, depth: Image, rgb: Image, lay: Layout,
                              v: nat, u: nat) returns (o: nat)
    requires Ready(t, depth, rgb, lay) && v < depth.height && u < depth.width
    ensures o == (v * (depth.step / t.size) + u) * t.size && o + t.size <= |depth.data|
    ensures Located(cam, t, t.decode(depth.data[o..o + t.size]), v, u, PointAt(cam, t, depth, rgb, lay, v, u))
  {
    o := WalkedOffset(t, depth, v, u);
    PixelInBounds(t, depth, rgb, lay, v, u);
    hide Holds, WalkedOffset, ColorOffset, Point, Located;
    PointLocated(cam, t, t.decode(depth.data[o..o + t.size]), v, u, rgb, lay, ColorOffset(rgb, lay, v, u));
  }

  // A depth buffer of bytes, all zero but one; a reading is its first byte, and valid unless zero.
  const FIRST_BYTE := (b: seq<Byte>) => if b == [] then 0 as Byte else b[0]

  function ByteTraits(size: nat): Traits<Byte>
  {
    Traits(size, FIRST_BYTE, b => b != 0, b => 1.0, b => 1.0)
  }

  function Marked(length: nat, at: nat): (r: seq<Byte>)
    ensures |r| == length
  {
    seq(length, i requires 0 <= i < length => if i == at then 1 as Byte else 0)
  }

  lemma MarkedReads(size: nat, length: nat, at: nat, o: nat)
    requires size > 0 && o + size <= length
    ensures FIRST_BYTE(Marked(length, at)[o..o + size]) != 0 <==> o == at
  {
    assert Marked(length, at)[o..o + size][0] == Marked(length, at)[o];
  }

  /** Otherwise they need not be: whenever rows are not a whole number of elements long and there is a
      second row, some depth image of that shape comes out wrong at its start. */
  lemma OddStepsDiffer(cam: Camera, size: nat, width: nat, height: nat, step: nat, rgb: Image, lay: Layout)
    returns (depth: Image)
    requires size > 0 && step % size != 0 && width > 0 && height > 1
    requires rgb.width == width && rgb.height == height && Holds(rgb, height, width, lay.colorStep)
    requires lay.red < lay.colorStep && lay.green < lay.colorStep && lay.blue < lay.colorStep
    ensures depth.width == width && depth.height == height && depth.step == step
    ensures Ready(ByteTraits(size), depth, rgb, lay)
    ensures width < |Rows(cam, ByteTraits(size), depth, rgb, lay, height)|
    ensures Rows(cam, ByteTraits(size), depth, rgb, lay, height)[width] !=
            ImagePoint(cam, ByteTraits(size), depth, rgb, lay, 1, 0)
  {
    depth := MarkedImage(size, width, height, step);
    MarkedIsReady(size, width, height, step, rgb, lay);
    CloudAt(cam, ByteTraits(size), depth, rgb, lay, height, 1, 0);
    assert 1 * width + 0 == width;
    hide Ready, Holds, Rows, PointAt, ImagePoint;
    MarkedDiffers(cam, size, width, height, step, rgb, lay);
  }

  function MarkedImage(size: nat, width: nat, height: nat, step: nat): Image
    requires height > 0
  {
    Image(width, height, step, Other(""), Marked((height - 1) * step + width * size, step))
  }

  lemma MarkedIsReady(size: nat, width: nat, height: nat, step: nat, rgb: Image, lay: Layout)
    requires size > 0 && height > 0 && rgb.width == width && rgb.height == height
    requires Holds(rgb, height, width, lay.colorStep)
    requires lay.red < lay.colorStep && lay.green < lay.colorStep && lay.blue < lay.colorStep
    ensures Ready(ByteTraits(size), MarkedImage(size, width, height, step), rgb, lay)
  {
  }

  lemma MarkedDiffers(cam: Camera, size: nat, width: nat, height: nat, step: nat, rgb: Image, lay: Layout)
    requires size > 0 && step % size != 0 && width > 0 && height > 1
    requires Ready(ByteTraits(size), MarkedImage(size, width, height, step), rgb, lay)
    ensures var t, depth := ByteTraits(size), MarkedImage(size, width, height, step);
            PointAt(cam, t, depth, rgb, lay, 1, 0) != ImagePoint(cam, t, depth, rgb, lay, 1, 0)
  {
    var t, depth := ByteTraits(size), MarkedImage(size, width, height, step);
    hide Ready, Holds, WalkedOffset, Marked;
    PixelInBounds(t, depth, rgb, lay, 1, 0);
    ElementInBounds(t, depth, 1, 0);
    WalkIsDirectIff(t, depth, 1, 0);
    assert DepthOffset(t, depth, 1, 0) == step;
    hide DepthOffset;
    MarkedReads(size, |depth.data|, step, WalkedOffset(t, depth, 1, 0));
    MarkedReads(size, |depth.data|, step, DepthOffset(t, depth, 1, 0));
    var a, b := WalkedOffset(t, depth, 1, 0), DepthOffset(t, depth, 1, 0);
    hide ByteTraits;
    ReadingsDiffer(cam, t, t.decode(depth.data[a..a + t.size]), t.decode(depth.data[b..b + t.size]), 1, 0,
                   rgb, lay, ColorOffset(rgb, lay, 1, 0));
  }

  // A valid reading and an invalid one make different points.
  lemma ReadingsDiffer<T>(cam: Camera, t: Traits<T>, d: T, e: T, v: nat, u: nat, rgb: Image, lay: Layout, at: nat)
    requires at + lay.red < |rgb.data| && at + lay.green < |rgb.data| && at + lay.blue < |rgb.data|
    requires t.valid(d) != t.valid(e)
    ensures Point(cam, t, d, v, u, rgb, lay, at) != Point(cam, t, e, v, u, rgb, lay, at)
  {
  }

  lemma {:induction false} RowsLength<T(!new)>(cam: Camera, t: Traits<T>, depth: Image, rgb: Image, lay: Layout, n: nat)
    requires Ready(t, depth, rgb, lay) && n <= depth.height
    ensures |Rows(cam, t, depth, rgb, lay, n)| == n * depth.width
  {
    if n > 0 {
      RowsLength(cam, t, depth, rgb, lay, n - 1);
      Successor(n - 1, depth.width);
    }
  }

  // ---------- The walk ----------

  /** The two nested loops. The colour pointer is always at v * step + u * colorStep, the depth row at
      v whole rows, the output iterators at v * width + u; every read is inside its buffer; and the
      finished cloud is the directly defined one. */
  method Convert<T(!new)>(cam: Camera, t: Traits<T>, depth: Image, rgb: Image, lay: Layout, cloud: array<CloudPoint>)
    requires Ready(t, depth, rgb, lay) && cloud.Length == depth.height * depth.width
    modifies cloud
    ensures cloud[..] == Rows(cam, t, depth, rgb, lay, depth.height)
  {
    var rowStep := depth.step / t.size;
    var rgbSkip := rgb.step - rgb.width * lay.colorStep;
    var depthRow, at, iter := 0, 0, 0;
    var v := 0;
    hide Holds, Row, Times;
    while v < depth.height
      invariant v <= depth.height
      invariant depthRow == Times(v, rowStep) && at == Times(v, rgb.step) && iter == Times(v, depth.width)
      invariant iter <= cloud.Length && cloud[..iter] == Rows(cam, t, depth, rgb, lay, v)
    {
      RowFits(v, depth.height, depth.width);
      TimesNext(v, rowStep);
      TimesNext(v, rgb.step);
      TimesNext(v, depth.width);
      at := WalkRow(cam, t, depth, rgb, lay, cloud, v, depthRow, at, iter);
      iter := iter + depth.width;
      v := v + 1;
      depthRow := depthRow + rowStep;
      at := at + rgbSkip;
    }
    assert iter == cloud.Length by { TimesIs(depth.height, depth.width); }
  }

  // Products, kept whole.
  function Times(a: nat, b: nat): (r: nat)
    ensures a == 0 ==> r == 0
  {
    a * b
  }

  lemma TimesIs(a: nat, b: nat)
    ensures Times(a, b) == a * b
  {
  }

  lemma TimesNext(a: nat, b: nat)
    ensures Times(a + 1, b) == Times(a, b) + b
  {
  }

  // The inner loop: one row, from the pointers at its start.
  method WalkRow<T(!new)>(cam: Camera, t: Traits<T>, depth: Image, rgb: Image, lay: Layout, cloud: array<CloudPoint>,
                          v: nat, depthRow: nat, start: nat, first: nat) returns (at: nat)
    requires Ready(t, depth, rgb, lay) && v < depth.height && first + depth.width <= cloud.Length
    requires depthRow == Times(v, depth.step / t.size) && start == Times(v, rgb.step)
    modifies cloud
    ensures at == start + depth.width * lay.colorStep
    ensures cloud[..first + depth.width] == old(cloud[..first]) + Row(cam, t, depth, rgb, lay, v, depth.width)
  {
    at := start;
    var iter := first;
    var u := 0;
    TimesIs(v, depth.step / t.size);
    TimesIs(v, rgb.step);
    while u < depth.width
      invariant u <= depth.width && iter == first + u
      invariant at == start + u * lay.colorStep
      invariant cloud[..iter] == old(cloud[..first]) + Row(cam, t, depth, rgb, lay, v, u)
    {
      var p := ReadPixel(cam, t, depth, rgb, lay, v, u, depthRow, at);
      RowGrows(cam, t, depth, rgb, lay, v, u);
      cloud[iter] := p;
      Successor(u, lay.colorStep);
      u := u + 1;
      at := at + lay.colorStep;
      iter := iter + 1;
    }
  }

  lemma PointersAre<T>(t: Traits<T>, depth: Image, rgb: Image, lay: Layout, v: nat, u: nat, depthRow: nat, at: nat)
    requires t.size > 0 && depthRow == v * (depth.step / t.size) && at == v * rgb.step + u * lay.colorStep
    ensures (depthRow + u) * t.size == WalkedOffset(t, depth, v, u) && at == ColorOffset(rgb, lay, v, u)
  {
  }

  // The body of the inner loop, through the pointers.
  method ReadPixel<T(!new)>(cam: Camera, t: Traits<T>, depth: Image, rgb: Image, lay: Layout, v: nat, u: nat,
                            depthRow: nat, at: nat) returns (p: CloudPoint)
    requires Ready(t, depth, rgb, lay) && v < depth.height && u < depth.width
    requires depthRow == v * (depth.step / t.size) && at == v * rgb.step + u * lay.colorStep
    ensures p == PointAt(cam, t, depth, rgb, lay, v, u)
  {
    hide Holds, WalkedOffset, ColorOffset, Project;
    PixelInBounds(t, depth, rgb, lay, v, u);
    PointersAre(t, depth, rgb, lay, v, u, depthRow, at);
    var o := (depthRow + u) * t.size;
    var d := t.decode(depth.data[o..o + t.size]);
    var r, g, b := rgb.data[at + lay.red], rgb.data[at + lay.green], rgb.data[at + lay.blue];
    if !t.valid(d) {
      p := CloudPoint(NaN, NaN, NaN, r, g, b, 255);
    } else {
      p := CloudPoint(
        Meters(Project(u, cam.centerX, t.value(d), cam.constantX)),
        Meters(Project(v, cam.centerY, t.value(d), cam.constantY)),
        Meters(t.toMeters(d)), r, g, b, 255);
    }
  }

  lemma RowFits(v: nat, h: nat, w: nat)
    requires v < h
    ensures Times(v, w) + w <= h * w
  {
    Scaled(v + 1, h, w);
    Successor(v, w);
  }

  lemma RowGrows<T(!new)>(cam: Camera, t: Traits<T>, depth: Image, rgb: Image, lay: Layout, v: nat, u: nat)
    requires Ready(t, depth, rgb, lay) && v < depth.height && u < depth.width
    ensures Row(cam, t, depth, rgb, lay, v, u + 1) ==
            Row(cam, t, depth, rgb, lay, v, u) + [PointAt(cam, t, depth, rgb, lay, v, u)]
  {
  }

  // ---------- Making the sizes equal ----------

  // Foreign calls: resizing to the depth image's size, and copying to RGB8 (None: an exception).
  ghost predicate Resizes(resize: (Image, nat, nat) -> Image)
  {
    forall i: Image, w: nat, h: nat {:trigger resize(i, w, h)} ::
      var r := resize(i, w, h);
      r.width == w && r.height == h && r.encoding == i.encoding && Whole(r)
  }

  ghost predicate Copies(toRgb8: Image -> Option<Image>)
  {
    forall i: Image {:trigger toRgb8(i)} :: toRgb8(i).Some? ==>
      var r := toRgb8(i).value;
      r.width == i.width && r.height == i.height && r.encoding == RGB8 && Whole(r)
  }

  function Sized(w: nat, h: nat, rgb: Image, resize: (Image, nat, nat) -> Image,
                 toRgb8: Image -> Option<Image>): Option<Image>
  {
    if w == rgb.width && h == rgb.height then Some(rgb)
    else
      var r := resize(rgb, w, h);
      if rgb.encoding in {RGB8, BGR8, MONO8} then Some(r) else toRgb8(r)
  }

  // The chain of encoding tests; RGB8 falls through to the copying branch like an unknown encoding.
  function WithLayout(rgb: Image, toRgb8: Image -> Option<Image>): Option<(Image, Layout)>
  {
    match rgb.encoding
    case RGBA8 => Some((rgb, Layout(0, 1, 2, 4)))
    case BGR8 => Some((rgb, Layout(2, 1, 0, 3)))
    case BGRA8 => Some((rgb, Layout(2, 1, 0, 4)))
    case MONO8 => Some((rgb, Layout(0, 0, 0, 1)))
    case _ => if toRgb8(rgb).None? then None else Some((toRgb8(rgb).value, Layout(0, 1, 2, 3)))
  }

  function Prepare(w: nat, h: nat, rgb: Image, resize: (Image, nat, nat) -> Image,
                   toRgb8: Image -> Option<Image>): Option<(Image, Layout)>
  {
    match Sized(w, h, rgb, resize, toRgb8)
    case None => None
    case Some(i) => WithLayout(i, toRgb8)
  }

  // Where each encoding really keeps its channels.
  predicate Keeps(e: Encoding, lay: Layout)
  {
    match e
    case RGB8 => lay == Layout(0, 1, 2, 3)
    case RGBA8 => lay == Layout(0, 1, 2, 4)
    case BGR8 => lay == Layout(2, 1, 0, 3)
    case BGRA8 => lay == Layout(2, 1, 0, 4)
    case MONO8 => lay == Layout(0, 0, 0, 1)
    case Other(_) => false
  }

  lemma WholeHolds(i: Image)
    requires Whole(i)
    ensures Holds(i, i.height, i.width, BytesPerPixel(i.encoding))
  {
    if i.height > 0 { Successor(i.height - 1, i.step); }
  }

  /** Whatever the size and encoding of the colour image, the image handed to the conversion has the
      depth image's size and is read by the layout of its own encoding; and it is long enough for every
      read of the walk unless it is the image as it came in and that one is too short. */
  lemma PreparedIsReady<T(!new)>(t: Traits<T>, depth: Image, rgb: Image, resize: (Image, nat, nat) -> Image,
                                 toRgb8: Image -> Option<Image>)
    requires Resizes(resize) && Copies(toRgb8)
    requires t.size > 0 && Holds(depth, depth.height, depth.width, t.size)
    requires Prepare(depth.width, depth.height, rgb, resize, toRgb8).Some?
    ensures var p := Prepare(depth.width, depth.height, rgb, resize, toRgb8).value;
            && Keeps(p.0.encoding, p.1) && p.0.width == depth.width && p.0.height == depth.height
            && (Ready(t, depth, p.0, p.1) <==>
                  (p.0 == rgb ==> Holds(rgb, rgb.height, rgb.width, BytesPerPixel(rgb.encoding))))
            && (Whole(rgb) ==> Ready(t, depth, p.0, p.1))
  {
    var p := Prepare(depth.width, depth.height, rgb, resize, toRgb8).value;
    if Whole(p.0) { WholeHolds(p.0); }
    if Whole(rgb) { WholeHolds(rgb); }
  }

  /** Which image is handed on. An image of the depth image's size and of one of four encodings is handed
      on as it is, one of any other encoding as its copy in RGB8; an image of another size is resized,
      copied to RGB8 unless it is BGR8 or MONO8, and an RGB8 copy is copied once more. */
  lemma PreparedFrom(w: nat, h: nat, rgb: Image, resize: (Image, nat, nat) -> Image, toRgb8: Image -> Option<Image>)
    requires Resizes(resize) && Copies(toRgb8)
    ensures var same, p := w == rgb.width && h == rgb.height, Prepare(w, h, rgb, resize, toRgb8);
            && (same && rgb.encoding in {RGBA8, BGR8, BGRA8, MONO8} ==> p.Some? && p.value.0 == rgb)
            && (same && rgb.encoding !in {RGBA8, BGR8, BGRA8, MONO8} ==>
                  if toRgb8(rgb).None? then p.None? else p.Some? && p.value.0 == toRgb8(rgb).value)
            && (!same && rgb.encoding in {BGR8, MONO8} ==> p.Some? && p.value.0 == resize(rgb, w, h))
            && (!same && rgb.encoding !in {BGR8, MONO8} && p.Some? ==>
                  exists i :: toRgb8(i).Some? && p.value.0 == toRgb8(i).value &&
                    (i == resize(rgb, w, h) || toRgb8(resize(rgb, w, h)) == Some(i)))
  {
  }
}
