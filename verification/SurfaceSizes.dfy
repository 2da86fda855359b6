/** Surface sizes: the one a commit must have by the program's own check, and the one the compositor
    derives from the state it was really sent. */
module SurfaceSizes {
  import opened Options
  import opened DiffCommits
  import opened Division

  datatype Size = Size(w: nat, h: nat) {
    predicate Known() { w > 0 && h > 0 }
  }

  const NO_SIZE := Size(0, 0)

  /** A commit: the pending state, and the size of the buffer that the commit leaves attached. */
  datatype Pending = Pending(state: SurfaceState, buffer: Size)

  /** What the request handlers let into a pending state: viewports are validated, scale and transform
      are any 32-bit integers. */
  predicate Validated(v: Pending) {
    && DestinationOk(v.state.dest) && SourceOk(v.state.source) && v.buffer.Known()
    && -0x8000_0000 <= v.state.scale < 0x8000_0000
  }

  type View = v: Pending | Validated(v) witness Pending(DEFAULT_STATE, Size(1, 1))

  // ----- the program's check

  datatype SizeCheck = Fits(size: Size) | BadSize | DivisionByZero

  function CheckedSize(v: View): (r: SizeCheck)
    ensures r.Fits? ==> r.size.Known()
  {
    var n := v.state;
    if n.dest.w != -1 then Fits(Size(n.dest.w, n.dest.h))
    else if n.source.w != -256 then
      if n.source.w % 256 != 0 || n.source.h % 256 != 0 then BadSize
      else Fits(Size(n.source.w / 256, n.source.h / 256))
    else if n.scale == 0 then DivisionByZero
    else
      // C converts the int32_t scale to uint32_t for the division
      var k: nat := n.scale % 0x1_0000_0000;
      if v.buffer.w % k != 0 || v.buffer.h % k != 0 then BadSize
      else Fits(Size(v.buffer.w / k, v.buffer.h / k))
  }

  /** The scale as the division sees it: C converts the int32_t to uint32_t. */
  function Unsigned(scale: int): nat {
    scale % 0x1_0000_0000
  }

  /** Which size the check takes a commit for: the destination, else the source rectangle if it is whole, else
      the buffer divided by the scale if that goes without remainder. */
  lemma CheckedExactly(v: View, size: Size)
    ensures CheckedSize(v) == Fits(size) <==>
            && size.Known()
            && var n := v.state;
               if n.dest != NO_DEST then n.dest == Extent(size.w, size.h)
               else if n.source != NO_SOURCE then n.source.w == 256 * size.w && n.source.h == 256 * size.h
               else Unsigned(n.scale) * size.w == v.buffer.w && Unsigned(n.scale) * size.h == v.buffer.h
    ensures CheckedSize(v) == DivisionByZero <==> v.state.dest == NO_DEST && v.state.source == NO_SOURCE && v.state.scale == 0
  {
    var k := Unsigned(v.state.scale);
    if k > 0 {
      QuotientExactly(v.buffer.w, k, size.w);
      QuotientExactly(v.buffer.h, k, size.h);
    }
  }

  // ----- the compositor's rule

  /** Rotations by 90 and 270 degrees, flipped or not. */
  predicate Transposes(transform: int) {
    transform % 2 == 1
  }

  /** The values of set_buffer_scale and set_buffer_transform that are no protocol error. */
  predicate Settable(scale: int, transform: int) {
    scale > 0 && 0 <= transform < 8
  }

  function Rotated(transform: int, s: Size): Size {
    if Transposes(transform) then Size(s.h, s.w) else s
  }

  function BufferSize(scale: int, transform: int, buffer: Size): Option<Size>
    requires scale > 0
  {
    if buffer.w % scale != 0 || buffer.h % scale != 0 then None
    else Some(Rotated(transform, Size(buffer.w / scale, buffer.h / scale)))
  }

  function SourceSize(source: Rect): Option<Size> {
    if source.w <= 0 || source.h <= 0 || source.w % 256 != 0 || source.h % 256 != 0 then None
    else Some(Size(source.w / 256, source.h / 256))
  }

  /** The size of a surface by the wl_surface and wp_viewport protocols, if they allow its state. */
  function ShownSize(u: Upstream, buffer: Size): Option<Size> {
    if !Settable(u.scale, u.transform) then None
    else if u.dest != NO_DEST then
      if u.dest.w <= 0 || u.dest.h <= 0 then None else Some(Size(u.dest.w, u.dest.h))
    else if u.source != NO_SOURCE then SourceSize(u.source)
    else BufferSize(u.scale, u.transform, buffer)
  }

  /** What a commit leaves on the upstream surface. */
  function Updated(u: Upstream, committed: SurfaceState, pending: SurfaceState): Upstream {
    Replay(u, Diff(committed, pending))
  }

  // ----- the same, read off the state before the commit

  /** A destination that this client never set and will not change. */
  predicate Leftover(u: Upstream, c: SurfaceState) {
    c.dest == NO_DEST && u.dest != NO_DEST
  }

  /** The source rectangle goes upstream one change late. */
  function LateSource(u: Upstream, c: SurfaceState, n: SurfaceState): Rect {
    if c.source == n.source then u.source else c.source
  }

  function ScaleAfter(u: Upstream, c: SurfaceState, n: SurfaceState): int {
    if c.scale == n.scale then u.scale else n.scale
  }

  function TransformAfter(u: Upstream, c: SurfaceState, n: SurfaceState): int {
    if c.transform == n.transform then u.transform else n.transform
  }

  /** A destination that a client committed is the one upstream. */
  predicate DestMirrored(u: Upstream, c: SurfaceState) {
    c.dest != NO_DEST ==> u.dest == c.dest
  }

  /** Whether the commit of `v` shows `size`: a pending destination decides; else a leftover destination;
      else the late source rectangle; else the buffer under the scale and transform in force. */
  predicate WillShow(u: Upstream, c: SurfaceState, v: View, size: Size) {
    var n := v.state;
    var scale, transform := ScaleAfter(u, c, n), TransformAfter(u, c, n);
    && size.Known() && Settable(scale, transform)
    && if n.dest != NO_DEST then n.dest == Extent(size.w, size.h)
       else if Leftover(u, c) then u.dest == Extent(size.w, size.h)
       else if LateSource(u, c, n) != NO_SOURCE then
         LateSource(u, c, n).w == 256 * size.w && LateSource(u, c, n).h == 256 * size.h
       else
         && v.buffer.w % scale == 0 && v.buffer.h % scale == 0
         && size == Rotated(transform, Size(v.buffer.w / scale, v.buffer.h / scale))
  }

  lemma UpdatedGeometry(u: Upstream, c: SurfaceState, n: SurfaceState)
    ensures var t := Updated(u, c, n);
            && t.scale == ScaleAfter(u, c, n) && t.transform == TransformAfter(u, c, n)
            && t.dest == (if c.dest == n.dest then u.dest else n.dest)
            && t.source == LateSource(u, c, n)
  {
    hide Replay, Diff;
    ReplayDiff(u, c, n);
  }

  lemma DestStaysMirrored(u: Upstream, c: SurfaceState, n: SurfaceState)
    requires DestMirrored(u, c)
    ensures DestMirrored(Updated(u, c, n), n)
  {
    hide Updated;
    UpdatedGeometry(u, c, n);
  }

  /** The size the compositor derives after a commit, in terms of the state before it. */
  lemma WillShowExactly(u: Upstream, c: SurfaceState, v: View, size: Size)
    requires DestMirrored(u, c)
    ensures WillShow(u, c, v, size) <==> ShownSize(Updated(u, c, v.state), v.buffer) == Some(size)
  {
    hide Updated, BufferSize;
    UpdatedGeometry(u, c, v.state);
    var scale, transform := ScaleAfter(u, c, v.state), TransformAfter(u, c, v.state);
    if scale > 0 { BufferSizeExactly(scale, transform, v.buffer, size); }
  }

  lemma BufferSizeExactly(scale: int, transform: int, buffer: Size, size: Size)
    requires scale > 0 && buffer.Known()
    ensures BufferSize(scale, transform, buffer) == Some(size) <==>
            && size.Known() && buffer.w % scale == 0 && buffer.h % scale == 0
            && size == Rotated(transform, Size(buffer.w / scale, buffer.h / scale))
  {
    if buffer.w % scale == 0 && buffer.h % scale == 0 {
      QuotientIs(buffer.w, scale, buffer.w / scale);
      QuotientIs(buffer.h, scale, buffer.h / scale);
    }
  }

  // ----- which states are mirrored well enough for every buffer

  /** States that the program's check and the compositor accept with some buffer. */
  predicate Acceptable(n: SurfaceState) {
    && DestinationOk(n.dest) && SourceOk(n.source) && 0 < n.scale < 0x8000_0000
    && (n.dest == NO_DEST && n.source != NO_SOURCE ==> n.source.w % 256 == 0 && n.source.h % 256 == 0)
  }

  /** Checked and shown size are the same for this buffer, if the check lets it through. */
  predicate Agrees(u: Upstream, c: SurfaceState, n: SurfaceState, buffer: Size)
    requires Acceptable(n) && buffer.Known()
  {
    CheckedSize(Pending(n, buffer)).Fits? ==>
      ShownSize(Updated(u, c, n), buffer) == Some(CheckedSize(Pending(n, buffer)).size)
  }

  predicate Mirrors(u: Upstream, c: SurfaceState, n: SurfaceState) {
    && Settable(ScaleAfter(u, c, n), TransformAfter(u, c, n))
    && if n.dest != NO_DEST then true
       else if n.source != NO_SOURCE then
         if Leftover(u, c) then n.source.w == 256 * u.dest.w && n.source.h == 256 * u.dest.h
         else LateSource(u, c, n).w == n.source.w && LateSource(u, c, n).h == n.source.h
       else
         && !Leftover(u, c) && LateSource(u, c, n) == NO_SOURCE
         && ScaleAfter(u, c, n) == n.scale && !Transposes(TransformAfter(u, c, n))
  }

  lemma MirrorsAgrees(u: Upstream, c: SurfaceState, n: SurfaceState, buffer: Size)
    requires Acceptable(n) && DestMirrored(u, c) && Mirrors(u, c, n) && buffer.Known()
    ensures Agrees(u, c, n, buffer)
  {
    hide Updated;
    var v: View := Pending(n, buffer);
    if CheckedSize(v).Fits? { WillShowExactly(u, c, v, CheckedSize(v).size); }
  }

  /** A buffer of `a` by `b` surface pixels under the client's own scale. */
  lemma CheckedMultiple(n: SurfaceState, a: nat, b: nat)
    requires Acceptable(n) && n.dest == NO_DEST && n.source == NO_SOURCE && 1 <= a <= 2 && 1 <= b <= 2
    ensures Size(n.scale * a, n.scale * b).Known()
    ensures CheckedSize(Pending(n, Size(n.scale * a, n.scale * b))) == Fits(Size(a, b))
  {
    OnceAndTwice(n.scale, a);
    OnceAndTwice(n.scale, b);
  }

  lemma ShownMultiple(u: Upstream, c: SurfaceState, n: SurfaceState, k: nat)
    requires Acceptable(n) && DestMirrored(u, c) && 1 <= k <= 2
    requires n.dest == NO_DEST && n.source != NO_SOURCE && !Leftover(u, c) && LateSource(u, c, n) == NO_SOURCE
    requires Settable(ScaleAfter(u, c, n), TransformAfter(u, c, n))
    ensures var s := ScaleAfter(u, c, n);
            Size(s * k, s * k).Known() && ShownSize(Updated(u, c, n), Size(s * k, s * k)) == Some(Size(k, k))
  {
    hide Updated;
    UpdatedGeometry(u, c, n);
    OnceAndTwice(ScaleAfter(u, c, n), k);
  }

  /** With a pending source rectangle and none upstream, the buffer would decide. */
  lemma SourceMissing(u: Upstream, c: SurfaceState, n: SurfaceState)
    requires Acceptable(n) && DestMirrored(u, c)
    requires n.dest == NO_DEST && n.source != NO_SOURCE && !Leftover(u, c) && LateSource(u, c, n) == NO_SOURCE
    ensures exists buffer: Size :: buffer.Known() && !Agrees(u, c, n, buffer)
  {
    hide Updated, ShownSize;
    if Settable(ScaleAfter(u, c, n), TransformAfter(u, c, n)) {
      var s := ScaleAfter(u, c, n);
      ShownMultiple(u, c, n, 1);
      ShownMultiple(u, c, n, 2);
      assert !Agrees(u, c, n, Size(s * 1, s * 1)) || !Agrees(u, c, n, Size(s * 2, s * 2));
    } else {
      assert !Agrees(u, c, n, Size(1, 1)) by { NothingShown(u, c, n); }
    }
  }

  lemma NothingShown(u: Upstream, c: SurfaceState, n: SurfaceState)
    requires !Settable(ScaleAfter(u, c, n), TransformAfter(u, c, n))
    ensures forall buffer :: ShownSize(Updated(u, c, n), buffer) == None
  {
    hide Updated;
    UpdatedGeometry(u, c, n);
  }

  /** A one-by-two surface from a k-by-2k buffer: the scale is k and nothing is rotated. */
  lemma ScaleIs(scale: int, transform: int, k: nat)
    requires scale > 0 && k > 0 && BufferSize(scale, transform, Size(k, 2 * k)) == Some(Size(1, 2))
    ensures scale == k && !Transposes(transform)
  {
    if Transposes(transform) {
      QuotientIs(k, scale, 2);
      QuotientIs(2 * k, scale, 1);
      assert false;
    } else {
      QuotientIs(k, scale, 1);
    }
  }

  lemma BufferDecides(u: Upstream, c: SurfaceState, n: SurfaceState)
    requires Acceptable(n) && DestMirrored(u, c) && n.dest == NO_DEST && n.source == NO_SOURCE
    requires forall buffer: Size | buffer.Known() :: Agrees(u, c, n, buffer)
    ensures Mirrors(u, c, n)
  {
    hide Updated, BufferSize;
    var k: nat := n.scale;
    CheckedMultiple(n, 1, 2);
    CheckedMultiple(n, 2, 2);
    assert Agrees(u, c, n, Size(k * 1, k * 2)) && Agrees(u, c, n, Size(k * 2, k * 2));
    UpdatedGeometry(u, c, n);
    var t := Updated(u, c, n);
    assert t.dest == NO_DEST && t.source == NO_SOURCE && Settable(t.scale, t.transform);
    ScaleIs(t.scale, t.transform, k);
  }

  lemma ConstantDecides(u: Upstream, c: SurfaceState, n: SurfaceState)
    requires Acceptable(n) && DestMirrored(u, c) && (n.dest != NO_DEST || n.source != NO_SOURCE)
    requires Agrees(u, c, n, Size(1, 1))
    requires n.dest != NO_DEST || Leftover(u, c) || LateSource(u, c, n) != NO_SOURCE
    ensures Mirrors(u, c, n)
  {
    hide Updated, BufferSize;
    var v: View := Pending(n, Size(1, 1));
    assert CheckedSize(v).Fits?;
    WillShowExactly(u, c, v, CheckedSize(v).size);
  }

  /** For every buffer of a client the compositor derives the size that the program checked, if and
      only if the viewport state left upstream does not stand in the way. */
  lemma EveryBufferAgrees(u: Upstream, c: SurfaceState, n: SurfaceState)
    requires Acceptable(n) && DestMirrored(u, c)
    ensures (forall buffer: Size | buffer.Known() :: Agrees(u, c, n, buffer)) <==> Mirrors(u, c, n)
  {
    hide Agrees, Mirrors, Updated;
    if Mirrors(u, c, n) {
      forall buffer: Size | buffer.Known() ensures Agrees(u, c, n, buffer) { MirrorsAgrees(u, c, n, buffer); }
    } else if forall buffer: Size | buffer.Known() :: Agrees(u, c, n, buffer) {
      assert Size(1, 1).Known();
      if n.dest == NO_DEST && n.source == NO_SOURCE {
        BufferDecides(u, c, n);
      } else if n.dest != NO_DEST || Leftover(u, c) || LateSource(u, c, n) != NO_SOURCE {
        ConstantDecides(u, c, n);
      } else {
        SourceMissing(u, c, n);
      }
    }
  }

  // ----- the fallback

  /** The fallback resets the scale and nothing else. */
  function FallbackState(u: Upstream): Upstream {
    u.(scale := 1)
  }

  /** Whether the fallback, a buffer of `size`, shows that size. */
  predicate FallbackShows(u: Upstream, size: Size) {
    && 0 <= u.transform < 8
    && if u.dest != NO_DEST then u.dest == Extent(size.w, size.h)
       else if u.source != NO_SOURCE then u.source.w == 256 * size.w && u.source.h == 256 * size.h
       else Rotated(u.transform, size) == size
  }

  lemma FallbackShowsExactly(u: Upstream, size: Size)
    requires size.Known()
    ensures FallbackShows(u, size) <==> ShownSize(FallbackState(u), size) == Some(size)
  {
    assert size.w / 1 == size.w && size.h / 1 == size.h && size.w % 1 == 0 && size.h % 1 == 0;
  }

  /** The fallback shows every size that may be configured exactly if no client has left a viewport or a
      rotation on the surface. */
  lemma EveryFallbackShows(u: Upstream)
    ensures (forall size: Size | size.Known() :: FallbackShows(u, size)) <==>
            0 <= u.transform < 8 && !Transposes(u.transform) && u.dest == NO_DEST && u.source == NO_SOURCE
  {
    if forall size: Size | size.Known() :: FallbackShows(u, size) {
      assert FallbackShows(u, Size(1, 2)) && FallbackShows(u, Size(1, 1));
    }
  }
}
