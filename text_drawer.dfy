/**
 * The bookkeeping of TextDrawerUWP (ext/native/gfx_es2/draw_text_uwp.cpp):
 * the font map and current font, the rendered-string cache and the
 * measurement cache, their frame-based eviction, and the integer work
 * DrawString does on a cache miss. DirectWrite/Direct2D calls are replaced
 * by their results, passed in as parameters.
 */
module DrawTextUwp {
  import opened Wrappers
  import opened Collections
  import opened TextBitmap

  const DWRITE_FONT_WEIGHT_LIGHT: int := 300
  /** Eviction runs on frames whose number is a multiple of this prime. */
  const EVICTION_PERIOD: int := 23
  /** An entry unused for more than this many frames is evicted. */
  const MAX_IDLE_FRAMES: int := 100

  datatype CacheKey = CacheKey(text: string, fontHash: bv32)

  datatype TexelData = Texels32(texels32: seq<bv32>) | Texels16(texels16: seq<bv16>)

  /** What CreateTexture receives: format, size and initial texels. */
  datatype Texture = Texture(format: DataFormat, width: int, height: int, data: TexelData)

  datatype TextStringEntry = TextStringEntry(
    width: int, height: int, bmWidth: int, bmHeight: int, lastUsedFrame: int, texture: Texture)

  datatype TextMeasureEntry = TextMeasureEntry(width: real, height: real, lastUsedFrame: int)

  /** The parameters a TextDrawerFontContext is created with. */
  datatype FontContext = FontContext(fname: string, height: int, weight: int)

  // ---------------------------------------------------------------------
  // Font handles
  // ---------------------------------------------------------------------

  /** Conversion of a C `int` to `uint32_t`: reduction modulo 2^32. */
  function ToU32(v: int): bv32 {
    (v % 0x1_0000_0000) as bv32
  }

  /**
   * The handle SetFont computes: Adler-32 of the name (0 without a name),
   * XOR the size, XOR the flags shifted left by 10.
   */
  function FontHash(adler32: string -> bv32, name: Option<string>, size: int, flags: int): bv32 {
    var base: bv32 := if name.Some? then adler32(name.value) else 0;
    base ^ ToU32(size) ^ (ToU32(flags) << 10)
  }

  /** With the name and flags fixed, sizes that differ as 32-bit values give different handles. */
  lemma FontHashSeparatesSizes(adler32: string -> bv32, name: Option<string>, flags: int, size1: int, size2: int)
    requires ToU32(size1) != ToU32(size2)
    ensures FontHash(adler32, name, size1, flags) != FontHash(adler32, name, size2, flags)
  {
  }

  // ---------------------------------------------------------------------
  // Eviction
  // ---------------------------------------------------------------------

  predicate Idle(frame: int, lastUsedFrame: int) {
    frame - lastUsedFrame > MAX_IDLE_FRAMES
  }

  /** The entries of `m` used within the last MAX_IDLE_FRAMES frames, unchanged. */
  function Recent<K, V>(m: map<K, V>, lastUsed: V -> int, frame: int): (r: map<K, V>)
    ensures r.Keys <= m.Keys
    ensures forall k :: k in m ==> (k in r <==> !Idle(frame, lastUsed(m[k])))
    ensures forall k :: k in r ==> r[k] == m[k]
  {
    map k | k in m && !Idle(frame, lastUsed(m[k])) :: m[k]
  }

  /** Pruning twice at the same frame removes nothing more. */
  lemma RecentIdempotent<K, V>(m: map<K, V>, lastUsed: V -> int, frame: int)
    ensures Recent(Recent(m, lastUsed, frame), lastUsed, frame) == Recent(m, lastUsed, frame)
  {
  }

  /** What OncePerFrame does to one cache on reaching `frame`. */
  function EvictAt<K, V>(m: map<K, V>, lastUsed: V -> int, frame: int): map<K, V> {
    if frame % EVICTION_PERIOD == 0 then Recent(m, lastUsed, frame) else m
  }

  /** The cache after `n` more frames with no use of any entry, starting after frame `frame`. */
  function AfterFrames<K, V>(m: map<K, V>, lastUsed: V -> int, frame: int, n: nat): (r: map<K, V>)
    ensures r.Keys <= m.Keys
    ensures forall k :: k in r ==> r[k] == m[k]
    decreases n
  {
    if n == 0 then m else AfterFrames(EvictAt(m, lastUsed, frame + 1), lastUsed, frame + 1, n - 1)
  }

  /**
   * An entry already idle at every frame after `frame` is gone by the next
   * frame that is a multiple of EVICTION_PERIOD.
   */
  lemma {:induction false} IdleEntryEvictedAtNextPeriod<K, V>(m: map<K, V>, lastUsed: V -> int, frame: int, n: nat, k: K)
    requires k in m
    requires Idle(frame + 1, lastUsed(m[k]))
    requires n >= EVICTION_PERIOD - frame % EVICTION_PERIOD
    ensures k !in AfterFrames(m, lastUsed, frame, n)
    decreases n
  {
    NextResidue(frame);
    var next := EvictAt(m, lastUsed, frame + 1);
    AfterFramesStep(m, lastUsed, frame, n);
    if (frame + 1) % EVICTION_PERIOD == 0 {
      assert k !in next;
      AbsentStaysAbsent(next, lastUsed, frame + 1, n - 1, k);
    } else {
      assert next == m;
      assert n - 1 >= EVICTION_PERIOD - (frame + 1) % EVICTION_PERIOD;
      IdleEntryEvictedAtNextPeriod(next, lastUsed, frame + 1, n - 1, k);
    }
  }

  /** The frame number's residue modulo EVICTION_PERIOD either wraps to 0 or goes up by one. */
  lemma NextResidue(frame: int)
    ensures (frame + 1) % EVICTION_PERIOD == 0 || (frame + 1) % EVICTION_PERIOD == frame % EVICTION_PERIOD + 1
    ensures 0 <= frame % EVICTION_PERIOD < EVICTION_PERIOD
  {
  }

  /**
   * An entry nobody uses is gone MAX_IDLE_FRAMES + EVICTION_PERIOD frames
   * after its last use at the latest.
   */
  lemma {:induction false} IdleEntryEvicted<K, V>(m: map<K, V>, lastUsed: V -> int, frame: int, n: nat, k: K)
    requires k in m
    requires frame - lastUsed(m[k]) <= MAX_IDLE_FRAMES
    requires frame + n - lastUsed(m[k]) >= MAX_IDLE_FRAMES + EVICTION_PERIOD
    ensures k !in AfterFrames(m, lastUsed, frame, n)
    decreases n
  {
    if Idle(frame + 1, lastUsed(m[k])) {
      IdleEntryEvictedAtNextPeriod(m, lastUsed, frame, n, k);
    } else {
      var next := EvictAt(m, lastUsed, frame + 1);
      AfterFramesStep(m, lastUsed, frame, n);
      IdleEntryEvicted(next, lastUsed, frame + 1, n - 1, k);
    }
  }

  lemma AfterFramesStep<K, V>(m: map<K, V>, lastUsed: V -> int, frame: int, n: nat)
    requires n >= 1
    ensures AfterFrames(m, lastUsed, frame, n) == AfterFrames(EvictAt(m, lastUsed, frame + 1), lastUsed, frame + 1, n - 1)
  {
  }

  lemma AbsentStaysAbsent<K, V>(m: map<K, V>, lastUsed: V -> int, frame: int, n: nat, k: K)
    requires k !in m
    ensures k !in AfterFrames(m, lastUsed, frame, n)
  {
  }

  /** The iterator loop of OncePerFrame over one cache: erase each idle entry in turn. */
  method Prune<K, V>(m: map<K, V>, lastUsed: V -> int, frame: int) returns (kept: map<K, V>)
    ensures kept == Recent(m, lastUsed, frame)
  {
    kept := m;
    var unvisited := m.Keys;
    while unvisited != {}
      invariant unvisited <= m.Keys
      invariant kept.Keys <= m.Keys
      invariant forall k :: k in kept ==> kept[k] == m[k]
      invariant forall k :: k in unvisited ==> k in kept
      invariant forall k :: k in m && k !in unvisited ==> (k in kept <==> !Idle(frame, lastUsed(m[k])))
      decreases unvisited
    {
      NonEmptyHasElement(unvisited);
      var k :| k in unvisited;
      if Idle(frame, lastUsed(m[k])) {
        kept := kept - {k};
      }
      unvisited := unvisited - {k};
    }
  }

  function StringLastUsed(e: TextStringEntry): int { e.lastUsedFrame }
  function MeasureLastUsed(e: TextMeasureEntry): int { e.lastUsedFrame }

  // ---------------------------------------------------------------------
  // Measurement entries
  // ---------------------------------------------------------------------

  /**
   * One measurement lookup: a hit keeps the stored size and refreshes its
   * frame; a miss stores the layout's size plus one.
   */
  function Touch(m: map<CacheKey, TextMeasureEntry>, key: CacheKey, layoutWidth: real, layoutHeight: real,
                 frame: int): (r: map<CacheKey, TextMeasureEntry>)
    ensures r.Keys == m.Keys + {key}
    ensures r[key].lastUsedFrame == frame
    ensures key in m ==> r[key].width == m[key].width && r[key].height == m[key].height
    ensures key !in m ==> r[key].width == layoutWidth + 1.0 && r[key].height == layoutHeight + 1.0
    ensures forall k :: k in m && k != key ==> r[k] == m[k]
  {
    if key in m then m[key := m[key].(lastUsedFrame := frame)]
    else m[key := TextMeasureEntry(layoutWidth + 1.0, layoutHeight + 1.0, frame)]
  }

  /** The first `n` lines of MeasureStringRect looked up in order. */
  function TouchLines(m: map<CacheKey, TextMeasureEntry>, lines: seq<string>, layoutWidths: seq<real>,
                      layoutHeights: seq<real>, font: bv32, frame: int, n: nat): (r: map<CacheKey, TextMeasureEntry>)
    requires n <= |lines| && |layoutWidths| == |lines| && |layoutHeights| == |lines|
    ensures m.Keys <= r.Keys
    decreases n
  {
    if n == 0 then m
    else
      Touch(TouchLines(m, lines, layoutWidths, layoutHeights, font, frame, n - 1),
            CacheKey(lines[n - 1], font), layoutWidths[n - 1], layoutHeights[n - 1], frame)
  }

  /** The keys of the first `n` lines under `font`. */
  function LineKeys(lines: seq<string>, font: bv32, n: nat): set<CacheKey>
    requires n <= |lines|
  {
    set i | 0 <= i < n :: CacheKey(lines[i], font)
  }

  lemma LineKeysStep(lines: seq<string>, font: bv32, n: nat)
    requires 0 < n <= |lines|
    ensures LineKeys(lines, font, n) == LineKeys(lines, font, n - 1) + {CacheKey(lines[n - 1], font)}
  {
    var key := CacheKey(lines[n - 1], font);
    assert key in LineKeys(lines, font, n);
    forall k | k in LineKeys(lines, font, n) && k != key
      ensures k in LineKeys(lines, font, n - 1)
    {
      var i :| 0 <= i < n && k == CacheKey(lines[i], font);
      assert i < n - 1;
    }
  }

  /** Line `i` is the first line with its text. */
  predicate FirstOccurrence(lines: seq<string>, i: nat)
    requires i < |lines|
  {
    forall j :: 0 <= j < i ==> lines[j] != lines[i]
  }

  /**
   * After the first `n` lines: exactly those lines' keys were added, each
   * stamped with the current frame; every other entry is untouched. An
   * entry that was already cached keeps its size; a key that was not
   * holds the layout size plus one of the first line that produced it.
   */
  lemma TouchLinesSpec(m: map<CacheKey, TextMeasureEntry>, lines: seq<string>,
                       layoutWidths: seq<real>, layoutHeights: seq<real>, font: bv32, frame: int, n: nat)
    requires n <= |lines| && |layoutWidths| == |lines| && |layoutHeights| == |lines|
    ensures var r := TouchLines(m, lines, layoutWidths, layoutHeights, font, frame, n);
            && r.Keys == m.Keys + LineKeys(lines, font, n)
            && (forall i :: 0 <= i < n ==> r[CacheKey(lines[i], font)].lastUsedFrame == frame)
            && (forall k :: k in m && k !in LineKeys(lines, font, n) ==> r[k] == m[k])
            && (forall k :: k in m ==> r[k].width == m[k].width && r[k].height == m[k].height)
            && (forall i :: 0 <= i < n && CacheKey(lines[i], font) !in m && FirstOccurrence(lines, i) ==>
                  r[CacheKey(lines[i], font)].width == layoutWidths[i] + 1.0 &&
                  r[CacheKey(lines[i], font)].height == layoutHeights[i] + 1.0)
  {
    TouchLinesKeys(m, lines, layoutWidths, layoutHeights, font, frame, n);
    TouchLinesSizes(m, lines, layoutWidths, layoutHeights, font, frame, n);
  }

  /** Which keys the first `n` lines add, their frame stamps, and the entries they leave alone. */
  lemma {:induction false} TouchLinesKeys(m: map<CacheKey, TextMeasureEntry>, lines: seq<string>,
                                          layoutWidths: seq<real>, layoutHeights: seq<real>, font: bv32,
                                          frame: int, n: nat)
    requires n <= |lines| && |layoutWidths| == |lines| && |layoutHeights| == |lines|
    ensures var r := TouchLines(m, lines, layoutWidths, layoutHeights, font, frame, n);
            && r.Keys == m.Keys + LineKeys(lines, font, n)
            && (forall i :: 0 <= i < n ==> r[CacheKey(lines[i], font)].lastUsedFrame == frame)
            && (forall k :: k in m && k !in LineKeys(lines, font, n) ==> r[k] == m[k])
  {
    if n > 0 {
      TouchLinesKeys(m, lines, layoutWidths, layoutHeights, font, frame, n - 1);
      LineKeysStep(lines, font, n);
      var prev := TouchLines(m, lines, layoutWidths, layoutHeights, font, frame, n - 1);
      var key := CacheKey(lines[n - 1], font);
      var r := Touch(prev, key, layoutWidths[n - 1], layoutHeights[n - 1], frame);
      assert TouchLines(m, lines, layoutWidths, layoutHeights, font, frame, n) == r;
      forall i | 0 <= i < n
        ensures r[CacheKey(lines[i], font)].lastUsedFrame == frame
      {
        if CacheKey(lines[i], font) != key {
          assert i < n - 1;
        }
      }
    }
  }

  /** The sizes after the first `n` lines: cached sizes are kept, new keys hold their first line's layout plus one. */
  lemma TouchLinesSizes(m: map<CacheKey, TextMeasureEntry>, lines: seq<string>,
                        layoutWidths: seq<real>, layoutHeights: seq<real>, font: bv32, frame: int, n: nat)
    requires n <= |lines| && |layoutWidths| == |lines| && |layoutHeights| == |lines|
    ensures var r := TouchLines(m, lines, layoutWidths, layoutHeights, font, frame, n);
            && (forall k :: k in m ==> k in r && r[k].width == m[k].width && r[k].height == m[k].height)
            && (forall i :: 0 <= i < n && CacheKey(lines[i], font) !in m && FirstOccurrence(lines, i) ==>
                  CacheKey(lines[i], font) in r &&
                  r[CacheKey(lines[i], font)].width == layoutWidths[i] + 1.0 &&
                  r[CacheKey(lines[i], font)].height == layoutHeights[i] + 1.0)
  {
    forall k | k in m
      ensures var r := TouchLines(m, lines, layoutWidths, layoutHeights, font, frame, n);
              k in r && r[k].width == m[k].width && r[k].height == m[k].height
    {
      TouchLinesKeepsSize(m, lines, layoutWidths, layoutHeights, font, frame, n, k);
    }
    forall i | 0 <= i < n && CacheKey(lines[i], font) !in m && FirstOccurrence(lines, i)
      ensures var r := TouchLines(m, lines, layoutWidths, layoutHeights, font, frame, n);
              CacheKey(lines[i], font) in r &&
              r[CacheKey(lines[i], font)].width == layoutWidths[i] + 1.0 &&
              r[CacheKey(lines[i], font)].height == layoutHeights[i] + 1.0
    {
      TouchLinesFirstSize(m, lines, layoutWidths, layoutHeights, font, frame, n, i);
    }
  }

  /** A lookup never changes the size stored under a key that was already cached. */
  lemma TouchKeepsSize(m: map<CacheKey, TextMeasureEntry>, key: CacheKey, layoutWidth: real, layoutHeight: real,
                       frame: int, k: CacheKey)
    requires k in m
    ensures var r := Touch(m, key, layoutWidth, layoutHeight, frame);
            k in r && r[k].width == m[k].width && r[k].height == m[k].height
  {
  }

  /** A measurement cached before the loop keeps its size. */
  lemma {:induction false} TouchLinesKeepsSize(m: map<CacheKey, TextMeasureEntry>, lines: seq<string>,
                                               layoutWidths: seq<real>, layoutHeights: seq<real>, font: bv32,
                                               frame: int, n: nat, k: CacheKey)
    requires n <= |lines| && |layoutWidths| == |lines| && |layoutHeights| == |lines|
    requires k in m
    ensures var r := TouchLines(m, lines, layoutWidths, layoutHeights, font, frame, n);
            k in r && r[k].width == m[k].width && r[k].height == m[k].height
  {
    if n > 0 {
      TouchLinesKeepsSize(m, lines, layoutWidths, layoutHeights, font, frame, n - 1, k);
      var prev := TouchLines(m, lines, layoutWidths, layoutHeights, font, frame, n - 1);
      var key := CacheKey(lines[n - 1], font);
      assert TouchLines(m, lines, layoutWidths, layoutHeights, font, frame, n)
          == Touch(prev, key, layoutWidths[n - 1], layoutHeights[n - 1], frame);
      TouchKeepsSize(prev, key, layoutWidths[n - 1], layoutHeights[n - 1], frame, k);
    }
  }

  /** A line whose key was not cached, the first with its text, stores its layout size plus one. */
  lemma {:induction false} TouchLinesFirstSize(m: map<CacheKey, TextMeasureEntry>, lines: seq<string>,
                                               layoutWidths: seq<real>, layoutHeights: seq<real>, font: bv32,
                                               frame: int, n: nat, i: nat)
    requires n <= |lines| && |layoutWidths| == |lines| && |layoutHeights| == |lines|
    requires i < n && CacheKey(lines[i], font) !in m && FirstOccurrence(lines, i)
    ensures var r := TouchLines(m, lines, layoutWidths, layoutHeights, font, frame, n);
            CacheKey(lines[i], font) in r &&
            r[CacheKey(lines[i], font)].width == layoutWidths[i] + 1.0 &&
            r[CacheKey(lines[i], font)].height == layoutHeights[i] + 1.0
  {
    var prev := TouchLines(m, lines, layoutWidths, layoutHeights, font, frame, n - 1);
    var key := CacheKey(lines[n - 1], font);
    assert TouchLines(m, lines, layoutWidths, layoutHeights, font, frame, n)
        == Touch(prev, key, layoutWidths[n - 1], layoutHeights[n - 1], frame);
    if i == n - 1 {
      TouchLinesKeys(m, lines, layoutWidths, layoutHeights, font, frame, n - 1);
      FirstLineKeyIsNew(lines, font, i);
      assert key !in prev;
    } else {
      TouchLinesFirstSize(m, lines, layoutWidths, layoutHeights, font, frame, n - 1, i);
      TouchKeepsSize(prev, key, layoutWidths[n - 1], layoutHeights[n - 1], frame, CacheKey(lines[i], font));
    }
  }

  /** The key of a line whose text did not occur earlier is not among the earlier lines' keys. */
  lemma FirstLineKeyIsNew(lines: seq<string>, font: bv32, i: nat)
    requires i < |lines| && FirstOccurrence(lines, i)
    ensures CacheKey(lines[i], font) !in LineKeys(lines, font, i)
  {
  }

  lemma TouchLinesStep(m: map<CacheKey, TextMeasureEntry>, lines: seq<string>, layoutWidths: seq<real>,
                       layoutHeights: seq<real>, font: bv32, frame: int, n: nat)
    requires n < |lines| && |layoutWidths| == |lines| && |layoutHeights| == |lines|
    ensures TouchLines(m, lines, layoutWidths, layoutHeights, font, frame, n + 1)
         == Touch(TouchLines(m, lines, layoutWidths, layoutHeights, font, frame, n),
                  CacheKey(lines[n], font), layoutWidths[n], layoutHeights[n], frame)
  {
  }

  // ---------------------------------------------------------------------
  // Rendered-string entries
  // ---------------------------------------------------------------------

  function TexelCount(d: TexelData): nat {
    match d
    case Texels32(t) => |t|
    case Texels16(t) => |t|
  }

  /** The shape every cached string entry has. */
  predicate WellFormed(e: TextStringEntry) {
    && 1 <= e.width && 1 <= e.height
    && e.bmWidth == AlignUp4(e.width) && e.bmHeight == AlignUp4(e.height)
    && e.texture.width == e.bmWidth && e.texture.height == e.bmHeight
    && TexelCount(e.texture.data) == e.bmWidth * e.bmHeight
    && (e.texture.data.Texels32? <==> e.texture.format == R8G8B8A8_UNORM || e.texture.format == B8G8R8A8_UNORM)
  }

  /** Every cached string is well formed and was last used no later than `frame`. */
  ghost predicate StringsValid(cache: map<CacheKey, TextStringEntry>, frame: int) {
    forall k :: k in cache ==> WellFormed(cache[k]) && cache[k].lastUsedFrame <= frame
  }

  /** Every cached measurement was last used no later than `frame`. */
  ghost predicate MeasuresValid(sizeCache: map<CacheKey, TextMeasureEntry>, frame: int) {
    forall k :: k in sizeCache ==> sizeCache[k].lastUsedFrame <= frame
  }

  /** The texels of a freshly drawn string in `format`. */
  function RenderTexels(format: DataFormat, bits: seq<bv8>, pitch: nat, width: nat, height: nat): TexelData {
    if format == R8G8B8A8_UNORM || format == B8G8R8A8_UNORM then
      Texels32(Raster(bits, pitch, width, height, Rgba8Texel))
    else if format == B4G4R4A4_UNORM_PACK16 then
      Texels16(Raster(bits, pitch, width, height, Bgra4444Texel))
    else
      Texels16(Raster(bits, pitch, width, height, Argb4444Texel))
  }

  /**
   * The entry DrawString caches on a miss, from the measured size (the
   * layout's size plus one, truncated) and the mapped bitmap.
   */
  function RenderedEntry(measuredWidth: nat, measuredHeight: nat, bits: seq<bv8>, pitch: nat,
                         format: DataFormat, frame: int): (e: TextStringEntry)
    ensures WellFormed(e)
    ensures e.width == ClampToOne(measuredWidth) && e.height == ClampToOne(measuredHeight)
    ensures e.texture.data == RenderTexels(format, bits, pitch, e.bmWidth, e.bmHeight)
    ensures e.bmWidth % 4 == 0 && e.bmHeight % 4 == 0
    ensures measuredWidth <= e.width < e.bmWidth + 1 && measuredHeight <= e.height < e.bmHeight + 1
    ensures e.lastUsedFrame == frame && e.texture.format == format
  {
    var w := ClampToOne(measuredWidth);
    var h := ClampToOne(measuredHeight);
    var bmW := AlignUp4(w);
    var bmH := AlignUp4(h);
    TextStringEntry(w, h, bmW, bmH, frame, Texture(format, bmW, bmH, RenderTexels(format, bits, pitch, bmW, bmH)))
  }

  /**
   * The format switch of DrawString: fill a 32-bit texture for the 8-bit
   * formats, a 16-bit one for the two 4-bit formats.
   */
  method ConvertBitmap(texFormat: DataFormat, bits: seq<bv8>, pitch: nat, bmWidth: nat, bmHeight: nat)
    returns (data: TexelData)
    requires CoversBitmap(|bits|, pitch, bmWidth, bmHeight)
    ensures data == RenderTexels(texFormat, bits, pitch, bmWidth, bmHeight)
    ensures TexelCount(data) == bmWidth * bmHeight
  {
    if texFormat == R8G8B8A8_UNORM || texFormat == B8G8R8A8_UNORM {
      var bitmapData32 := PackTexels(bits, pitch, bmWidth, bmHeight, Rgba8Texel);
      data := Texels32(bitmapData32[..]);
    } else if texFormat == B4G4R4A4_UNORM_PACK16 {
      var bitmapData16 := PackTexels(bits, pitch, bmWidth, bmHeight, Bgra4444Texel);
      data := Texels16(bitmapData16[..]);
    } else {
      var bitmapData16 := PackTexels(bits, pitch, bmWidth, bmHeight, Argb4444Texel);
      data := Texels16(bitmapData16[..]);
    }
  }

  class TextDrawer {
    /** hash::Adler32 of a font name. */
    const adler32: string -> bv32
    /** Whether the draw context reports FMT_TEXTURE support for a format. */
    const supportsTexture: DataFormat -> bool

    var frameCount: int
    var fontHash: bv32
    var fontMap: map<bv32, FontContext>
    var cache: map<CacheKey, TextStringEntry>
    var sizeCache: map<CacheKey, TextMeasureEntry>

    /**
     * Once any font is known, the current font is one of them; both caches
     * satisfy their invariants at the current frame.
     */
    ghost predicate Valid()
      reads this
    {
      && (fontMap == map[] || fontHash in fontMap)
      && StringsValid(cache, frameCount)
      && MeasuresValid(sizeCache, frameCount)
    }

    constructor (adler32: string -> bv32, supportsTexture: DataFormat -> bool)
      ensures Valid()
      ensures this.adler32 == adler32 && this.supportsTexture == supportsTexture
      ensures frameCount == 0 && fontMap == map[] && cache == map[] && sizeCache == map[]
    {
      this.adler32 := adler32;
      this.supportsTexture := supportsTexture;
      frameCount := 0;
      fontHash := 0;
      fontMap := map[];
      cache := map[];
      sizeCache := map[];
    }

    /** SetFont(fontName, size, flags): select the font with that handle, creating it if new. */
    method SetFont(name: Option<string>, size: int, flags: int) returns (h: bv32)
      requires Valid()
      modifies this`fontMap, this`fontHash
      ensures Valid()
      ensures h == FontHash(adler32, name, size, flags)
      ensures fontHash == h && h in fontMap
      ensures h in old(fontMap) ==> fontMap == old(fontMap)
      ensures h !in old(fontMap) ==>
                fontMap == old(fontMap)[h := FontContext(if name.Some? then name.value else "Tahoma",
                                                         size, DWRITE_FONT_WEIGHT_LIGHT)]
    {
      h := FontHash(adler32, name, size, flags);
      if h in fontMap {
        fontHash := h;
        return;
      }
      var fname := if name.Some? then name.value else "Tahoma";
      fontMap := fontMap[h := FontContext(fname, size, DWRITE_FONT_WEIGHT_LIGHT)];
      fontHash := h;
    }

    /** SetFont(fontHandle): select a known font; an unknown handle is ignored. */
    method SetFontHandle(fontHandle: bv32)
      requires Valid()
      modifies this`fontHash
      ensures Valid()
      ensures fontHandle in fontMap ==> fontHash == fontHandle
      ensures fontHandle !in fontMap ==> fontHash == old(fontHash)
    {
      if fontHandle in fontMap {
        fontHash := fontHandle;
      }
    }

    /** Drop every rendered string and every measurement. */
    method ClearCache()
      requires Valid()
      modifies this`cache, this`sizeCache
      ensures Valid()
      ensures cache == map[] && sizeCache == map[]
    {
      cache := map[];
      sizeCache := map[];
    }

    /**
     * Advance one frame; when the DPI scale changed, drop both caches; on
     * every EVICTION_PERIOD-th frame drop the entries idle too long.
     */
    method OncePerFrame(dpiChanged: bool)
      requires Valid()
      modifies this`frameCount, this`cache, this`sizeCache
      ensures Valid()
      ensures frameCount == old(frameCount) + 1
      ensures cache == EvictAt(if dpiChanged then map[] else old(cache), StringLastUsed, frameCount)
      ensures sizeCache == EvictAt(if dpiChanged then map[] else old(sizeCache), MeasureLastUsed, frameCount)
      ensures frameCount % EVICTION_PERIOD == 0 ==>
                (forall k :: k in cache ==> !Idle(frameCount, cache[k].lastUsedFrame)) &&
                (forall k :: k in sizeCache ==> !Idle(frameCount, sizeCache[k].lastUsedFrame))
    {
      frameCount := frameCount + 1;
      if dpiChanged {
        ClearCache();
      }
      if frameCount % EVICTION_PERIOD == 0 {
        cache := Prune(cache, StringLastUsed, frameCount);
        sizeCache := Prune(sizeCache, MeasureLastUsed, frameCount);
      }
    }

    /**
     * The cache part of MeasureString: look the string up under the current
     * font; `layoutWidth` and `layoutHeight` are what DirectWrite would
     * measure on a miss.
     */
    method MeasureString(text: string, layoutWidth: real, layoutHeight: real)
      requires Valid()
      modifies this`sizeCache
      ensures Valid()
      ensures sizeCache == Touch(old(sizeCache), CacheKey(text, fontHash), layoutWidth, layoutHeight, frameCount)
    {
      var key := CacheKey(text, fontHash);
      if key in sizeCache {
        sizeCache := sizeCache[key := sizeCache[key].(lastUsedFrame := frameCount)];
      } else {
        sizeCache := sizeCache[key := TextMeasureEntry(layoutWidth + 1.0, layoutHeight + 1.0, frameCount)];
      }
    }

    /**
     * The cache part of MeasureStringRect: the loop over the lines of the
     * (already wrapped and split) text, each looked up or measured in turn.
     */
    method MeasureStringRect(lines: seq<string>, layoutWidths: seq<real>, layoutHeights: seq<real>)
      requires Valid()
      requires |layoutWidths| == |lines| && |layoutHeights| == |lines|
      modifies this`sizeCache
      ensures Valid()
      ensures sizeCache == TouchLines(old(sizeCache), lines, layoutWidths, layoutHeights, fontHash, frameCount, |lines|)
    {
      ghost var m0 := sizeCache;
      ghost var font, frame := fontHash, frameCount;
      var i := 0;
      while i < |lines|
        invariant 0 <= i <= |lines|
        invariant Valid()
        invariant fontHash == font && frameCount == frame
        invariant sizeCache == TouchLines(m0, lines, layoutWidths, layoutHeights, font, frame, i)
      {
        ghost var before := sizeCache;
        MeasureString(lines[i], layoutWidths[i], layoutHeights[i]);
        assert sizeCache == Touch(before, CacheKey(lines[i], font), layoutWidths[i], layoutHeights[i], frame);
        TouchLinesStep(m0, lines, layoutWidths, layoutHeights, font, frame, i);
        i := i + 1;
      }
    }

    /**
     * The cache part of DrawString. An empty string draws nothing. A hit
     * refreshes the entry's frame. A miss clamps and rounds the measured
     * size, chooses the texture format, converts the mapped bitmap's
     * coverage bytes into texels and caches the new entry.
     */
    method DrawString(text: string, measuredWidth: nat, measuredHeight: nat, bits: seq<bv8>, pitch: nat)
      requires Valid()
      requires CoversBitmap(|bits|, pitch, BitmapSide(measuredWidth), BitmapSide(measuredHeight))
      modifies this`cache
      ensures Valid()
      ensures var key := CacheKey(text, fontHash);
              if |text| == 0 then cache == old(cache)
              else if key in old(cache) then
                cache == old(cache)[key := old(cache)[key].(lastUsedFrame := frameCount)]
              else
                cache == old(cache)[key := RenderedEntry(measuredWidth, measuredHeight, bits, pitch,
                                                         ChooseTextureFormat(supportsTexture), frameCount)]
    {
      if |text| == 0 {
        return;
      }
      var key := CacheKey(text, fontHash);
      if key in cache {
        cache := cache[key := cache[key].(lastUsedFrame := frameCount)];
        return;
      }
      var width := ClampToOne(measuredWidth);
      var height := ClampToOne(measuredHeight);
      var bmWidth := AlignUp4(width);
      var bmHeight := AlignUp4(height);
      var texFormat := ChooseTextureFormat(supportsTexture);
      var data := ConvertBitmap(texFormat, bits, pitch, bmWidth, bmHeight);
      var entry := TextStringEntry(width, height, bmWidth, bmHeight, frameCount,
                                   Texture(texFormat, bmWidth, bmHeight, data));
      assert entry == RenderedEntry(measuredWidth, measuredHeight, bits, pitch, texFormat, frameCount);
      cache := cache[key := entry];
    }
  }
}
