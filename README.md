# Raw input translation and the UWP text drawer, modelled in Dafny

This project models two pieces of PPSSPP's Windows front end.

**Windows raw input** (`Windows/RawInput.cpp`). Windows delivers keyboard
and mouse notifications (WM_INPUT). The translator turns them into the
application's key events (`KeyInput` handed to `NativeKey`):

- It sizes a reusable payload buffer from the size GetRawInputData
  reports.
- It resolves the generic Shift, Ctrl and Alt virtual keys to their left
  or right variants.
- It maps virtual keys through `windowsTransTable` and keeps the set of
  held key codes.
- It adds mouse motion to the `mouseDeltaX`/`mouseDeltaY` accumulators and
  turns right-button transitions into events.
- On focus loss it emits one release per held code.

Module `RawInput` states all of this as values and proves properties of
those values. Module `RawInputTranslator` holds the globals in a class,
`Translator`, whose `Process` and `LoseFocus` update them in place. Each
method is proved against the value model.

**The UWP text drawer** (`ext/native/gfx_es2/draw_text_uwp.cpp`).
`TextDrawerUWP` keeps:

- a map from font handles to font contexts, plus the current font;
- a cache of rendered strings (textures) and a cache of measured sizes,
  both keyed by (text, font handle);
- a frame counter.

Every 23rd frame it drops the cache entries unused for more than 100
frames. On a cache miss, `DrawString`:

- clamps the measured size to at least 1;
- rounds each side up to a multiple of 4;
- picks a texture format the device supports;
- converts the coverage bytes of the rendered bitmap into white texels
  of that format.

Module `TextBitmap` holds this integer work. Module `DrawTextUwp` holds the
font handles, the eviction rule and the `TextDrawer` class with the cache
operations.

Calls into Win32, DirectWrite and Direct2D are replaced by their results,
passed in as parameters:

- `transTable`: the translation table.
- `scanCodeToVk`: MapVirtualKey.
- `adler32`: the hash of a font name.
- `supportsTexture`: the device's format support.
- The measured layout sizes.
- The mapped bitmap, as `bits` and `pitch`.
- `dpiChanged`: whether the DPI scale changed.

In four places the code does something other than what one might
expect of it, and the model follows the code:

- **The payload buffer.** One might expect it to grow monotonically.
  The code records `rawInputBufferSize` only at the first allocation
  (Windows/RawInput.cpp:96-99). It then reallocates whenever a request
  exceeds that first size (Windows/RawInput.cpp:100-102). A later,
  smaller request can therefore shrink the block
  (`RawInput.BufferCanShrink`). The block always holds the current
  request (`RawInput.SizeBuffer`).
- **Failed fetches.** The code never checks the result of
  GetRawInputData (Windows/RawInput.cpp:95 and 103), so the model has no
  failure path for it.
- **Focus loss.** The comment at Windows/RawInput.cpp:157 speaks of
  force-releasing all held keys. The loop emits one release per held code
  but leaves `keyboardKeysDown` as it was
  (`RawInputTranslator.Translator.LoseFocus`,
  `RawInput.FocusLossLeavesStaleHeld`).
- **WM_SYSKEYUP.** The keyboard path handles WM_SYSKEYDOWN as a press but
  ignores WM_SYSKEYUP (Windows/RawInput.cpp:108 and 116,
  `RawInput.OtherKeyboardMessageIgnored`).

## Model

| member | source | states |
|---|---|---|
| RawInput.RegisteredDevices | Windows/RawInput.cpp:57-69 | Init registers two devices on the generic desktop page: first the keyboard, then the mouse. The keyboard's flags are RIDEV_NOHOTKEYS exactly when the Windows key is to be ignored, and 0 otherwise. The mouse's flags are 0. |
| RawInput.GetTrueVKey | Windows/RawInput.cpp:71-91 | Ctrl and Alt resolve to a sided variant of the same generic key, and that variant is the right-hand one exactly when the E0 flag is set. Shift resolves through the scan-code mapping of the make code. Every other key is returned unchanged. |
| RawInput.ShiftIgnoresFlags | Windows/RawInput.cpp:73-74 | The flags of a Shift record never influence the resolved key. |
| RawInput.SizeBuffer | Windows/RawInput.cpp:94-102 | The first allocation is exactly the requested size, and it is also the size recorded. Afterwards the recorded size never changes. A request that does not exceed the recorded size leaves the buffer untouched. A larger request reallocates to exactly that size. In every case a buffer exists that holds the request. |
| RawInput.SizeAll | Windows/RawInput.cpp:96-102 | After any non-empty run of requests, the buffer exists and holds the last request. |
| RawInput.TrackedSizeIsFirstRequest | Windows/RawInput.cpp:96-98 | Starting without a buffer, the recorded size stays at the first request forever. |
| RawInput.BufferCanShrink | Windows/RawInput.cpp:100-102 | Requests of 40, 60 and then 50 bytes leave a 50-byte block after a 60-byte one, so the allocation is not monotonic. |
| RawInput.HeldAfterAppend | Windows/RawInput.cpp:108-127 | Replaying events against a held set distributes over concatenation. This lets the per-payload property lift to runs of payloads. |
| RawInput.Translate | Windows/RawInput.cpp:104-151 | One payload emits at most one event. The new held set is exactly what the emitted events imply. No keyboard event carries code 0. Only mouse payloads move the accumulators, by the payload's motion. Mouse events always carry the table's code for VK_RBUTTON. Payloads of any other device type change nothing. |
| RawInput.KeyDownStep | Windows/RawInput.cpp:108-115 | A key-down or system-key-down with a mapped code emits one DOWN event and adds the code to the held set. An already-held code leaves the state as it was. An unmapped code emits nothing and changes nothing. |
| RawInput.KeyUpStep | Windows/RawInput.cpp:116-126 | A key-up with a mapped code emits one UP event and removes the code. A code that was not held leaves the state as it was. An unmapped code emits nothing and changes nothing. |
| RawInput.OtherKeyboardMessageIgnored | Windows/RawInput.cpp:105-127 | Any other keyboard message, WM_SYSKEYUP among them, emits nothing and changes nothing. |
| RawInput.MouseStep | Windows/RawInput.cpp:128-147 | A mouse payload always adds its motion and never touches the held set. It emits one right-button event: DOWN when the down bit is set, else UP when the up bit is set, else nothing. |
| RawInput.Run | Windows/RawInput.cpp:93-154 | Over any run of payloads, the held set equals the start set with the emitted events replayed on it. Each accumulator grows by the sum of the mouse motion. At most one event is emitted per payload. |
| RawInput.ShiftScenario | Windows/RawInput.cpp:104-127 | For left Shift down, right Shift down, left Shift up: three events are emitted in that order, and only the right Shift stays held. |
| RawInput.Releases | Windows/RawInput.cpp:156-165 | Focus loss emits one keyboard UP per held code: every emitted code is held, and the codes are strictly ascending. Ascending is std::set's iteration order, so there are no repeats, and there are as many events as held codes. |
| RawInput.ReleasesCoverHeld | Windows/RawInput.cpp:161-164 | Every held code is released. |
| RawInput.ReleasesClearHeld | Windows/RawInput.cpp:156-165 | Replaying the releases against any set removes exactly the released codes. |
| RawInput.FocusLossLeavesStaleHeld | Windows/RawInput.cpp:156-165 | After focus loss with at least one key held, the events imply an empty held set, yet the set kept by the code is unchanged and non-empty. |
| RawInputTranslator.Translator.constructor | Windows/RawInput.cpp:53-55 | The globals start with no buffer, an empty held set, zero accumulators and no events. |
| RawInputTranslator.Translator.NativeKey | Windows/RawInput.cpp:113 | The event sink appends exactly one event to the event log. |
| RawInputTranslator.Translator.Process | Windows/RawInput.cpp:93-154 | The buffer becomes SizeBuffer of the old buffer and the request, so it exists and holds the request. The held set and accumulators become Translate's new state. The events Translate emits are appended to the log. |
| RawInputTranslator.Translator.LoseFocus | Windows/RawInput.cpp:156-165 | The log grows by exactly Releases of the held set, and the held set is left unchanged. |
| TextBitmap.ClampToOne | ext/native/gfx_es2/draw_text_uwp.cpp:359-362 | A size of 0 becomes 1; any other size is kept. |
| TextBitmap.AlignUp4 | ext/native/gfx_es2/draw_text_uwp.cpp:367-368 | The bitmap side is a multiple of 4, at least the size, and less than the size plus 4. |
| TextBitmap.AlignUp4IsLeast | ext/native/gfx_es2/draw_text_uwp.cpp:367-368 | No smaller multiple of 4 covers the size. |
| TextBitmap.BitmapSide | ext/native/gfx_es2/draw_text_uwp.cpp:353-368 | A measured side becomes a bitmap side that is a positive multiple of 4. It covers the measured side and is less than 4 larger, except that 0 becomes 4. |
| TextBitmap.ChooseTextureFormat | ext/native/gfx_es2/draw_text_uwp.cpp:384-391 | A4R4G4B4 is chosen exactly when it is supported. B4G4R4A4 is chosen exactly when A4R4G4B4 is not supported but B4G4R4A4 is. R8G8B8A8 is chosen exactly when neither is supported. B8G8R8A8 is never chosen. |
| TextBitmap.Rgba8Texel | ext/native/gfx_es2/draw_text_uwp.cpp:402-403 | The 32-bit texel is white and carries the coverage byte whole in its top byte. |
| TextBitmap.Bgra4444Texel | ext/native/gfx_es2/draw_text_uwp.cpp:411-412 | The B4G4R4A4 texel is white and carries the coverage's high nibble in its low nibble. |
| TextBitmap.Argb4444Texel | ext/native/gfx_es2/draw_text_uwp.cpp:420-421 | The A4R4G4B4 texel is white and carries the coverage's high nibble in its top nibble. |
| TextBitmap.TexelFormatsAgree | ext/native/gfx_es2/draw_text_uwp.cpp:393-425 | All three formats give the same 4-bit alpha for the same coverage byte. |
| TextBitmap.PixelInBounds | ext/native/gfx_es2/draw_text_uwp.cpp:402 | Every pixel the loops read lies inside the mapped bitmap. |
| TextBitmap.TallStringOverrunsSurface | ext/native/gfx_es2/draw_text_uwp.cpp:353-368 | When a string's measured height exceeds MAX_TEXT_HEIGHT (512), the mapped 512-row surface does not cover the bitmap the loops read. The bitmap's height is never bounded by the surface's. |
| TextBitmap.RowMajor | ext/native/gfx_es2/draw_text_uwp.cpp:403 | The store index of a pixel lies inside the texture and above every index of an earlier row. |
| TextBitmap.EverySlotIsAPixel | ext/native/gfx_es2/draw_text_uwp.cpp:399-405 | Every texture slot is the store index of exactly one pixel. |
| TextBitmap.IndexInverse | ext/native/gfx_es2/draw_text_uwp.cpp:399-405 | The store index is one-to-one on pixels, and division and remainder recover the pixel from it. |
| TextBitmap.Raster | ext/native/gfx_es2/draw_text_uwp.cpp:398-425 | The texture holds one texel per pixel, width x height in all. |
| TextBitmap.RasterPixels | ext/native/gfx_es2/draw_text_uwp.cpp:398-425 | Each pixel's slot of the texture lies inside it and holds the texel of that pixel's coverage byte. |
| TextBitmap.RasterAt | ext/native/gfx_es2/draw_text_uwp.cpp:401-403 | The byte the inner loop reads for pixel (x, y) is inside the bitmap, the slot it writes is inside the texture, and that slot of the texture holds the texel of that byte. |
| TextBitmap.PackRow | ext/native/gfx_es2/draw_text_uwp.cpp:401-404 | One pass of the inner loop fills row y with the texture's texels. It keeps the rows above it and leaves every later slot unchanged. |
| TextBitmap.PackTexels | ext/native/gfx_es2/draw_text_uwp.cpp:399-405 | The nested loops fill a fresh width x height array so that every pixel's slot holds the texel of its coverage byte. The whole array equals Raster. |
| DrawTextUwp.FontHashSeparatesSizes | ext/native/gfx_es2/draw_text_uwp.cpp:158-161 | For a fixed name and fixed flags, sizes that differ as 32-bit values give different font handles. |
| DrawTextUwp.Recent | ext/native/gfx_es2/draw_text_uwp.cpp:507-524 | The entries that survive are exactly those used within the last 100 frames, and they are unchanged. |
| DrawTextUwp.RecentIdempotent | ext/native/gfx_es2/draw_text_uwp.cpp:507-524 | Pruning twice at the same frame removes nothing more. |
| DrawTextUwp.AfterFrames | ext/native/gfx_es2/draw_text_uwp.cpp:496-526 | Frames that pass without any use only remove entries, and never change the entries that remain. |
| DrawTextUwp.IdleEntryEvictedAtNextPeriod | ext/native/gfx_es2/draw_text_uwp.cpp:506-516 | An entry that is already idle is gone by the next frame whose number is a multiple of 23. |
| DrawTextUwp.IdleEntryEvicted | ext/native/gfx_es2/draw_text_uwp.cpp:496-526 | An entry nobody uses is gone at most 123 frames after its last use. |
| DrawTextUwp.AbsentStaysAbsent | ext/native/gfx_es2/draw_text_uwp.cpp:507-524 | An evicted entry does not come back while frames pass without use. |
| DrawTextUwp.Prune | ext/native/gfx_es2/draw_text_uwp.cpp:508-524 | The erase-while-iterating loop leaves exactly Recent of the cache. |
| DrawTextUwp.Touch | ext/native/gfx_es2/draw_text_uwp.cpp:199-233 | A lookup adds the key if it was missing and stamps it with the current frame. A hit keeps the stored size. A miss stores the layout size plus one. Every other entry is unchanged. |
| DrawTextUwp.TouchLines | ext/native/gfx_es2/draw_text_uwp.cpp:256-291 | The line loop never loses a measurement. |
| DrawTextUwp.TouchLinesSpec | ext/native/gfx_es2/draw_text_uwp.cpp:256-291 | After the first n lines: exactly those lines' keys have been added, each stamped with the current frame, and every entry for another key is unchanged. An entry cached before the loop keeps its width and height. A key that was not cached holds the layout size plus one of the first line with that text. |
| DrawTextUwp.TouchLinesKeys | ext/native/gfx_es2/draw_text_uwp.cpp:256-291 | The first n lines add exactly their own keys and stamp each with the current frame. Every entry for another key is unchanged. |
| DrawTextUwp.TouchLinesSizes | ext/native/gfx_es2/draw_text_uwp.cpp:260-289 | Sizes cached before the loop are kept. A key first seen on line i holds that line's layout size plus one. |
| DrawTextUwp.TouchKeepsSize | ext/native/gfx_es2/draw_text_uwp.cpp:260-262 | A lookup never changes the size stored under a key that was already cached. |
| DrawTextUwp.RenderedEntry | ext/native/gfx_es2/draw_text_uwp.cpp:353-369 | A new string entry is well formed. Its width and height are the measured sizes with 0 clamped to 1. Its bitmap sides are those rounded up to a multiple of 4. Its texels are RenderTexels of the mapped bitmap at the bitmap size in the chosen format, one per bitmap pixel. It is stamped with the current frame. |
| DrawTextUwp.ConvertBitmap | ext/native/gfx_es2/draw_text_uwp.cpp:396-425 | The format switch produces the texels RenderTexels describes: one per bitmap pixel, 32-bit for the 8-bit formats and 16-bit for the 4-bit ones. |
| DrawTextUwp.TextDrawer.constructor | ext/native/gfx_es2/draw_text_uwp.cpp:67 | The drawer starts with no fonts, empty caches and frame 0. |
| DrawTextUwp.TextDrawer.SetFont | ext/native/gfx_es2/draw_text_uwp.cpp:158-187 | The handle is the font hash, and it becomes the current font. A known handle leaves the font map alone. A new handle adds a light-weight context of that size, named after the font or "Tahoma". |
| DrawTextUwp.TextDrawer.SetFontHandle | ext/native/gfx_es2/draw_text_uwp.cpp:189-194 | A known handle becomes the current font. An unknown one is ignored. |
| DrawTextUwp.TextDrawer.ClearCache | ext/native/gfx_es2/draw_text_uwp.cpp:464-471 | Both caches become empty. |
| DrawTextUwp.TextDrawer.OncePerFrame | ext/native/gfx_es2/draw_text_uwp.cpp:496-526 | The frame advances by one. A DPI change empties both caches first. On a frame that is a multiple of 23, no idle entry is left in either cache. |
| DrawTextUwp.TextDrawer.MeasureString | ext/native/gfx_es2/draw_text_uwp.cpp:196-236 | The measurement cache becomes Touch of the string under the current font. |
| DrawTextUwp.TextDrawer.MeasureStringRect | ext/native/gfx_es2/draw_text_uwp.cpp:238-300 | The measurement cache becomes TouchLines over all lines. |
| DrawTextUwp.TextDrawer.DrawString | ext/native/gfx_es2/draw_text_uwp.cpp:302-442 | An empty string changes nothing. A hit only restamps the entry. A miss caches RenderedEntry in the chosen format. Every cached entry stays well formed. |

## Left out

- Windows API calls are replaced by parameters or by their effects: RegisterRawInputDevices, GetRawInputData, MapVirtualKey, malloc and realloc. The contents of the payload buffer are not modelled; the fetched record is a parameter.
- Integer widths: `mouseDeltaX`/`mouseDeltaY` and `frameCount_` are unbounded integers, so their overflow is not modelled.
- Table bounds: `windowsTransTable` is a total function, so indexing it out of range is not modelled.
- The commented-out NativeAxis call in the mouse path is not modelled, because it does nothing.
- RawInputTranslator.Translator.Process: the return value (always 0) and the `wParam` argument are not modelled.
- The measurement results are not modelled. `MeasureString` and `MeasureStringRect` return `*w` and `*h` as floats scaled by the font and DPI factors; only their cache updates are modelled. DirectWrite's layout sizes are parameters.
- DrawTextUwp.TextDrawer.MeasureStringRect: WrapString and SplitString are not modelled, and the method takes the already split lines.
- DrawTextUwp.TextDrawer.DrawString: Direct2D rendering, CopyFromBitmap, Map/Unmap, BindTexture, DrawTexRect and the alignment arithmetic are left out.
- DrawTextUwp.TextDrawer.DrawString: the mapped bitmap is a parameter, and the `requires` assumes it covers every pixel the loops read. That holds only while the bitmap fits the fixed MAX_TEXT_WIDTH x MAX_TEXT_HEIGHT (4096 x 512) mirror surface (ext/native/gfx_es2/draw_text_uwp.cpp:19-22, 129-136). Nothing in DrawString bounds `bmWidth`/`bmHeight` by that size (draw_text_uwp.cpp:353-368). For a string measured taller or wider than the surface, the loops at draw_text_uwp.cpp:400-423 read past the mapped rows. That out-of-bounds read is not modelled; `TextBitmap.TallStringOverrunsSurface` shows that the `requires` cannot hold for such a string.
- DrawTextUwp.TextDrawer.DrawString: texture creation is a record of format, size and texels.
- Dereferencing a null text format is not modelled. It happens when the current font handle is not in the font map and the cache misses, and the model has no such error path.
- Font contexts: their creation (Create), RecreateFonts, `dpiScale` and the DirectWrite factory and collection are left out, because they only call DirectWrite.
- The destructor and texture Release are left out, because they only free resources.
- DrawStringRect is left out, because it only computes a float position and wraps the text before calling DrawString.
- DrawTextUwp.TextDrawer.OncePerFrame: CalculateDPIScale is replaced by the `dpiChanged` parameter.
- DrawTextUwp.TextDrawer.SetFont: UTF-8 to wide-string conversion is the identity.
- DrawTextUwp.TextDrawer.SetFont: `size` and `flags << 10` are reduced modulo 2^32 before the XOR, which is the C conversion to `uint32_t`. A shift of a large `int` that is undefined behaviour in C is taken to wrap.
