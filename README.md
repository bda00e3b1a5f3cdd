# Blue screen generator: a Dafny model

The component turns the text in a text box into a 600×400 "blue screen"
picture. It cuts the text at every line feed and writes each piece in white as
one line, centred on the canvas. It then adds random noise to every pixel. Pressing Ctrl+c copies the
picture to the clipboard as a PNG and shows a notification.

The model covers the three pieces of logic in that component:

- `text_layout.dfy`, module `TextLayout`: splitting the text at line feeds
  (`text.split("\n")`) and placing each line. Line `i` of `n` is drawn at
  `x = 300`, `y = 200 - 20*(n-1) + 40*i`. Drawing is modelled as the sequence
  of `fillText` calls, one `DrawText(line, x, y)` record per call.
  `Join` (`lines.join("\n")`) is the reference for `Split`. The two are
  proved inverse to each other.
- `image_noise.dfy`, module `ImageNoise`: the noise pass over the RGBA byte
  buffer. `ApplyNoise` is the in-place loop over an `array<int>`, stepping
  four bytes at a time. It is proved equal to the specification function
  `Noised`. The random offsets come in as a sequence of integers, one per
  pixel.
- `copy_shortcut.dfy`, module `CopyShortcut`: the key test of the `keydown`
  handler, and the way the copy routine ends. The browser's encoder and
  clipboard are reduced to their possible reports. The canvas is mounted or
  missing. Encoding throws, yields `null`, or yields a blob. The clipboard
  step throws before `write` is called (no `navigator.clipboard` or no
  `ClipboardItem`), or `write` is called and rejects, or it succeeds.

Two details of the code as written:

- The shortcut tests `ctrlKey` and `key === "c"` and nothing else. So
  Command+c on macOS does not copy the canvas. Neither does Ctrl+Shift+C,
  whose key is `"C"` (`MetaCDoesNotCopy`, `CtrlShiftCDoesNotCopy`).
- `Math.random() * 50 - 25` lies in [-25, 25). The model takes any integer
  offset. The bounds lemmas assume offsets in [-25, 25], which covers every
  draw once it is rounded to a whole number.

## Model

| member | source | states |
|---|---|---|
| TextLayout.Split | components/BlueScreenGenerator.tsx:37 | `text.split("\n")` gives one more line than there are line feeds, so empty text gives one line; no line holds a line feed |
| TextLayout.JoinSplit | components/BlueScreenGenerator.tsx:37 | joining the lines of the split with line feeds gives back the text: nothing is lost and the order is kept |
| TextLayout.SplitPrefix | components/BlueScreenGenerator.tsx:37 | text without line feeds placed in front of more text only lengthens the first line of that text's split |
| TextLayout.SplitJoin | components/BlueScreenGenerator.tsx:37 | lines without line feeds, joined and split again, come back unchanged, so a split is the only way to cut the text into such lines |
| TextLayout.Layout | components/BlueScreenGenerator.tsx:26-42 | one draw call per line; all at x = 300 (half of 600); consecutive lines 40 apart; line i and line n-1-i have y values summing to 400, so the block is centred vertically |
| TextLayout.LayoutDrawsText | components/BlueScreenGenerator.tsx:37-42 | the drawn lines, in order, joined with line feeds, are exactly the text; no drawn line holds a line feed |
| TextLayout.LayoutOfLines | components/BlueScreenGenerator.tsx:37-42 | text built from lines without line feeds is drawn as exactly those lines, in that order |
| TextLayout.SingleLineAtCentre | components/BlueScreenGenerator.tsx:37-42 | text without a line feed (the default "we're so back", say) is one draw call at (300, 200) |
| TextLayout.EmptyTextLayout | components/BlueScreenGenerator.tsx:37-42 | empty text is one empty draw call at (300, 200) |
| TextLayout.ThreeLinesLayout | components/BlueScreenGenerator.tsx:40-41 | three lines are drawn at y = 160, 200 and 240, all at x = 300 |
| ImageNoise.Clamp | components/BlueScreenGenerator.tsx:48-50 | `Math.max(0, Math.min(255, v))` is always in [0, 255], leaves byte values alone, and sends values below 0 to 0 and values above 255 to 255 |
| ImageNoise.Noised | components/BlueScreenGenerator.tsx:44-51 | the noise pass keeps the buffer length, leaves every alpha byte (index ≡ 3 mod 4) unchanged and puts every red, green and blue byte in [0, 255] |
| ImageNoise.ApplyNoise | components/BlueScreenGenerator.tsx:45-51 | the in-place loop, one pixel per step, leaves the buffer equal to `Noised` of its old contents, so it has all the properties proved of `Noised` |
| ImageNoise.ClampMovesAtMost | components/BlueScreenGenerator.tsx:48-50 | clamping a byte moved by d moves it at most d, in the same direction |
| ImageNoise.NoiseBounded | components/BlueScreenGenerator.tsx:46-51 | with bytes in [0, 255] and offsets in [-25, 25], every byte stays in [0, 255] and moves by at most 25 |
| ImageNoise.NoiseSharedByChannels | components/BlueScreenGenerator.tsx:47-50 | one offset per pixel: without clamping, the red, green and blue bytes of a pixel all move by exactly that pixel's offset |
| ImageNoise.BackgroundPixelNoise | components/BlueScreenGenerator.tsx:29-51 | a background pixel #0101F9 keeps red and green in [0, 26], blue in [224, 255] and alpha 255 |
| CopyShortcut.CopyImageToClipboard | components/BlueScreenGenerator.tsx:62-88 | at most one notification. Success is shown exactly when the image reaches the clipboard, which is exactly when the canvas is there, encodes to a blob and the write succeeds. `write` is called only when there is a blob and the clipboard API exists. Failure is shown, with an error logged, exactly when encoding or the clipboard step throws. Nothing happens when the canvas is missing or encodes to null |
| CopyShortcut.HandleKeyDown | components/BlueScreenGenerator.tsx:55-60 | the default is prevented and a copy starts exactly when Ctrl is held and the key is "c": on that chord the outcome is the copy routine's; any other key press writes nothing and shows nothing |
| CopyShortcut.MetaCDoesNotCopy | components/BlueScreenGenerator.tsx:56 | Command+c (meta without Ctrl) neither prevents the default nor copies |
| CopyShortcut.CtrlShiftCDoesNotCopy | components/BlueScreenGenerator.tsx:56 | Ctrl+Shift+C (key "C") neither prevents the default nor copies |
| CopyShortcut.CopySucceeds | components/BlueScreenGenerator.tsx:66-77 | with the canvas there, a blob from the encoder and a working clipboard, Ctrl+c writes once and shows only the success notification |

## Left out

- React state, `useEffect`, and adding and removing the `keydown` listener (lines 8-18). This is framework lifecycle. The model takes one key event at a time.
- The canvas 2D API: the background fill, font, alignment, `getImageData` and `putImageData` (lines 21-35, 44, 52). These are browser calls. The early return of `renderImage` when the canvas or its context is missing (lines 22, 24) is left out for the same reason. The text drawing is modelled only as the list of `fillText` calls. The image data is modelled only as an integer array. What the glyphs do to the pixels is not modelled.
- `Math.random()` and the floating-point offset (line 47). They are replaced by an integer offset per pixel, passed in. Also left out: the rounding that `Uint8ClampedArray` does when it stores a fractional value.
- ImageNoise.ApplyNoise: requires the buffer length to be four times the number of offsets. Image data always holds four bytes per pixel, and the loop draws one offset per pixel.
- `canvas.toBlob`, `navigator.clipboard.write`, `ClipboardItem`, `console.error` and `toast` are asynchronous browser calls. Only their outcomes are kept: throws, null or blob for encoding; API missing, rejected or succeeded for the clipboard write. The logged error and the notification are kept as records.
- `handleKeyDown` does not wait for the copy to finish. `HandleKeyDown` records the copy's outcome next to the key decision. It does not model when the copy ends or what happens when it interleaves with a new render.
- The JSX layout and styling (lines 90-109). This is UI.
