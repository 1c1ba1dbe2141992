# text-to-video: layout and timing of the karaoke-style word videos

text-to-video turns a script into a narrated video in which the words are
shown twelve to a screen, three to a line, dim at first and lit up one after
the other as the narration reaches them. The repository holds two generators
of this video:

- `generate_video` in `app.py`, the Streamlit tool. Every word is set at
  font size 130 on an image 20 px larger than its ink. The block position
  is the same for every screen: four lines of 1.2 times the font size. The top of
  each word is derived from its line number and its own image height.
- `render_jiggy_video` in `backend/app/generator.py`, the service. Each line
  gets its own font size: the first of 130, 120, ..., 50 at which the ink
  widths of its words plus the 35 px gaps between them are under 1620 px
  (the room between the 150 px margins), and 40 when none is. Each word
  image is 1.1 times as wide and 1.5 times as tall as its ink, with a band
  as tall as the ink reserved in its vertical middle. A line is as tall as
  its tallest image, lines are stacked 40 px apart and the block is centred
  on the 1200 px frame.

Both generators clean the script the same way (`replace("\n", " ")`,
`strip()`, `split()`), return nothing for a script without words (after the
speech call, see "Left out"), share the
narration evenly between the words, and schedule every word the same way. A
word's dim clip (opacity 0.25) lasts the whole screen. Its bright clip starts
at its light-up time, `index * seconds_per_word`, and lasts to the end of the
screen, if any time is left.

The model is in six modules:

- `Seqs` (seqs.dfy): Python's `range(0, n, step)` slicing as `Chunks`, and
  concatenation.
- `PyText` (py_text.dfy): `str.replace`, `str.strip` and `str.split` over
  the whitespace of `str.isspace()`.
- `Layout` (layout.dfy): word images, placed words, clips and screens. Also
  the horizontal cursor and the highlight schedule both generators share.
- `Timeline` (timeline.dfy): the screen loop and the concatenated video, for
  any screen builder.
- `App` (app.dfy): `generate_video`.
- `Generator` (generator.dfy): `create_pil_text_clip` and
  `render_jiggy_video` of the service.

Both generators' loops are imperative methods (`App.GenerateVideo`,
`Generator.RenderJiggyVideo` and the methods they call), each proved equal
to a function. The properties are proved about those functions.

Things from outside the layout are parameters:

- the narration's length, `audioDuration`;
- glyph measurement: a `Metrics` value giving the ink width and height of a
  word at a font size.

A video is a sequence of `Screen`s. Each holds its clips in insertion order
and its duration.

## Model

| member | source | states |
|---|---|---|
| Seqs.Chunks | backend/app/generator.py:81-84 | the slices of a list taken `n` at a time are non-empty, at most `n` long, and all but the last exactly `n` long |
| Seqs.ChunksFlatten | backend/app/generator.py:81-84 | the slices concatenate back to the list: no word is dropped or repeated |
| Seqs.ChunksCount | app.py:454 | there are ceil(len / n) slices |
| Seqs.ChunkAt | app.py:460-461 | slice `i` is `s[i*n : i*n+n]`, clamped to the end as Python slicing does |
| PyText.ReplaceNewlines | app.py:432 | `replace("\n", " ")` keeps the length, turns every newline into a space, leaves no newline and changes no other character |
| PyText.Strip | app.py:432 | `strip()` removes exactly the leading and trailing whitespace: the result is a slice of the text with only whitespace before and after it, and is empty or starts and ends with a non-space character |
| PyText.Split | app.py:438 | every word `split()` yields is non-empty and has no whitespace |
| PyText.SplitDecomposes | app.py:438 | the text is its whitespace gaps and the words of `split()` interleaved, with a non-empty gap between any two words, so every word is a maximal run of non-space characters |
| PyText.SplitUnique | app.py:438 | any cutting of the text into words separated by non-empty whitespace, with whitespace at either end, has exactly the words of `split()` |
| PyText.SplitKeepsText | backend/app/generator.py:61 | splitting loses only whitespace: the words concatenated are the non-space characters of the text |
| PyText.SplitEmptyIff | backend/app/generator.py:61-63 | a text has no words exactly when it is all whitespace |
| PyText.CleaningKeepsWords | backend/app/generator.py:55-61 | replacing newlines and stripping does not change the words of the input |
| PyText.ScriptWordsEmpty | app.py:432-440 | the script has no words exactly when its cleaned text is empty, exactly when the input is all whitespace |
| Layout.SecondsPerWord | app.py:441 | the words share the narration evenly: word count times seconds per word is the narration's length |
| Layout.WordTimesMul | backend/app/generator.py:85 | adding up `n` word-times of `spw` seconds gives `n * spw`, the batch duration |
| Layout.NarrationShared | backend/app/generator.py:64 | the word-times of all the script's words add up to the narration's length |
| Layout.ScreenForLasts | backend/app/generator.py:85-90 | a screen of `n` words lasts `n` word-times |
| Layout.AdvanceGap | backend/app/generator.py:153 | along a line each later word starts at least a word gap after the end of an earlier one, and the next word exactly a word gap after it |
| Layout.EmitWord | backend/app/generator.py:133-151 | a word gets a dim clip from 0 for the whole screen, and a second, bright clip from its light-up time `k * spw` exactly when that is before the screen ends; every clip of the word ends with the screen |
| Layout.ScheduleAppend | backend/app/generator.py:128-154 | scheduling a screen line by line, with the word index carried across lines, is scheduling all its words at once |
| Layout.ScheduleWindows | app.py:491-506 | every clip of a screen's schedule belongs to a placed word and ends with the screen; it is a dim clip from the start or a bright clip of positive length |
| Layout.ScheduleHasWord | app.py:488-506 | every word has its dim clip, and has its bright clip from `k * spw` exactly when time is left after it |
| Layout.ScheduleOrder | backend/app/generator.py:148-151 | reading order: the clips of earlier words come first, then the word's dim clip, then its bright clip |
| Layout.EveryWordBrightens | backend/app/generator.py:141-149 | with positive time per word, each bright clip lasts the `n - k` word-times left and is on the screen |
| Layout.ScreenLightsWord | app.py:496-504 | on a screen of `n` words lasting `n` word-times, every word lights up at `k * spw` and stays bright to the end |
| Layout.DimWordsAppend | backend/app/generator.py:148-151 | the words named by dim clips of two clip lists are those of the first followed by those of the second |
| Layout.DimWordsOfSchedule | backend/app/generator.py:130-154 | a screen's dim clips name its placed words, once each, in reading order |
| Layout.ScreenShowsPlaced | backend/app/generator.py:87-155 | the background adds no dim clip: the screen names exactly its placed words |
| Timeline.DurationOfBatches | backend/app/generator.py:157-164 | screens that each last one word-time per word of their batch last, concatenated, one word-time per word of all batches |
| Timeline.ScreensShowWords | backend/app/generator.py:81-160 | with a builder whose screens show their batch, the screens show every word once, in order, on ceil(words / 12) screens of 1 to 12 words |
| Timeline.ScreensDuration | backend/app/generator.py:85 | with screens lasting one word-time per word, the screens last one word-time per word of the script |
| Timeline.VideoShowsScript | backend/app/generator.py:61-64 | there is a video exactly when the script has a word; then every word is shown once, in order, twelve to a screen |
| Timeline.VideoLastsAsAudio | backend/app/generator.py:163-165 | when the script has a word, the concatenated screens last exactly as long as the narration |
| App.GenerateVideo | app.py:427-522 | `generate_video` returns the video of the model and returns nothing exactly when the cleaned script is empty |
| App.RenderScreens | app.py:460-513 | the screen loop builds one screen per batch of twelve words, in order |
| App.RenderScreen | app.py:461-513 | one pass of the screen loop builds the screen of its batch: the background, then the clips of every word |
| App.RenderLines | app.py:475-508 | the line loop emits the highlight schedule of the batch's placed words |
| App.RenderLine | app.py:476-508 | one pass of the line loop emits the clips of the line's words, each at the cursor reached after the words before it |
| App.RenderImages | app.py:479-484 | each word of a line gets its own image, in order |
| App.RenderWord | app.py:486-506 | every clip of a word is drawn at the cursor on its line's `pos_y` for its own height and ends with the screen; the first is the dim clip from 0, and a bright clip follows exactly when the light-up time is before the end of the screen |
| App.LinesCoverBatch | app.py:475-476 | line `n` starts at batch index `3n` and holds one to three words; together the lines hold the batch, in order |
| App.PlaceInLine | app.py:486-489 | the word at batch index `lineIdx + i` is drawn as word `i` of the line starting at `lineIdx` |
| App.ScheduleLine | app.py:475-508 | appending a line's clips extends the screen's schedule to the end of that line |
| App.PlacementTexts | app.py:479-484 | the placed images of a batch carry its words, in order |
| App.ScreenShowsBatch | app.py:461-513 | a screen shows its batch's words, each once, in reading order |
| App.ScreenLightsEveryWord | app.py:488-504 | with positive time per word, every word's bright clip starts at `k * spw` and lasts to the end of the screen |
| App.VideoShowsScript | app.py:432-522 | there is a video exactly when the script has a word; then it shows every word once, in order, twelve to a screen |
| App.VideoLastsAsAudio | app.py:441-522 | when the script has a word, the video lasts exactly as long as the narration |
| App.PlacedImage | app.py:481-483 | every word is drawn at font size 130 from its own image |
| App.LineRow | app.py:489 | the top of word `i` of line `n` is `start_y + n * (its own height + 50)` |
| App.LineCursor | app.py:477-508 | a line's first word starts at the left margin, each later one 35 px after the right edge of the one before |
| App.RowsCanOverlap | app.py:489 | because a row's offset uses each word's own height, a tall first-line word is overlapped by the word that starts the second line |
| App.RowsCanSwap | app.py:489 | for the same reason a later line can be drawn above an earlier one |
| Generator.CanvasFor | backend/app/generator.py:28-42 | the canvas is at least as large as the ink, and the band reserved for the ink (from `y_pos`, as tall as the ink) lies inside it, centred vertically with the odd pixel below |
| Generator.ShrinkStepsFrom | backend/app/generator.py:102-111 | the search stops at a later size that fits, or at the last one, having rejected every size before it |
| Generator.FontSizeSearch | backend/app/generator.py:99-111 | the chosen size is `130 - 10k` with `k <= 9`, so between 40 and 130; a size above 40 fits, and every larger size tried did not |
| Generator.MeasureLine | backend/app/generator.py:103-107 | `total_w` is the ink widths of the line's words plus a word gap between neighbours |
| Generator.ChooseFontSize | backend/app/generator.py:99-111 | the shrink loop returns the autoscaler's size for the line |
| Generator.MaxHeight | backend/app/generator.py:114-119 | `max_h` is at least every image's height and is the height of one of them, or 0 for no images |
| Generator.RenderJiggyVideo | backend/app/generator.py:45-178 | `render_jiggy_video` returns the video of the model and returns nothing exactly when the cleaned script is empty |
| Generator.RenderScreens | backend/app/generator.py:81-160 | the screen loop builds one screen per batch of twelve words, in order |
| Generator.RenderScreen | backend/app/generator.py:84-160 | one pass of the screen loop: break into lines, add the gaps, centre the block, place and schedule the words |
| Generator.BreakLines | backend/app/generator.py:93-121 | the line-breaking loop yields the batch's lines in order and the sum of their heights |
| Generator.BuildLine | backend/app/generator.py:98-120 | one line: the autoscaler's size, its words' images at that size, and the tallest height |
| Generator.LineImages | backend/app/generator.py:113-119 | each word of a line drawn at the line's size, in order, with the tallest height |
| Generator.PlaceLines | backend/app/generator.py:127-155 | the placement loop emits the highlight schedule of every line's words, `current_y` moving down by line height plus gap |
| Generator.PlaceLine | backend/app/generator.py:130-154 | one line's clips at their screen indices, and the word index advanced by the line's length |
| Generator.LineOfBatch | backend/app/generator.py:97-120 | line `j` is built from the `j`-th three words alone: the autoscaler's size for them, their images in order, and the tallest of their heights |
| Generator.LineCursor | backend/app/generator.py:131-153 | along a line the cursor starts at the margin and each word starts a gap after the previous image; all share the line's top and size |
| Generator.PlacementTexts | backend/app/generator.py:97-155 | the placed words read back as the batch, even when a line overflows at size 40 |
| Generator.LineStartsAt | backend/app/generator.py:128-154 | `global_word_idx`: word `i` of line `j` is word `3j + i` of the batch, placed where its line puts it |
| Generator.LinesDoNotOverlap | backend/app/generator.py:118-155 | below every word of a line there are at least 40 px before the top of any later line |
| Generator.BlockCentred | backend/app/generator.py:121-126 | the block starts at `start_y`, ends `total_block_height` below it, and leaves as much room below as above |
| Generator.ScreenShowsBatch | backend/app/generator.py:84-160 | a screen shows its batch's words, each once, in reading order |
| Generator.ScreenLightsEveryWord | backend/app/generator.py:133-149 | with positive time per word, every word's bright clip starts at `k * spw` and lasts to the end of the screen |
| Generator.VideoShowsScript | backend/app/generator.py:55-178 | there is a video exactly when the script has a word; then it shows every word once, in order, twelve to a screen |
| Generator.VideoLastsAsAudio | backend/app/generator.py:64-165 | when the script has a word, the video lasts exactly as long as the narration |
| Generator.ShrinksOnce | backend/app/generator.py:102-111 | a line too wide at 130 but not at 120 is set at 120 |
| Generator.OverflowKeepsWords | backend/app/generator.py:102-120 | a line too wide even at 40 is still set at 40 and keeps all its words |
| Generator.SizesDifferPerLine | backend/app/generator.py:97-111 | each line is scaled on its own: one line of a screen keeps 130 while the next drops to 40 |

## Left out

- The Streamlit page, its widgets and the progress bar (app.py:204-409, 453, 514-515, 525-582): user interface, not layout.
- The commented-out first version at the top of app.py (lines 1-194): it is not executed.
- Speech synthesis (gTTS), `AudioFileClip`, `ColorClip`, `CompositeVideoClip`, `concatenate_videoclips`, `set_audio` and `write_videofile`: library calls. The narration's length is a parameter, and clips and screens are data.
- The order of the speech call and the empty check: both generators hand the cleaned text to gTTS (app.py:433, generator.py:56) before checking for an empty script (app.py:439-440, generator.py:62-63). The model checks first, because it has no speech. gTTS is not part of this model; if it rejects an empty text, as it is likely to, a script without words ends in that error and the `return None` is never reached.
- Font loading and its fallback (`get_font_object`, `ImageFont.truetype` / `load_default`, generator.py:8-19 and app.py:415-418), and `textbbox`: glyph measurement is the `Metrics` parameter, and the bounding-box origin offset is not modelled.
- Pixel contents: the images are modelled by their text and size only. Colour, opacity blending and drawing the text are not modelled.
- Generator.CanvasFor: the `left` and `top` offsets `textbbox` returns (generator.py:32) are dropped (line 33), and the text is drawn with its origin at `(0, y_pos)` (line 40). The ink, whose bounding box starts `top` pixels below the origin, is therefore shifted `top` pixels down from the reserved band, and can sit low in the image or be cut off at its bottom edge. The model states where the band is, not where the ink lands.
- Generator.CanvasFor: `int(text_h * 1.5)` and `int(text_w * 1.1)` are taken as exact `3h/2` and `11w/10`. A float product could round the other way by one pixel.
- Floating point: seconds, `start_y` and `pos_y` are exact reals, so float rounding is not modelled.
- Output paths, the temporary directory and audio clean-up (generator.py:49-52, 172-174; app.py:428-430): file system.
- backend/app/main.py is not part of this model. It calls `render_jiggy_video` with four arguments while the function takes two, so that call would fail.
- Generator: the fit test uses the summed ink widths (generator.py:103-108), while the cursor advances by the padded image widths (line 153). A line that fits can therefore be drawn past the right margin; the model keeps both as written.
