/** The service's generator, `render_jiggy_video` in
    backend/app/generator.py: each line of three words gets its own font
    size, the first of 130, 120, ..., 50 at which the ink widths of its
    words plus the gaps between them are under 1620 px, and 40 when none
    is; a line is as tall as its tallest word image, the lines are stacked
    40 px apart and the block is centred on the frame. */
module Generator {
  import opened Seqs
  import opened PyText
  import opened Layout
  import Timeline

  const FrameWidth := 1920
  const RightMargin := 150
  /** `MAX_TEXT_WIDTH`, the room between the margins: 1620 px. */
  const MaxTextWidth := FrameWidth - (LeftMargin + RightMargin)
  const BaseFontSize := 130
  const MinFontSize := 40
  const FontStep := 10
  /** How many times the autoscaler can shrink a line: 130 down to 40. */
  const MaxShrinks := 9
  const LineGap := 40

  // ---------------------------------------------------------------------
  // create_pil_text_clip

  /** The transparent image a word is drawn on: `width` by `height`, with
      the text drawn from the point `(0, inkTop)`. */
  datatype Canvas = Canvas(width: nat, height: nat, inkTop: nat)

  /** The canvas for ink `textW` wide and `textH` tall: `int(text_w * 1.1)`
      by `int(text_h * 1.5)`, the text drawn from `y = (final_h - text_h) // 2`.
      The canvas is at least as large as the ink, and the band of `textH`
      rows reserved for the ink from `inkTop` down lies inside it, centred
      vertically with the spare row (if any) below it. */
  function CanvasFor(textW: nat, textH: nat): (c: Canvas)
    ensures textW <= c.width && textH <= c.height
    ensures c.inkTop + textH <= c.height
    ensures c.inkTop <= c.height - (c.inkTop + textH) <= c.inkTop + 1
  {
    var finalH := textH * 3 / 2;
    var finalW := textW * 11 / 10;
    Canvas(finalW, finalH, (finalH - textH) / 2)
  }

  /** The image of `word` drawn at font size `size`. */
  function TextClip(word: string, size: int, m: Metrics): WordImage
  {
    var c := CanvasFor(m.inkWidth(word, size), m.inkHeight(word, size));
    WordImage(word, c.width, c.height)
  }

  function TextClips(words: seq<string>, size: int, m: Metrics): seq<WordImage>
  {
    seq(|words|, j requires 0 <= j < |words| => TextClip(words[j], size, m))
  }

  // ---------------------------------------------------------------------
  // The font autoscaler

  /** The summed ink widths of `words` at font size `size`. */
  function InkWidths(words: seq<string>, size: int, m: Metrics): nat
  {
    if words == [] then 0
    else InkWidths(words[..|words| - 1], size, m) + m.inkWidth(words[|words| - 1], size)
  }

  /** `total_w`: the ink widths plus a word gap between neighbours. */
  function LineWidth(words: seq<string>, size: int, m: Metrics): int
  {
    InkWidths(words, size, m) + (|words| - 1) * WordGap
  }

  predicate Fits(words: seq<string>, size: int, m: Metrics)
  {
    LineWidth(words, size, m) < MaxTextWidth
  }

  /** The font size the autoscaler tries after `step` shrinks. */
  function TriedSize(step: nat): int
  {
    BaseFontSize - FontStep * step
  }

  /** The number of shrinks after which the search from `step` stops: at the
      first size that fits, or after the last shrink, down to 40. */
  function ShrinkSteps(words: seq<string>, step: nat, m: Metrics): nat
    requires step <= MaxShrinks
    decreases MaxShrinks - step
  {
    if step < MaxShrinks && !Fits(words, TriedSize(step), m) then ShrinkSteps(words, step + 1, m) else step
  }

  /** The font size chosen for a line. */
  function FontSizeFor(words: seq<string>, m: Metrics): int
  {
    TriedSize(ShrinkSteps(words, 0, m))
  }

  lemma TriedSizes(step: nat)
    ensures TriedSize(step + 1) == TriedSize(step) - FontStep
    ensures TriedSize(step) > MinFontSize <==> step < MaxShrinks
    ensures step <= MaxShrinks ==> MinFontSize <= TriedSize(step) <= BaseFontSize
  {
  }

  /** The search from `step` stops at a later step that fits, or at the last
      one, having measured and rejected every step before it. */
  lemma {:induction false} ShrinkStepsFrom(words: seq<string>, step: nat, m: Metrics)
    requires step <= MaxShrinks
    ensures var k := ShrinkSteps(words, step, m);
      && step <= k <= MaxShrinks
      && (k < MaxShrinks ==> Fits(words, TriedSize(k), m))
      && (forall j :: step <= j < k ==> !Fits(words, TriedSize(j), m))
    decreases MaxShrinks - step
  {
    if step < MaxShrinks && !Fits(words, TriedSize(step), m) {
      ShrinkStepsFrom(words, step + 1, m);
    }
  }

  /** The chosen size is 130 - 10k for some k from 0 to 9, so between 40 and
      130. A size above 40 fits between the margins, and every larger size
      that was tried did not. Size 40 is taken without being measured. */
  lemma FontSizeSearch(words: seq<string>, m: Metrics)
    ensures var k := ShrinkSteps(words, 0, m);
      var s := FontSizeFor(words, m);
      && k <= MaxShrinks && s == BaseFontSize - FontStep * k
      && MinFontSize <= s <= BaseFontSize
      && (s > MinFontSize ==> Fits(words, s, m))
      && (forall j :: 0 <= j < k ==> !Fits(words, TriedSize(j), m))
  {
    ShrinkStepsFrom(words, 0, m);
    TriedSizes(ShrinkSteps(words, 0, m));
  }

  /** The measuring pass of the autoscaler at one font size. */
  method MeasureLine(lineWords: seq<string>, size: int, m: Metrics) returns (totalW: int)
    ensures totalW == LineWidth(lineWords, size, m)
  {
    totalW := 0;
    for j := 0 to |lineWords|
      invariant totalW == InkWidths(lineWords[..j], size, m)
    {
      assert lineWords[..j + 1][..j] == lineWords[..j];
      totalW := totalW + m.inkWidth(lineWords[j], size);
    }
    assert lineWords[..|lineWords|] == lineWords;
    totalW := totalW + (|lineWords| - 1) * WordGap;
  }

  /** The autoscaler: shrink by 10 from 130 while the line does not fit and
      the size is above 40. */
  method ChooseFontSize(lineWords: seq<string>, m: Metrics) returns (size: int)
    ensures size == FontSizeFor(lineWords, m)
  {
    size := BaseFontSize;
    var lineFits := false;
    ghost var step := 0;
    while !lineFits && size > MinFontSize
      invariant step <= MaxShrinks && size == TriedSize(step)
      invariant ShrinkSteps(lineWords, step, m) == ShrinkSteps(lineWords, 0, m)
      invariant lineFits ==> step < MaxShrinks && Fits(lineWords, size, m)
      decreases !lineFits, MaxShrinks - step
    {
      TriedSizes(step);
      var totalW := MeasureLine(lineWords, size, m);
      if totalW < MaxTextWidth {
        lineFits := true;
      } else {
        size := size - FontStep;
        step := step + 1;
      }
    }
    TriedSizes(step);
  }

  // ---------------------------------------------------------------------
  // Lines and the text block

  /** An entry of `lines_data`: the font size chosen for a line, the images
      of its words in order, and the line's height. */
  datatype Line = Line(fontSize: int, images: seq<WordImage>, height: nat)

  /** `max_h`: the height of the tallest image, 0 for no images. */
  function MaxHeight(images: seq<WordImage>): (h: nat)
    ensures forall i :: 0 <= i < |images| ==> images[i].height <= h
    ensures images == [] ==> h == 0
    ensures images != [] ==> exists i :: 0 <= i < |images| && images[i].height == h
  {
    if images == [] then 0
    else
      var h := MaxHeight(images[..|images| - 1]);
      var last := images[|images| - 1];
      if last.height > h then last.height else h
  }

  /** The line built from `words`: its own font size, its images at that
      size, and the height of the tallest. */
  function LineOf(words: seq<string>, m: Metrics): Line
  {
    var size := FontSizeFor(words, m);
    var images := TextClips(words, size, m);
    Line(size, images, MaxHeight(images))
  }

  /** One line per group of words, in order. */
  function LinesOf(groups: seq<seq<string>>, m: Metrics): (lines: seq<Line>)
    ensures |lines| == |groups|
  {
    if groups == [] then [] else LinesOf(groups[..|groups| - 1], m) + [LineOf(groups[|groups| - 1], m)]
  }

  /** The lines of a batch: its words three at a time, in order. */
  function Lines(batch: seq<string>, m: Metrics): seq<Line>
  {
    LinesOf(Chunks(batch, WordsPerLine), m)
  }

  /** The summed heights of `lines`. */
  function LinesHeight(lines: seq<Line>): nat
  {
    if lines == [] then 0 else LinesHeight(lines[..|lines| - 1]) + lines[|lines| - 1].height
  }

  /** `total_block_height`: the line heights plus a line gap between
      neighbouring lines. */
  function BlockHeight(lines: seq<Line>): nat
  {
    LinesHeight(lines) + if |lines| > 1 then (|lines| - 1) * LineGap else 0
  }

  /** `start_y`: the top of a block of `lines` centred on the frame. */
  function StartY(lines: seq<Line>): real
  {
    (FrameHeight - BlockHeight(lines)) as real / 2.0
  }

  /** How far `current_y` has moved down once `lines` are placed: each line's
      height plus the line gap. */
  function Offset(lines: seq<Line>): nat
  {
    if lines == [] then 0 else Offset(lines[..|lines| - 1]) + lines[|lines| - 1].height + LineGap
  }

  /** The top of line `j` when the block starts at `y0`. */
  function LineTop(lines: seq<Line>, y0: real, j: nat): real
    requires j <= |lines|
  {
    y0 + Offset(lines[..j]) as real
  }

  // ---------------------------------------------------------------------
  // Placement and the screen

  /** The words of a line placed with its top at `y`: `current_x` starts at
      the left margin and moves past each image and a word gap. */
  function LinePlaced(line: Line, y: real): seq<Placed>
  {
    seq(|line.images|, i requires 0 <= i < |line.images| =>
      Placed(line.images[i], line.fontSize, LeftMargin + Advance(line.images[..i]), y))
  }

  /** The placed words of the first `j` lines of a block that starts at `y0`,
      in reading order. */
  function PlacedUpTo(lines: seq<Line>, y0: real, j: nat): seq<Placed>
    requires j <= |lines|
  {
    if j == 0 then [] else PlacedUpTo(lines, y0, j - 1) + LinePlaced(lines[j - 1], LineTop(lines, y0, j - 1))
  }

  /** Every word of a batch, placed. */
  function Placement(batch: seq<string>, m: Metrics): seq<Placed>
  {
    var lines := Lines(batch, m);
    PlacedUpTo(lines, StartY(lines), |lines|)
  }

  /** One screen: the black background for the whole batch, then the word
      clips in reading order. */
  function ScreenOf(batch: seq<string>, spw: real, m: Metrics): Screen
  {
    ScreenFor(Placement(batch, m), |batch|, spw)
  }

  /** The screen builder of `render_jiggy_video`. */
  function Builder(m: Metrics): (build: Timeline.ScreenBuilder)
    ensures forall b: seq<string>, t: real :: build(b, t) == ScreenOf(b, t, m)
  {
    (b: seq<string>, t: real) => ScreenOf(b, t, m)
  }

  /** The video `render_jiggy_video` composes for a script narrated in
      `audioDuration` seconds, or None when the script has no words. */
  function Video(text: string, audioDuration: real, m: Metrics): Option<seq<Screen>>
  {
    Timeline.VideoBy(text, audioDuration, Builder(m))
  }

  // ---------------------------------------------------------------------
  // render_jiggy_video

  /** `render_jiggy_video`: split the script, time the words, and build the
      screens batch by batch. */
  method RenderJiggyVideo(textInput: string, audioDuration: real, m: Metrics) returns (result: Option<seq<Screen>>)
    ensures result == Video(textInput, audioDuration, m)
    ensures result.None? <==> Strip(ReplaceNewlines(textInput)) == []
  {
    var cleanText := Strip(ReplaceNewlines(textInput));
    var words := Split(cleanText);
    if |words| == 0 {
      return None;
    }
    var secondsPerWord := audioDuration / |words| as real;
    var finalClips := RenderScreens(words, secondsPerWord, m);
    result := if |finalClips| > 0 then Some(finalClips) else None;
  }

  /** The screen loop: one screen per batch of twelve words, in order. */
  method RenderScreens(words: seq<string>, secondsPerWord: real, m: Metrics) returns (finalClips: seq<Screen>)
    ensures finalClips == Timeline.ScreensBy(Chunks(words, WordsPerScreen), secondsPerWord, Builder(m))
  {
    ghost var batches := Chunks(words, WordsPerScreen);
    finalClips := [];
    var chunkIndex := 0;
    ghost var screenNo := 0;
    while chunkIndex < |words|
      invariant chunkIndex == screenNo * WordsPerScreen && screenNo <= |batches|
      invariant finalClips == Timeline.ScreensBy(batches[..screenNo], secondsPerWord, Builder(m))
    {
      ChunkStep(words, WordsPerScreen, screenNo, chunkIndex);
      var batchWords := words[chunkIndex .. Min(chunkIndex + WordsPerScreen, |words|)];
      var screen := RenderScreen(batchWords, secondsPerWord, m);
      Timeline.ScreensByStep(batches, secondsPerWord, Builder(m), screenNo);
      finalClips := finalClips + [screen];
      chunkIndex := chunkIndex + WordsPerScreen;
      screenNo := screenNo + 1;
    }
    ChunkStop(words, WordsPerScreen, screenNo, chunkIndex);
    assert batches[..screenNo] == batches;
  }

  /** The body of the screen loop for one batch: break it into lines, centre
      the block, then place and schedule the words line by line. */
  method RenderScreen(batchWords: seq<string>, secondsPerWord: real, m: Metrics) returns (screen: Screen)
    ensures screen == ScreenOf(batchWords, secondsPerWord, m)
  {
    var batchDuration := |batchWords| as real * secondsPerWord;
    var bgClip := Background(batchDuration);
    var linesData, totalBlockHeight := BreakLines(batchWords, m);
    if |linesData| > 1 {
      totalBlockHeight := totalBlockHeight + (|linesData| - 1) * LineGap;
    }
    assert totalBlockHeight == BlockHeight(linesData);
    var startY := (FrameHeight - totalBlockHeight) as real / 2.0;
    assert startY == StartY(linesData);
    var wordClips := PlaceLines(linesData, startY, secondsPerWord, batchDuration);
    assert wordClips == Schedule(Placement(batchWords, m), secondsPerWord, batchDuration);
    screen := Screen([bgClip] + wordClips, batchDuration);
  }

  /** The line-breaking loop: every three words become a line with its own
      font size; the running total of line heights is kept. */
  method BreakLines(batchWords: seq<string>, m: Metrics) returns (linesData: seq<Line>, totalBlockHeight: nat)
    ensures linesData == Lines(batchWords, m)
    ensures totalBlockHeight == LinesHeight(linesData)
  {
    ghost var cs := Chunks(batchWords, WordsPerLine);
    linesData := [];
    totalBlockHeight := 0;
    var lineIdx := 0;
    ghost var lineNo := 0;
    while lineIdx < |batchWords|
      invariant lineIdx == lineNo * WordsPerLine && lineNo <= |cs|
      invariant linesData == LinesOf(cs[..lineNo], m)
      invariant totalBlockHeight == LinesHeight(linesData)
    {
      ChunkStep(batchWords, WordsPerLine, lineNo, lineIdx);
      var lineWords := batchWords[lineIdx .. Min(lineIdx + WordsPerLine, |batchWords|)];
      var line := BuildLine(lineWords, m);
      LinesStep(cs, lineNo, m);
      HeightStep(linesData, line);
      linesData := linesData + [line];
      totalBlockHeight := totalBlockHeight + line.height;
      lineIdx := lineIdx + WordsPerLine;
      lineNo := lineNo + 1;
    }
    ChunkStop(batchWords, WordsPerLine, lineNo, lineIdx);
    assert cs[..lineNo] == cs;
  }

  /** One pass of the line-breaking loop: choose the line's font size, then
      draw its words at that size, keeping the tallest height. */
  method BuildLine(lineWords: seq<string>, m: Metrics) returns (line: Line)
    ensures line == LineOf(lineWords, m)
  {
    var currentFontSize := ChooseFontSize(lineWords, m);
    var lineClips, maxH := LineImages(lineWords, currentFontSize, m);
    line := Line(currentFontSize, lineClips, maxH);
  }

  lemma LinesStep(groups: seq<seq<string>>, k: nat, m: Metrics)
    requires k < |groups|
    ensures LinesOf(groups[..k + 1], m) == LinesOf(groups[..k], m) + [LineOf(groups[k], m)]
  {
    assert groups[..k + 1][..k] == groups[..k];
  }

  lemma HeightStep(lines: seq<Line>, line: Line)
    ensures LinesHeight(lines + [line]) == LinesHeight(lines) + line.height
  {
    assert (lines + [line])[..|lines|] == lines;
  }

  /** The images of a line's words at the chosen size, and `max_h`. */
  method LineImages(lineWords: seq<string>, size: int, m: Metrics) returns (lineClips: seq<WordImage>, maxH: nat)
    ensures lineClips == TextClips(lineWords, size, m)
    ensures maxH == MaxHeight(lineClips)
  {
    lineClips := [];
    maxH := 0;
    for j := 0 to |lineWords|
      invariant lineClips == TextClips(lineWords[..j], size, m)
      invariant maxH == MaxHeight(lineClips)
    {
      var image := TextClip(lineWords[j], size, m);
      assert (lineClips + [image])[..|lineClips|] == lineClips;
      lineClips := lineClips + [image];
      if image.height > maxH {
        maxH := image.height;
      }
    }
    assert lineWords[..|lineWords|] == lineWords;
  }

  /** The placement loop: `current_y` starts at `startY` and moves down by
      each line's height and the line gap; `global_word_idx` counts the
      words of the screen across lines. */
  method PlaceLines(linesData: seq<Line>, startY: real, secondsPerWord: real, batchDuration: real)
    returns (wordClips: seq<Clip>)
    ensures wordClips == Schedule(PlacedUpTo(linesData, startY, |linesData|), secondsPerWord, batchDuration)
  {
    var currentY := startY;
    var globalWordIdx := 0;
    wordClips := [];
    for j := 0 to |linesData|
      invariant currentY == LineTop(linesData, startY, j)
      invariant globalWordIdx == |PlacedUpTo(linesData, startY, j)|
      invariant wordClips == Schedule(PlacedUpTo(linesData, startY, j), secondsPerWord, batchDuration)
    {
      var lineClips;
      ghost var before := PlacedUpTo(linesData, startY, j);
      lineClips, globalWordIdx := PlaceLine(linesData[j], currentY, globalWordIdx, secondsPerWord, batchDuration);
      ScheduleAppend(before, LinePlaced(linesData[j], currentY), secondsPerWord, batchDuration);
      wordClips := wordClips + lineClips;
      assert linesData[..j + 1][..j] == linesData[..j];
      currentY := currentY + (linesData[j].height + LineGap) as real;
    }
  }

  /** The words of one line: `current_x` starts at the left margin, and each
      word's clips are scheduled at its screen index. */
  method PlaceLine(line: Line, currentY: real, firstIdx: nat, secondsPerWord: real, batchDuration: real)
    returns (lineClips: seq<Clip>, nextIdx: nat)
    ensures lineClips == ScheduleFrom(LinePlaced(line, currentY), firstIdx, secondsPerWord, batchDuration)
    ensures nextIdx == firstIdx + |line.images|
  {
    ghost var placed := LinePlaced(line, currentY);
    var currentX := LeftMargin;
    var globalWordIdx := firstIdx;
    lineClips := [];
    for i := 0 to |line.images|
      invariant currentX == LeftMargin + Advance(line.images[..i])
      invariant globalWordIdx == firstIdx + i
      invariant lineClips == ScheduleFrom(placed[..i], firstIdx, secondsPerWord, batchDuration)
    {
      var image := line.images[i];
      var wordClips := EmitWord(Placed(image, line.fontSize, currentX, currentY), globalWordIdx, secondsPerWord, batchDuration);
      assert placed[..i + 1][..i] == placed[..i];
      lineClips := lineClips + wordClips;
      AdvanceGap(line.images, i, i + 1);
      currentX := currentX + image.width + WordGap;
      globalWordIdx := globalWordIdx + 1;
    }
    assert placed[..|line.images|] == placed;
    nextIdx := globalWordIdx;
  }

  // ---------------------------------------------------------------------
  // Properties of a screen

  lemma {:induction false} LinesOfAt(groups: seq<seq<string>>, m: Metrics, j: nat)
    requires j < |groups|
    ensures LinesOf(groups, m)[j] == LineOf(groups[j], m)
    decreases |groups|
  {
    if j < |groups| - 1 {
      LinesOfAt(groups[..|groups| - 1], m, j);
    }
  }

  /** Line `j` of a batch is built from the batch's `j`-th group of three
      words alone: its font size is the autoscaler's choice for those words,
      its images are theirs at that size, in order, and its height is that of
      the tallest of them. */
  lemma LineOfBatch(batch: seq<string>, m: Metrics, j: nat)
    requires j < |Lines(batch, m)|
    ensures var line := Lines(batch, m)[j];
      var words := Chunks(batch, WordsPerLine)[j];
      && line.fontSize == FontSizeFor(words, m)
      && |line.images| == |words| && 0 < |words| <= WordsPerLine
      && (forall i :: 0 <= i < |words| ==> line.images[i] == TextClip(words[i], line.fontSize, m))
      && (forall i :: 0 <= i < |words| ==> line.images[i].height <= line.height)
      && (exists i :: 0 <= i < |words| && line.images[i].height == line.height)
  {
    LinesOfAt(Chunks(batch, WordsPerLine), m, j);
  }

  /** Along a line the cursor starts at the left margin and each word starts
      a word gap after the end of the one before; every word of the line
      shares its top `y` and its font size. */
  lemma LineCursor(line: Line, y: real, i: nat)
    requires i < |line.images|
    ensures var p := LinePlaced(line, y)[i];
      && p.image == line.images[i] && p.fontSize == line.fontSize && p.y == y
      && (i == 0 ==> p.x == LeftMargin)
      && (i > 0 ==> p.x == LinePlaced(line, y)[i - 1].x + line.images[i - 1].width + WordGap)
  {
    if i > 0 {
      AdvanceGap(line.images, i - 1, i);
    }
  }

  /** Each word placed on a line reads back as its word. */
  lemma LineTexts(words: seq<string>, m: Metrics, y: real)
    ensures Texts(LinePlaced(LineOf(words, m), y)) == words
  {
  }

  lemma {:induction false} PlacedTexts(groups: seq<seq<string>>, m: Metrics, y0: real, j: nat)
    requires j <= |groups|
    ensures Texts(PlacedUpTo(LinesOf(groups, m), y0, j)) == Flatten(groups[..j])
    decreases j
  {
    if j > 0 {
      PlacedTexts(groups, m, y0, j - 1);
      PlacedTextsStep(groups, m, y0, j);
      FlattenPrefix(groups, j);
    }
  }

  lemma PlacedTextsStep(groups: seq<seq<string>>, m: Metrics, y0: real, j: nat)
    requires 0 < j <= |groups|
    ensures Texts(PlacedUpTo(LinesOf(groups, m), y0, j)) == Texts(PlacedUpTo(LinesOf(groups, m), y0, j - 1)) + groups[j - 1]
  {
    var lines := LinesOf(groups, m);
    LinesOfAt(groups, m, j - 1);
    LineTexts(groups[j - 1], m, LineTop(lines, y0, j - 1));
    TextsAppend(PlacedUpTo(lines, y0, j - 1), LinePlaced(lines[j - 1], LineTop(lines, y0, j - 1)));
  }

  /** The placed words of a screen read back as its batch: no word is
      dropped, split or repeated, even on a line that overflows. */
  lemma PlacementTexts(batch: seq<string>, m: Metrics)
    ensures Texts(Placement(batch, m)) == batch
  {
    var cs := Chunks(batch, WordsPerLine);
    var lines := Lines(batch, m);
    PlacedTexts(cs, m, StartY(lines), |cs|);
    assert cs[..|cs|] == cs;
    ChunksFlatten(batch, WordsPerLine);
  }

  lemma PlacementLength(batch: seq<string>, m: Metrics)
    ensures |Placement(batch, m)| == |batch|
  {
    PlacementTexts(batch, m);
    assert |Texts(Placement(batch, m))| == |Placement(batch, m)|;
  }

  /** The placed words of the first `a` lines start the placed words of the
      first `b` lines. */
  lemma {:induction false} PlacedPrefix(lines: seq<Line>, y0: real, a: nat, b: nat)
    requires a <= b <= |lines|
    ensures |PlacedUpTo(lines, y0, a)| <= |PlacedUpTo(lines, y0, b)|
    ensures PlacedUpTo(lines, y0, b)[..|PlacedUpTo(lines, y0, a)|] == PlacedUpTo(lines, y0, a)
    decreases b
  {
    if a < b {
      PlacedPrefix(lines, y0, a, b - 1);
    }
  }

  /** Word `i` of line `j` follows the words of the lines before it. */
  lemma PlacedOfLine(lines: seq<Line>, y0: real, j: nat, i: nat)
    requires j < |lines| && i < |lines[j].images|
    ensures |PlacedUpTo(lines, y0, j)| + i < |PlacedUpTo(lines, y0, |lines|)|
    ensures PlacedUpTo(lines, y0, |lines|)[|PlacedUpTo(lines, y0, j)| + i]
            == LinePlaced(lines[j], LineTop(lines, y0, j))[i]
  {
    var before := PlacedUpTo(lines, y0, j);
    var line := LinePlaced(lines[j], LineTop(lines, y0, j));
    var upTo := PlacedUpTo(lines, y0, j + 1);
    assert upTo == before + line;
    assert upTo[|before| + i] == line[i];
    PlacedPrefix(lines, y0, j + 1, |lines|);
  }

  /** Every line before the last holds three words. */
  lemma LineStart(batch: seq<string>, m: Metrics, j: nat)
    requires j < |Lines(batch, m)|
    ensures var lines := Lines(batch, m);
      |PlacedUpTo(lines, StartY(lines), j)| == j * WordsPerLine
  {
    var cs := Chunks(batch, WordsPerLine);
    var lines := Lines(batch, m);
    PlacedTexts(cs, m, StartY(lines), j);
    assert |Texts(PlacedUpTo(lines, StartY(lines), j))| == |PlacedUpTo(lines, StartY(lines), j)|;
    ChunksBefore(batch, WordsPerLine, j);
  }

  /** `global_word_idx` counts the words of a screen across its lines: word
      `i` of line `j` is word `3 * j + i` of the batch, drawn where its line
      puts it. */
  lemma LineStartsAt(batch: seq<string>, m: Metrics, j: nat, i: nat)
    requires j < |Lines(batch, m)| && i < |Lines(batch, m)[j].images|
    ensures var lines := Lines(batch, m);
      && j * WordsPerLine + i < |Placement(batch, m)|
      && Placement(batch, m)[j * WordsPerLine + i] == LinePlaced(lines[j], LineTop(lines, StartY(lines), j))[i]
  {
    var lines := Lines(batch, m);
    LineStart(batch, m, j);
    PlacedOfLine(lines, StartY(lines), j, i);
  }

  /** Moving down past lines `a` up to `b` moves at least past line `a` and a
      line gap. */
  lemma {:induction false} OffsetGrows(lines: seq<Line>, a: nat, b: nat)
    requires a < b <= |lines|
    ensures Offset(lines[..a]) + lines[a].height + LineGap <= Offset(lines[..b])
    decreases b
  {
    assert lines[..b][..b - 1] == lines[..b - 1];
    if a < b - 1 {
      OffsetGrows(lines, a, b - 1);
    }
  }

  /** Lines never overlap: below every word of a line there are at least 40
      px before the top of any later line, because a line is as tall as its
      tallest word. */
  lemma LinesDoNotOverlap(batch: seq<string>, m: Metrics, j: nat, j2: nat, i: nat)
    requires j < j2 < |Lines(batch, m)| && i < |Lines(batch, m)[j].images|
    ensures var lines := Lines(batch, m);
      var p := LinePlaced(lines[j], LineTop(lines, StartY(lines), j))[i];
      p.y + p.image.height as real + LineGap as real <= LineTop(lines, StartY(lines), j2)
  {
    var lines := Lines(batch, m);
    LineOfBatch(batch, m, j);
    OffsetGrows(lines, j, j2);
  }

  /** Below the last line the block has moved down its whole height. */
  lemma {:induction false} OffsetOfBlock(lines: seq<Line>)
    requires |lines| > 0
    ensures Offset(lines[..|lines| - 1]) + lines[|lines| - 1].height == BlockHeight(lines)
    decreases |lines|
  {
    var n := |lines|;
    if n == 1 {
      assert lines[..0] == [];
      assert Offset(lines[..0]) == 0 && LinesHeight(lines[..0]) == 0;
      assert LinesHeight(lines) == LinesHeight(lines[..0]) + lines[0].height;
    } else {
      var front := lines[..n - 1];
      OffsetOfBlock(front);
      assert front[..n - 2] == lines[..n - 2];
      assert Offset(front) == Offset(lines[..n - 2]) + lines[n - 2].height + LineGap;
      assert LinesHeight(lines) == LinesHeight(front) + lines[n - 1].height;
      assert (if n - 1 > 1 then (n - 2) * LineGap else 0) + LineGap == (n - 1) * LineGap;
    }
  }

  /** The block is centred: it starts at `start_y`, its last line ends
      `total_block_height` below that, and the space left below it equals
      the space above it. */
  lemma BlockCentred(lines: seq<Line>)
    requires |lines| > 0
    ensures var n := |lines|;
      var bottom := LineTop(lines, StartY(lines), n - 1) + lines[n - 1].height as real;
      && LineTop(lines, StartY(lines), 0) == StartY(lines)
      && bottom - StartY(lines) == BlockHeight(lines) as real
      && FrameHeight as real - bottom == StartY(lines)
  {
    OffsetOfBlock(lines);
    assert lines[..0] == [];
  }

  /** A screen shows the words of its batch, each once, in reading order. */
  lemma ScreenShowsBatch(batch: seq<string>, spw: real, m: Metrics)
    ensures DimWords(ScreenOf(batch, spw, m).clips) == batch
  {
    var d := |batch| as real * spw;
    assert ScreenOf(batch, spw, m).clips == ScreenClips(Placement(batch, m), spw, d);
    ScreenShowsPlaced(Placement(batch, m), spw, d);
    PlacementTexts(batch, m);
  }

  /** With positive time per word, the word at screen index `k` lights up
      at `k * spw` and stays bright to the end of the screen. */
  lemma ScreenLightsEveryWord(batch: seq<string>, spw: real, m: Metrics, k: nat)
    requires spw > 0.0 && k < |batch|
    ensures var s := ScreenOf(batch, spw, m);
      var t := k as real * spw;
      && k < |Placement(batch, m)|
      && s.duration - t > 0.0
      && Word(Placement(batch, m)[k], t, s.duration - t, BrightOpacity) in s.clips
  {
    var ps := Placement(batch, m);
    PlacementLength(batch, m);
    assert ScreenOf(batch, spw, m) == ScreenFor(ps, |batch|, spw);
    ScreenLightsWord(ps, |batch|, spw, k);
  }

  // ---------------------------------------------------------------------
  // Properties of the video

  /** There is a video exactly when the script has a word; then it shows
      every word of the script once, in order, on ceil(words / 12) screens
      of one to twelve words each. */
  lemma VideoShowsScript(text: string, audioDuration: real, m: Metrics)
    ensures Video(text, audioDuration, m).Some? <==> ScriptWords(text) != []
    ensures Video(text, audioDuration, m).Some? ==>
      var screens := Video(text, audioDuration, m).value;
      var n := |ScriptWords(text)|;
      && Timeline.ShownWords(screens) == ScriptWords(text)
      && (|screens| - 1) * WordsPerScreen < n <= |screens| * WordsPerScreen
      && (forall i :: 0 <= i < |screens| ==> 1 <= |DimWords(screens[i].clips)| <= WordsPerScreen)
  {
    forall b: seq<string>, t: real
      ensures DimWords(Builder(m)(b, t).clips) == b
    {
      ScreenShowsBatch(b, t, m);
    }
    Timeline.VideoShowsScript(text, audioDuration, Builder(m));
  }

  /** When the script has a word, the video lasts exactly as long as the
      narration. */
  lemma VideoLastsAsAudio(text: string, audioDuration: real, m: Metrics)
    requires ScriptWords(text) != []
    ensures Video(text, audioDuration, m).Some?
    ensures Timeline.VideoDuration(Video(text, audioDuration, m).value) == audioDuration
  {
    forall b: seq<string>, t: real
      ensures Builder(m)(b, t).duration == WordTimes(|b|, t)
    {
      ScreenForLasts(Placement(b, m), |b|, t);
    }
    Timeline.VideoLastsAsAudio(text, audioDuration, Builder(m));
  }

  // ---------------------------------------------------------------------
  // The autoscaler on example lines

  /** Glyph measurement for the examples: "Long" is 13 px wide per point of
      font size, "Wide" is 2000 px wide at every size, any other word 10 px;
      every word is 10 px tall. */
  function ExampleMetrics(): (m: Metrics)
    ensures forall size: int :: size > 0 ==> m.inkWidth("Long", size) == 13 * size
    ensures forall size: int :: m.inkWidth("Wide", size) == 2000
    ensures forall w: string, size: int :: w != "Long" && w != "Wide" ==> m.inkWidth(w, size) == 10
    ensures forall w: string, size: int :: m.inkHeight(w, size) == 10
  {
    Metrics(
      (w: string, size: int) => if w == "Long" && size > 0 then 13 * size else if w == "Wide" then 2000 else 10,
      (w: string, size: int) => 10)
  }

  /** A line one step too wide at 130 is set at 120. */
  lemma ShrinksOnce()
    ensures !Fits(["Long"], 130, ExampleMetrics())
    ensures Fits(["Long"], 120, ExampleMetrics())
    ensures FontSizeFor(["Long"], ExampleMetrics()) == 120
  {
    var m := ExampleMetrics();
    var words := ["Long"];
    assert words[..0] == [];
    assert InkWidths(words, 130, m) == 1690;
    assert InkWidths(words, 120, m) == 1560;
    assert ShrinkSteps(words, 1, m) == 1;
  }

  /** A line too wide at every size is set at 40 even though it does not fit
      there, and keeps all of its words. */
  lemma OverflowKeepsWords()
    ensures !Fits(["Wide", "d", "e"], MinFontSize, ExampleMetrics())
    ensures FontSizeFor(["Wide", "d", "e"], ExampleMetrics()) == MinFontSize
    ensures Texts(LinePlaced(LineOf(["Wide", "d", "e"], ExampleMetrics()), 0.0)) == ["Wide", "d", "e"]
  {
    var m := ExampleMetrics();
    var words := ["Wide", "d", "e"];
    forall size: int
      ensures !Fits(words, size, m)
    {
      InkWidthsOfThree("Wide", "d", "e", size, m);
    }
    ShrinkStepsFrom(words, 0, m);
    LineTexts(words, m, 0.0);
  }

  lemma InkWidthsOfThree(a: string, b: string, c: string, size: int, m: Metrics)
    ensures InkWidths([a, b, c], size, m) == m.inkWidth(a, size) + m.inkWidth(b, size) + m.inkWidth(c, size)
  {
    var words := [a, b, c];
    assert words[..2] == [a, b] && [a, b][..1] == [a] && [a][..0] == [];
    assert InkWidths([a], size, m) == m.inkWidth(a, size);
    assert InkWidths([a, b], size, m) == m.inkWidth(a, size) + m.inkWidth(b, size);
  }

  /** A line of three short words fits at 130. */
  lemma ShortLineKeepsBase()
    ensures FontSizeFor(["a", "b", "c"], ExampleMetrics()) == BaseFontSize
  {
    InkWidthsOfThree("a", "b", "c", BaseFontSize, ExampleMetrics());
  }

  lemma ExampleChunks()
    ensures Chunks(["a", "b", "c", "Wide", "d", "e"], WordsPerLine) == [["a", "b", "c"], ["Wide", "d", "e"]]
  {
    var batch := ["a", "b", "c", "Wide", "d", "e"];
    var first, second := ["a", "b", "c"], ["Wide", "d", "e"];
    assert batch[..3] == first && batch[3..] == second;
    assert Chunks(second, WordsPerLine) == [second];
  }

  /** Each line of a screen is scaled on its own: a line of short words
      keeps size 130 while the next line drops to 40. */
  lemma SizesDifferPerLine()
    ensures |Lines(["a", "b", "c", "Wide", "d", "e"], ExampleMetrics())| == 2
    ensures Lines(["a", "b", "c", "Wide", "d", "e"], ExampleMetrics())[0].fontSize == 130
    ensures Lines(["a", "b", "c", "Wide", "d", "e"], ExampleMetrics())[1].fontSize == 40
  {
    var m := ExampleMetrics();
    var groups := [["a", "b", "c"], ["Wide", "d", "e"]];
    ExampleChunks();
    LinesOfAt(groups, m, 0);
    LinesOfAt(groups, m, 1);
    ShortLineKeepsBase();
    OverflowKeepsWords();
  }
}
