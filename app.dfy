/** The Streamlit tool's generator, `generate_video` in app.py: every word
    image is set at one font size, lines are placed at a fixed block
    position computed for four lines, and each word's vertical position is
    taken from its line number and its own image height. */
module App {
  import opened Seqs
  import opened PyText
  import opened Layout
  import Timeline

  const FontSize := 130
  const LineGap := 50
  const LinesPerScreen := 4

  /** `total_block_height`: four lines of 1.2 times the font size and three gaps. */
  const BlockHeight: real := LinesPerScreen as real * (FontSize as real * 1.2) + (LinesPerScreen - 1) as real * LineGap as real

  /** `start_y`, the same for every screen. */
  const StartY: real := (FrameHeight as real - BlockHeight) / 2.0

  /** `create_pil_text_clip`: the word drawn on an image 20 px wider and
      taller than its ink bounding box. */
  function TextClip(word: string, m: Metrics): WordImage
  {
    WordImage(word, m.inkWidth(word, FontSize) + 20, m.inkHeight(word, FontSize) + 20)
  }

  function TextClips(words: seq<string>, m: Metrics): seq<WordImage>
  {
    seq(|words|, j requires 0 <= j < |words| => TextClip(words[j], m))
  }

  /** `pos_y` of a word on the line that starts at batch index `lineIdx`
      whose image is `height` pixels tall. */
  function RowY(lineIdx: int, height: nat): real
  {
    StartY + (lineIdx as real / WordsPerLine as real) * (height as real + LineGap as real)
  }

  /** The words of the line that starts at batch index `lineIdx`,
      `batch[lineIdx : lineIdx + 3]`. */
  function LineWords(batch: seq<string>, lineIdx: nat): seq<string>
    requires lineIdx < |batch|
  {
    batch[lineIdx .. Min(lineIdx + WordsPerLine, |batch|)]
  }

  /** Image `i` of a line drawn at the cursor reached after the images
      before it, at the height of the line that starts at batch index
      `lineIdx`. */
  function InLine(images: seq<WordImage>, lineIdx: nat, i: nat): Placed
    requires i < |images|
  {
    Placed(images[i], FontSize, LeftMargin + Advance(images[..i]), RowY(lineIdx, images[i].height))
  }

  /** Where the word at batch index `k` is drawn: it is word `k % 3` of the
      line that starts at index `k - k % 3`. */
  function Place(batch: seq<string>, k: nat, m: Metrics): Placed
    requires k < |batch|
  {
    var lineIdx := k - k % WordsPerLine;
    InLine(TextClips(LineWords(batch, lineIdx), m), lineIdx, k % WordsPerLine)
  }

  function Placement(batch: seq<string>, m: Metrics): seq<Placed>
  {
    seq(|batch|, k requires 0 <= k < |batch| => Place(batch, k, m))
  }

  /** The line loop visits the batch three words at a time: line `n` starts
      at batch index `3 * n` and holds one to three words; together the lines
      hold the batch, in order. */
  lemma LinesCoverBatch(batch: seq<string>, n: nat)
    requires n < |Chunks(batch, WordsPerLine)|
    ensures n * WordsPerLine < |batch|
    ensures LineWords(batch, n * WordsPerLine) == Chunks(batch, WordsPerLine)[n]
    ensures 0 < |LineWords(batch, n * WordsPerLine)| <= WordsPerLine
    ensures Flatten(Chunks(batch, WordsPerLine)) == batch
  {
    ChunkAt(batch, WordsPerLine, n);
    ChunksFlatten(batch, WordsPerLine);
  }

  /** Word `i` of the line that starts at batch index `lineIdx` is placed by
      that line. */
  lemma PlaceInLine(batch: seq<string>, lineIdx: nat, i: nat, m: Metrics)
    requires lineIdx % WordsPerLine == 0 && lineIdx < |batch| && i < |LineWords(batch, lineIdx)|
    ensures lineIdx + i < |batch|
    ensures Placement(batch, m)[lineIdx + i] == InLine(TextClips(LineWords(batch, lineIdx), m), lineIdx, i)
  {
    var q := lineIdx / WordsPerLine;
    assert lineIdx == WordsPerLine * q;
    ModOfMultiple(q, i, WordsPerLine);
  }

  /** One screen: the black background for the whole batch, then the word
      clips in reading order. */
  function ScreenOf(batch: seq<string>, spw: real, m: Metrics): Screen
  {
    ScreenFor(Placement(batch, m), |batch|, spw)
  }

  /** The screen builder of `generate_video`. */
  function Builder(m: Metrics): (build: Timeline.ScreenBuilder)
    ensures forall b: seq<string>, t: real :: build(b, t) == ScreenOf(b, t, m)
  {
    (b: seq<string>, t: real) => ScreenOf(b, t, m)
  }

  /** The video `generate_video` composes for a script narrated in
      `audioDuration` seconds, or None when the script has no words. */
  function Video(text: string, audioDuration: real, m: Metrics): Option<seq<Screen>>
  {
    Timeline.VideoBy(text, audioDuration, Builder(m))
  }

  /** `generate_video`: split the script, time the words, and build the
      screens batch by batch. */
  method GenerateVideo(textInput: string, audioDuration: real, m: Metrics) returns (result: Option<seq<Screen>>)
    ensures result == Video(textInput, audioDuration, m)
    ensures result.None? <==> Strip(ReplaceNewlines(textInput)) == []
  {
    var cleanText := Strip(ReplaceNewlines(textInput));
    var words := Split(cleanText);
    if |words| == 0 {
      return None;
    }
    var secondsPerWord := audioDuration / |words| as real;
    var finalClips := RenderScreens(words, secondsPerWord, m);
    result := if |finalClips| > 0 then Some(finalClips) else None;
  }

  /** The screen loop of `generate_video`: one screen per batch of twelve
      words, in order. */
  method RenderScreens(words: seq<string>, secondsPerWord: real, m: Metrics) returns (finalClips: seq<Screen>)
    ensures finalClips == Timeline.ScreensBy(Chunks(words, WordsPerScreen), secondsPerWord, Builder(m))
  {
    ghost var batches := Chunks(words, WordsPerScreen);
    finalClips := [];
    var chunkIndex := 0;
    ghost var screenNo := 0;
    while chunkIndex < |words|
      invariant chunkIndex == screenNo * WordsPerScreen && screenNo <= |batches|
      invariant finalClips == Timeline.ScreensBy(batches[..screenNo], secondsPerWord, Builder(m))
    {
      ChunkStep(words, WordsPerScreen, screenNo, chunkIndex);
      var batchWords := words[chunkIndex .. Min(chunkIndex + WordsPerScreen, |words|)];
      var screen := RenderScreen(batchWords, secondsPerWord, m);
      Timeline.ScreensByStep(batches, secondsPerWord, Builder(m), screenNo);
      finalClips := finalClips + [screen];
      chunkIndex := chunkIndex + WordsPerScreen;
      screenNo := screenNo + 1;
    }
    ChunkStop(words, WordsPerScreen, screenNo, chunkIndex);
    assert batches[..screenNo] == batches;
  }

  /** The clips of the first `k` images of a line, for the line that starts
      at batch index `lineIdx`. */
  function LineClips(images: seq<WordImage>, lineIdx: nat, spw: real, d: real, k: nat): seq<Clip>
    requires k <= |images|
  {
    if k == 0 then []
    else LineClips(images, lineIdx, spw, d, k - 1) + WordClips(InLine(images, lineIdx, k - 1), lineIdx + k - 1, spw, d)
  }

  /** When the words of `ps` from index `lineIdx` on are the images of a
      line placed in order, the line's clips are the schedule's clips for
      those indices. */
  lemma {:induction false} LineClipsMatch(images: seq<WordImage>, ps: seq<Placed>, lineIdx: nat, k: nat, spw: real, d: real)
    requires k <= |images| && lineIdx + k <= |ps|
    requires forall i :: 0 <= i < k ==> InLine(images, lineIdx, i) == ps[lineIdx + i]
    ensures LineClips(images, lineIdx, spw, d, k) == ScheduleRange(ps, spw, d, lineIdx, lineIdx + k)
    decreases k
  {
    if k > 0 {
      LineClipsMatch(images, ps, lineIdx, k - 1, spw, d);
      ScheduleRangeNext(ps, spw, d, lineIdx, lineIdx + k - 1);
    }
  }

  /** A line's clips are the screen schedule's clips for the batch indices of
      that line. */
  lemma LineClipsInSchedule(batch: seq<string>, lineIdx: nat, spw: real, d: real, m: Metrics)
    requires lineIdx % WordsPerLine == 0 && lineIdx < |batch|
    ensures lineIdx + |LineWords(batch, lineIdx)| <= |batch|
    ensures var images := TextClips(LineWords(batch, lineIdx), m);
      LineClips(images, lineIdx, spw, d, |images|)
      == ScheduleRange(Placement(batch, m), spw, d, lineIdx, lineIdx + |images|)
  {
    var images := TextClips(LineWords(batch, lineIdx), m);
    var ps := Placement(batch, m);
    forall i | 0 <= i < |images|
      ensures InLine(images, lineIdx, i) == ps[lineIdx + i]
    {
      PlaceInLine(batch, lineIdx, i, m);
    }
    LineClipsMatch(images, ps, lineIdx, |images|, spw, d);
  }

  /** Appending the clips of the line that starts at `lineIdx` extends the
      screen schedule to the end of that line. */
  lemma ScheduleLine(batch: seq<string>, lineIdx: nat, lineNo: nat, spw: real, d: real, m: Metrics)
    requires lineIdx == WordsPerLine * lineNo && lineIdx < |batch|
    ensures Schedule(Placement(batch, m)[..Min(lineIdx + WordsPerLine, |batch|)], spw, d)
            == Schedule(Placement(batch, m)[..lineIdx], spw, d)
               + LineClips(TextClips(LineWords(batch, lineIdx), m), lineIdx, spw, d, |LineWords(batch, lineIdx)|)
  {
    var ps := Placement(batch, m);
    var end := Min(lineIdx + WordsPerLine, |batch|);
    var images := TextClips(LineWords(batch, lineIdx), m);
    assert LineClips(images, lineIdx, spw, d, |images|) == ScheduleRange(ps, spw, d, lineIdx, end) by {
      ModOfMultiple(lineNo, 0, WordsPerLine);
      LineClipsInSchedule(batch, lineIdx, spw, d, m);
    }
    ScheduleSplit(ps, spw, d, lineIdx, end);
  }

  /** The body of the screen loop of `generate_video` for one batch: the
      background first, then the clips of every line. */
  method RenderScreen(batchWords: seq<string>, secondsPerWord: real, m: Metrics) returns (screen: Screen)
    ensures screen == ScreenOf(batchWords, secondsPerWord, m)
  {
    var batchDuration := |batchWords| as real * secondsPerWord;
    var bgClip := Background(batchDuration);
    var wordClips := RenderLines(batchWords, secondsPerWord, batchDuration, m);
    screen := Screen([bgClip] + wordClips, batchDuration);
  }

  /** The line loop of `generate_video`: the clips of the words of a batch,
      line by line. */
  method RenderLines(batchWords: seq<string>, secondsPerWord: real, batchDuration: real, m: Metrics)
    returns (wordClips: seq<Clip>)
    ensures wordClips == Schedule(Placement(batchWords, m), secondsPerWord, batchDuration)
  {
    ghost var placement := Placement(batchWords, m);
    wordClips := [];
    var lineIdx := 0;
    ghost var lineNo := 0;
    while lineIdx < |batchWords|
      invariant lineIdx == WordsPerLine * lineNo
      invariant wordClips == Schedule(placement[..Min(lineIdx, |batchWords|)], secondsPerWord, batchDuration)
    {
      var lineClips := RenderLine(batchWords, lineIdx, secondsPerWord, batchDuration, m);
      ScheduleLine(batchWords, lineIdx, lineNo, secondsPerWord, batchDuration, m);
      wordClips := wordClips + lineClips;
      lineIdx := lineIdx + WordsPerLine;
      lineNo := lineNo + 1;
    }
    assert placement[..|batchWords|] == placement;
  }

  /** One pass of the line loop of `generate_video`: the clips of the words of
      the line that starts at batch index `lineIdx`. */
  method RenderLine(batchWords: seq<string>, lineIdx: nat, secondsPerWord: real, batchDuration: real, m: Metrics)
    returns (lineClips: seq<Clip>)
    requires lineIdx < |batchWords|
    ensures var images := TextClips(LineWords(batchWords, lineIdx), m);
      lineClips == LineClips(images, lineIdx, secondsPerWord, batchDuration, |images|)
  {
    var lineWords := batchWords[lineIdx .. Min(lineIdx + WordsPerLine, |batchWords|)];
    var currentX := LeftMargin;
    var wordClipsData := RenderImages(lineWords, m);
    lineClips := [];
    for i := 0 to |wordClipsData|
      invariant currentX == LeftMargin + Advance(wordClipsData[..i])
      invariant lineClips == LineClips(wordClipsData, lineIdx, secondsPerWord, batchDuration, i)
    {
      var image := wordClipsData[i];
      var wordClips := RenderWord(image, currentX, lineIdx, lineIdx + i, secondsPerWord, batchDuration);
      lineClips := lineClips + wordClips;
      AdvanceGap(wordClipsData, i, i + 1);
      currentX := currentX + image.width + WordGap;
    }
  }

  /** The images of a line's words, in order. */
  method RenderImages(lineWords: seq<string>, m: Metrics) returns (images: seq<WordImage>)
    ensures images == TextClips(lineWords, m)
  {
    images := [];
    for j := 0 to |lineWords|
      invariant images == TextClips(lineWords[..j], m)
    {
      images := images + [TextClip(lineWords[j], m)];
    }
    assert lineWords[..|lineWords|] == lineWords;
  }

  /** The body of the word loop of `generate_video`: the clips of the word at
      batch index `wordBatchIndex`, whose image is drawn at the cursor
      `currentX` on the line that starts at batch index `lineIdx`. */
  method RenderWord(image: WordImage, currentX: int, lineIdx: nat, wordBatchIndex: nat, secondsPerWord: real, batchDuration: real)
    returns (clips: seq<Clip>)
    ensures clips == WordClips(Placed(image, FontSize, currentX, RowY(lineIdx, image.height)), wordBatchIndex, secondsPerWord, batchDuration)
    ensures forall c :: c in clips ==>
      && c.Word? && c.word.image == image && c.word.x == currentX && c.word.y == RowY(lineIdx, image.height)
      && c.start + c.duration == batchDuration
    ensures 1 <= |clips| <= 2 && clips[0].start == 0.0 && clips[0].opacity == DimOpacity
    ensures |clips| == 2 <==> wordBatchIndex as real * secondsPerWord < batchDuration
  {
    var posY := RowY(lineIdx, image.height);
    clips := EmitWord(Placed(image, FontSize, currentX, posY), wordBatchIndex, secondsPerWord, batchDuration);
  }

  /** Each word image carries the word it was drawn from: the placed words
      of a batch read back as the batch. */
  lemma PlacementTexts(batch: seq<string>, m: Metrics)
    ensures Texts(Placement(batch, m)) == batch
  {
    forall k | 0 <= k < |batch|
      ensures Placement(batch, m)[k].image.text == batch[k]
    {
      var lineIdx := k - k % WordsPerLine;
      assert LineWords(batch, lineIdx)[k % WordsPerLine] == batch[k];
    }
  }

  /** A screen shows the words of its batch, each once, in reading order. */
  lemma ScreenShowsBatch(batch: seq<string>, spw: real, m: Metrics)
    ensures DimWords(ScreenOf(batch, spw, m).clips) == batch
  {
    var d := |batch| as real * spw;
    assert ScreenOf(batch, spw, m).clips == ScreenClips(Placement(batch, m), spw, d);
    ScreenShowsPlaced(Placement(batch, m), spw, d);
    PlacementTexts(batch, m);
  }

  /** There is a video exactly when the script has a word; then it shows
      every word of the script once, in order, on ceil(words / 12) screens
      of one to twelve words each. */
  lemma VideoShowsScript(text: string, audioDuration: real, m: Metrics)
    ensures Video(text, audioDuration, m).Some? <==> ScriptWords(text) != []
    ensures Video(text, audioDuration, m).Some? ==>
      var screens := Video(text, audioDuration, m).value;
      var n := |ScriptWords(text)|;
      && Timeline.ShownWords(screens) == ScriptWords(text)
      && (|screens| - 1) * WordsPerScreen < n <= |screens| * WordsPerScreen
      && (forall i :: 0 <= i < |screens| ==> 1 <= |DimWords(screens[i].clips)| <= WordsPerScreen)
  {
    forall b: seq<string>, t: real
      ensures DimWords(Builder(m)(b, t).clips) == b
    {
      ScreenShowsBatch(b, t, m);
    }
    Timeline.VideoShowsScript(text, audioDuration, Builder(m));
  }

  /** When the script has a word, the video lasts exactly as long as the
      narration. */
  lemma VideoLastsAsAudio(text: string, audioDuration: real, m: Metrics)
    requires ScriptWords(text) != []
    ensures Video(text, audioDuration, m).Some?
    ensures Timeline.VideoDuration(Video(text, audioDuration, m).value) == audioDuration
  {
    forall b: seq<string>, t: real
      ensures Builder(m)(b, t).duration == WordTimes(|b|, t)
    {
      ScreenForLasts(Placement(b, m), |b|, t);
    }
    Timeline.VideoLastsAsAudio(text, audioDuration, Builder(m));
  }

  /** Every word is drawn at font size 130 from its own image. */
  lemma PlacedImage(batch: seq<string>, k: nat, m: Metrics)
    requires k < |batch|
    ensures Placement(batch, m)[k].image == TextClip(batch[k], m)
    ensures Placement(batch, m)[k].fontSize == FontSize
  {
    var lineIdx := k - k % WordsPerLine;
    assert LineWords(batch, lineIdx)[k % WordsPerLine] == batch[k];
  }

  /** The top edge of word `i` of line `n` is `start_y + n * (height + 50)`,
      with the word's own image height: rows are spaced by each word's
      height, not by a common line height. */
  lemma LineRow(batch: seq<string>, n: nat, i: nat, m: Metrics)
    requires i < WordsPerLine && WordsPerLine * n + i < |batch|
    ensures var p := Placement(batch, m)[WordsPerLine * n + i];
      p.y == StartY + n as real * (p.image.height as real + LineGap as real)
  {
    var lineIdx := WordsPerLine * n;
    var p := Placement(batch, m)[lineIdx + i];
    RowOfLine(n, p.image.height);
    assert p.y == RowY(lineIdx, p.image.height) by {
      ModOfMultiple(n, 0, WordsPerLine);
      PlaceInLine(batch, lineIdx, i, m);
    }
  }

  lemma RowOfLine(n: nat, height: nat)
    ensures RowY(WordsPerLine * n, height) == StartY + n as real * (height as real + LineGap as real)
  {
    assert (WordsPerLine * n) as real / WordsPerLine as real == n as real;
  }

  /** The first word of a line starts at the left margin, and each later
      word 35 px after the right edge of the word before it. */
  lemma LineCursor(batch: seq<string>, n: nat, i: nat, m: Metrics)
    requires i < WordsPerLine && WordsPerLine * n + i < |batch|
    ensures var k := WordsPerLine * n + i;
      var ps := Placement(batch, m);
      && (i == 0 ==> ps[k].x == LeftMargin)
      && (i > 0 ==> ps[k].x == ps[k - 1].x + ps[k - 1].image.width + WordGap)
  {
    var lineIdx := WordsPerLine * n;
    var images := TextClips(LineWords(batch, lineIdx), m);
    var ps := Placement(batch, m);
    assert lineIdx % WordsPerLine == 0 by {
      ModOfMultiple(n, 0, WordsPerLine);
    }
    assert ps[lineIdx + i] == InLine(images, lineIdx, i) by {
      PlaceInLine(batch, lineIdx, i, m);
    }
    if i > 0 {
      assert ps[lineIdx + i - 1] == InLine(images, lineIdx, i - 1) by {
        PlaceInLine(batch, lineIdx, i - 1, m);
      }
      AdvanceGap(images, i - 1, i);
    }
  }

  /** Every word lights up when the narration has positive length: its
      bright clip starts at `k * spw` and runs to the end of its screen. */
  lemma ScreenLightsEveryWord(batch: seq<string>, spw: real, m: Metrics, k: nat)
    requires spw > 0.0 && k < |batch|
    ensures var s := ScreenOf(batch, spw, m);
      var t := k as real * spw;
      && s.duration - t > 0.0
      && Word(Placement(batch, m)[k], t, s.duration - t, BrightOpacity) in s.clips
  {
    ScreenLightsWord(Placement(batch, m), |batch|, spw, k);
  }

  /** Glyph measurement in which the word "Tall" is 200 px tall and every
      other word 10 px tall; every word is 10 px wide. */
  function TallMetrics(): (m: Metrics)
    ensures forall w: string, size: int :: m.inkWidth(w, size) == 10
    ensures forall size: int :: m.inkHeight("Tall", size) == 200
    ensures forall w: string, size: int :: w != "Tall" ==> m.inkHeight(w, size) == 10
  {
    Metrics((w: string, size: int) => 10, (w: string, size: int) => if w == "Tall" then 200 else 10)
  }

  /** Because a row's offset uses each word's own height, a tall word on the
      first line is overlapped by the short word that starts the second
      line: both start at the left margin, and the second starts above the
      bottom edge of the first. */
  lemma RowsCanOverlap()
    ensures var ps := Placement(["Tall", "a", "b", "c"], TallMetrics());
      && ps[3].x == ps[0].x
      && ps[0].y < ps[3].y < ps[0].y + ps[0].image.height as real
  {
    var batch := ["Tall", "a", "b", "c"];
    var m := TallMetrics();
    PlacedImage(batch, 0, m);
    PlacedImage(batch, 3, m);
    LineRow(batch, 0, 0, m);
    LineRow(batch, 1, 0, m);
    LineCursor(batch, 0, 0, m);
    LineCursor(batch, 1, 0, m);
  }

  /** For the same reason a later line can be drawn above an earlier one:
      with a tall word starting the second line and a short one starting the
      third, the third line's word is placed higher than the second's. */
  lemma RowsCanSwap()
    ensures var ps := Placement(["a", "b", "c", "Tall", "d", "e", "f"], TallMetrics());
      ps[6].y < ps[3].y
  {
    var batch := ["a", "b", "c", "Tall", "d", "e", "f"];
    var m := TallMetrics();
    PlacedImage(batch, 3, m);
    PlacedImage(batch, 6, m);
    LineRow(batch, 1, 0, m);
    LineRow(batch, 2, 0, m);
  }
}
