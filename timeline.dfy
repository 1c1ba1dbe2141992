/** What the two generators do with a script once a screen builder is
    fixed: cut the words into screens of twelve, time every word equally
    against the narration, build the screens in order and concatenate them.
    The screen builder is the part the two generators do differently. */
module Timeline {
  import opened Seqs
  import opened PyText
  import opened Layout

  /** Builds the screen of one batch of words, given the seconds per word. */
  type ScreenBuilder = (seq<string>, real) -> Screen

  /** One screen per batch, in order. */
  function ScreensBy(batches: seq<seq<string>>, spw: real, build: ScreenBuilder): seq<Screen>
  {
    if batches == [] then []
    else ScreensBy(batches[..|batches| - 1], spw, build) + [build(batches[|batches| - 1], spw)]
  }

  lemma ScreensByStep(batches: seq<seq<string>>, spw: real, build: ScreenBuilder, k: nat)
    requires k < |batches|
    ensures ScreensBy(batches[..k + 1], spw, build) == ScreensBy(batches[..k], spw, build) + [build(batches[k], spw)]
  {
    assert batches[..k + 1][..k] == batches[..k];
  }

  /** The video has one screen per batch, screen `i` built from batch `i`. */
  lemma {:induction false} ScreensByAt(batches: seq<seq<string>>, spw: real, build: ScreenBuilder)
    ensures |ScreensBy(batches, spw, build)| == |batches|
    ensures forall i :: 0 <= i < |batches| ==> ScreensBy(batches, spw, build)[i] == build(batches[i], spw)
    decreases |batches|
  {
    if batches != [] {
      ScreensByAt(batches[..|batches| - 1], spw, build);
    }
  }

  /** The screens of a script narrated in `audioDuration` seconds, or None
      when the script has no words. */
  function VideoBy(text: string, audioDuration: real, build: ScreenBuilder): Option<seq<Screen>>
  {
    var words := ScriptWords(text);
    if |words| == 0 then None
    else Some(ScreensBy(Chunks(words, WordsPerScreen), SecondsPerWord(audioDuration, |words|), build))
  }

  /** All words shown by a video, screen after screen. */
  function ShownWords(screens: seq<Screen>): seq<string>
  {
    if screens == [] then [] else DimWords(screens[0].clips) + ShownWords(screens[1..])
  }

  /** The length of the concatenated video. */
  function VideoDuration(screens: seq<Screen>): real
  {
    if screens == [] then 0.0 else screens[0].duration + VideoDuration(screens[1..])
  }

  /** Screens that each show one batch show all batches, in order. */
  lemma {:induction false} ShownWordsOfBatches(screens: seq<Screen>, batches: seq<seq<string>>)
    requires |screens| == |batches|
    requires forall i :: 0 <= i < |screens| ==> DimWords(screens[i].clips) == batches[i]
    ensures ShownWords(screens) == Flatten(batches)
    decreases |screens|
  {
    if screens != [] {
      ShownWordsOfBatches(screens[1..], batches[1..]);
    }
  }

  /** Screens that each last one word-time per word of their batch last, in
      all, one word-time per word of all batches. */
  lemma {:induction false} DurationOfBatches(screens: seq<Screen>, batches: seq<seq<string>>, spw: real)
    requires |screens| == |batches|
    requires forall i :: 0 <= i < |screens| ==> screens[i].duration == WordTimes(|batches[i]|, spw)
    ensures VideoDuration(screens) == WordTimes(|Flatten(batches)|, spw)
    decreases |screens|
  {
    if screens != [] {
      DurationOfBatches(screens[1..], batches[1..], spw);
      WordTimesAdd(|batches[0]|, |Flatten(batches[1..])|, spw);
    }
  }

  /** With a builder whose screens show their batch, the screens of a
      non-empty list of words show every word once, in order, on
      ceil(words / 12) screens of one to twelve words each. */
  lemma ScreensShowWords(words: seq<string>, spw: real, build: ScreenBuilder)
    requires words != []
    requires forall b: seq<string>, t: real :: DimWords(build(b, t).clips) == b
    ensures var screens := ScreensBy(Chunks(words, WordsPerScreen), spw, build);
      && ShownWords(screens) == words
      && (|screens| - 1) * WordsPerScreen < |words| <= |screens| * WordsPerScreen
      && (forall i :: 0 <= i < |screens| ==> 1 <= |DimWords(screens[i].clips)| <= WordsPerScreen)
  {
    var batches := Chunks(words, WordsPerScreen);
    ScreensByAt(batches, spw, build);
    ChunksFlatten(words, WordsPerScreen);
    ChunksCount(words, WordsPerScreen);
    ShownWordsOfBatches(ScreensBy(batches, spw, build), batches);
  }

  /** With a builder whose screens last one word-time per word, the screens
      of a list of words last one word-time per word. */
  lemma ScreensDuration(words: seq<string>, spw: real, build: ScreenBuilder)
    requires forall b: seq<string>, t: real :: build(b, t).duration == WordTimes(|b|, t)
    ensures VideoDuration(ScreensBy(Chunks(words, WordsPerScreen), spw, build)) == WordTimes(|words|, spw)
  {
    var batches := Chunks(words, WordsPerScreen);
    ScreensByAt(batches, spw, build);
    DurationOfBatches(ScreensBy(batches, spw, build), batches, spw);
    ChunksFlatten(words, WordsPerScreen);
  }

  /** There is a video exactly when the script has a word; then, for a
      builder whose screens show their batch, it shows every word of the
      script once, in order, on ceil(words / 12) screens of one to twelve
      words each. */
  lemma VideoShowsScript(text: string, audioDuration: real, build: ScreenBuilder)
    requires forall b: seq<string>, t: real :: DimWords(build(b, t).clips) == b
    ensures VideoBy(text, audioDuration, build).Some? <==> ScriptWords(text) != []
    ensures VideoBy(text, audioDuration, build).Some? ==>
      var screens := VideoBy(text, audioDuration, build).value;
      var n := |ScriptWords(text)|;
      && ShownWords(screens) == ScriptWords(text)
      && (|screens| - 1) * WordsPerScreen < n <= |screens| * WordsPerScreen
      && (forall i :: 0 <= i < |screens| ==> 1 <= |DimWords(screens[i].clips)| <= WordsPerScreen)
  {
    var words := ScriptWords(text);
    if words != [] {
      ScreensShowWords(words, SecondsPerWord(audioDuration, |words|), build);
    }
  }

  /** When the script has a word and the builder's screens last one
      word-time per word, the video lasts exactly as long as the narration. */
  lemma VideoLastsAsAudio(text: string, audioDuration: real, build: ScreenBuilder)
    requires ScriptWords(text) != []
    requires forall b: seq<string>, t: real :: build(b, t).duration == WordTimes(|b|, t)
    ensures VideoBy(text, audioDuration, build).Some?
    ensures VideoDuration(VideoBy(text, audioDuration, build).value) == audioDuration
  {
    var words := ScriptWords(text);
    var spw := SecondsPerWord(audioDuration, |words|);
    var screens := ScreensBy(Chunks(words, WordsPerScreen), spw, build);
    assert VideoBy(text, audioDuration, build) == Some(screens);
    ScreensDuration(words, spw, build);
    NarrationShared(|words|, audioDuration);
  }
}
