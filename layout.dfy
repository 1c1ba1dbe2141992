/** What the two video generators share once the imaging, speech and video
    libraries are taken away: word images of a measured size, a horizontal
    cursor that places them on a line, and the highlight schedule that gives
    every word a dim clip for the whole screen and a bright clip from the
    moment it is read to the end of the screen. */
module Layout {
  import opened Seqs

  datatype Option<T> = None | Some(value: T)

  /** Glyph measurement, supplied from outside: the width and height of the
      ink bounding box of a word set at a font size. */
  datatype Metrics = Metrics(inkWidth: (string, int) -> nat, inkHeight: (string, int) -> nat)

  /** A rendered word: its text and the pixel size of the image it is drawn on. */
  datatype WordImage = WordImage(text: string, width: nat, height: nat)

  /** A word image at a font size, with its top-left corner at (x, y). */
  datatype Placed = Placed(image: WordImage, fontSize: int, x: int, y: real)

  /** One timed directive handed to the compositor. */
  datatype Clip =
    | Background(duration: real)
    | Word(word: Placed, start: real, duration: real, opacity: real)

  /** One screen: its clips in insertion (drawing) order and its duration. */
  datatype Screen = Screen(clips: seq<Clip>, duration: real)

  const WordsPerLine := 3
  const WordsPerScreen := 12
  const LeftMargin := 150
  const WordGap := 35
  const FrameHeight := 1200
  const DimOpacity: real := 0.25
  const BrightOpacity: real := 1.0

  /** `SECONDS_PER_WORD = audio_duration / len(words)`: the words share the
      narration evenly. */
  function SecondsPerWord(audioDuration: real, wordCount: nat): (spw: real)
    requires wordCount > 0
    ensures wordCount as real * spw == audioDuration
  {
    audioDuration / wordCount as real
  }

  /** `n` word-times of `spw` seconds each, added one at a time. */
  function WordTimes(n: nat, spw: real): real
  {
    if n == 0 then 0.0 else WordTimes(n - 1, spw) + spw
  }

  lemma {:induction false} WordTimesAdd(a: nat, b: nat, spw: real)
    ensures WordTimes(a + b, spw) == WordTimes(a, spw) + WordTimes(b, spw)
    decreases b
  {
    if b > 0 {
      WordTimesAdd(a, b - 1, spw);
    }
  }

  lemma {:induction false} WordTimesMul(n: nat, spw: real)
    ensures WordTimes(n, spw) == n as real * spw
    decreases n
  {
    if n > 0 {
      WordTimesMul(n - 1, spw);
      AddMul(n - 1, 1, spw);
      assert (n - 1) + 1 == n;
    }
  }

  /** The word-times of all words add up to the narration. */
  lemma NarrationShared(n: nat, audioDuration: real)
    requires n > 0
    ensures WordTimes(n, SecondsPerWord(audioDuration, n)) == audioDuration
  {
    WordTimesMul(n, SecondsPerWord(audioDuration, n));
  }

  /** How far the cursor has moved once `images` are placed on a line: each
      image's width plus the word gap. */
  function Advance(images: seq<WordImage>): int
  {
    if images == [] then 0
    else Advance(images[..|images| - 1]) + images[|images| - 1].width + WordGap
  }

  /** Any later word on a line starts at least a word gap after the end of
      an earlier one; the next word starts exactly a word gap after it. */
  lemma {:induction false} AdvanceGap(images: seq<WordImage>, a: nat, b: nat)
    requires a < b <= |images|
    ensures Advance(images[..a]) + images[a].width + WordGap <= Advance(images[..b])
    ensures b == a + 1 ==> Advance(images[..a]) + images[a].width + WordGap == Advance(images[..b])
    decreases b
  {
    assert images[..b][..b - 1] == images[..b - 1];
    if b > a + 1 {
      AdvanceGap(images, a, b - 1);
    }
  }

  /** The clips of the word at batch index `k` on a screen lasting `d`
      seconds: a dim clip for the whole screen, then, if any time is left
      after the word's light-up time `k * spw`, a bright clip from then on. */
  function WordClips(p: Placed, k: nat, spw: real, d: real): seq<Clip>
  {
    var lightUpTime := k as real * spw;
    var brightDuration := d - lightUpTime;
    [Word(p, 0.0, d, DimOpacity)]
      + if brightDuration > 0.0 then [Word(p, lightUpTime, brightDuration, BrightOpacity)] else []
  }

  /** The body of the word loops of both generators: the dim clip of a
      placed word, then its bright clip when any time is left after its
      light-up time. */
  method EmitWord(p: Placed, k: nat, spw: real, d: real) returns (clips: seq<Clip>)
    ensures clips == WordClips(p, k, spw, d)
    ensures 1 <= |clips| <= 2 && clips[0] == Word(p, 0.0, d, DimOpacity)
    ensures |clips| == 2 <==> k as real * spw < d
    ensures |clips| == 2 ==> clips[1] == Word(p, k as real * spw, d - k as real * spw, BrightOpacity)
    ensures forall c :: c in clips ==> c.Word? && c.word == p && c.start + c.duration == d
  {
    var lightUpTime := k as real * spw;
    var dimClip := Word(p, 0.0, d, DimOpacity);
    var brightDuration := d - lightUpTime;
    if brightDuration > 0.0 {
      var brightClip := Word(p, lightUpTime, brightDuration, BrightOpacity);
      clips := [dimClip, brightClip];
    } else {
      clips := [dimClip];
    }
  }

  /** The word clips of a screen, word by word in reading order. */
  function Schedule(ps: seq<Placed>, spw: real, d: real): seq<Clip>
  {
    if ps == [] then []
    else Schedule(ps[..|ps| - 1], spw, d) + WordClips(ps[|ps| - 1], |ps| - 1, spw, d)
  }

  /** The clips of placed words `qs` whose first word has batch index `base`. */
  function ScheduleFrom(qs: seq<Placed>, base: nat, spw: real, d: real): seq<Clip>
  {
    if qs == [] then []
    else ScheduleFrom(qs[..|qs| - 1], base, spw, d) + WordClips(qs[|qs| - 1], base + |qs| - 1, spw, d)
  }

  /** Scheduling the words of `ps` and then those of `qs` is scheduling
      `ps + qs`: the words of `qs` keep counting from `|ps|`. */
  lemma {:induction false} ScheduleAppend(ps: seq<Placed>, qs: seq<Placed>, spw: real, d: real)
    ensures Schedule(ps + qs, spw, d) == Schedule(ps, spw, d) + ScheduleFrom(qs, |ps|, spw, d)
    decreases |qs|
  {
    if qs == [] {
      assert ps + qs == ps;
    } else {
      ScheduleAppend(ps, qs[..|qs| - 1], spw, d);
      ScheduleAppendStep(ps, qs, spw, d);
    }
  }

  /** Appending one more word of `qs` appends its clips on both sides. */
  lemma ScheduleAppendStep(ps: seq<Placed>, qs: seq<Placed>, spw: real, d: real)
    requires qs != []
    ensures Schedule(ps + qs, spw, d) == Schedule(ps + qs[..|qs| - 1], spw, d) + WordClips(qs[|qs| - 1], |ps| + |qs| - 1, spw, d)
    ensures ScheduleFrom(qs, |ps|, spw, d) == ScheduleFrom(qs[..|qs| - 1], |ps|, spw, d) + WordClips(qs[|qs| - 1], |ps| + |qs| - 1, spw, d)
  {
    assert (ps + qs)[..|ps + qs| - 1] == ps + qs[..|qs| - 1];
  }

  /** The clips of the words at batch indices `a` up to `b`. */
  function ScheduleRange(ps: seq<Placed>, spw: real, d: real, a: nat, b: nat): seq<Clip>
    requires a <= b <= |ps|
    decreases b
  {
    if a == b then [] else ScheduleRange(ps, spw, d, a, b - 1) + WordClips(ps[b - 1], b - 1, spw, d)
  }

  lemma ScheduleRangeNext(ps: seq<Placed>, spw: real, d: real, a: nat, b: nat)
    requires a <= b < |ps|
    ensures ScheduleRange(ps, spw, d, a, b + 1) == ScheduleRange(ps, spw, d, a, b) + WordClips(ps[b], b, spw, d)
  {
  }

  /** The schedule up to `b` is the schedule up to `a` followed by the words in between. */
  lemma {:induction false} ScheduleSplit(ps: seq<Placed>, spw: real, d: real, a: nat, b: nat)
    requires a <= b <= |ps|
    ensures Schedule(ps[..b], spw, d) == Schedule(ps[..a], spw, d) + ScheduleRange(ps, spw, d, a, b)
    decreases b
  {
    if a < b {
      ScheduleSplit(ps, spw, d, a, b - 1);
      ScheduleStep(ps, spw, d, b - 1);
    }
  }

  /** Scheduling one more word appends its clips. */
  lemma ScheduleStep(ps: seq<Placed>, spw: real, d: real, k: nat)
    requires k < |ps|
    ensures Schedule(ps[..k + 1], spw, d) == Schedule(ps[..k], spw, d) + WordClips(ps[k], k, spw, d)
  {
    assert ps[..k + 1][..k] == ps[..k];
  }

  /** Every scheduled clip is a word clip that ends exactly when the screen
      ends: either the dim clip shown from the start, or a bright clip of
      positive duration. Each belongs to one of the placed words. */
  lemma {:induction false} ScheduleWindows(ps: seq<Placed>, spw: real, d: real)
    ensures forall c :: c in Schedule(ps, spw, d) ==>
      && c.Word?
      && c.word in ps
      && c.start + c.duration == d
      && ((c.opacity == DimOpacity && c.start == 0.0) || (c.opacity == BrightOpacity && c.duration > 0.0))
    decreases |ps|
  {
    if ps != [] {
      ScheduleWindows(ps[..|ps| - 1], spw, d);
      forall c | c in Schedule(ps[..|ps| - 1], spw, d) ensures c.word in ps {
        assert c.word in ps[..|ps| - 1];
      }
    }
  }

  /** Every word gets its dim clip, and gets a bright clip from its light-up
      time to the end of the screen exactly when that remaining time is
      positive. */
  lemma {:induction false} ScheduleHasWord(ps: seq<Placed>, spw: real, d: real, k: nat)
    requires k < |ps|
    ensures Word(ps[k], 0.0, d, DimOpacity) in Schedule(ps, spw, d)
    ensures Word(ps[k], k as real * spw, d - k as real * spw, BrightOpacity) in Schedule(ps, spw, d)
            <==> d - k as real * spw > 0.0
    decreases |ps|
  {
    var bright := Word(ps[k], k as real * spw, d - k as real * spw, BrightOpacity);
    var n := |ps| - 1;
    assert Schedule(ps, spw, d) == Schedule(ps[..n], spw, d) + WordClips(ps[n], n, spw, d);
    if k < n {
      ScheduleHasWord(ps[..n], spw, d, k);
      assert ps[..n][k] == ps[k];
    } else {
      var w := WordClips(ps[k], k, spw, d);
      assert w[0] == Word(ps[k], 0.0, d, DimOpacity);
      assert d - k as real * spw > 0.0 ==> w[1] == bright;
    }
    ScheduleWindows(ps, spw, d);
    assert bright in Schedule(ps, spw, d) ==> bright.duration > 0.0;
  }

  /** Reading order: the clips of the words before `k` come first, then the
      dim clip of word `k`, then its bright clip if it has one. */
  lemma {:induction false} ScheduleOrder(ps: seq<Placed>, spw: real, d: real, k: nat)
    requires k < |ps|
    ensures Schedule(ps[..k], spw, d) + WordClips(ps[k], k, spw, d) <= Schedule(ps, spw, d)
    decreases |ps|
  {
    var n := |ps| - 1;
    if k < n {
      ScheduleOrder(ps[..n], spw, d, k);
      assert ps[..n][..k] == ps[..k];
    } else {
      assert ps[..k] == ps[..n];
    }
  }

  /** The clips of a screen lasting `d` seconds, in insertion order: the
      background for the whole screen first, then the clips of every word. */
  function ScreenClips(ps: seq<Placed>, spw: real, d: real): (clips: seq<Clip>)
    ensures |clips| > 0 && clips[0] == Background(d)
    ensures clips[1..] == Schedule(ps, spw, d)
  {
    [Background(d)] + Schedule(ps, spw, d)
  }

  /** When every word has positive time (`spw > 0`) and a screen of `n`
      words lasts one word-time per word, every word lights up: its bright
      clip starts at `k * spw` and lasts the `n - k` word-times left, to the
      end of the screen. */
  lemma EveryWordBrightens(ps: seq<Placed>, n: nat, spw: real, d: real, k: nat)
    requires spw > 0.0 && k < n == |ps| && d == n as real * spw
    ensures d - k as real * spw == (n - k) as real * spw > 0.0
    ensures Word(ps[k], k as real * spw, d - k as real * spw, BrightOpacity) in ScreenClips(ps, spw, d)
  {
    assert d - k as real * spw == (n - k) as real * spw > 0.0 by {
      AddMul(n - k, k, spw);
      PositiveMul(n - k, spw);
    }
    ScheduleHasWord(ps, spw, d, k);
  }

  /** The screen of the `n` placed words `ps`, lasting one word-time
      `spw` per word. */
  function ScreenFor(ps: seq<Placed>, n: nat, spw: real): Screen
  {
    var d := n as real * spw;
    Screen(ScreenClips(ps, spw, d), d)
  }

  /** Such a screen lasts one word-time per word. */
  lemma ScreenForLasts(ps: seq<Placed>, n: nat, spw: real)
    ensures ScreenFor(ps, n, spw).duration == WordTimes(n, spw)
  {
    WordTimesMul(n, spw);
  }

  /** On such a screen every word brightens at its light-up time and stays
      bright to the end of the screen. */
  lemma ScreenLightsWord(ps: seq<Placed>, n: nat, spw: real, k: nat)
    requires spw > 0.0 && k < n == |ps|
    ensures var s := ScreenFor(ps, n, spw);
      && s.duration - k as real * spw > 0.0
      && Word(ps[k], k as real * spw, s.duration - k as real * spw, BrightOpacity) in s.clips
  {
    var d := n as real * spw;
    assert ScreenFor(ps, n, spw) == Screen(ScreenClips(ps, spw, d), d);
    EveryWordBrightens(ps, n, spw, d, k);
  }

  /** The texts of the dim clips, in order: the words a screen shows. */
  function DimWords(clips: seq<Clip>): seq<string>
  {
    if clips == [] then [] else DimText(clips[0]) + DimWords(clips[1..])
  }

  /** The word a clip names if it is a dim word clip. */
  function DimText(c: Clip): seq<string>
  {
    if c.Word? && c.opacity == DimOpacity then [c.word.image.text] else []
  }

  lemma {:induction false} DimWordsAppend(a: seq<Clip>, b: seq<Clip>)
    ensures DimWords(a + b) == DimWords(a) + DimWords(b)
    decreases |a|
  {
    if a == [] {
      assert a + b == b;
    } else {
      DimWordsAppend(a[1..], b);
      DimWordsCons(a, b);
    }
  }

  lemma DimWordsCons(a: seq<Clip>, b: seq<Clip>)
    requires a != []
    ensures DimWords(a + b) == DimText(a[0]) + DimWords(a[1..] + b)
  {
    assert (a + b)[0] == a[0];
    assert (a + b)[1..] == a[1..] + b;
  }

  function Texts(ps: seq<Placed>): seq<string>
  {
    seq(|ps|, i requires 0 <= i < |ps| => ps[i].image.text)
  }

  lemma TextsAppend(ps: seq<Placed>, qs: seq<Placed>)
    ensures Texts(ps + qs) == Texts(ps) + Texts(qs)
  {
    assert forall i :: 0 <= i < |ps + qs| ==> Texts(ps + qs)[i] == (Texts(ps) + Texts(qs))[i];
  }

  /** A screen's dim clips name its words, once each, in reading order. */
  lemma {:induction false} DimWordsOfSchedule(ps: seq<Placed>, spw: real, d: real)
    ensures DimWords(Schedule(ps, spw, d)) == Texts(ps)
    decreases |ps|
  {
    if ps != [] {
      var n := |ps| - 1;
      DimWordsOfSchedule(ps[..n], spw, d);
      DimWordsAppend(Schedule(ps[..n], spw, d), WordClips(ps[n], n, spw, d));
      var w := WordClips(ps[n], n, spw, d);
      assert DimWords(w) == [ps[n].image.text] by {
        assert w[0].opacity == DimOpacity && w[0].word == ps[n];
        if |w| == 2 {
          assert w[1].opacity == BrightOpacity;
          assert DimWords(w[1..]) == [] by {
            assert w[1..][1..] == [];
          }
        } else {
          assert w[1..] == [];
        }
      }
      assert Texts(ps) == Texts(ps[..n]) + [ps[n].image.text];
    }
  }

  /** A screen made of a background followed by the schedule of its placed
      words shows those words, once each, in reading order. */
  lemma ScreenShowsPlaced(ps: seq<Placed>, spw: real, d: real)
    ensures DimWords(ScreenClips(ps, spw, d)) == Texts(ps)
  {
    var bg := Background(d);
    DimWordsAppend([bg], Schedule(ps, spw, d));
    assert DimWords([bg]) == [] by {
      assert [bg][1..] == [];
    }
    DimWordsOfSchedule(ps, spw, d);
  }

  lemma AddMul(x: nat, y: nat, z: real)
    ensures (x + y) as real * z == x as real * z + y as real * z
  {
  }

  lemma PositiveMul(x: nat, z: real)
    requires x > 0 && z > 0.0
    ensures x as real * z > 0.0
  {
    assert x as real >= 1.0;
  }
}
