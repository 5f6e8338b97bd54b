/** `MemeEffectsProcessor`: turns a list of meme detections into a sequence
    of ffmpeg passes. Each detection asks for up to five sub-effects in a fixed
    order (zoom, emoji, sound, slow motion, text); each sub-effect reserves a
    temporary output, then yields it or, when a resource is missing or ffmpeg
    fails, passes its input through. ffmpeg and `shutil.copy2` are the
    parameter `run`, `os.path.exists` is `onDisk`. */
module MemeProcessing {
  import opened Common
  import opened ContentAnalysis

  /** One ffmpeg (or copy) job, with the parameters that matter: the paths
      and the time window, factor, delay or text of the effect. */
  datatype EffectJob =
    | ZoomJob(input: Path, output: Path, start: real, end: real, factor: real)
    | EmojiJob(input: Path, image: Path, output: Path, start: real, end: real)
    | SoundJob(input: Path, sound: Path, output: Path, delayMs: int)
    | SlowmoJob(input: Path, output: Path, start: real, end: real, factor: real)
    | TextJob(input: Path, output: Path, text: string, start: real, end: real)
    | CopyJob(source: Path, target: Path)

  /** One sub-effect a detection asks for, with what it needs from the detection. */
  datatype Effect =
    | Zoom(at: real)
    | Emoji(at: real, tag: string)
    | Sound(at: real, tag: string)
    | Slowmo(at: real)
    | Text(at: real, line: string)

  const EMOJI_LIBRARY: map<string, Path> := map[
    "emoji_fire" := "assets/emojis/fire.png",
    "emoji_shocked" := "assets/emojis/shocked.png",
    "emoji_laughing" := "assets/emojis/laughing.png",
    "emoji_thinking" := "assets/emojis/thinking.png",
    "emoji_clap" := "assets/emojis/clap.png"]

  const SOUND_LIBRARY: map<string, Path> := map[
    "sound_ding" := "assets/sounds/ding.wav",
    "sound_record_scratch" := "assets/sounds/record_scratch.wav",
    "sound_airhorn" := "assets/sounds/airhorn.wav",
    "sound_whoosh" := "assets/sounds/whoosh.wav",
    "sound_pop" := "assets/sounds/pop.wav"]

  /** Only the five named emoji and the five named sounds have a file; a bare
      `emoji` or `sound` tag has none. */
  lemma LibraryKeys()
    ensures EMOJI_LIBRARY.Keys == {"emoji_fire", "emoji_shocked", "emoji_laughing", "emoji_thinking", "emoji_clap"}
    ensures SOUND_LIBRARY.Keys == {"sound_ding", "sound_record_scratch", "sound_airhorn", "sound_whoosh", "sound_pop"}
    ensures "emoji" !in EMOJI_LIBRARY && "sound" !in SOUND_LIBRARY
  {
  }

  /** The two asset libraries a processor looks tags up in. */
  datatype Libraries = Libraries(emoji: map<string, Path>, sound: map<string, Path>)

  const LIBRARIES: Libraries := Libraries(EMOJI_LIBRARY, SOUND_LIBRARY)

  /** The overlay phrases per meme type. */
  const MEME_TEXTS: map<string, seq<string>> := map[
    "reaction" := ["BRUH", "WAIT WHAT?", "NO WAY", "OMG"],
    "emphasis" := ["EXACTLY!", "THIS!", "FACTS", "TRUTH"],
    "awkward" := ["...", "AWKWARD", "UH OH", "YIKES"],
    "surprise" := ["PLOT TWIST", "SURPRISE!", "WHOA", "UNEXPECTED"]]

  /** `_generate_meme_text`: "wait" in the lower-cased text wins over "oh";
      otherwise the first phrase of the type, or "WOW" for an unlisted type. */
  function GenerateMemeText(d: MemeDetection): string
  {
    var texts := if d.memeType in MEME_TEXTS then MEME_TEXTS[d.memeType] else ["WOW"];
    if Contains(Lower(d.text), "wait") then "WAIT WHAT?"
    else if Contains(Lower(d.text), "oh") then "OH NO"
    else texts[0]
  }

  /** The phrase is "WAIT WHAT?" exactly when the text mentions "wait", and
      "OH NO" exactly when it mentions "oh" but not "wait" (neither is the
      first phrase of any type); it is always one of seven phrases. */
  lemma MemeTextChoice(d: MemeDetection)
    ensures GenerateMemeText(d) == "WAIT WHAT?" <==> Contains(Lower(d.text), "wait")
    ensures GenerateMemeText(d) == "OH NO" <==> !Contains(Lower(d.text), "wait") && Contains(Lower(d.text), "oh")
    ensures GenerateMemeText(d) in {"WAIT WHAT?", "OH NO", "WOW", "BRUH", "EXACTLY!", "...", "PLOT TWIST"}
  {
  }

  /** With neither keyword, an unlisted type such as "punchline" gets "WOW"
      and a listed one its first phrase. */
  lemma MemeTextDefaults(d: MemeDetection)
    requires !Contains(Lower(d.text), "wait") && !Contains(Lower(d.text), "oh")
    ensures d.memeType == "punchline" ==> GenerateMemeText(d) == "WOW"
    ensures d.memeType == "reaction" ==> GenerateMemeText(d) == "BRUH"
    ensures d.memeType == "surprise" ==> GenerateMemeText(d) == "PLOT TWIST"
  {
  }

  /** Both keywords present: "wait" is checked first. */
  lemma MemeTextExample(d: MemeDetection)
    requires d.text == "Oh WAIT"
    ensures GenerateMemeText(d) == "WAIT WHAT?"
  {
    assert Lower(d.text) == "oh wait";
    ContainsAt(Lower(d.text), "wait", 3);
  }

  /** Python's `int(x)`: truncation toward zero. */
  function Truncate(x: real): (n: int)
    ensures x >= 0.0 ==> n as real <= x < n as real + 1.0
    ensures x < 0.0 ==> n as real - 1.0 < x <= n as real
  {
    if x >= 0.0 then x.Floor else -((-x).Floor)
  }

  /** `[e]` when `b` holds, else nothing. */
  function Opt(b: bool, e: Effect): seq<Effect>
  {
    if b then [e] else []
  }

  /** The sub-effects a detection asks for, in the order they are applied.
      The emoji and sound tags are the first ones of their kind. */
  function EffectsOf(d: MemeDetection): seq<Effect>
  {
    var fx := d.suggestedEffects;
    var emoji := FirstWithPrefix(fx, "emoji");
    var sound := FirstWithPrefix(fx, "sound");
    Opt("zoom" in fx, Zoom(d.timestamp)) +
    Opt(emoji.Some?, Emoji(d.timestamp, emoji.GetOr(""))) +
    Opt(sound.Some?, Sound(d.timestamp, sound.GetOr(""))) +
    Opt("slowmo" in fx, Slowmo(d.timestamp)) +
    Opt("text" in fx, Text(d.timestamp, GenerateMemeText(d)))
  }

  /** The position of a sub-effect in the fixed pipeline order. */
  function Rank(e: Effect): nat
  {
    match e
    case Zoom(_) => 0
    case Emoji(_, _) => 1
    case Sound(_, _) => 2
    case Slowmo(_) => 3
    case Text(_, _) => 4
  }

  /** At most five sub-effects per detection. */
  lemma EffectsOfCount(d: MemeDetection)
    ensures |EffectsOf(d)| <= 5
  {
  }

  /** Every sub-effect of a detection is placed at the detection's timestamp. */
  lemma EffectsOfTimestamp(d: MemeDetection)
    ensures forall e :: e in EffectsOf(d) ==> e.at == d.timestamp
  {
  }

  /** Zoom is asked for exactly when the `zoom` tag is listed. */
  lemma EffectsOfZoom(d: MemeDetection)
    ensures Zoom(d.timestamp) in EffectsOf(d) <==> "zoom" in d.suggestedEffects
  {
  }

  /** An emoji step, when there is one, uses the first tag starting with "emoji". */
  lemma EffectsOfEmojiTag(d: MemeDetection)
    ensures forall t :: Emoji(d.timestamp, t) in EffectsOf(d) ==> FirstWithPrefix(d.suggestedEffects, "emoji") == Some(t)
  {
  }

  /** A sound step, when there is one, uses the first tag starting with "sound". */
  lemma EffectsOfSoundTag(d: MemeDetection)
    ensures forall t :: Sound(d.timestamp, t) in EffectsOf(d) ==> FirstWithPrefix(d.suggestedEffects, "sound") == Some(t)
  {
  }

  /** There is an emoji step exactly when some tag starts with "emoji". */
  lemma EffectsOfEmojiWanted(d: MemeDetection)
    ensures (exists t :: Emoji(d.timestamp, t) in EffectsOf(d)) <==>
      exists k :: 0 <= k < |d.suggestedEffects| && StartsWith(d.suggestedEffects[k], "emoji")
  {
    var emoji := FirstWithPrefix(d.suggestedEffects, "emoji");
    var k := FirstWithPrefixSpec(d.suggestedEffects, "emoji");
    if emoji.Some? {
      assert Emoji(d.timestamp, emoji.value) in EffectsOf(d);
    }
  }

  /** The filters of the five sub-effects, on `input` into `output`; `None`
      when the emoji or sound has no existing file. */
  function StepJob(e: Effect, input: Path, output: Path, libs: Libraries, onDisk: Path -> bool): Option<EffectJob>
  {
    match e
    case Zoom(at) => Some(ZoomJob(input, output, at, at + 0.5, 1.3))
    case Emoji(at, tag) =>
      if tag in libs.emoji && libs.emoji[tag] != "" && onDisk(libs.emoji[tag])
      then Some(EmojiJob(input, libs.emoji[tag], output, at, at + 1.0))
      else None
    case Sound(at, tag) =>
      if tag in libs.sound && libs.sound[tag] != "" && onDisk(libs.sound[tag])
      then Some(SoundJob(input, libs.sound[tag], output, Truncate(at * 1000.0)))
      else None
    case Slowmo(at) => Some(SlowmoJob(input, output, at, at + 2.0, 0.5))
    case Text(at, line) => Some(TextJob(input, output, line, at, at + 1.5))
  }

  /** The path a sub-effect hands on: its output when its job exists and ran,
      otherwise its input. */
  function StepResult(e: Effect, input: Path, output: Path, libs: Libraries, onDisk: Path -> bool, run: EffectJob -> bool): Path
  {
    match StepJob(e, input, output, libs, onDisk)
    case None => input
    case Some(job) => if run(job) then output else input
  }

  /** A sub-effect yields its output exactly when its job exists and ran, and
      its input otherwise; an emoji or sound has no job exactly when its tag
      has no existing file, the other three sub-effects always have one. */
  lemma StepOutcome(e: Effect, input: Path, output: Path, libs: Libraries, onDisk: Path -> bool, run: EffectJob -> bool)
    requires input != output
    ensures StepResult(e, input, output, libs, onDisk, run) == output <==>
      StepJob(e, input, output, libs, onDisk).Some? && run(StepJob(e, input, output, libs, onDisk).value)
    ensures StepResult(e, input, output, libs, onDisk, run) != output ==> StepResult(e, input, output, libs, onDisk, run) == input
    ensures e.Emoji? ==> (StepJob(e, input, output, libs, onDisk).None? <==>
      !(e.tag in libs.emoji && libs.emoji[e.tag] != "" && onDisk(libs.emoji[e.tag])))
    ensures e.Sound? ==> (StepJob(e, input, output, libs, onDisk).None? <==>
      !(e.tag in libs.sound && libs.sound[e.tag] != "" && onDisk(libs.sound[e.tag])))
    ensures !e.Emoji? && !e.Sound? ==> StepJob(e, input, output, libs, onDisk).Some?
  {
  }

  /** The `n` temporary outputs handed out from counter value `first` on. */
  function Temps(first: nat, n: nat): seq<Path>
  {
    if n == 0 then [] else Temps(first, n - 1) + [TempPath(first + n - 1, ".mp4")]
  }

  /** Temporary file `k` of the run is the one with counter value `first + k`. */
  lemma {:induction false} TempsAt(first: nat, n: nat)
    ensures |Temps(first, n)| == n
    ensures forall k :: 0 <= k < n ==> Temps(first, n)[k] == TempPath(first + k, ".mp4")
  {
    if n > 0 {
      TempsAt(first, n - 1);
    }
  }

  /** Every sub-effect of every detection, in processing order. */
  function Plan(ds: seq<MemeDetection>): seq<Effect>
  {
    if ds == [] then [] else Plan(ds[..|ds| - 1]) + EffectsOf(ds[|ds| - 1])
  }

  /** Where a run of sub-effects stands: the current video, how many
      temporary files have been asked for, and the registry of them. */
  datatype Cursor = Cursor(path: Path, counter: nat, temps: seq<Path>)

  /** One sub-effect: it reserves temporary file number `counter` as its
      output, registers it, and hands on its result. */
  function Step(e: Effect, c: Cursor, libs: Libraries, onDisk: Path -> bool, run: EffectJob -> bool): Cursor
  {
    var out := TempPath(c.counter, ".mp4");
    Cursor(StepResult(e, c.path, out, libs, onDisk, run), c.counter + 1, c.temps + [out])
  }

  /** Running `steps` in order from `c`. */
  function Run(steps: seq<Effect>, c: Cursor, libs: Libraries, onDisk: Path -> bool, run: EffectJob -> bool): Cursor
  {
    if steps == [] then c
    else Step(steps[|steps| - 1], Run(steps[..|steps| - 1], c, libs, onDisk, run), libs, onDisk, run)
  }

  /** Every sub-effect reserves and registers exactly one temporary file,
      the next one by counter. */
  lemma {:induction false} RunCounter(steps: seq<Effect>, c: Cursor, libs: Libraries, onDisk: Path -> bool, run: EffectJob -> bool)
    ensures Run(steps, c, libs, onDisk, run).counter == c.counter + |steps|
    ensures Run(steps, c, libs, onDisk, run).temps == c.temps + Temps(c.counter, |steps|)
  {
    if steps != [] {
      RunCounter(steps[..|steps| - 1], c, libs, onDisk, run);
    }
  }

  /** Where a run ends: at its input or at one of the temporary files it reserved. */
  lemma {:induction false} RunProvenance(steps: seq<Effect>, c: Cursor, libs: Libraries, onDisk: Path -> bool, run: EffectJob -> bool)
    returns (k: int)
    ensures -1 <= k < |steps|
    ensures k == -1 ==> Run(steps, c, libs, onDisk, run).path == c.path
    ensures k >= 0 ==> Run(steps, c, libs, onDisk, run).path == TempPath(c.counter + k, ".mp4")
  {
    if steps == [] {
      k := -1;
    } else {
      var n := |steps| - 1;
      var before := Run(steps[..n], c, libs, onDisk, run);
      RunCounter(steps[..n], c, libs, onDisk, run);
      if Run(steps, c, libs, onDisk, run).path == TempPath(c.counter + n, ".mp4") {
        k := n;
      } else {
        k := RunProvenance(steps[..n], c, libs, onDisk, run);
      }
    }
  }

  /** When no job succeeds the run passes its input all the way through. */
  lemma {:induction false} RunAllFail(steps: seq<Effect>, c: Cursor, libs: Libraries, onDisk: Path -> bool, run: EffectJob -> bool)
    requires forall job :: !run(job)
    ensures Run(steps, c, libs, onDisk, run).path == c.path
  {
    if steps != [] {
      RunAllFail(steps[..|steps| - 1], c, libs, onDisk, run);
    }
  }

  /** `p` is none of the names still to be handed out from counter value
      `from` on; `mkstemp` never returns the name of a file that exists. */
  ghost predicate NotTempFrom(p: Path, from: nat) {
    forall k: nat :: from <= k ==> p != TempPath(k, ".mp4")
  }

  /** Some sub-effect of the run had a job, and that job succeeded. */
  function Ran(steps: seq<Effect>, c: Cursor, libs: Libraries, onDisk: Path -> bool, run: EffectJob -> bool): bool
  {
    if steps == [] then false
    else
      var before := Run(steps[..|steps| - 1], c, libs, onDisk, run);
      var job := StepJob(steps[|steps| - 1], before.path, TempPath(before.counter, ".mp4"), libs, onDisk);
      Ran(steps[..|steps| - 1], c, libs, onDisk, run) || (job.Some? && run(job.value))
  }

  /** Starting from a video that is not a name still to come, the current
      video never is one either, so every sub-effect's input differs from the
      output it reserves; and the run ends somewhere new exactly when some
      sub-effect's job ran. */
  lemma {:induction false} RunMoves(steps: seq<Effect>, c: Cursor, libs: Libraries, onDisk: Path -> bool, run: EffectJob -> bool)
    requires NotTempFrom(c.path, c.counter)
    ensures NotTempFrom(Run(steps, c, libs, onDisk, run).path, Run(steps, c, libs, onDisk, run).counter)
    ensures Run(steps, c, libs, onDisk, run).path != c.path <==> Ran(steps, c, libs, onDisk, run)
  {
    if steps != [] {
      var n := |steps| - 1;
      var before := Run(steps[..n], c, libs, onDisk, run);
      RunCounter(steps[..n], c, libs, onDisk, run);
      RunMoves(steps[..n], c, libs, onDisk, run);
      var out := TempPath(before.counter, ".mp4");
      assert before.path != out;
      StepOutcome(steps[n], before.path, out, libs, onDisk, run);
      forall k: nat | before.counter + 1 <= k
        ensures out != TempPath(k, ".mp4")
      {
        TempPathInjective(before.counter, ".mp4", k, ".mp4");
      }
    }
  }

  /** Running a concatenation runs the second part from where the first ended. */
  lemma {:induction false} RunAppend(a: seq<Effect>, b: seq<Effect>, c: Cursor, libs: Libraries, onDisk: Path -> bool, run: EffectJob -> bool)
    ensures Run(a + b, c, libs, onDisk, run) == Run(b, Run(a, c, libs, onDisk, run), libs, onDisk, run)
    decreases |b|
  {
    if b == [] {
      assert a + b == a;
    } else {
      var n := |b| - 1;
      assert (a + b)[..|a| + n] == a + b[..n];
      RunAppend(a, b[..n], c, libs, onDisk, run);
    }
  }

  /** The path a run reaches depends only on its starting path and counter,
      not on what was registered before. */
  lemma {:induction false} RunPathOnly(steps: seq<Effect>, c: Cursor, c': Cursor, libs: Libraries, onDisk: Path -> bool, run: EffectJob -> bool)
    requires c.path == c'.path && c.counter == c'.counter
    ensures Run(steps, c, libs, onDisk, run).path == Run(steps, c', libs, onDisk, run).path
    ensures Run(steps, c, libs, onDisk, run).counter == Run(steps, c', libs, onDisk, run).counter
  {
    if steps != [] {
      RunPathOnly(steps[..|steps| - 1], c, c', libs, onDisk, run);
    }
  }

  /** An optional sub-effect is one step when wanted and none otherwise. */
  lemma RunOpt(w: bool, e: Effect, c: Cursor, libs: Libraries, onDisk: Path -> bool, run: EffectJob -> bool)
    ensures Run(Opt(w, e), c, libs, onDisk, run) == if w then Step(e, c, libs, onDisk, run) else c
  {
    if w {
      assert Opt(w, e)[..0] == [];
    }
  }

  /** A detection from the keyword fallback asks for exactly a zoom and the
      bare `emoji` tag, which has no library entry, so its emoji step always
      passes its input through. */
  lemma FallbackEffects(c: Caption, memeType: string, input: Path, output: Path, onDisk: Path -> bool, run: EffectJob -> bool)
    ensures var d := FallbackDetection(c, memeType);
      EffectsOf(d) == [Zoom(d.timestamp), Emoji(d.timestamp, "emoji")] &&
      StepResult(Emoji(d.timestamp, "emoji"), input, output, LIBRARIES, onDisk, run) == input
  {
    var d := FallbackDetection(c, memeType);
    assert StartsWith(d.suggestedEffects[1], "emoji");
    assert !StartsWith(d.suggestedEffects[0], "sound") && !StartsWith(d.suggestedEffects[1], "sound");
  }

  class MemeEffectsProcessor {
    const emojiLibrary: map<string, Path>
    const soundLibrary: map<string, Path>
    var tempFiles: seq<Path>
    /** How many temporary files this processor has asked `mkstemp` for. */
    var tempCounter: nat

    constructor ()
      ensures emojiLibrary == EMOJI_LIBRARY && soundLibrary == SOUND_LIBRARY
      ensures tempFiles == [] && tempCounter == 0
    {
      emojiLibrary := EMOJI_LIBRARY;
      soundLibrary := SOUND_LIBRARY;
      tempFiles := [];
      tempCounter := 0;
    }

    /** The processor's progress when the current video is `p`. */
    function At(p: Path): Cursor
      reads this
    {
      Cursor(p, tempCounter, tempFiles)
    }

    /** Both libraries, as the step functions take them. */
    function Libs(): Libraries
    {
      Libraries(emojiLibrary, soundLibrary)
    }

    /** `_get_emoji_path`. */
    function GetEmojiPath(tag: string): (r: Option<Path>)
      reads this
      ensures r.Some? <==> tag in emojiLibrary
      ensures r.Some? ==> r.value == emojiLibrary[tag]
    {
      if tag in emojiLibrary then Some(emojiLibrary[tag]) else None
    }

    /** `_get_sound_path`. */
    function GetSoundPath(tag: string): (r: Option<Path>)
      reads this
      ensures r.Some? <==> tag in soundLibrary
      ensures r.Some? ==> r.value == soundLibrary[tag]
    {
      if tag in soundLibrary then Some(soundLibrary[tag]) else None
    }

    /** `mkstemp(suffix=".mp4")`: the name is registered, and no other
        counter value, before or after, names the same file. */
    method NewTemp() returns (p: Path)
      modifies this`tempFiles, this`tempCounter
      ensures p == TempPath(old(tempCounter), ".mp4")
      ensures forall k: nat :: k != old(tempCounter) ==> p != TempPath(k, ".mp4")
      ensures tempFiles == old(tempFiles) + [p] && tempCounter == old(tempCounter) + 1
    {
      p := TempPath(tempCounter, ".mp4");
      forall k: nat | k != tempCounter
        ensures p != TempPath(k, ".mp4")
      {
        TempPathInjective(tempCounter, ".mp4", k, ".mp4");
      }
      tempFiles := tempFiles + [p];
      tempCounter := tempCounter + 1;
    }

    /** `_apply_zoom_effect`: a 1.3x zoom on [t, t+0.5]. */
    method ApplyZoomEffect(input: Path, d: MemeDetection, onDisk: Path -> bool, run: EffectJob -> bool) returns (p: Path)
      modifies this`tempFiles, this`tempCounter
      ensures At(p) == Step(Zoom(d.timestamp), old(At(input)), Libs(), onDisk, run)
    {
      var out := NewTemp();
      if run(ZoomJob(input, out, d.timestamp, d.timestamp + 0.5, 1.3)) {
        p := out;
      } else {
        p := input;
      }
    }

    /** `_apply_emoji_overlay`: reserves the output first, then needs the
        emoji's file; the overlay covers [t, t+1.0]. */
    method ApplyEmojiOverlay(input: Path, d: MemeDetection, tag: string, onDisk: Path -> bool, run: EffectJob -> bool)
      returns (p: Path)
      modifies this`tempFiles, this`tempCounter
      ensures At(p) == Step(Emoji(d.timestamp, tag), old(At(input)), Libs(), onDisk, run)
    {
      var out := NewTemp();
      var image := GetEmojiPath(tag);
      if !Present(image) || !onDisk(image.value) {
        return input;
      }
      if run(EmojiJob(input, image.value, out, d.timestamp, d.timestamp + 1.0)) {
        p := out;
      } else {
        p := input;
      }
    }

    /** `_apply_sound_effect`: reserves the output first, then needs the
        sound's file; the sound is delayed by `int(t * 1000)` ms. */
    method ApplySoundEffect(input: Path, d: MemeDetection, tag: string, onDisk: Path -> bool, run: EffectJob -> bool)
      returns (p: Path)
      modifies this`tempFiles, this`tempCounter
      ensures At(p) == Step(Sound(d.timestamp, tag), old(At(input)), Libs(), onDisk, run)
    {
      var out := NewTemp();
      var sound := GetSoundPath(tag);
      if !Present(sound) || !onDisk(sound.value) {
        return input;
      }
      if run(SoundJob(input, sound.value, out, Truncate(d.timestamp * 1000.0))) {
        p := out;
      } else {
        p := input;
      }
    }

    /** `_apply_slowmo_effect`: half speed on [t, t+2.0]. */
    method ApplySlowmoEffect(input: Path, d: MemeDetection, onDisk: Path -> bool, run: EffectJob -> bool) returns (p: Path)
      modifies this`tempFiles, this`tempCounter
      ensures At(p) == Step(Slowmo(d.timestamp), old(At(input)), Libs(), onDisk, run)
    {
      var out := NewTemp();
      if run(SlowmoJob(input, out, d.timestamp, d.timestamp + 2.0, 0.5)) {
        p := out;
      } else {
        p := input;
      }
    }

    /** `_apply_text_overlay`: the generated phrase on [t, t+1.5]. */
    method ApplyTextOverlay(input: Path, d: MemeDetection, onDisk: Path -> bool, run: EffectJob -> bool) returns (p: Path)
      modifies this`tempFiles, this`tempCounter
      ensures At(p) == Step(Text(d.timestamp, GenerateMemeText(d)), old(At(input)), Libs(), onDisk, run)
    {
      var out := NewTemp();
      var text := GenerateMemeText(d);
      if run(TextJob(input, out, text, d.timestamp, d.timestamp + 1.5)) {
        p := out;
      } else {
        p := input;
      }
    }

    /** The five `if`s of the dispatch loop for one detection: the video and
        the registry move along `EffectsOf(d)`. */
    method ApplyDetection(input: Path, d: MemeDetection, onDisk: Path -> bool, run: EffectJob -> bool)
      returns (p: Path)
      modifies this`tempFiles, this`tempCounter
      ensures At(p) == Run(EffectsOf(d), old(At(input)), Libs(), onDisk, run)
    {
      var fx := d.suggestedEffects;
      var t := d.timestamp;
      ghost var c0 := At(input);
      p := input;
      if "zoom" in fx {
        p := ApplyZoomEffect(p, d, onDisk, run);
      }
      ghost var c1 := At(p);
      RunOpt("zoom" in fx, Zoom(t), c0, Libs(), onDisk, run);
      var emoji := FirstWithPrefix(fx, "emoji");
      if emoji.Some? {
        p := ApplyEmojiOverlay(p, d, emoji.value, onDisk, run);
      }
      ghost var c2 := At(p);
      RunOpt(emoji.Some?, Emoji(t, emoji.GetOr("")), c1, Libs(), onDisk, run);
      var sound := FirstWithPrefix(fx, "sound");
      if sound.Some? {
        p := ApplySoundEffect(p, d, sound.value, onDisk, run);
      }
      ghost var c3 := At(p);
      RunOpt(sound.Some?, Sound(t, sound.GetOr("")), c2, Libs(), onDisk, run);
      if "slowmo" in fx {
        p := ApplySlowmoEffect(p, d, onDisk, run);
      }
      ghost var c4 := At(p);
      RunOpt("slowmo" in fx, Slowmo(t), c3, Libs(), onDisk, run);
      if "text" in fx {
        p := ApplyTextOverlay(p, d, onDisk, run);
      }
      RunOpt("text" in fx, Text(t, GenerateMemeText(d)), c4, Libs(), onDisk, run);
      ComposeFive(Opt("zoom" in fx, Zoom(t)), Opt(emoji.Some?, Emoji(t, emoji.GetOr(""))),
        Opt(sound.Some?, Sound(t, sound.GetOr(""))), Opt("slowmo" in fx, Slowmo(t)),
        Opt("text" in fx, Text(t, GenerateMemeText(d))), c0, Libs(), onDisk, run);
    }

    /** `apply_meme_effects`: an empty list returns the input untouched;
        otherwise the output file is reserved, the detections run in order,
        and the result is `MemeOutput`. The input video exists, so it is none
        of the names `mkstemp` is still to hand out. */
    method ApplyMemeEffects(videoPath: Path, ds: seq<MemeDetection>, onDisk: Path -> bool, run: EffectJob -> bool)
      returns (r: Path)
      requires NotTempFrom(videoPath, tempCounter)
      modifies this`tempFiles, this`tempCounter
      ensures r == MemeOutput(videoPath, ds, old(tempCounter), Libs(), onDisk, run)
      ensures ds == [] ==> tempFiles == old(tempFiles) && tempCounter == old(tempCounter)
      ensures ds != [] ==>
        var plan := Plan(ds);
        tempFiles == old(tempFiles) + [TempPath(old(tempCounter), ".mp4")] + Temps(old(tempCounter) + 1, |plan|) &&
        tempCounter == old(tempCounter) + 1 + |plan|
    {
      if ds == [] {
        return videoPath;
      }
      var out := NewTemp();
      ghost var c0 := At(videoPath);
      var current := videoPath;
      var i := 0;
      while i < |ds|
        invariant 0 <= i <= |ds|
        invariant At(current) == Run(Plan(ds[..i]), c0, Libs(), onDisk, run)
      {
        assert ds[..i + 1][..i] == ds[..i];
        assert Plan(ds[..i + 1]) == Plan(ds[..i]) + EffectsOf(ds[i]);
        RunAppend(Plan(ds[..i]), EffectsOf(ds[i]), c0, Libs(), onDisk, run);
        current := ApplyDetection(current, ds[i], onDisk, run);
        i := i + 1;
      }
      assert ds[..i] == ds;
      RunCounter(Plan(ds), c0, Libs(), onDisk, run);
      RunPathOnly(Plan(ds), c0, Cursor(videoPath, c0.counter, []), Libs(), onDisk, run);
      if current != videoPath {
        if run(CopyJob(current, out)) {
          r := out;
        } else {
          r := videoPath;
        }
      } else {
        r := videoPath;
      }
    }

    /** `cleanup`: deletes the registered files that exist; the registry ends empty. */
    method Cleanup(onDisk: Path -> bool) returns (removed: seq<Path>)
      modifies this`tempFiles
      ensures removed == Existing(old(tempFiles), onDisk)
      ensures tempFiles == []
    {
      removed := [];
      var i := 0;
      while i < |tempFiles|
        invariant 0 <= i <= |tempFiles|
        invariant removed == Existing(tempFiles[..i], onDisk)
      {
        assert tempFiles[..i + 1][..i] == tempFiles[..i];
        if onDisk(tempFiles[i]) {
          removed := removed + [tempFiles[i]];
        }
        i := i + 1;
      }
      assert tempFiles[..i] == tempFiles;
      tempFiles := [];
    }
  }

  /** What `apply_meme_effects` returns when its output file has counter
      value `counter`: the output when some sub-effect produced a new file and
      copying it there succeeded, else the input. When no sub-effect did, the
      copy in the `else` branch names `shutil`, which is local to the function
      and not yet bound there, so the call raises and the input is returned. */
  function MemeOutput(videoPath: Path, ds: seq<MemeDetection>, counter: nat, libs: Libraries,
                      onDisk: Path -> bool, run: EffectJob -> bool): Path
  {
    if ds == [] then videoPath
    else
      var out := TempPath(counter, ".mp4");
      var last := Run(Plan(ds), Cursor(videoPath, counter + 1, []), libs, onDisk, run).path;
      if last != videoPath && run(CopyJob(last, out)) then out else videoPath
  }

  /** For an input that is not a name still to come, the pass returns its
      output file exactly when there were detections, some sub-effect's job
      ran, and the final copy succeeded; otherwise it returns the input, and
      the two never coincide. */
  lemma MemeOutputMeaning(videoPath: Path, ds: seq<MemeDetection>, counter: nat, libs: Libraries,
                          onDisk: Path -> bool, run: EffectJob -> bool)
    requires NotTempFrom(videoPath, counter)
    ensures var out := TempPath(counter, ".mp4");
      var c := Cursor(videoPath, counter + 1, []);
      out != videoPath &&
      (MemeOutput(videoPath, ds, counter, libs, onDisk, run) == out <==>
        ds != [] && Ran(Plan(ds), c, libs, onDisk, run) &&
        run(CopyJob(Run(Plan(ds), c, libs, onDisk, run).path, out))) &&
      (MemeOutput(videoPath, ds, counter, libs, onDisk, run) != out ==>
        MemeOutput(videoPath, ds, counter, libs, onDisk, run) == videoPath)
  {
    if ds != [] {
      RunMoves(Plan(ds), Cursor(videoPath, counter + 1, []), libs, onDisk, run);
    }
  }

  /** Five consecutive parts, run one after another. */
  lemma ComposeFive(a: seq<Effect>, b: seq<Effect>, c: seq<Effect>, d: seq<Effect>, e: seq<Effect>,
                    start: Cursor, libs: Libraries, onDisk: Path -> bool, run: EffectJob -> bool)
    ensures Run(a + b + c + d + e, start, libs, onDisk, run) ==
      Run(e, Run(d, Run(c, Run(b, Run(a, start, libs, onDisk, run), libs, onDisk, run), libs, onDisk, run), libs, onDisk, run), libs, onDisk, run)
  {
    RunAppend(a + b + c + d, e, start, libs, onDisk, run);
    RunAppend(a + b + c, d, start, libs, onDisk, run);
    RunAppend(a + b, c, start, libs, onDisk, run);
    RunAppend(a, b, start, libs, onDisk, run);
  }
}
