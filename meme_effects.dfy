/** `SimpleMemeEffects`: four single-pass ffmpeg effects and a concatenation.
    Each needs the `ffmpeg` module to be importable; without it every call
    hands its input back and reserves nothing. With it, a call reserves one
    temporary output and yields it when the ffmpeg run succeeds, its input
    otherwise. The ffmpeg runs are the parameter `run`, `os.path.exists` is
    `onDisk`. */
module SimpleEffects {
  import opened Common

  /** The ffmpeg passes, with the parameters that reach the filter graph.
      The zoom pass has no time window: the timestamp it is given is only
      logged. */
  datatype SimpleJob =
    | ScaleCropJob(input: Path, output: Path, factor: real)
    | SpeedJob(input: Path, output: Path, factor: real)
    | DrawTextJob(input: Path, output: Path, text: string, start: real, end: real, fontSize: nat)
    | ColorJob(input: Path, output: Path, saturation: real, brightness: real)
    | ConcatJob(inputs: seq<Path>, output: Path)

  /** The text handed to `drawtext`: single and double quotes dropped, every
      colon escaped with a backslash. */
  function Sanitize(text: string): string
  {
    Replace(Replace(Replace(text, '\'', ""), '"', ""), ':', "\\:")
  }

  /** The sanitised text loses one character per quote and gains one per colon. */
  lemma SanitizeLength(text: string)
    ensures |Sanitize(text)| == |text| - Count(text, '\'') - Count(text, '"') + Count(text, ':')
  {
    var r1 := Replace(text, '\'', "");
    var r2 := Replace(r1, '"', "");
    ReplaceLength(text, '\'', "");
    ReplaceLength(r1, '"', "");
    ReplaceLength(r2, ':', "\\:");
    ReplaceCountOther(text, '\'', "", '"');
    ReplaceCountOther(text, '\'', "", ':');
    ReplaceCountOther(r1, '"', "", ':');
  }

  /** No quote of either kind survives, and every other character of the
      text except the colon is still there. */
  lemma SanitizeNoQuotes(text: string)
    ensures '\'' !in Sanitize(text) && '"' !in Sanitize(text)
    ensures forall c :: c != '\'' && c != '"' && c != ':' && c != '\\' ==> (c in text <==> c in Sanitize(text))
  {
    var r1 := Replace(text, '\'', "");
    var r2 := Replace(r1, '"', "");
    RemoveAll(text, '\'');
    RemoveAll(r1, '"');
    ReplaceKeepsOther(r2, ':', "\\:", '\'');
    ReplaceKeepsOther(r2, ':', "\\:", '"');
    forall c | c != '\'' && c != '"' && c != ':' && c != '\\'
      ensures c in text <==> c in Sanitize(text)
    {
      ReplaceKeepsOther(r2, ':', "\\:", c);
    }
  }

  /** Every colon of the sanitised text is escaped: a backslash precedes it. */
  lemma SanitizeEscapesColons(text: string)
    ensures forall k :: 0 <= k < |Sanitize(text)| && Sanitize(text)[k] == ':' ==> k > 0 && Sanitize(text)[k - 1] == '\\'
  {
    ColonsEscaped(Replace(Replace(text, '\'', ""), '"', ""));
  }

  /** A character that is neither replaced nor part of the replacement is in
      the result exactly when it is in the input. */
  lemma {:induction false} ReplaceKeepsOther(s: string, ch: char, rep: string, c: char)
    requires c != ch && c !in rep
    ensures c in Replace(s, ch, rep) <==> c in s
  {
    if s != [] {
      var s' := s[..|s| - 1];
      ReplaceKeepsOther(s', ch, rep, c);
      assert s == s' + [s[|s| - 1]];
    }
  }

  lemma {:induction false} ColonsEscaped(s: string)
    ensures forall k :: 0 <= k < |Replace(s, ':', "\\:")| && Replace(s, ':', "\\:")[k] == ':' ==>
      k > 0 && Replace(s, ':', "\\:")[k - 1] == '\\'
  {
    if s != [] {
      ColonsEscaped(s[..|s| - 1]);
    }
  }

  class SimpleMemeEffects {
    /** Whether `import ffmpeg` succeeded. */
    const ffmpeg: bool
    var tempFiles: seq<Path>
    /** How many temporary files this object has asked `mkstemp` for. */
    var tempCounter: nat

    constructor (ffmpegInstalled: bool)
      ensures ffmpeg == ffmpegInstalled
      ensures tempFiles == [] && tempCounter == 0
    {
      ffmpeg := ffmpegInstalled;
      tempFiles := [];
      tempCounter := 0;
    }

    /** `mkstemp(suffix=".mp4")`: the name is registered, and no other
        counter value, before or after, names the same file. */
    method NewTemp() returns (p: Path)
      modifies this`tempFiles, this`tempCounter
      ensures p == TempPath(old(tempCounter), ".mp4")
      ensures forall k: nat :: k != old(tempCounter) ==> p != TempPath(k, ".mp4")
      ensures tempFiles == old(tempFiles) + [p] && tempCounter == old(tempCounter) + 1
    {
      p := TempPath(tempCounter, ".mp4");
      forall k: nat | k != tempCounter
        ensures p != TempPath(k, ".mp4")
      {
        TempPathInjective(tempCounter, ".mp4", k, ".mp4");
      }
      tempFiles := tempFiles + [p];
      tempCounter := tempCounter + 1;
    }

    /** `apply_zoom_effect`: a 1.2x scale-and-crop of the whole video. */
    method ApplyZoomEffect(input: Path, timestamp: real, run: SimpleJob -> bool, duration: real := 0.5) returns (p: Path)
      modifies this`tempFiles, this`tempCounter
      ensures !ffmpeg ==> p == input && tempFiles == old(tempFiles) && tempCounter == old(tempCounter)
      ensures ffmpeg ==>
        var out := TempPath(old(tempCounter), ".mp4");
        tempFiles == old(tempFiles) + [out] && tempCounter == old(tempCounter) + 1 &&
        (run(ScaleCropJob(input, out, 1.2)) ==> p == out) &&
        (!run(ScaleCropJob(input, out, 1.2)) ==> p == input)
    {
      if !ffmpeg {
        return input;
      }
      var out := NewTemp();
      if run(ScaleCropJob(input, out, 1.2)) {
        p := out;
      } else {
        p := input;
      }
    }

    /** `apply_speed_effect`: the whole video, picture and sound, sped up by `factor`. */
    method ApplySpeedEffect(input: Path, run: SimpleJob -> bool, factor: real := 1.5) returns (p: Path)
      modifies this`tempFiles, this`tempCounter
      ensures !ffmpeg ==> p == input && tempFiles == old(tempFiles) && tempCounter == old(tempCounter)
      ensures ffmpeg ==>
        var out := TempPath(old(tempCounter), ".mp4");
        tempFiles == old(tempFiles) + [out] && tempCounter == old(tempCounter) + 1 &&
        (run(SpeedJob(input, out, factor)) ==> p == out) &&
        (!run(SpeedJob(input, out, factor)) ==> p == input)
    {
      if !ffmpeg {
        return input;
      }
      var out := NewTemp();
      if run(SpeedJob(input, out, factor)) {
        p := out;
      } else {
        p := input;
      }
    }

    /** `add_text_overlay`: the sanitised text at font size 48, shown on
        [timestamp, timestamp + duration]. */
    method AddTextOverlay(input: Path, text: string, timestamp: real, run: SimpleJob -> bool, duration: real := 2.0)
      returns (p: Path)
      modifies this`tempFiles, this`tempCounter
      ensures !ffmpeg ==> p == input && tempFiles == old(tempFiles) && tempCounter == old(tempCounter)
      ensures ffmpeg ==>
        var out := TempPath(old(tempCounter), ".mp4");
        var job := DrawTextJob(input, out, Sanitize(text), timestamp, timestamp + duration, 48);
        tempFiles == old(tempFiles) + [out] && tempCounter == old(tempCounter) + 1 &&
        (run(job) ==> p == out) && (!run(job) ==> p == input)
    {
      if !ffmpeg {
        return input;
      }
      var out := NewTemp();
      var clean := Sanitize(text);
      if run(DrawTextJob(input, out, clean, timestamp, timestamp + duration, 48)) {
        p := out;
      } else {
        p := input;
      }
    }

    /** `enhance_colors`: the `eq` filter receives the saturation and the
        brightness shifted down by one. */
    method EnhanceColors(input: Path, run: SimpleJob -> bool, saturation: real := 1.3, brightness: real := 1.1)
      returns (p: Path)
      modifies this`tempFiles, this`tempCounter
      ensures !ffmpeg ==> p == input && tempFiles == old(tempFiles) && tempCounter == old(tempCounter)
      ensures ffmpeg ==>
        var out := TempPath(old(tempCounter), ".mp4");
        tempFiles == old(tempFiles) + [out] && tempCounter == old(tempCounter) + 1 &&
        (run(ColorJob(input, out, saturation, brightness - 1.0)) ==> p == out) &&
        (!run(ColorJob(input, out, saturation, brightness - 1.0)) ==> p == input)
    {
      if !ffmpeg {
        return input;
      }
      var out := NewTemp();
      if run(ColorJob(input, out, saturation, brightness - 1.0)) {
        p := out;
      } else {
        p := input;
      }
    }

    /** `create_meme_compilation`: fewer than two inputs, or no ffmpeg, give
        the first input (or "" for none) without reserving a file; otherwise
        the concatenation, or the first input when it fails. */
    method CreateMemeCompilation(paths: seq<Path>, run: SimpleJob -> bool) returns (r: Path)
      modifies this`tempFiles, this`tempCounter
      ensures !ffmpeg || |paths| < 2 ==>
        r == (if paths == [] then "" else paths[0]) && tempFiles == old(tempFiles) && tempCounter == old(tempCounter)
      ensures ffmpeg && |paths| >= 2 ==>
        var out := TempPath(old(tempCounter), ".mp4");
        tempFiles == old(tempFiles) + [out] && tempCounter == old(tempCounter) + 1 &&
        (run(ConcatJob(paths, out)) ==> r == out) && (!run(ConcatJob(paths, out)) ==> r == paths[0])
    {
      if !ffmpeg || |paths| < 2 {
        return if |paths| > 0 then paths[0] else "";
      }
      var out := NewTemp();
      if run(ConcatJob(paths, out)) {
        r := out;
      } else {
        r := paths[0];
      }
    }

    /** `cleanup`: deletes the registered files that exist; the registry ends empty. */
    method Cleanup(onDisk: Path -> bool) returns (removed: seq<Path>)
      modifies this`tempFiles
      ensures removed == Existing(old(tempFiles), onDisk)
      ensures tempFiles == []
    {
      removed := [];
      var i := 0;
      while i < |tempFiles|
        invariant 0 <= i <= |tempFiles|
        invariant removed == Existing(tempFiles[..i], onDisk)
      {
        assert tempFiles[..i + 1][..i] == tempFiles[..i];
        if onDisk(tempFiles[i]) {
          removed := removed + [tempFiles[i]];
        }
        i := i + 1;
      }
      assert tempFiles[..i] == tempFiles;
      tempFiles := [];
    }
  }
}
