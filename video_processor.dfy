/** The media pipeline orchestrator, `VideoProcessor`: a run moves through
    load, extract audio, transcribe, caption, meme pass and export by
    explicit calls, each guarded by a `ValueError` on the state an earlier
    step should have left. ffmpeg, OpenCV and Whisper are parameters
    (`run`, `probe`, `whisper`); the filter strings are not modelled, only
    which job is asked for with which paths. */
module VideoProcessing {
  import opened Common
  import opened Srt

  /** What OpenCV reports about a file it could open. */
  datatype Probe = Probe(fps: real, frameCount: int, width: int, height: int)

  /** One Whisper segment; `avg_logprob` may be absent. */
  datatype Segment = Segment(start: nat, end: nat, text: string, avgLogprob: Option<real>)

  /** Whisper's result dictionary: the full text and its segments. */
  datatype Transcript = Transcript(text: string, segments: seq<Segment>)

  /** The caption settings read from `config` (CAPTION_FONT_SIZE, CAPTION_FONT_COLOR). */
  datatype CaptionConfig = CaptionConfig(fontSize: int, fontColor: string)

  /** The keyword arguments passed to ffmpeg's `subtitles` filter. */
  datatype SubtitleStyle = SubtitleStyle(forceStyle: string)

  /** The external jobs a `VideoProcessor` asks for; `run(job)` says whether it succeeded. */
  datatype Job =
    | ExtractAudioJob(input: Path, output: Path)
    | BurnCaptionsJob(video: Option<Path>, subtitles: Path, style: SubtitleStyle, output: Path)
    | ZoomPassJob(input: Path, output: Path)
    | CopyFile(source: Path, target: Path)

  /** Why a stage raised. */
  datatype StageError =
    | ValueError(message: string)
    | CodecError
    | TranscriptionError
    | ExportError

  /** A stage either returns a value or raises. */
  datatype Stage<+T> = Returned(value: T) | Raised(error: StageError)

  const OUTPUT_DIR: Path := "./output"

  /** `frame_count / fps if fps > 0 else 0`. */
  function Duration(frameCount: int, fps: real): (d: real)
    ensures fps > 0.0 ==> d * fps == frameCount as real
    ensures fps <= 0.0 ==> d == 0.0
  {
    if fps > 0.0 then frameCount as real / fps else 0.0
  }

  /** 900 frames at 30 fps last 30 s; a zero frame rate gives 0 instead of a division error. */
  lemma DurationExamples()
    ensures Duration(900, 30.0) == 30.0
    ensures Duration(900, 0.0) == 0.0
  {
  }

  /** `f"{n}"` for a possibly negative integer. */
  function IntText(n: int): string
  {
    if n < 0 then "-" + Decimal(-n) else Decimal(n)
  }

  function StandardStyle(cfg: CaptionConfig): string
  {
    "FontSize=" + IntText(cfg.fontSize) + ",PrimaryColour=&H" + Replace(cfg.fontColor, '#', "")
  }

  const TIKTOK_STYLE: string := "FontSize=32," + "Bold=1" + ",PrimaryColour=&HFFFFFF,OutlineColour=&H000000,Outline=2"
  const YOUTUBE_STYLE: string := "FontSize=28" + ",PrimaryColour=&HFFFFFF,BackColour=&H80000000"

  /** The style table of `_get_caption_filter`. */
  function CaptionStyles(cfg: CaptionConfig): map<string, SubtitleStyle>
  {
    map["Standard" := SubtitleStyle(StandardStyle(cfg)),
        "TikTok" := SubtitleStyle(TIKTOK_STYLE),
        "YouTube" := SubtitleStyle(YOUTUBE_STYLE),
        "Custom" := SubtitleStyle(StandardStyle(cfg))]
  }

  /** `styles.get(style, styles["Standard"])`. */
  function CaptionFilter(style: string, cfg: CaptionConfig): SubtitleStyle
  {
    var styles := CaptionStyles(cfg);
    if style in styles then styles[style] else styles["Standard"]
  }

  /** An unknown style gets the Standard entry, and Custom is the same as Standard. */
  lemma CaptionFilterFallback(style: string, cfg: CaptionConfig)
    ensures style !in {"Standard", "TikTok", "YouTube", "Custom"} ==>
      CaptionFilter(style, cfg) == CaptionFilter("Standard", cfg)
    ensures CaptionFilter("Custom", cfg) == CaptionFilter("Standard", cfg)
    ensures CaptionFilter("Standard", cfg).forceStyle == StandardStyle(cfg)
  {
  }

  /** TikTok captions are bold, YouTube captions are 28 points, Standard uses the configured size. */
  lemma CaptionFilterContents(cfg: CaptionConfig)
    ensures Contains(CaptionFilter("TikTok", cfg).forceStyle, "Bold=1")
    ensures Contains(CaptionFilter("YouTube", cfg).forceStyle, "FontSize=28")
    ensures Contains(CaptionFilter("Standard", cfg).forceStyle, "FontSize=" + IntText(cfg.fontSize))
    ensures '#' !in CaptionFilter("Standard", cfg).forceStyle[|"FontSize=" + IntText(cfg.fontSize)|..]
  {
    ContainsAt(TIKTOK_STYLE, "Bold=1", 12);
    ContainsAt(YOUTUBE_STYLE, "FontSize=28", 0);
    var st := StandardStyle(cfg);
    var head := "FontSize=" + IntText(cfg.fontSize);
    assert st == head + (",PrimaryColour=&H" + Replace(cfg.fontColor, '#', ""));
    ContainsAt(st, head, 0);
    RemoveAll(cfg.fontColor, '#');
    assert st[|head|..] == ",PrimaryColour=&H" + Replace(cfg.fontColor, '#', "");
  }

  /** `os.path.join(directory, name)` for a relative `name`: the name is
      appended below the directory, with one separator unless the directory
      already ends in one; an empty directory adds nothing. */
  function JoinPath(directory: Path, name: string): (p: Path)
    ensures |p| >= |name| && p[|p| - |name|..] == name
    ensures directory != [] ==> |directory| + |name| <= |p| && |p| > |name| && p[..|directory|] == directory
    ensures directory != [] ==> |p| <= |directory| + 1 + |name|
    ensures directory == [] ==> p == name
  {
    if directory == [] then name
    else if directory[|directory| - 1] == '/' then directory + name
    else directory + "/" + name
  }

  /** The name `export_video` gives the final file for an `int(time.time())` of `now`. */
  function ExportName(now: nat): string
  {
    "clipforge_output_" + Decimal(now) + ".mp4"
  }

  class VideoProcessor {
    var videoPath: Option<Path>
    var audioPath: Option<Path>
    var transcript: Option<Transcript>
    var captions: seq<Caption>
    var outputPath: Option<Path>
    var tempFiles: seq<Path>
    var duration: real
    var fps: real
    var width: int
    var height: int
    /** How many temporary files this processor has asked `mkstemp` for. */
    var tempCounter: nat

    constructor ()
      ensures videoPath == None && audioPath == None && transcript == None && outputPath == None
      ensures captions == [] && tempFiles == [] && tempCounter == 0
      ensures duration == 0.0 && fps == 0.0 && width == 0 && height == 0
    {
      videoPath, audioPath, transcript, outputPath := None, None, None, None;
      captions, tempFiles, tempCounter := [], [], 0;
      duration, fps, width, height := 0.0, 0.0, 0, 0;
    }

    /** `mkstemp(suffix=...)`: registers and returns a name that no other
        counter value or suffix, before or after, shares. */
    method NewTemp(suffix: string) returns (p: Path)
      requires IsSuffix(suffix)
      modifies this`tempFiles, this`tempCounter
      ensures p == TempPath(old(tempCounter), suffix)
      ensures forall k: nat, s :: IsSuffix(s) && (k != old(tempCounter) || s != suffix) ==> p != TempPath(k, s)
      ensures tempFiles == old(tempFiles) + [p] && tempCounter == old(tempCounter) + 1
    {
      p := TempPath(tempCounter, suffix);
      forall k: nat, s | IsSuffix(s) && (k != tempCounter || s != suffix)
        ensures p != TempPath(k, s)
      {
        TempPathInjective(tempCounter, suffix, k, s);
      }
      tempFiles := tempFiles + [p];
      tempCounter := tempCounter + 1;
    }

    /** `load_video`: a missing file fails and changes nothing; otherwise
        `video_path` is set BEFORE OpenCV opens the file, so a file that cannot
        be opened fails with `video_path` already updated and no properties read. */
    method LoadVideo(path: Path, onDisk: Path -> bool, probe: Path -> Option<Probe>) returns (ok: bool)
      modifies this`videoPath, this`fps, this`width, this`height, this`duration
      ensures !onDisk(path) ==> !ok && videoPath == old(videoPath)
      ensures onDisk(path) ==> videoPath == Some(path)
      ensures ok <==> onDisk(path) && probe(path).Some?
      ensures ok ==> var pr := probe(path).value;
        fps == pr.fps && width == pr.width && height == pr.height &&
        duration == Duration(pr.frameCount, pr.fps)
      ensures !ok ==> fps == old(fps) && width == old(width) && height == old(height) && duration == old(duration)
    {
      if !onDisk(path) {
        return false;
      }
      videoPath := Some(path);
      var capture := probe(path);
      if capture.None? {
        return false;
      }
      var pr := capture.value;
      fps := pr.fps;
      width := pr.width;
      height := pr.height;
      duration := Duration(pr.frameCount, fps);
      ok := true;
    }

    /** `extract_audio`: needs a video; the WAV path is stored and registered
        before ffmpeg runs, so it stays registered when ffmpeg fails. */
    method ExtractAudio(run: Job -> bool) returns (r: Stage<Path>)
      modifies this`audioPath, this`tempFiles, this`tempCounter
      ensures !Present(old(videoPath)) ==>
        r == Raised(ValueError("No video loaded")) &&
        audioPath == old(audioPath) && tempFiles == old(tempFiles) && tempCounter == old(tempCounter)
      ensures Present(old(videoPath)) ==>
        var a := TempPath(old(tempCounter), ".wav");
        audioPath == Some(a) && tempFiles == old(tempFiles) + [a] && tempCounter == old(tempCounter) + 1 &&
        r == if run(ExtractAudioJob(videoPath.value, a)) then Returned(a) else Raised(CodecError)
    {
      if !Present(videoPath) {
        return Raised(ValueError("No video loaded"));
      }
      var a := NewTemp(".wav");
      audioPath := Some(a);
      if run(ExtractAudioJob(videoPath.value, a)) {
        r := Returned(a);
      } else {
        r := Raised(CodecError);
      }
    }

    /** `transcribe_audio`: needs an audio path; on success it stores the
        result and rebuilds `captions` with one caption per segment, in order,
        times copied, text stripped, confidence `avg_logprob` or 0.0. */
    method TranscribeAudio(whisper: (Path, string) -> Option<Transcript>, model: string := "base")
      returns (r: Stage<Transcript>)
      modifies this`transcript, this`captions
      ensures !Present(audioPath) ==>
        r == Raised(ValueError("No audio file available. Run extract_audio() first.")) &&
        transcript == old(transcript) && captions == old(captions)
      ensures Present(audioPath) && whisper(audioPath.value, model).None? ==>
        r == Raised(TranscriptionError) && transcript == old(transcript) && captions == old(captions)
      ensures Present(audioPath) && whisper(audioPath.value, model).Some? ==>
        var t := whisper(audioPath.value, model).value;
        r == Returned(t) && transcript == Some(t) &&
        |captions| == |t.segments| &&
        forall i :: 0 <= i < |captions| ==>
          captions[i].start == t.segments[i].start && captions[i].end == t.segments[i].end &&
          captions[i].text == Strip(t.segments[i].text) &&
          captions[i].confidence == t.segments[i].avgLogprob.GetOr(0.0)
    {
      if !Present(audioPath) {
        return Raised(ValueError("No audio file available. Run extract_audio() first."));
      }
      var result := whisper(audioPath.value, model);
      if result.None? {
        return Raised(TranscriptionError);
      }
      var t := result.value;
      transcript := Some(t);
      captions := [];
      var i := 0;
      while i < |t.segments|
        invariant 0 <= i <= |t.segments| && |captions| == i && transcript == Some(t)
        invariant forall k :: 0 <= k < i ==>
          captions[k].start == t.segments[k].start && captions[k].end == t.segments[k].end &&
          captions[k].text == Strip(t.segments[k].text) &&
          captions[k].confidence == t.segments[k].avgLogprob.GetOr(0.0)
      {
        var seg := t.segments[i];
        captions := captions + [Caption(seg.start, seg.end, Strip(seg.text), seg.avgLogprob.GetOr(0.0))];
        i := i + 1;
      }
      r := Returned(t);
    }

    /** `add_captions`: needs captions; writes the SRT file (returned as `srt`),
        registers it and the output file, and burns the subtitles in with the
        style's filter; only success sets `output_path`. */
    method AddCaptions(cfg: CaptionConfig, run: Job -> bool, style: string := "Standard")
      returns (r: Stage<Path>, srt: string)
      modifies this`tempFiles, this`tempCounter, this`outputPath
      ensures old(captions) == [] ==>
        r == Raised(ValueError("No captions available. Run transcribe_audio() first.")) && srt == [] &&
        tempFiles == old(tempFiles) && tempCounter == old(tempCounter) && outputPath == old(outputPath)
      ensures old(captions) != [] ==>
        var sp, op := TempPath(old(tempCounter), ".srt"), TempPath(old(tempCounter) + 1, ".mp4");
        srt == SrtDocument(captions) &&
        tempFiles == old(tempFiles) + [sp, op] && tempCounter == old(tempCounter) + 2 &&
        if run(BurnCaptionsJob(videoPath, sp, CaptionFilter(style, cfg), op))
        then r == Returned(op) && outputPath == Some(op)
        else r == Raised(CodecError) && outputPath == old(outputPath)
    {
      srt := [];
      if captions == [] {
        return Raised(ValueError("No captions available. Run transcribe_audio() first.")), srt;
      }
      var sp := NewTemp(".srt");
      srt := WriteSrt(captions);
      var op := NewTemp(".mp4");
      var filter := CaptionFilter(style, cfg);
      if run(BurnCaptionsJob(videoPath, sp, filter, op)) {
        outputPath := Some(op);
        r := Returned(op);
      } else {
        r := Raised(CodecError);
      }
    }

    /** `apply_meme_effects`: reads `output_path` if set, else `video_path`,
        and on success overwrites `output_path` with the zoomed copy. */
    method ApplyMemeEffects(run: Job -> bool) returns (r: Stage<Path>)
      modifies this`tempFiles, this`tempCounter, this`outputPath
      ensures !Present(old(outputPath)) && !Present(videoPath) ==>
        r == Raised(ValueError("No video available for meme effects")) &&
        tempFiles == old(tempFiles) && tempCounter == old(tempCounter) && outputPath == old(outputPath)
      ensures Present(old(outputPath)) || Present(videoPath) ==>
        var input := OrElse(old(outputPath), videoPath).value;
        var m := TempPath(old(tempCounter), ".mp4");
        tempFiles == old(tempFiles) + [m] && tempCounter == old(tempCounter) + 1 &&
        if run(ZoomPassJob(input, m))
        then r == Returned(m) && outputPath == Some(m)
        else r == Raised(CodecError) && outputPath == old(outputPath)
    {
      if !Present(outputPath) && !Present(videoPath) {
        return Raised(ValueError("No video available for meme effects"));
      }
      var input := OrElse(outputPath, videoPath).value;
      var m := NewTemp(".mp4");
      if run(ZoomPassJob(input, m)) {
        outputPath := Some(m);
        r := Returned(m);
      } else {
        r := Raised(CodecError);
      }
    }

    /** `export_video`: needs a processed video; copies it to
        `clipforge_output_<now>.mp4` in the given directory or `./output`. */
    method ExportVideo(run: Job -> bool, now: nat, outputDir: Option<Path> := None) returns (r: Stage<Path>)
      ensures !Present(outputPath) ==> r == Raised(ValueError("No processed video available"))
      ensures Present(outputPath) ==>
        var target := JoinPath(if Present(outputDir) then outputDir.value else OUTPUT_DIR, ExportName(now));
        r == if run(CopyFile(outputPath.value, target)) then Returned(target) else Raised(ExportError)
      ensures r.Returned? ==> Present(outputPath) && StartsWith(r.value, if Present(outputDir) then outputDir.value else OUTPUT_DIR)
    {
      if !Present(outputPath) {
        return Raised(ValueError("No processed video available"));
      }
      var dir := if Present(outputDir) then outputDir.value else OUTPUT_DIR;
      var target := JoinPath(dir, ExportName(now));
      if run(CopyFile(outputPath.value, target)) {
        r := Returned(target);
      } else {
        r := Raised(ExportError);
      }
    }

    /** `cleanup`: deletes every registered file that exists and always
        empties the registry; `removed` lists the deletions in order. */
    method Cleanup(onDisk: Path -> bool) returns (removed: seq<Path>)
      modifies this`tempFiles
      ensures removed == Existing(old(tempFiles), onDisk)
      ensures tempFiles == []
    {
      removed := [];
      var i := 0;
      while i < |tempFiles|
        invariant 0 <= i <= |tempFiles|
        invariant removed == Existing(tempFiles[..i], onDisk)
      {
        assert tempFiles[..i + 1][..i] == tempFiles[..i];
        if onDisk(tempFiles[i]) {
          removed := removed + [tempFiles[i]];
        }
        i := i + 1;
      }
      assert tempFiles[..i] == tempFiles;
      tempFiles := [];
    }
  }
}
