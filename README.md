# ClipForge core in Dafny

ClipForge (AiVideoEditor) is an AI-assisted editor for short videos. A
`VideoProcessor` takes one video through a pipeline of stages: it loads the
video, extracts the audio, transcribes it with Whisper, burns in captions,
runs a meme pass and exports the result. A `ContentAnalyzer` asks GPT for
B-roll ideas, meme moments and enhancement tips, and falls back to fixed
rules when there is no client. A `MemeEffectsProcessor` turns meme
detections into a chain of ffmpeg passes. `SimpleMemeEffects` provides four
single-pass effects and a concatenation. A `DatabaseManager` keeps the
history, the transcription cache, the statistics and the preferences in
SQLite.

The model keeps each component's shape:

- Objects that update their fields are classes with `modifies` clauses:
  - `VideoProcessor`, `MemeEffectsProcessor` and `SimpleMemeEffects`, whose fields are their temp-file registries;
  - `DatabaseManager`, whose tables are a `seq` (history) and `map`s (cache, preferences);
  - `ContentAnalyzer`.
- Loops in the source are `while` loops proved against a reference function:
  - the caption loop, the SRT block loop and the cleanup loops;
  - the keyword scan and the item loops of the reply parsers;
  - the detection loop of the meme pass and the feature-count loop of the statistics.

The outside world is passed in as parameters:

| source | parameter |
|---|---|
| ffmpeg runs and `shutil.copy2` | `run(job)`, which says whether the job succeeded |
| `os.path.exists` | `onDisk` |
| OpenCV | `probe` |
| Whisper | `whisper` |
| the GPT reply | `response`, `None` when the call raised |
| `json.loads` | `loads` |
| `float(str)` | `parseFloat` |
| a failing SQLite statement | a `fault` flag |
| `time.time()` | `now` |
| SQLite's `CURRENT_TIMESTAMP` | a `clock` field in seconds |

`tempfile.mkstemp` is a per-object counter: the n-th file an object asks for
is named `TempPath(n, suffix)`. Distinct counter values or suffixes give
distinct names (`Common.TempPathInjective`), so one object never hands out
the same name twice. `mkstemp` never returns the name of an existing file.
The meme pass therefore requires its input video not to be one of the names
its processor has still to hand out (`MemeProcessing.NotTempFrom`).

`DatabaseManager.Tick` stands for the database clock moving on between
calls. It is not an operation of the source.

Caption times are whole milliseconds. The SRT writer is proved against a
reader for the same format. Reading the written file back gives every
caption's start, end and text, in order, when no caption text contains a
line break.

## Model

| member | source | states |
|---|---|---|
| Common.OrElse | src/video_processor.py:229 | `output_path or video_path` is one of the two paths; it is usable (a non-empty string) exactly when either is, and it is never the second while the first is usable |
| Common.StripIsTrimmedSlice | src/video_processor.py:154 | `strip()` returns a slice of the text that neither starts nor ends with white space; everything cut off on either side is white space. White space is every character for which Python's `isspace()` holds, U+3000 and U+2000..U+200A included |
| Common.Existing | src/video_processor.py:294-304 | the cleanup filter keeps exactly the registered paths that exist and is no longer than the registry |
| Common.FirstWithPrefixSpec | src/effects/meme_processor.py:69-75 | the `next(... startswith ...)` search finds nothing exactly when no tag has the prefix; otherwise it finds the tag at the first index that has it |
| Common.LowerNormalises | src/ai/content_analyzer.py:360 | after `lower()` no capital A..Z is left, lowering again changes nothing, and every character that is not a capital comes through unchanged |
| Common.DecimalRoundTrip | src/video_processor.py:188 | the decimal block number reads back as the number |
| Common.ContainsWitness | src/ai/content_analyzer.py:363 | `word in text` gives a position where the word occurs |
| Common.TempPathInjective | src/video_processor.py:100-102 | two temp names are equal exactly when their counter values and suffixes are |
| Common.ContainsAt | src/ai/content_analyzer.py:363 | an occurrence at any position makes `word in text` true |
| Srt.ClockFields | src/video_processor.py:308-311 | minutes and seconds are below 60 and milliseconds below 1000; hours·3600000 + minutes·60000 + seconds·1000 + milliseconds is the input |
| Srt.ClockOfFields | src/video_processor.py:308-311 | conversely, fields in range are exactly the fields of their total |
| Srt.Pad2IsZeroPadded | src/video_processor.py:313 | `02d` is the decimal with one leading zero below 10 |
| Srt.FormatSrtTimeShape | src/video_processor.py:313 | a formatted time is digits, `:` and `,` only, has `:` `:` `,` at its fixed places, and is 12 characters long below 100 hours |
| Srt.FormatSrtTimeExamplesUnderAMinute | tests/test_video_processor.py:131-132 | 0 s is `00:00:00,000` and 1.5 s is `00:00:01,500` |
| Srt.FormatSrtTimeExampleOverAMinute | tests/test_video_processor.py:133 | 65.25 s is `00:01:05,250` |
| Srt.FormatSrtTimeExampleOverAnHour | tests/test_video_processor.py:134 | 3661.75 s is `01:01:01,750` |
| Srt.Pad2RoundTrip | src/video_processor.py:313 | the hours field reads back as the hours, at any width |
| Srt.SrtTimeRoundTrip | src/video_processor.py:306-313 | every formatted time reads back as the millisecond value it came from |
| Srt.TimingLineRoundTrip | src/video_processor.py:189 | the `start --> end` line reads back as the pair and holds no line break |
| Srt.ParseBlocksStep | src/video_processor.py:188-190 | one written block, whatever follows it, reads back as its caption's cue followed by the reading of the rest |
| Srt.SrtBlockReadsBack | src/video_processor.py:184-190 | the block writer and the block reader satisfy the one-block read-back property for every index, caption and rest |
| Srt.BlocksRoundTrip | src/video_processor.py:184-190 | blocks written by any writer that its reader undoes read back as the captions' cues, in order |
| Srt.SrtBlocksRoundTrip | src/video_processor.py:184-190 | the blocks numbered from any index read back as the captions' cues |
| Srt.SrtRoundTrip | src/video_processor.py:184-190 | the whole SRT file reads back as one cue per caption (start, end, text), in caption order, when no caption text contains a line break |
| Srt.BlocksSnoc | src/video_processor.py:184 | one more caption appends exactly its block, numbered after the others |
| Srt.SrtBlocksPrefix | src/video_processor.py:184-190 | the first i+1 blocks are the first i followed by block i+1 of caption i |
| Srt.WriteSrt | src/video_processor.py:184-190 | the loop writes the SRT document of the captions: block i is `i`, the timing line, the text and a blank line, from 1 |
| VideoProcessing.Duration | src/video_processor.py:75 | with fps > 0 the duration times fps is the frame count; otherwise it is 0 |
| VideoProcessing.DurationExamples | tests/test_video_processor.py:47-61 | 900 frames at 30 fps last 30.0 s; 0 fps gives 0 |
| VideoProcessing.CaptionFilterFallback | src/video_processor.py:315-332 | an unknown style gets the Standard entry, Custom equals Standard, and Standard has the configured style |
| VideoProcessing.CaptionFilterContents | src/video_processor.py:317-330 | TikTok contains `Bold=1`, YouTube contains `FontSize=28`, Standard contains the configured font size, and no `#` survives in its colour |
| VideoProcessing.JoinPath | src/video_processor.py:281 | `os.path.join` of a relative name: the result ends with the name; below a non-empty directory it starts with the directory and adds at most one separator; an empty directory gives the name itself |
| VideoProcessing.VideoProcessor.constructor | src/video_processor.py:33-48 | no paths, no transcript, empty captions and registry, zero properties |
| VideoProcessing.VideoProcessor.NewTemp | src/video_processor.py:100-102 | the name for the current counter value is handed out and appended to the registry; no other counter value or suffix, earlier or later, gives the same name |
| VideoProcessing.VideoProcessor.LoadVideo | src/video_processor.py:50-86 | a missing file fails and leaves `video_path`; an existing one sets `video_path` before the open check; success iff the file exists and opens, and then fps, size and duration are the probe's |
| VideoProcessing.VideoProcessor.ExtractAudio | src/video_processor.py:88-118 | without a video: `ValueError` and no change; otherwise the WAV path is stored and registered, and returned when ffmpeg succeeds |
| VideoProcessing.VideoProcessor.TranscribeAudio | src/video_processor.py:120-163 | without audio: `ValueError`; on success the transcript is stored and captions are rebuilt, one per segment in order, times copied, text stripped, confidence `avg_logprob` or 0.0 |
| VideoProcessing.VideoProcessor.AddCaptions | src/video_processor.py:165-217 | without captions: `ValueError`; otherwise the SRT text is the SRT document of the captions, the `.srt` and `.mp4` paths are registered in that order, and only a successful burn-in sets `output_path` |
| VideoProcessing.VideoProcessor.ApplyMemeEffects | src/video_processor.py:219-260 | neither path: `ValueError`; the input is `output_path or video_path`; one registered output overwrites `output_path` on success |
| VideoProcessing.VideoProcessor.ExportVideo | src/video_processor.py:262-292 | without a processed video: `ValueError`; otherwise a copy to the given directory or `./output` under `clipforge_output_<now>.mp4` |
| VideoProcessing.VideoProcessor.Cleanup | src/video_processor.py:294-304 | removes exactly the registered files that exist, and the registry ends empty |
| ContentAnalysis.ExtractSpan | src/ai/content_analyzer.py:282 | an extracted span starts with the opening and ends with the closing bracket |
| ContentAnalysis.ExtractSpanFound | src/ai/content_analyzer.py:282-284 | no span exactly when no `[` comes before a `]` |
| ContentAnalysis.ExtractSpanGreedy | src/ai/content_analyzer.py:282 | the span is a slice of the reply with no `[` before it and no `]` after it (first `[` to last `]`) |
| ContentAnalysis.Strings | src/ai/content_analyzer.py:322 | a list of strings converts element by element; it fails exactly when some element is not a string |
| ContentAnalysis.SuggestionOf | src/ai/content_analyzer.py:289-298 | a converted item was an object, has type `broll`, and its details hold just the category |
| ContentAnalysis.SuggestionRoundTrip | src/ai/content_analyzer.py:289-298 | every present field is carried over: a `broll` suggestion whose details hold only a category is read back exactly from the item that describes it |
| ContentAnalysis.DetectionRoundTrip | src/ai/content_analyzer.py:317-325 | every present field is carried over: a meme detection is read back exactly from the item that describes it, its effects in order |
| ContentAnalysis.SuggestionDefaults | src/ai/content_analyzer.py:289-298 | an empty object gets timestamp 0, duration 3.0, description "", confidence 0.5 and category `general` |
| ContentAnalysis.DetectionDefaults | src/ai/content_analyzer.py:317-325 | an empty object gets timestamp 0, type `general`, text "", no effects and confidence 0.5 |
| ContentAnalysis.NonNumericFails | src/ai/content_analyzer.py:291-304 | a timestamp or confidence that `float()` rejects makes the item fail |
| ContentAnalysis.AllConvertedPointwise | src/ai/content_analyzer.py:289-304 | the batch converts exactly when every item does, and then item by item in order |
| ContentAnalysis.ParseListMeaning | src/ai/content_analyzer.py:278-331 | no span gives []; a non-empty result is the decoded list converted item by item; for a decoded non-empty list the result is [] exactly when some item fails |
| ContentAnalysis.FallbackEnhancementShape | src/ai/content_analyzer.py:376-384 | the table has exactly pacing, audio, visual, engagement and accessibility, two strings each |
| ContentAnalysis.ParseEnhancementsMeaning | src/ai/content_analyzer.py:333-346 | with no `{` before a `}` the result is the fallback table; otherwise it is the decoding of the text from the first `{` to the last `}`, or the fallback table when that does not decode |
| ContentAnalysis.ScanKeywords | src/ai/content_analyzer.py:359-372 | the nested loops with `break` produce the detections of the table, caption by caption and type by type |
| ContentAnalysis.DetectionsBound | src/ai/content_analyzer.py:359-372 | at most one detection per caption and table entry |
| ContentAnalysis.FallbackBound | src/ai/content_analyzer.py:348-374 | at most 4 detections per caption |
| ContentAnalysis.DetectionsAppend | src/ai/content_analyzer.py:359 | captions are handled in order: the detections of a concatenation are the concatenation of the detections |
| ContentAnalysis.CaptionDetectionsIff | src/ai/content_analyzer.py:361-372 | with distinct type names, a caption gets a type's detection exactly when its lower-cased text contains some keyword of that type |
| ContentAnalysis.CaptionDetectionsTypes | src/ai/content_analyzer.py:364-371 | every detection of a caption is its fallback detection under a type name of the table |
| ContentAnalysis.DetectionsFrom | src/ai/content_analyzer.py:359-372 | every detection comes from one of the captions, under a type name of the table |
| ContentAnalysis.FallbackFields | src/ai/content_analyzer.py:364-370 | every fallback detection is one of the four types, comes from a caption, and has effects `zoom`, `emoji` and confidence 0.6 |
| ContentAnalysis.KeywordTypesDistinct | src/ai/content_analyzer.py:350-355 | the four type names are distinct |
| ContentAnalysis.FallbackOneIff | src/ai/content_analyzer.py:359-372 | for one caption, the detection of a given type is emitted exactly when one of its keywords occurs in the lower-cased text |
| ContentAnalysis.FallbackSplit | src/ai/content_analyzer.py:359-372 | caption i contributes its own detections, after those of the captions before it and before those after it |
| ContentAnalysis.DetectionsSplit | src/ai/content_analyzer.py:359-372 | the same split for any keyword table |
| ContentAnalysis.FallbackExample | src/ai/content_analyzer.py:350-372 | "Oh no, wait!" yields a `reaction` detection |
| ContentAnalysis.ContentAnalyzer.constructor | src/ai/content_analyzer.py:47-57 | there is a client exactly when openai is installed, a key is set and the client starts |
| ContentAnalysis.ContentAnalyzer.ConvertAll | src/ai/content_analyzer.py:289-298 | the item loop gives the items converted in order, or fails at the first bad one |
| ContentAnalysis.ContentAnalyzer.ParseBrollSuggestions | src/ai/content_analyzer.py:278-304 | the parsed B-roll reply, with the meaning stated by `ParseListMeaning` |
| ContentAnalysis.ContentAnalyzer.ParseMemeDetections | src/ai/content_analyzer.py:306-331 | the parsed meme reply, with the meaning stated by `ParseListMeaning` |
| ContentAnalysis.ContentAnalyzer.FallbackMemeDetection | src/ai/content_analyzer.py:348-374 | the keyword detections of the four meme types |
| ContentAnalysis.ContentAnalyzer.AnalyzeTranscriptForBroll | src/ai/content_analyzer.py:59-95 | [] without a client or when the call raises; otherwise the parsed reply |
| ContentAnalysis.ContentAnalyzer.DetectMemeMoments | src/ai/content_analyzer.py:97-140 | the keyword fallback without a client or when the call raises; otherwise the parsed reply, even when empty |
| ContentAnalysis.ContentAnalyzer.SuggestVideoEnhancements | src/ai/content_analyzer.py:142-176 | the fallback table without a client or when the call raises; otherwise the parsed reply |
| MemeProcessing.LibraryKeys | src/effects/meme_processor.py:291-315 | only the five `emoji_*` and five `sound_*` keys have files; bare `emoji` and `sound` have none |
| MemeProcessing.MemeTextChoice | src/effects/meme_processor.py:273-289 | "WAIT WHAT?" exactly when the text mentions "wait"; "OH NO" exactly when it mentions "oh" but not "wait"; always one of seven phrases |
| MemeProcessing.MemeTextDefaults | src/effects/meme_processor.py:282-289 | without either keyword, `punchline` gets "WOW", `reaction` "BRUH" and `surprise` "PLOT TWIST" |
| MemeProcessing.MemeTextExample | src/effects/meme_processor.py:284-285 | "Oh WAIT" gets "WAIT WHAT?": "wait" is checked first |
| MemeProcessing.Truncate | src/effects/meme_processor.py:193 | `int(x)` truncates toward zero |
| MemeProcessing.EffectsOfCount | src/effects/meme_processor.py:66-81 | at most five sub-effects per detection |
| MemeProcessing.EffectsOfTimestamp | src/effects/meme_processor.py:63-81 | every sub-effect is placed at the detection's timestamp |
| MemeProcessing.EffectsOfZoom | src/effects/meme_processor.py:66-67 | zoom runs exactly when the `zoom` tag is listed |
| MemeProcessing.EffectsOfEmojiTag | src/effects/meme_processor.py:69-71 | an emoji step uses the first tag starting with "emoji" |
| MemeProcessing.EffectsOfSoundTag | src/effects/meme_processor.py:73-75 | a sound step uses the first tag starting with "sound" |
| MemeProcessing.EffectsOfEmojiWanted | src/effects/meme_processor.py:69 | there is an emoji step exactly when some tag starts with "emoji" |
| MemeProcessing.StepOutcome | src/effects/meme_processor.py:98-271 | for an output other than the input, a sub-effect yields its output exactly when its job exists and succeeds, else its input; an emoji or sound has no job exactly when its tag has no existing file |
| MemeProcessing.TempsAt | src/effects/meme_processor.py:101-103 | temp file k of a run is the one with counter value first + k |
| MemeProcessing.RunCounter | src/effects/meme_processor.py:61-81 | every sub-effect reserves and registers exactly one temp file, the next by counter |
| MemeProcessing.RunProvenance | src/effects/meme_processor.py:61-81 | a run ends at its input or at one of the temp files it reserved |
| MemeProcessing.RunMoves | src/effects/meme_processor.py:56-81 | from an input that is none of the names still to come, the current video never becomes one, so each step's output differs from its input; the run ends somewhere new exactly when some sub-effect's job ran |
| MemeProcessing.MemeOutputMeaning | src/effects/meme_processor.py:50-96 | the output file differs from the input; the pass returns it exactly when there were detections, some sub-effect's job ran and the final copy succeeded, and returns the input otherwise |
| MemeProcessing.RunAllFail | src/effects/meme_processor.py:129-131 | when no job succeeds, the run passes its input all the way through |
| MemeProcessing.RunAppend | src/effects/meme_processor.py:63 | running a concatenation runs the second part from where the first ended |
| MemeProcessing.RunPathOnly | src/effects/meme_processor.py:61-81 | the path a run reaches does not depend on what was registered before |
| MemeProcessing.RunOpt | src/effects/meme_processor.py:66-81 | an optional sub-effect is one step when wanted and none otherwise |
| MemeProcessing.FallbackEffects | src/effects/meme_processor.py:69-71 | a keyword-fallback detection asks for zoom and the bare `emoji` tag, whose step always passes its input through |
| MemeProcessing.ComposeFive | src/effects/meme_processor.py:66-81 | the five optional sub-effects run one after another |
| MemeProcessing.MemeEffectsProcessor.constructor | src/effects/meme_processor.py:31-37 | the two libraries are loaded and the registry is empty |
| MemeProcessing.MemeEffectsProcessor.NewTemp | src/effects/meme_processor.py:101-103 | the `.mp4` name for the current counter value is handed out and registered; no other counter value, earlier or later, gives the same name |
| MemeProcessing.MemeEffectsProcessor.ApplyZoomEffect | src/effects/meme_processor.py:98-131 | one zoom step: a 1.3x zoom on [t, t+0.5], output registered, input on failure |
| MemeProcessing.MemeEffectsProcessor.ApplyEmojiOverlay | src/effects/meme_processor.py:133-171 | one emoji step: output registered first, then input when the emoji has no existing file or ffmpeg fails; overlay on [t, t+1.0] |
| MemeProcessing.MemeEffectsProcessor.ApplySoundEffect | src/effects/meme_processor.py:173-203 | one sound step: output registered first, then input when the sound has no existing file or ffmpeg fails; delay `int(t·1000)` ms |
| MemeProcessing.MemeEffectsProcessor.ApplySlowmoEffect | src/effects/meme_processor.py:205-236 | one slow-motion step: half speed on [t, t+2.0] |
| MemeProcessing.MemeEffectsProcessor.ApplyTextOverlay | src/effects/meme_processor.py:238-271 | one text step: the generated phrase on [t, t+1.5] |
| MemeProcessing.MemeEffectsProcessor.ApplyDetection | src/effects/meme_processor.py:66-81 | the path, counter and registry move along the detection's sub-effects in the order zoom, emoji, sound, slowmo, text |
| MemeProcessing.MemeEffectsProcessor.ApplyMemeEffects | src/effects/meme_processor.py:39-96 | for an input that is not a name still to come: no detections gives the input and no temp file; otherwise the output is registered first, the detections run in list order, and the result is `MemeOutput`, whose meaning `MemeOutputMeaning` states |
| MemeProcessing.MemeEffectsProcessor.Cleanup | src/effects/meme_processor.py:379-389 | removes exactly the registered files that exist, and the registry ends empty |
| SimpleEffects.SanitizeLength | src/effects/meme_effects.py:131 | the sanitised text is the input length minus the quotes plus the colons |
| SimpleEffects.SanitizeNoQuotes | src/effects/meme_effects.py:131 | no quote of either kind survives, and every other character except `:` and `\` is present exactly when it was |
| SimpleEffects.SanitizeEscapesColons | src/effects/meme_effects.py:131 | every colon of the sanitised text is preceded by a backslash |
| SimpleEffects.ReplaceKeepsOther | src/effects/meme_effects.py:131 | a replacement keeps every character that is neither replaced nor inserted |
| SimpleEffects.SimpleMemeEffects.constructor | src/effects/meme_effects.py:25-28 | empty registry; ffmpeg availability as imported |
| SimpleEffects.SimpleMemeEffects.NewTemp | src/effects/meme_effects.py:47-49 | the `.mp4` name for the current counter value is handed out and registered; no other counter value, earlier or later, gives the same name |
| SimpleEffects.SimpleMemeEffects.ApplyZoomEffect | src/effects/meme_effects.py:30-69 | without ffmpeg: the input and nothing registered; otherwise one registered output with a 1.2x scale-and-crop and no time window, the input on failure |
| SimpleEffects.SimpleMemeEffects.ApplySpeedEffect | src/effects/meme_effects.py:71-106 | the same guard; a speed-up by the factor, 1.5 by default |
| SimpleEffects.SimpleMemeEffects.AddTextOverlay | src/effects/meme_effects.py:108-155 | the same guard; the sanitised text at size 48 on [timestamp, timestamp + duration] |
| SimpleEffects.SimpleMemeEffects.EnhanceColors | src/effects/meme_effects.py:157-192 | the same guard; saturation as given, brightness shifted down by 1 |
| SimpleEffects.SimpleMemeEffects.CreateMemeCompilation | src/effects/meme_effects.py:194-230 | no ffmpeg or fewer than two inputs: the first input or "" and nothing registered; otherwise one registered output, or the first input on failure |
| SimpleEffects.SimpleMemeEffects.Cleanup | src/effects/meme_effects.py:232-242 | removes exactly the registered files that exist, and the registry ends empty |
| Database.CacheLastWriteWins | src/database/db_manager.py:159-167 | with `file_hash` unique, after two writes for one hash only the second is visible, under its own model; the first model then misses |
| Database.CacheOtherHash | src/database/db_manager.py:159-167 | a write for one hash leaves every lookup of another hash unchanged |
| Database.EvictTwice | src/database/db_manager.py:358-361 | evicting with a cutoff and then a later one equals evicting with the later one |
| Database.TallyCounts | src/database/db_manager.py:266-268 | the increment loop adds each feature's number of occurrences to its count and adds no other key |
| Database.FirstUsageCounts | src/database/db_manager.py:279 | the first record counts each listed feature once, however often it is listed |
| Database.FirstUsageVsTally | src/database/db_manager.py:260-284 | the first-record rule agrees with the later counting rule exactly when no feature is listed twice |
| Database.BumpedTotals | src/database/db_manager.py:260-284 | every update counts one more video and adds its processing time |
| Database.NewestKeepsNewest | src/database/db_manager.py:224-228 | on chronological rows, every returned row is in the table and every row left out is older, by id and by time, than every returned one |
| Database.NewestSorted | src/database/db_manager.py:224-228 | on chronological rows the result is ordered by decreasing time and id |
| Database.DatabaseManager.constructor | src/database/db_manager.py:22-30 | a new database file: empty tables, next id 1, invariant established |
| Database.DatabaseManager.Reopen | src/database/db_manager.py:22-92 | an existing database file: `CREATE TABLE IF NOT EXISTS` keeps every stored row and the next id, and the invariant holds |
| Database.DatabaseManager.AddProcessingRecord | src/database/db_manager.py:104-139 | appends exactly one `completed` row stamped now and returns its id, then updates the statistics, whose failure is swallowed; a failing insert raises and changes nothing |
| Database.DatabaseManager.CacheTranscription | src/database/db_manager.py:141-175 | an upsert keyed on the hash alone, stamped now; True on success, False and no change on failure |
| Database.DatabaseManager.GetCachedTranscription | src/database/db_manager.py:177-209 | the lookup on hash and model; None on failure |
| Database.DatabaseManager.GetProcessingHistory | src/database/db_manager.py:211-242 | the newest `limit` rows (50 by default), newest first; [] on failure |
| Database.DatabaseManager.UpdateStatistics | src/database/db_manager.py:244-290 | the first call creates the record; later calls add one video, the time and one count per feature occurrence; a failure leaves the record |
| Database.DatabaseManager.GetStatistics | src/database/db_manager.py:292-319 | the record, zero counts and no usage when there is none, nothing on failure |
| Database.DatabaseManager.SetPreference | src/database/db_manager.py:321-333 | an upsert by key; a failure changes nothing |
| Database.DatabaseManager.GetPreference | src/database/db_manager.py:335-346 | the stored value, else the default, also on failure |
| Database.DatabaseManager.CleanupOldCache | src/database/db_manager.py:348-369 | keeps exactly the entries stamped no earlier than `days` days ago (30 by default), unchanged, and counts the deletions; a failure changes nothing |

## Left out

- ffmpeg, OpenCV, Whisper and OpenAI are parameters. The model records which job each stage asks for, with the paths and the effect's window constants. It does not record the ffmpeg filter-graph strings, the codec options or the prompt texts (`_create_*_prompt`).
- Logging, `__del__` destructors, `os.close`, `os.makedirs` and `cap.release()` are left out: they do not change the modelled state. A failing `mkstemp` is not modelled either.
- The placeholder emoji drawing with PIL (`_create_placeholder_emojis`) is not modelled. Whether an emoji file exists is the `onDisk` parameter.
- Srt.SrtRoundTrip: proved only for captions whose text holds no line break. Texts with a blank line cannot round-trip in this format, because a blank line ends a block. Texts with single line breaks would need a reader that splits blocks at blank lines; that reader is not modelled.
- Common.Lower: only the letters A..Z are mapped. Python's `lower()` maps every Unicode capital and can change the length (`'İ'.lower()` has two characters), so a caption such as "SHOC\u212A" (Kelvin sign) gives a `surprise` detection in Python and none in the model.
- NewTemp: names are distinct within one object only. Each object counts from 0, so two objects can hand out the same name, which `mkstemp` never does. Caller paths are kept apart from temp names only where the result depends on it, by the requirement on `MemeEffectsProcessor.ApplyMemeEffects`.
- src/video_processor.py:248 passes the keyword argument `map` twice in one call. Python rejects this with a `SyntaxError`, so the module cannot be imported as written. The `VideoProcessor` model describes the evident intent, a call that maps both the filtered video and the original audio.
- Srt.FormatSrtTime: times are whole milliseconds, not floats, so the IEEE rounding of `int((seconds % 1) * 1000)` is not reproduced.
- VideoProcessing.VideoProcessor.TranscribeAudio: Whisper's float segment times are modelled as the millisecond values that the SRT writer uses.
- ContentAnalysis.FallbackDetection: the detection's timestamp is the caption's start in seconds, computed as start / 1000 because captions are kept in milliseconds.
- ContentAnalysis.StringField: a field where a string is expected but the JSON holds another kind of value makes the item fail. Python would store that value as it is. `suggested_effects` likewise has to be a list of strings.
- `json.loads` is the `loads` parameter. In a history row, `features_used` is kept as a list, so a `json.loads` failure there is not modelled.
- The SQLite connection handling, the schema DDL and `CURRENT_TIMESTAMP` are left out. The tables are in-memory maps and sequences, and the database clock is the `clock` field in seconds. A statement that raises is a `fault` flag.
- Database.DatabaseManager.Reopen: the stored rows are given as arguments. Reading them from `clipforge.db` is not modelled.
- Database.NewestRows: rows with equal timestamps come back newest insertion first. SQLite leaves the order of ties unspecified.
- Database.DatabaseManager.CleanupOldCache:
  - `days` is a natural number; a negative `days` is not modelled.
  - The deleted count, which the source only logs, is returned.
- Database.DatabaseManager.GetStatistics: the `{}` returned on failure is `None`, and the record's `id` and `last_updated` columns are not modelled.
- The transcription cache is modelled as `db_manager.py` implements it. Whether the user interface consults it is not part of this model: app.py, src/ui/components.py, run.py, setup.py, config.py and src/utils/logger.py are not part of this model, and the caption font settings from config.py are the `CaptionConfig` parameter.
- VideoProcessing.VideoProcessor.ExportVideo: the file name uses `int(time.time())`, modelled as the parameter `now`. Creating the directory is not modelled.
- MemeProcessing.MemeEffectsProcessor.ApplyMemeEffects: when no sub-effect produced a new file, the `else` branch raises an `UnboundLocalError`, because `shutil` is imported only in the other branch. The model follows the code and returns the input path, which the exception handler returns.
- SimpleEffects.SimpleMemeEffects.ApplyZoomEffect: as in the source, the `timestamp` and `duration` arguments do not reach the job.
- Concurrency: the code has none.
