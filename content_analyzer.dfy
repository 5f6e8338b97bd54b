/** `ContentAnalyzer`: the three GPT-backed analyses, the way their replies are
    turned into records with per-field defaults, and the deterministic
    fallbacks used when there is no client or the call fails. The chat
    completion is a parameter (`response`, `None` when the call raised), and
    so are `json.loads` (`loads`) and Python's `float(str)` (`parseFloat`). */
module ContentAnalysis {
  import opened Common

  /** A decoded JSON value. */
  datatype Json =
    | JNull
    | JBool(b: bool)
    | JNum(n: real)
    | JStr(s: string)
    | JArray(elems: seq<Json>)
    | JObject(fields: map<string, Json>)

  /** A B-roll suggestion; `details` holds the `category`. */
  datatype ContentSuggestion = ContentSuggestion(
    timestamp: real, duration: real, suggestionType: string, description: string,
    confidence: real, details: map<string, string>)

  /** A moment judged suitable for a meme effect; `timestamp` in seconds. */
  datatype MemeDetection = MemeDetection(
    timestamp: real, memeType: string, text: string, suggestedEffects: seq<string>, confidence: real)

  // ---------------------------------------------------------------------
  // Locating the JSON in a reply

  /** `re.search(r'\[.*\]', s, re.DOTALL).group()` with `open`/`close` for the
      brackets: the greedy match runs from the first `open` to the last `close`. */
  function ExtractSpan(s: string, open: char, close: char): (r: Option<string>)
    ensures r.Some? ==> |r.value| >= 2 && r.value[0] == open && r.value[|r.value| - 1] == close
  {
    match (FirstIndexOf(s, open), LastIndexOf(s, close))
    case (Some(i), Some(j)) => if i < j then Some(s[i..j + 1]) else None
    case _ => None
  }

  /** There is a match exactly when some `open` comes before some `close`. */
  lemma ExtractSpanFound(s: string, open: char, close: char)
    requires open != close
    ensures ExtractSpan(s, open, close).None? <==>
      forall p, q :: 0 <= p < q < |s| && s[p] == open ==> s[q] != close
  {
    var fi, lj := FirstIndexOf(s, open), LastIndexOf(s, close);
    if ExtractSpan(s, open, close).None? {
      forall p, q | 0 <= p < q < |s| && s[p] == open
        ensures s[q] != close
      {
        assert s[p] in s;
      }
    } else {
      assert s[fi.value] == open && s[lj.value] == close;
    }
  }

  /** The match is maximal: no `open` before it and no `close` after it. */
  lemma ExtractSpanGreedy(s: string, open: char, close: char) returns (i: nat)
    requires ExtractSpan(s, open, close).Some?
    ensures var span := ExtractSpan(s, open, close).value;
      i + |span| <= |s| && span == s[i..i + |span|] &&
      (forall k :: 0 <= k < i ==> s[k] != open) &&
      (forall k :: i + |span| <= k < |s| ==> s[k] != close)
  {
    i := FirstIndexOf(s, open).value;
  }

  // ---------------------------------------------------------------------
  // Per-field coercion

  /** Python's `float(v)` on a decoded value; `None` where it raises. */
  function FloatOf(v: Json, parseFloat: string -> Option<real>): Option<real>
  {
    match v
    case JNum(n) => Some(n)
    case JBool(b) => Some(if b then 1.0 else 0.0)
    case JStr(s) => parseFloat(s)
    case _ => None
  }

  /** `float(item.get(key, default))`. */
  function FloatField(fields: map<string, Json>, key: string, default: real, parseFloat: string -> Option<real>): Option<real>
  {
    if key in fields then FloatOf(fields[key], parseFloat) else Some(default)
  }

  /** `item.get(key, default)` where a string is expected. */
  function StringField(fields: map<string, Json>, key: string, default: string): Option<string>
  {
    if key !in fields then Some(default)
    else match fields[key]
      case JStr(s) => Some(s)
      case _ => None
  }

  /** The strings of a JSON array whose elements are all strings. */
  function Strings(elems: seq<Json>): (r: Option<seq<string>>)
    ensures r.Some? ==> |r.value| == |elems| && forall k :: 0 <= k < |elems| ==> elems[k] == JStr(r.value[k])
    ensures r.None? ==> exists k :: 0 <= k < |elems| && !elems[k].JStr?
  {
    if elems == [] then Some([])
    else match (elems[0], Strings(elems[1..]))
      case (JStr(s), Some(rest)) => Some([s] + rest)
      case _ => None
  }

  /** `item.get(key, [])` where a list of strings is expected. */
  function StringsField(fields: map<string, Json>, key: string): Option<seq<string>>
  {
    if key !in fields then Some([])
    else match fields[key]
      case JArray(elems) => Strings(elems)
      case _ => None
  }

  /** One item of a B-roll reply: `None` when it is not an object or a field
      does not coerce. The type is always `broll`. */
  function SuggestionOf(item: Json, parseFloat: string -> Option<real>): (r: Option<ContentSuggestion>)
    ensures r.Some? ==> item.JObject? && r.value.suggestionType == "broll" && r.value.details.Keys == {"category"}
  {
    match item
    case JObject(f) =>
      var timestamp := FloatField(f, "timestamp", 0.0, parseFloat);
      var duration := FloatField(f, "duration", 3.0, parseFloat);
      var description := StringField(f, "description", "");
      var confidence := FloatField(f, "confidence", 0.5, parseFloat);
      var category := StringField(f, "category", "general");
      if timestamp.Some? && duration.Some? && description.Some? && confidence.Some? && category.Some? then
        Some(ContentSuggestion(timestamp.value, duration.value, "broll", description.value,
                               confidence.value, map["category" := category.value]))
      else None
    case _ => None
  }

  /** One item of a meme reply. */
  function DetectionOf(item: Json, parseFloat: string -> Option<real>): (r: Option<MemeDetection>)
    ensures r.Some? ==> item.JObject?
  {
    match item
    case JObject(f) =>
      var timestamp := FloatField(f, "timestamp", 0.0, parseFloat);
      var memeType := StringField(f, "meme_type", "general");
      var text := StringField(f, "text", "");
      var effects := StringsField(f, "suggested_effects");
      var confidence := FloatField(f, "confidence", 0.5, parseFloat);
      if timestamp.Some? && memeType.Some? && text.Some? && effects.Some? && confidence.Some? then
        Some(MemeDetection(timestamp.value, memeType.value, text.value, effects.value, confidence.value))
      else None
    case _ => None
  }

  function SuggestionConv(parseFloat: string -> Option<real>): Json -> Option<ContentSuggestion>
  {
    item => SuggestionOf(item, parseFloat)
  }

  function DetectionConv(parseFloat: string -> Option<real>): Json -> Option<MemeDetection>
  {
    item => DetectionOf(item, parseFloat)
  }

  /** An object with none of the fields gets every default. */
  lemma SuggestionDefaults(parseFloat: string -> Option<real>)
    ensures SuggestionOf(JObject(map[]), parseFloat) ==
      Some(ContentSuggestion(0.0, 3.0, "broll", "", 0.5, map["category" := "general"]))
  {
  }

  lemma DetectionDefaults(parseFloat: string -> Option<real>)
    ensures DetectionOf(JObject(map[]), parseFloat) == Some(MemeDetection(0.0, "general", "", [], 0.5))
  {
  }

  /** A list of strings as a JSON array. */
  function StringsJson(xs: seq<string>): (r: seq<Json>)
    ensures |r| == |xs| && forall k :: 0 <= k < |xs| ==> r[k] == JStr(xs[k])
  {
    seq(|xs|, k requires 0 <= k < |xs| => JStr(xs[k]))
  }

  /** A B-roll suggestion as the reply item that describes it. */
  function SuggestionJson(sg: ContentSuggestion): Json
    requires "category" in sg.details
  {
    JObject(map[
      "timestamp" := JNum(sg.timestamp), "duration" := JNum(sg.duration),
      "description" := JStr(sg.description), "confidence" := JNum(sg.confidence),
      "category" := JStr(sg.details["category"])])
  }

  /** A meme detection as the reply item that describes it. */
  function DetectionJson(d: MemeDetection): Json
  {
    JObject(map[
      "timestamp" := JNum(d.timestamp), "meme_type" := JStr(d.memeType), "text" := JStr(d.text),
      "suggested_effects" := JArray(StringsJson(d.suggestedEffects)), "confidence" := JNum(d.confidence)])
  }

  /** Every field present in an item is carried over: a B-roll suggestion
      (type `broll`, only a `category` detail) is read back from its item
      exactly, whatever `float(str)` does. */
  lemma SuggestionRoundTrip(sg: ContentSuggestion, parseFloat: string -> Option<real>)
    requires sg.suggestionType == "broll" && sg.details.Keys == {"category"}
    ensures SuggestionOf(SuggestionJson(sg), parseFloat) == Some(sg)
  {
    assert sg.details == map["category" := sg.details["category"]];
  }

  /** Every field present in an item is carried over: a meme detection is
      read back from its item exactly, effects included, in order. */
  lemma DetectionRoundTrip(d: MemeDetection, parseFloat: string -> Option<real>)
    ensures DetectionOf(DetectionJson(d), parseFloat) == Some(d)
  {
    var fx := StringsJson(d.suggestedEffects);
    assert Strings(fx).Some?;
    assert Strings(fx).value == d.suggestedEffects;
  }

  /** A numeric field holding `null`, a list or an object makes the item fail,
      whatever else it holds. */
  lemma NonNumericFails(fields: map<string, Json>, key: string, parseFloat: string -> Option<real>)
    requires key in {"timestamp", "confidence"} && key in fields
    requires fields[key].JNull? || fields[key].JArray? || fields[key].JObject?
    ensures SuggestionOf(JObject(fields), parseFloat).None?
    ensures DetectionOf(JObject(fields), parseFloat).None?
  {
  }

  // ---------------------------------------------------------------------
  // Whole replies

  /** The items converted in order, or `None` as soon as one fails: the
      reference for the `for item in data` loops. */
  function AllConverted<T>(items: seq<Json>, conv: Json -> Option<T>): Option<seq<T>>
  {
    if items == [] then Some([])
    else match AllConverted(items[..|items| - 1], conv)
      case None => None
      case Some(prefix) =>
        match conv(items[|items| - 1])
        case None => None
        case Some(v) => Some(prefix + [v])
  }

  /** All or nothing: the batch converts exactly when every item does, and then
      item by item. */
  lemma {:induction false} AllConvertedPointwise<T>(items: seq<Json>, conv: Json -> Option<T>)
    ensures AllConverted(items, conv).Some? <==> forall k :: 0 <= k < |items| ==> conv(items[k]).Some?
    ensures AllConverted(items, conv).Some? ==>
      var r := AllConverted(items, conv).value;
      |r| == |items| && forall k :: 0 <= k < |items| ==> conv(items[k]) == Some(r[k])
  {
    if items != [] {
      var init := items[..|items| - 1];
      AllConvertedPointwise(init, conv);
      assert forall k :: 0 <= k < |init| ==> init[k] == items[k];
    }
  }

  /** `_parse_broll_suggestions` / `_parse_meme_detections`: no `[...]` span,
      a span that does not decode to a list, or one bad item give `[]`. */
  function ParseList<T>(text: string, loads: string -> Option<Json>, conv: Json -> Option<T>): seq<T>
  {
    match ExtractSpan(text, '[', ']')
    case None => []
    case Some(span) =>
      match loads(span)
      case Some(JArray(items)) => AllConverted(items, conv).GetOr([])
      case _ => []
  }

  /** What a parsed reply is: empty when there is no span, otherwise either
      empty or exactly the converted items of the decoded list. */
  lemma ParseListMeaning<T>(text: string, loads: string -> Option<Json>, conv: Json -> Option<T>)
    ensures ExtractSpan(text, '[', ']').None? ==> ParseList(text, loads, conv) == []
    ensures ParseList(text, loads, conv) != [] ==>
      var items := loads(ExtractSpan(text, '[', ']').value).value.elems;
      var r := ParseList(text, loads, conv);
      |r| == |items| && forall k :: 0 <= k < |items| ==> conv(items[k]) == Some(r[k])
    ensures forall items :: ExtractSpan(text, '[', ']').Some? && loads(ExtractSpan(text, '[', ']').value) == Some(JArray(items)) ==>
      (ParseList(text, loads, conv) == [] <==> exists k :: 0 <= k < |items| && conv(items[k]).None?) || items == []
  {
    match ExtractSpan(text, '[', ']')
    case None =>
    case Some(span) =>
      match loads(span)
      case Some(JArray(items)) => AllConvertedPointwise(items, conv);
      case _ =>
  }

  /** The fallback enhancement table. */
  const FALLBACK_ENHANCEMENTS: Json := JObject(map[
    "pacing" := JArray([JStr("Review pacing for slow sections"), JStr("Add dynamic cuts")]),
    "audio" := JArray([JStr("Consider background music"), JStr("Enhance audio clarity")]),
    "visual" := JArray([JStr("Improve lighting consistency"), JStr("Add transitions")]),
    "engagement" := JArray([JStr("Add compelling intro"), JStr("Include call-to-action")]),
    "accessibility" := JArray([JStr("Ensure readable captions"), JStr("Consider audio descriptions")])])

  /** Five categories with two suggestions each. */
  lemma FallbackEnhancementShape()
    ensures FALLBACK_ENHANCEMENTS.JObject?
    ensures FALLBACK_ENHANCEMENTS.fields.Keys == {"pacing", "audio", "visual", "engagement", "accessibility"}
    ensures forall k :: k in FALLBACK_ENHANCEMENTS.fields ==>
      FALLBACK_ENHANCEMENTS.fields[k].JArray? && |FALLBACK_ENHANCEMENTS.fields[k].elems| == 2 &&
      Strings(FALLBACK_ENHANCEMENTS.fields[k].elems).Some?
  {
  }

  /** `_parse_enhancement_suggestions`: the decoded `{...}` span, or the
      fallback table when there is none or it does not decode. */
  function ParseEnhancements(text: string, loads: string -> Option<Json>): (r: Json)
    ensures ExtractSpan(text, '{', '}').None? ==> r == FALLBACK_ENHANCEMENTS
    ensures ExtractSpan(text, '{', '}').Some? ==>
      r == loads(ExtractSpan(text, '{', '}').value).GetOr(FALLBACK_ENHANCEMENTS)
  {
    match ExtractSpan(text, '{', '}')
    case None => FALLBACK_ENHANCEMENTS
    case Some(span) =>
      match loads(span)
      case None => FALLBACK_ENHANCEMENTS
      case Some(data) => data
  }

  /** What the enhancement reply means: with no `{` before a `}` it is the
      fallback table; otherwise it is the decoding of the text from the
      first `{` to the last `}` when that decodes, and the fallback when not. */
  lemma ParseEnhancementsMeaning(text: string, loads: string -> Option<Json>) returns (i: nat, j: nat)
    ensures (forall p, q :: 0 <= p < q < |text| && text[p] == '{' ==> text[q] != '}') ==>
      ParseEnhancements(text, loads) == FALLBACK_ENHANCEMENTS
    ensures ParseEnhancements(text, loads) != FALLBACK_ENHANCEMENTS ==>
      i < j < |text| && text[i] == '{' && text[j] == '}' &&
      (forall k :: 0 <= k < i ==> text[k] != '{') && (forall k :: j < k < |text| ==> text[k] != '}') &&
      loads(text[i..j + 1]) == Some(ParseEnhancements(text, loads))
    ensures (exists p, q :: 0 <= p < q < |text| && text[p] == '{' && text[q] == '}') ==>
      i < j < |text| && text[i] == '{' && text[j] == '}' &&
      ParseEnhancements(text, loads) == loads(text[i..j + 1]).GetOr(FALLBACK_ENHANCEMENTS)
  {
    ExtractSpanFound(text, '{', '}');
    if ExtractSpan(text, '{', '}').Some? {
      var span := ExtractSpan(text, '{', '}').value;
      i := ExtractSpanGreedy(text, '{', '}');
      j := i + |span| - 1;
      assert text[i..j + 1] == span;
    } else {
      i, j := 0, 0;
    }
  }

  // ---------------------------------------------------------------------
  // Keyword fallback for meme moments

  /** The keyword table, in the order the dictionary iterates it. */
  const KEYWORDS: seq<(string, seq<string>)> := [
    ("reaction", ["wow", "oh no", "wait", "what", "seriously", "really"]),
    ("emphasis", ["exactly", "definitely", "absolutely", "totally", "completely"]),
    ("awkward", ["um", "uh", "well", "so", "anyway"]),
    ("surprise", ["surprise", "unexpected", "sudden", "shock", "amazing"])
  ]

  /** Some word of `words` occurs in `text`. */
  predicate AnyIn(text: string, words: seq<string>) {
    exists k :: 0 <= k < |words| && Contains(text, words[k])
  }

  /** The detection emitted for a caption whose text hits a keyword of `memeType`. */
  function FallbackDetection(c: Caption, memeType: string): MemeDetection
  {
    MemeDetection(c.start as real / 1000.0, memeType, c.text, ["zoom", "emoji"], 0.6)
  }

  /** One detection per entry of `table` that the lower-cased text hits, in table order. */
  function CaptionDetections(c: Caption, table: seq<(string, seq<string>)>): seq<MemeDetection>
  {
    if table == [] then []
    else
      var (memeType, words) := table[|table| - 1];
      CaptionDetections(c, table[..|table| - 1]) + (if AnyIn(Lower(c.text), words) then [FallbackDetection(c, memeType)] else [])
  }

  /** The detections of `table` for each caption in turn. */
  function Detections(captions: seq<Caption>, table: seq<(string, seq<string>)>): seq<MemeDetection>
  {
    if captions == [] then []
    else Detections(captions[..|captions| - 1], table) + CaptionDetections(captions[|captions| - 1], table)
  }

  /** The keyword scan of `_fallback_meme_detection`: for each caption and
      each entry of the table, the first keyword found in the lower-cased
      text emits one detection and stops that entry's search. */
  method ScanKeywords(captions: seq<Caption>, table: seq<(string, seq<string>)>) returns (detections: seq<MemeDetection>)
    ensures detections == Detections(captions, table)
  {
    detections := [];
    var i := 0;
    while i < |captions|
      invariant 0 <= i <= |captions|
      invariant detections == Detections(captions[..i], table)
    {
      assert captions[..i + 1][..i] == captions[..i];
      var caption := captions[i];
      var text := Lower(caption.text);
      ghost var before := detections;
      var t := 0;
      while t < |table|
        invariant 0 <= t <= |table|
        invariant detections == before + CaptionDetections(caption, table[..t])
      {
        assert table[..t + 1][..t] == table[..t];
        var (memeType, words) := table[t];
        ghost var mid := detections;
        var w := 0;
        while w < |words|
          invariant 0 <= w <= |words|
          invariant detections == mid
          invariant !AnyIn(text, words[..w])
        {
          if Contains(text, words[w]) {
            detections := detections + [FallbackDetection(caption, memeType)];
            break;
          }
          assert words[..w + 1] == words[..w] + [words[w]];
          w := w + 1;
        }
        assert w == |words| ==> words[..w] == words;
        t := t + 1;
      }
      assert table[..t] == table;
      i := i + 1;
    }
    assert captions[..i] == captions;
  }

  /** `_fallback_meme_detection`, caption by caption. */
  function FallbackDetections(captions: seq<Caption>): seq<MemeDetection>
  {
    Detections(captions, KEYWORDS)
  }

  lemma {:induction false} CaptionDetectionsBound(c: Caption, table: seq<(string, seq<string>)>)
    ensures |CaptionDetections(c, table)| <= |table|
  {
    if table != [] {
      CaptionDetectionsBound(c, table[..|table| - 1]);
    }
  }

  lemma {:induction false} DetectionsBound(captions: seq<Caption>, table: seq<(string, seq<string>)>)
    ensures |Detections(captions, table)| <= |table| * |captions|
  {
    if captions != [] {
      var n := |captions| - 1;
      DetectionsBound(captions[..n], table);
      CaptionDetectionsBound(captions[n], table);
      assert |table| * |captions| == |table| * n + |table|;
    }
  }

  /** At most one detection per caption and type. */
  lemma FallbackBound(captions: seq<Caption>)
    ensures |FallbackDetections(captions)| <= 4 * |captions|
  {
    DetectionsBound(captions, KEYWORDS);
  }

  /** Captions are processed in order: the detections of a concatenation are
      the detections of its parts, concatenated. */
  lemma {:induction false} DetectionsAppend(a: seq<Caption>, b: seq<Caption>, table: seq<(string, seq<string>)>)
    ensures Detections(a + b, table) == Detections(a, table) + Detections(b, table)
    decreases |b|
  {
    if b == [] {
      assert a + b == a;
    } else {
      assert (a + b)[..|a + b| - 1] == a + b[..|b| - 1];
      DetectionsAppend(a, b[..|b| - 1], table);
    }
  }

  /** With distinct type names, a caption gets the detection of a type exactly
      when its lower-cased text contains one of that type's keywords. */
  lemma {:induction false} CaptionDetectionsIff(c: Caption, table: seq<(string, seq<string>)>, j: nat)
    requires j < |table|
    requires forall x, y :: 0 <= x < y < |table| ==> table[x].0 != table[y].0
    ensures FallbackDetection(c, table[j].0) in CaptionDetections(c, table) <==> AnyIn(Lower(c.text), table[j].1)
  {
    var init := table[..|table| - 1];
    var d := FallbackDetection(c, table[j].0);
    if j < |table| - 1 {
      CaptionDetectionsIff(c, init, j);
      assert init[j] == table[j];
      assert table[|table| - 1].0 != table[j].0;
    } else if init != [] {
      CaptionDetectionsTypes(c, init);
      assert d !in CaptionDetections(c, init);
    }
  }

  /** Every detection of `table` carries one of its type names. */
  lemma {:induction false} CaptionDetectionsTypes(c: Caption, table: seq<(string, seq<string>)>)
    ensures forall d :: d in CaptionDetections(c, table) ==>
      d == FallbackDetection(c, d.memeType) && exists x :: 0 <= x < |table| && table[x].0 == d.memeType
  {
    if table != [] {
      var init := table[..|table| - 1];
      CaptionDetectionsTypes(c, init);
      forall d | d in CaptionDetections(c, init)
        ensures exists x :: 0 <= x < |table| && table[x].0 == d.memeType
      {
        var x :| 0 <= x < |init| && init[x].0 == d.memeType;
        assert table[x] == init[x];
      }
    }
  }

  /** Every detection comes from one of the captions, under a type name of the table. */
  lemma {:induction false} DetectionsFrom(captions: seq<Caption>, table: seq<(string, seq<string>)>)
    ensures forall d :: d in Detections(captions, table) ==>
      (exists x :: 0 <= x < |table| && table[x].0 == d.memeType) &&
      exists i :: 0 <= i < |captions| && d == FallbackDetection(captions[i], d.memeType)
  {
    if captions != [] {
      var init := captions[..|captions| - 1];
      DetectionsFrom(init, table);
      CaptionDetectionsTypes(captions[|captions| - 1], table);
      forall d | d in Detections(captions, table)
        ensures exists i :: 0 <= i < |captions| && d == FallbackDetection(captions[i], d.memeType)
      {
        if d in Detections(init, table) {
          var i :| 0 <= i < |init| && d == FallbackDetection(init[i], d.memeType);
          assert init[i] == captions[i];
        } else {
          assert d == FallbackDetection(captions[|captions| - 1], d.memeType);
        }
      }
    }
  }

  /** Every fallback detection comes from one of the captions, carries one of
      the four types, the effects `zoom` and `emoji` and confidence 0.6. */
  lemma FallbackFields(captions: seq<Caption>)
    ensures forall d :: d in FallbackDetections(captions) ==>
      d.memeType in {"reaction", "emphasis", "awkward", "surprise"} &&
      d.suggestedEffects == ["zoom", "emoji"] && d.confidence == 0.6 &&
      exists i :: 0 <= i < |captions| && d == FallbackDetection(captions[i], d.memeType)
  {
    DetectionsFrom(captions, KEYWORDS);
    forall d | d in FallbackDetections(captions)
      ensures d.memeType in {"reaction", "emphasis", "awkward", "surprise"}
    {
      var x :| 0 <= x < |KEYWORDS| && KEYWORDS[x].0 == d.memeType;
    }
  }

  lemma KeywordTypesDistinct()
    ensures forall x, y :: 0 <= x < y < |KEYWORDS| ==> KEYWORDS[x].0 != KEYWORDS[y].0
  {
  }

  /** For one caption, the detection of type `KEYWORDS[j]` is emitted exactly
      when its lower-cased text contains one of that type's keywords. */
  lemma FallbackOneIff(c: Caption, j: nat)
    requires j < |KEYWORDS|
    ensures AnyIn(Lower(c.text), KEYWORDS[j].1) <==> FallbackDetection(c, KEYWORDS[j].0) in FallbackDetections([c])
  {
    KeywordTypesDistinct();
    CaptionDetectionsIff(c, KEYWORDS, j);
    assert Detections([c], KEYWORDS) == CaptionDetections(c, KEYWORDS) by {
      assert [c][..0] == [];
    }
  }

  /** In a list of captions, caption `i` contributes its own detections,
      after those of the captions before it. */
  lemma FallbackSplit(captions: seq<Caption>, i: nat)
    requires i < |captions|
    ensures FallbackDetections(captions) ==
      FallbackDetections(captions[..i]) + FallbackDetections([captions[i]]) + FallbackDetections(captions[i + 1..])
  {
    DetectionsSplit(captions, KEYWORDS, i);
  }

  lemma DetectionsSplit(captions: seq<Caption>, table: seq<(string, seq<string>)>, i: nat)
    requires i < |captions|
    ensures Detections(captions, table) ==
      Detections(captions[..i], table) + Detections([captions[i]], table) + Detections(captions[i + 1..], table)
  {
    var a, c, b := captions[..i], [captions[i]], captions[i + 1..];
    var ac := a + c;
    assert ac + b == captions;
    DetectionsAppend(ac, b, table);
    DetectionsAppend(a, c, table);
  }

  /** "Oh no, wait!" is a reaction: "oh no" occurs in its lower-cased text. */
  lemma FallbackExample(c: Caption)
    requires c.text == "Oh no, wait!"
    ensures FallbackDetection(c, "reaction") in FallbackDetections([c])
  {
    var t := Lower(c.text);
    assert t == "oh no, wait!";
    ContainsAt(t, "oh no", 0);
    assert KEYWORDS[0].1[1] == "oh no";
    FallbackOneIff(c, 0);
  }

  class ContentAnalyzer {
    /** Whether an OpenAI client was created. */
    var hasClient: bool

    /** A client exists when the package is installed, a key is configured and
        the client constructor does not raise. */
    constructor (openaiInstalled: bool, apiKey: string, clientStarts: bool)
      ensures hasClient == (openaiInstalled && apiKey != "" && clientStarts)
    {
      hasClient := openaiInstalled && apiKey != "" && clientStarts;
    }

    /** The `for item in data` loop of the two list parsers: stops with `None`
        at the first item that does not convert. */
    method ConvertAll<T>(items: seq<Json>, conv: Json -> Option<T>) returns (r: Option<seq<T>>)
      ensures r == AllConverted(items, conv)
    {
      var out: seq<T> := [];
      var i := 0;
      while i < |items|
        invariant 0 <= i <= |items|
        invariant AllConverted(items[..i], conv) == Some(out)
      {
        assert items[..i + 1][..i] == items[..i];
        var v := conv(items[i]);
        if v.None? {
          AllConvertedPointwise(items, conv);
          return None;
        }
        out := out + [v.value];
        i := i + 1;
      }
      assert items[..i] == items;
      r := Some(out);
    }

    method ParseBrollSuggestions(text: string, loads: string -> Option<Json>, parseFloat: string -> Option<real>)
      returns (suggestions: seq<ContentSuggestion>)
      ensures suggestions == ParseList(text, loads, SuggestionConv(parseFloat))
    {
      var span := ExtractSpan(text, '[', ']');
      if span.None? {
        return [];
      }
      var data := loads(span.value);
      if !(data.Some? && data.value.JArray?) {
        return [];
      }
      var r := ConvertAll(data.value.elems, SuggestionConv(parseFloat));
      suggestions := r.GetOr([]);
    }

    method ParseMemeDetections(text: string, loads: string -> Option<Json>, parseFloat: string -> Option<real>)
      returns (detections: seq<MemeDetection>)
      ensures detections == ParseList(text, loads, DetectionConv(parseFloat))
    {
      var span := ExtractSpan(text, '[', ']');
      if span.None? {
        return [];
      }
      var data := loads(span.value);
      if !(data.Some? && data.value.JArray?) {
        return [];
      }
      var r := ConvertAll(data.value.elems, DetectionConv(parseFloat));
      detections := r.GetOr([]);
    }

    /** `_fallback_meme_detection`: the keyword scan over the four meme types. */
    method FallbackMemeDetection(captions: seq<Caption>) returns (detections: seq<MemeDetection>)
      ensures detections == FallbackDetections(captions)
    {
      detections := ScanKeywords(captions, KEYWORDS);
    }

    /** `analyze_transcript_for_broll`: nothing without a client or when the
        call raises; otherwise the parsed reply. */
    method AnalyzeTranscriptForBroll(response: Option<string>, loads: string -> Option<Json>, parseFloat: string -> Option<real>)
      returns (suggestions: seq<ContentSuggestion>)
      ensures !hasClient || response.None? ==> suggestions == []
      ensures hasClient && response.Some? ==> suggestions == ParseList(response.value, loads, SuggestionConv(parseFloat))
    {
      if !hasClient || response.None? {
        return [];
      }
      suggestions := ParseBrollSuggestions(response.value, loads, parseFloat);
    }

    /** `detect_meme_moments`: the keyword fallback without a client or when
        the call raises; otherwise the parsed reply, even when it is empty. */
    method DetectMemeMoments(captions: seq<Caption>, response: Option<string>, loads: string -> Option<Json>,
                             parseFloat: string -> Option<real>)
      returns (detections: seq<MemeDetection>)
      ensures !hasClient || response.None? ==> detections == FallbackDetections(captions)
      ensures hasClient && response.Some? ==> detections == ParseList(response.value, loads, DetectionConv(parseFloat))
    {
      if !hasClient || response.None? {
        detections := FallbackMemeDetection(captions);
        return;
      }
      detections := ParseMemeDetections(response.value, loads, parseFloat);
    }

    /** `suggest_video_enhancements`: the fallback table without a client or
        when the call raises; otherwise the parsed reply. */
    function SuggestVideoEnhancements(response: Option<string>, loads: string -> Option<Json>): (r: Json)
      reads this
      ensures !hasClient || response.None? ==> r == FALLBACK_ENHANCEMENTS
      ensures hasClient && response.Some? ==> r == ParseEnhancements(response.value, loads)
    {
      if !hasClient || response.None? then FALLBACK_ENHANCEMENTS else ParseEnhancements(response.value, loads)
    }
  }
}
