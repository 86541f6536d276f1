/** The decision logic of services/geminiService.ts with the two remote
    requests abstracted away: the text of both prompts (with the fallbacks
    for a missing location and a missing last-fertilized date), and the
    search of an image-generation response for its first inline image. */
module GeminiService {
  import opened Wrappers
  import opened Types

  /** The location as the recommendation prompt prints it. */
  function LocationText(location: Option<Location>): (text: string)
    ensures location.None? <==> text == "Unknown"
    ensures location.Some? ==> text == "Lat " + location.value.lat.shown + ", Lng " + location.value.lng.shown
  {
    match location
    case None => "Unknown"
    case Some(loc) => "Lat " + loc.lat.shown + ", Lng " + loc.lng.shown
  }

  /** The last-fertilized date as the prompt prints it; `||` treats both
      null and the empty string as missing. */
  function LastFertilizedText(lastFertilized: Option<string>): (text: string)
    ensures text != ""
    ensures lastFertilized.None? || lastFertilized == Some("") ==> text == "Never recorded"
    ensures lastFertilized.Some? && lastFertilized.value != "" ==> text == lastFertilized.value
  {
    if lastFertilized.Some? && lastFertilized.value != "" then lastFertilized.value else "Never recorded"
  }

  /** Prefixing the same text keeps strings apart: a line that prefixes a
      label to a value determines the value. */
  lemma PrefixCancels(prefix: string, x: string, y: string)
    ensures prefix + x == prefix + y <==> x == y
  {
    if prefix + x == prefix + y {
      assert x == (prefix + x)[|prefix|..];
      assert y == (prefix + y)[|prefix|..];
    }
  }

  /** The template's location line. */
  function LocationLine(location: Option<Location>): (line: string)
    ensures line == "    - Location: Unknown" <==> location.None?
  {
    PrefixCancels("    - Location: ", LocationText(location), "Unknown");
    "    - Location: " + LocationText(location)
  }

  /** The template's last-fertilized line; a stored date that is literally
      "Never recorded" prints like a missing one. */
  function LastFertilizedLine(lastFertilized: Option<string>): (line: string)
    ensures line == "    - Last Fertilized: Never recorded" <==>
              lastFertilized.None? || lastFertilized.value == "" || lastFertilized.value == "Never recorded"
  {
    PrefixCancels("    - Last Fertilized: ", LastFertilizedText(lastFertilized), "Never recorded");
    "    - Last Fertilized: " + LastFertilizedText(lastFertilized)
  }

  const GrassLabel: string := "    - Grass Type: "
  const SoilLabel: string := "    - Soil Type: "
  const ConditionLabel: string := "    - Current Condition: "
  const DateLabel: string := "    - Current Date: "

  const PromptIntro: string :=
    "    As a world-class lawn care expert, provide a specific fertilizer recommendation for the following user:"
  const PromptSeasonLine: string := "    Consider the current season and environmental runoff prevention."
  const PromptRatioLine: string := "    Suggest a specific N-P-K ratio and an application window."

  /** The template's enumeration lines: a label and the member's string. */
  function GrassLine(g: GrassType): string
  {
    GrassLabel + GrassTypeText(g)
  }

  function SoilLine(s: SoilType): string
  {
    SoilLabel + SoilTypeText(s)
  }

  function ConditionLine(c: LawnCondition): string
  {
    ConditionLabel + ConditionText(c)
  }

  /** The lines of the recommendation prompt's template, `today` being the
      locale rendering of the current date. */
  /** The six profile lines of the template, one field per line. */
  function FieldLines(profile: UserProfile, today: string): (lines: seq<string>)
    ensures |lines| == 6
    ensures lines[0] == GrassLine(profile.grassType)
    ensures lines[1] == SoilLine(profile.soilType)
    ensures lines[2] == ConditionLine(profile.condition)
    ensures lines[3] == LocationLine(profile.location)
    ensures lines[4] == LastFertilizedLine(profile.lastFertilized)
    ensures lines[5] == DateLabel + today
  {
    [GrassLine(profile.grassType), SoilLine(profile.soilType), ConditionLine(profile.condition),
     LocationLine(profile.location), LastFertilizedLine(profile.lastFertilized), DateLabel + today]
  }

  function PromptLines(profile: UserProfile, today: string): (lines: seq<string>)
    ensures |lines| == 10
    ensures lines[1] == GrassLine(profile.grassType)
    ensures lines[2] == SoilLine(profile.soilType)
    ensures lines[3] == ConditionLine(profile.condition)
    ensures lines[4] == LocationLine(profile.location)
    ensures lines[5] == LastFertilizedLine(profile.lastFertilized)
    ensures lines[6] == DateLabel + today
  {
    [PromptIntro] + FieldLines(profile, today) + ["", PromptSeasonLine, PromptRatioLine]
  }

  /** Equal prompt lines come only from profiles that agree on grass type,
      soil type and condition, and on whether a location is known. */
  lemma PromptLinesDetermineProfile(p: UserProfile, q: UserProfile, today: string)
    requires PromptLines(p, today) == PromptLines(q, today)
    ensures p.grassType == q.grassType && p.soilType == q.soilType && p.condition == q.condition
    ensures p.location.None? <==> q.location.None?
  {
    var lp, lq := PromptLines(p, today), PromptLines(q, today);
    assert lp[1] == lq[1] && lp[2] == lq[2] && lp[3] == lq[3] && lp[4] == lq[4];
    PrefixCancels(GrassLabel, GrassTypeText(p.grassType), GrassTypeText(q.grassType));
    PrefixCancels(SoilLabel, SoilTypeText(p.soilType), SoilTypeText(q.soilType));
    PrefixCancels(ConditionLabel, ConditionText(p.condition), ConditionText(q.condition));
    EnumTextsInjective(p.grassType, q.grassType, p.soilType, q.soilType, p.condition, q.condition);
  }

  /** The sum of the lengths of `lines`. */
  function TotalLength(lines: seq<string>): nat
  {
    if lines == [] then 0 else |lines[0]| + TotalLength(lines[1..])
  }

  /** The lines with a newline between each two: the text starts with the
      first line, ends with the last, and holds the lines' characters and
      one newline per gap. */
  function JoinLines(lines: seq<string>): (text: string)
    ensures lines == [] ==> text == ""
    ensures lines != [] ==> |text| == TotalLength(lines) + |lines| - 1
    ensures lines != [] ==> |lines[0]| <= |text| && text[..|lines[0]|] == lines[0]
  {
    if lines == [] then "" else if |lines| == 1 then lines[0] else lines[0] + "\n" + JoinLines(lines[1..])
  }

  /** Cuts a text at every newline; the inverse of JoinLines. */
  function SplitLines(text: string): (lines: seq<string>)
    ensures |lines| >= 1
    decreases |text|
  {
    if text == [] then [""]
    else
      var rest := SplitLines(text[1..]);
      if text[0] == '\n' then [""] + rest else [[text[0]] + rest[0]] + rest[1..]
  }

  predicate NoNewline(line: string)
  {
    forall i :: 0 <= i < |line| ==> line[i] != '\n'
  }

  /** Splitting a text that starts with a newline-free line: that line is
      glued to the first piece of the rest. */
  lemma {:induction false} SplitAfterLine(line: string, tail: string)
    requires NoNewline(line)
    ensures SplitLines(line + tail)[0] == line + SplitLines(tail)[0]
    ensures SplitLines(line + tail)[1..] == SplitLines(tail)[1..]
    decreases |line|
  {
    if line != [] {
      assert (line + tail)[1..] == line[1..] + tail;
      SplitAfterLine(line[1..], tail);
      assert [line[0]] + (line[1..] + SplitLines(tail)[0]) == line + SplitLines(tail)[0];
    } else {
      assert line + tail == tail;
    }
  }

  /** Joining newline-free lines loses nothing: splitting the text at its
      newlines gives back exactly the lines. */
  lemma {:induction false} SplitJoinLines(lines: seq<string>)
    requires lines != []
    requires forall i :: 0 <= i < |lines| ==> NoNewline(lines[i])
    ensures SplitLines(JoinLines(lines)) == lines
    decreases |lines|
  {
    if |lines| == 1 {
      SplitAfterLine(lines[0], "");
      assert lines[0] + "" == lines[0];
    } else {
      var t := JoinLines(lines[1..]);
      SplitJoinLines(lines[1..]);
      assert lines[0] + "\n" + t == lines[0] + ("\n" + t);
      SplitAfterLine(lines[0], "\n" + t);
      assert ("\n" + t)[1..] == t;
      assert SplitLines("\n" + t) == [""] + SplitLines(t);
      assert lines[0] + "" == lines[0];
      assert SplitLines(JoinLines(lines)) == [lines[0]] + lines[1..];
    }
  }

  /** Joining one more line appends a newline and that line. */
  lemma {:induction false} JoinLinesSnoc(lines: seq<string>, last: string)
    requires lines != []
    ensures JoinLines(lines + [last]) == JoinLines(lines) + "\n" + last
    decreases |lines|
  {
    if |lines| == 1 {
      assert (lines + [last])[1..] == [last];
    } else {
      assert (lines + [last])[1..] == lines[1..] + [last];
      JoinLinesSnoc(lines[1..], last);
    }
  }

  /** Framing joined lines with a leading newline and a trailing newline
      plus indentation is joining them with an empty first line and the
      indentation as last line. */
  lemma JoinLinesFramed(lines: seq<string>, indent: string)
    requires lines != []
    ensures "\n" + JoinLines(lines) + "\n" + indent == JoinLines([""] + lines + [indent])
  {
    assert ([""] + lines)[1..] == lines;
    JoinLinesSnoc([""] + lines, indent);
  }

  /** The full text sent to the completion service: the template literal's
      lines are an empty line (it opens with a newline), the ten prompt
      lines, and the closing indentation of two spaces. */
  function RecommendationPrompt(profile: UserProfile, today: string): (prompt: string)
    ensures prompt == JoinLines([""] + PromptLines(profile, today) + ["  "])
  {
    JoinLinesFramed(PromptLines(profile, today), "  ");
    "\n" + JoinLines(PromptLines(profile, today)) + "\n" + "  "
  }

  /** Framed newline-free lines split back into the empty opening line,
      the lines themselves and the closing indentation. */
  lemma {:induction false} SplitFramedLines(lines: seq<string>, indent: string)
    requires forall i :: 0 <= i < |lines| ==> NoNewline(lines[i])
    requires NoNewline(indent)
    ensures SplitLines(JoinLines([""] + lines + [indent])) == [""] + lines + [indent]
  {
    var all := [""] + lines + [indent];
    assert forall i :: 0 <= i < |all| ==> NoNewline(all[i]) by {
      forall i | 0 <= i < |all| ensures NoNewline(all[i]) {
        if i == 0 {
          assert all[i] == "";
        } else if i <= |lines| {
          assert all[i] == lines[i - 1];
        } else {
          assert all[i] == indent;
        }
      }
    }
    SplitJoinLines(all);
  }

  /** The prompt has exactly twelve lines: the empty opening line, the ten
      prompt lines, and the closing indentation, provided no interpolated
      value brings a newline of its own. */
  lemma RecommendationPromptLines(profile: UserProfile, today: string)
    requires forall i :: 0 <= i < 10 ==> NoNewline(PromptLines(profile, today)[i])
    ensures SplitLines(RecommendationPrompt(profile, today)) == [""] + PromptLines(profile, today) + ["  "]
  {
    var indent := "  ";
    assert NoNewline(indent);
    SplitFramedLines(PromptLines(profile, today), indent);
  }

  const VisualLead: string := "A professional photorealistic high-angle shot of a lush "
  const VisualMiddle: string := " home lawn in a suburban backyard. The condition is currently "
  const VisualTail: string := ". Vibrant green, perfectly manicured, natural sunlight."

  /** The text sent to the image service: the grass type and the condition
      interpolated into a fixed description. */
  function VisualizationPrompt(profile: UserProfile): (prompt: string)
    ensures |prompt| > |VisualLead| && prompt[..|VisualLead|] == VisualLead
    ensures prompt[|VisualLead|..] ==
              GrassTypeText(profile.grassType) + (VisualMiddle + (ConditionText(profile.condition) + VisualTail))
  {
    VisualLead + (GrassTypeText(profile.grassType) + (VisualMiddle + (ConditionText(profile.condition) + VisualTail)))
  }

  /** The image prompt reads only the grass type and the condition. */
  lemma VisualizationPromptReadsGrassAndCondition(p: UserProfile, q: UserProfile)
    requires p.grassType == q.grassType && p.condition == q.condition
    ensures VisualizationPrompt(p) == VisualizationPrompt(q)
  {
  }

  /** ... and it tells every grass type and every condition apart. */
  lemma VisualizationPromptDeterminesGrassAndCondition(p: UserProfile, q: UserProfile)
    requires VisualizationPrompt(p) == VisualizationPrompt(q)
    ensures p.grassType == q.grassType && p.condition == q.condition
  {
    var gp, gq := GrassTypeText(p.grassType), GrassTypeText(q.grassType);
    var rp, rq := VisualMiddle + (ConditionText(p.condition) + VisualTail),
                  VisualMiddle + (ConditionText(q.condition) + VisualTail);
    assert gp + rp == VisualizationPrompt(p)[|VisualLead|..] == gq + rq;
    GrassTypeFirstChar(p.grassType);
    GrassTypeFirstChar(q.grassType);
    assert (gp + rp)[0] == gp[0] && (gq + rq)[0] == gq[0];
    PrefixCancels(gp, rp, rq);
    PrefixCancels(VisualMiddle, ConditionText(p.condition) + VisualTail, ConditionText(q.condition) + VisualTail);
    ConditionTextsPrefixFree(p.condition, q.condition, VisualTail);
  }

  // The parts of the image service's response that the search reads; every
  // field is optional in the response type.
  datatype Blob = Blob(mimeType: Option<string>, data: Option<string>)
  datatype Part = Part(text: Option<string>, inlineData: Option<Blob>)
  datatype Content = Content(parts: Option<seq<Part>>)
  datatype Candidate = Candidate(content: Option<Content>)
  datatype GenerateContentResponse = GenerateContentResponse(candidates: Option<seq<Candidate>>)

  /** `response.candidates?.[0]?.content?.parts || []`. */
  function PartsOf(response: GenerateContentResponse): (parts: seq<Part>)
    ensures response.candidates.None? || response.candidates.value == [] ==> parts == []
    ensures response.candidates.Some? && response.candidates.value != [] &&
            response.candidates.value[0].content.Some? &&
            response.candidates.value[0].content.value.parts.Some?
            ==> parts == response.candidates.value[0].content.value.parts.value
    ensures response.candidates.Some? && response.candidates.value != [] &&
            (response.candidates.value[0].content.None? ||
             response.candidates.value[0].content.value.parts.None?)
            ==> parts == []
  {
    match response.candidates
    case None => []
    case Some(cands) =>
      if cands == [] then []
      else match cands[0].content
        case None => []
        case Some(content) => match content.parts
          case None => []
          case Some(ps) => ps
  }

  const DataUriPrefix: string := "data:image/png;base64,"

  /** The data URI built from an inline payload; an absent `data` prints as
      "undefined" in the template. */
  function DataUri(data: Option<string>): (uri: string)
    ensures |uri| >= |DataUriPrefix| && uri[..|DataUriPrefix|] == DataUriPrefix
    ensures data.Some? ==> uri[|DataUriPrefix|..] == data.value
  {
    DataUriPrefix + (if data.Some? then data.value else "undefined")
  }

  /** The image of the first part that has inline data, if any part has. */
  function ImageFromParts(parts: seq<Part>): (image: Option<string>)
    ensures image.Some? ==> |image.value| >= |DataUriPrefix| && image.value[..|DataUriPrefix|] == DataUriPrefix
  {
    if parts == [] then None
    else if parts[0].inlineData.Some? then Some(DataUri(parts[0].inlineData.value.data))
    else ImageFromParts(parts[1..])
  }

  /** The first part with inline data decides the image; later parts are
      ignored. */
  lemma {:induction false} ImageFromPartsIsFirstInline(parts: seq<Part>, k: int)
    requires 0 <= k < |parts| && parts[k].inlineData.Some?
    requires forall j :: 0 <= j < k ==> parts[j].inlineData.None?
    ensures ImageFromParts(parts) == Some(DataUri(parts[k].inlineData.value.data))
  {
    if k > 0 {
      ImageFromPartsIsFirstInline(parts[1..], k - 1);
    }
  }

  /** No image exactly when no part has inline data. */
  lemma {:induction false} ImageFromPartsNoneIff(parts: seq<Part>)
    ensures ImageFromParts(parts).None? <==> forall j :: 0 <= j < |parts| ==> parts[j].inlineData.None?
  {
    if parts != [] {
      ImageFromPartsNoneIff(parts[1..]);
      assert forall j :: 1 <= j < |parts| ==> parts[j] == parts[1..][j - 1];
    }
  }

  /** A response missing its candidates, content or parts yields no image. */
  lemma MissingPartsYieldNoImage(response: GenerateContentResponse)
    requires response.candidates.None? || response.candidates.value == [] ||
             response.candidates.value[0].content.None? ||
             response.candidates.value[0].content.value.parts.None?
    ensures ImageFromParts(PartsOf(response)) == None
  {
  }

  /** generateLawnVisualization after its request: `call` is what awaiting
      the image service gave. A rejected call becomes null, so this function
      never rejects; otherwise the parts are scanned in order and the first
      inline payload is returned as a data URI. */
  method GenerateLawnVisualization(call: Result<GenerateContentResponse, string>) returns (image: Option<string>)
    ensures call.Failure? ==> image == None
    ensures call.Success? ==> image == ImageFromParts(PartsOf(call.value))
  {
    if call.Failure? {
      return None;
    }
    var parts := PartsOf(call.value);
    var i := 0;
    while i < |parts|
      invariant 0 <= i <= |parts|
      invariant ImageFromParts(parts[i..]) == ImageFromParts(parts)
    {
      if parts[i].inlineData.Some? {
        return Some(DataUri(parts[i].inlineData.value.data));
      }
      assert parts[i..][1..] == parts[i + 1..];
      i := i + 1;
    }
    return None;
  }
}
