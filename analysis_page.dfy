/** The analysis page of script.js: the file and URL checks, the elapsed
    time text, the chat assistant's keyword replies, the guard that keeps
    one analysis at a time, and the chat history. The `URL` parser, the
    random choice of a default reply and the clock are parameters; the
    page's animation and drawing are not modelled. */
module AnalysisPage {
  import opened Wrappers
  import opened Strings
  import ImageUpload

  const FileTypes: seq<string> := ["image/jpeg", "image/jpg", "image/png", "image/gif", "image/webp"]
  const UrlExtensions: seq<string> := [".jpg", ".jpeg", ".png", ".gif", ".webp"]
  const ImageHosts: seq<string> := ["imgur.com", "unsplash.com", "pexels.com"]

  /** Whether the analysis page accepts a chosen file, judged by its MIME type
      alone. */
  function IsValidImageFile(fileType: string): (r: bool)
    ensures r <==> fileType in FileTypes
  {
    fileType == "image/jpeg" || fileType == "image/jpg" || fileType == "image/png"
    || fileType == "image/gif" || fileType == "image/webp"
  }

  /** This page takes GIF images, which the React upload panel turns
      away. */
  lemma GifOnlyOnThisPage()
    ensures IsValidImageFile("image/gif") && "image/gif" !in ImageUpload.ValidTypes
  {
  }

  /** `isValidImageUrl(url)`, with whether `new URL(url)` succeeds as
      `parses`: some image extension in the lower-cased URL, or one of
      three hosts in the URL as given. */
  function IsValidImageUrl(url: string, parses: bool): (r: bool)
    ensures r ==> parses
  {
    parses
    && ((exists i :: 0 <= i < |UrlExtensions| && Contains(Lower(url), UrlExtensions[i]))
        || (exists i :: 0 <= i < |ImageHosts| && Contains(url, ImageHosts[i])))
  }

  /** Any of the three hosts anywhere in a URL that parses is enough. */
  lemma HostAccepted(url: string, h: nat)
    requires h < |ImageHosts| && Contains(url, ImageHosts[h])
    ensures IsValidImageUrl(url, true)
  {
  }

  /** The extension test ignores case: a URL that parses and contains
      `.JPG` is accepted. */
  lemma UpperCaseExtensionAccepted(url: string, i: int)
    requires OccursAt(url, ".JPG", i)
    ensures IsValidImageUrl(url, true)
  {
    var low := Lower(url);
    assert low[i..i + 4] == ".jpg" by {
      assert url[i] == '.' && url[i + 1] == 'J' && url[i + 2] == 'P' && url[i + 3] == 'G' by {
        assert url[i..i + 4][0] == url[i] && url[i..i + 4][1] == url[i + 1];
        assert url[i..i + 4][2] == url[i + 2] && url[i..i + 4][3] == url[i + 3];
      }
    }
    assert OccursAt(low, ".jpg", i);
    assert Contains(low, UrlExtensions[0]);
  }

  /** How long ago something happened, as `formatTimeAgo` chooses it. */
  datatype Elapsed = JustNow | Ago(count: nat, unit: string)

  const MinuteMs := 60000
  const HourMs := 3600000
  const DayMs := 86400000

  /** The largest whole unit with a positive count: days before hours before
      minutes; under a minute (or a time in the future) is "just now". The
      floor divisions of the source are Dafny's `/` on a positive divisor. */
  function Classify(diff: int): (e: Elapsed)
    ensures e.JustNow? <==> diff < MinuteMs
    ensures e.Ago? ==> e.count >= 1 && e.unit in {"day", "hour", "minute"}
    ensures e.Ago? && e.unit == "day" <==> diff >= DayMs
    ensures e.Ago? && e.unit == "hour" <==> HourMs <= diff < DayMs
    ensures e.Ago? && e.unit == "minute" <==> MinuteMs <= diff < HourMs
    ensures e.Ago? && e.unit == "day" ==> e.count * DayMs <= diff < (e.count + 1) * DayMs
    ensures e.Ago? && e.unit == "hour" ==> e.count * HourMs <= diff < (e.count + 1) * HourMs
    ensures e.Ago? && e.unit == "minute" ==> e.count * MinuteMs <= diff < (e.count + 1) * MinuteMs
  {
    var minutes, hours, days := diff / MinuteMs, diff / HourMs, diff / DayMs;
    if days > 0 then Ago(days, "day")
    else if hours > 0 then Ago(hours, "hour")
    else if minutes > 0 then Ago(minutes, "minute")
    else JustNow
  }

  /** `${n} unit${n > 1 ? 's' : ''} ago`, or `Just now`. */
  function Render(e: Elapsed): string {
    match e
    case JustNow => "Just now"
    case Ago(n, unit) => NatToString(n) + " " + unit + (if n > 1 then "s" else "") + " ago"
  }

  /** `formatTimeAgo(date)` for `diff = now - date` in milliseconds. */
  function FormatTimeAgo(diff: int): string {
    Render(Classify(diff))
  }

  /** The unit is plural exactly when the count is above one. */
  lemma PluralExactlyAboveOne(diff: int)
    requires diff >= MinuteMs
    ensures EndsWith(FormatTimeAgo(diff), "s ago") <==> Classify(diff).count > 1
  {
    var e := Classify(diff);
    var head := NatToString(e.count) + " " + e.unit;
    var r := FormatTimeAgo(diff);
    if e.count > 1 {
      assert r == head + "s ago";
      assert r[|r| - 5..] == "s ago";
    } else {
      assert r == head + " ago";
      assert r[|r| - 5] == e.unit[|e.unit| - 1];
      assert r[|r| - 5..][0] == r[|r| - 5];
    }
  }

  /** "Just now" is the text exactly for differences under a minute,
      negative ones included. */
  lemma JustNowExactlyUnderAMinute(diff: int)
    ensures FormatTimeAgo(diff) == "Just now" <==> diff < MinuteMs
  {
    var e := Classify(diff);
    if e.Ago? {
      var r := FormatTimeAgo(diff);
      assert r[0] == NatToString(e.count)[0];
      assert IsDigit(r[0]);
      assert !IsDigit("Just now"[0]);
    }
  }

  /** A keyword group of the chat assistant and its reply. */
  datatype KeywordRule = KeywordRule(first: string, second: string, reply: Reply)

  predicate Matches(message: string, rule: KeywordRule) {
    Contains(message, rule.first) || Contains(message, rule.second)
  }

  /** The assistant's replies: fixed texts, one quoting the score, and the
      five defaults by index. */
  datatype Reply =
    | UploadFirst | ConfidenceReply(score: string) | SourceReply | AuthenticityReply
    | TimelineReply | ManipulationReply | HelpReply | ReportReply | DefaultReply(index: nat)

  const DefaultCount := 5

  function Text(r: Reply): string
    requires r.DefaultReply? ==> r.index < DefaultCount
  {
    match r
    case UploadFirst => "Please upload an image first to start the analysis. I'll be able to provide detailed insights once the analysis is complete."
    case ConfidenceReply(score) => "The current credibility score is " + score + ". This is based on source verification, manipulation detection, and timeline analysis. Scores above 80% indicate high reliability."
    case SourceReply => "I found 5 primary sources for this image: Reuters (94% confidence), Twitter (87%), Facebook (76%), a suspicious blog (45%), and Imgur (89%). The Reuters source appears to be the original."
    case AuthenticityReply => "Based on the analysis, this image shows high authenticity markers. The original source is verified, though some versions show minor alterations like color enhancement."
    case TimelineReply => "The image timeline shows first appearance in January 2024 on a news website, followed by social sharing. A potentially manipulated version appeared in March 2024."
    case ManipulationReply => "The manipulation analysis detected minor alterations in some versions - primarily color enhancement and compression. The heatmap shows areas of concern in red and yellow."
    case HelpReply => "I can help you understand the image analysis results, explain confidence scores, discuss sources, analyze the timeline, or provide insights about potential manipulations. What would you like to know more about?"
    case ReportReply => "I can generate a comprehensive PDF report with all analysis findings. The report includes source verification, timeline analysis, technical details, and recommendations. Click the 'Download PDF Report' button to get it."
    case DefaultReply(i) =>
      if i == 0 then "Based on the current analysis, I can see several interesting patterns. The image has been traced across multiple platforms with varying confidence levels."
      else if i == 1 then "The AI analysis shows promising results. The source verification indicates legitimate origins with some secondary sharing that introduced minor alterations."
      else if i == 2 then "Looking at the data, this image demonstrates typical propagation patterns across social media and news platforms. Would you like me to elaborate on any specific aspect?"
      else if i == 3 then "The forensic analysis reveals important details about the image's journey through various platforms. The credibility indicators are generally positive."
      else "Interesting question! The analysis results show a complex but trackable path for this image across the internet. The verification markers suggest authentic origins."
  }

  /** The keyword groups in the order they are checked; the confidence reply
      quotes the score shown on the page. */
  function Rules(score: string): (rules: seq<KeywordRule>)
    ensures |rules| == 7
  {
    [ KeywordRule("confidence", "score", ConfidenceReply(score)),
      KeywordRule("source", "where", SourceReply),
      KeywordRule("fake", "real", AuthenticityReply),
      KeywordRule("timeline", "when", TimelineReply),
      KeywordRule("manipulation", "edited", ManipulationReply),
      KeywordRule("help", "what can", HelpReply),
      KeywordRule("report", "download", ReportReply) ]
  }

  /** The reply of the first group with a keyword in the message. */
  function FirstGroup(message: string, rules: seq<KeywordRule>): (r: Option<Reply>)
    ensures r.None? <==> forall k :: 0 <= k < |rules| ==> !Matches(message, rules[k])
    ensures r.Some? ==> exists k :: 0 <= k < |rules| && Matches(message, rules[k]) && r.value == rules[k].reply
                                    && forall j :: 0 <= j < k ==> !Matches(message, rules[j])
  {
    if rules == [] then None
    else if Matches(message, rules[0]) then Some(rules[0].reply)
    else
      var rest := FirstGroup(message, rules[1..]);
      assert forall k :: 1 <= k < |rules| ==> rules[k] == rules[1..][k - 1];
      rest
  }

  /** The first matching group decides, whatever later groups match too. */
  lemma {:induction false} FirstGroupWins(message: string, rules: seq<KeywordRule>, k: nat)
    requires k < |rules| && Matches(message, rules[k])
    requires forall j :: 0 <= j < k ==> !Matches(message, rules[j])
    ensures FirstGroup(message, rules) == Some(rules[k].reply)
  {
    if k > 0 {
      FirstGroupWins(message, rules[1..], k - 1);
    }
  }

  /** `generateAIResponse(userMessage)`: with no image loaded the upload
      prompt, whatever the message; otherwise the first keyword group that
      the lower-cased message contains, and failing all of them the default
      reply the draw picks. */
  function GenerateAiResponse(userMessage: string, hasImage: bool, score: string, draw: nat): (r: Reply)
    requires draw < DefaultCount
    ensures !hasImage ==> r == UploadFirst
    ensures hasImage && FirstGroup(Lower(userMessage), Rules(score)).None? ==> r == DefaultReply(draw)
  {
    if !hasImage then UploadFirst
    else
      var found := FirstGroup(Lower(userMessage), Rules(score));
      if found.Some? then found.value else DefaultReply(draw)
  }

  /** With an image, the first keyword group the lower-cased message matches
      gives the reply. */
  lemma FirstMatchingGroupAnswers(userMessage: string, score: string, draw: nat, k: nat)
    requires draw < DefaultCount && k < 7
    requires Matches(Lower(userMessage), Rules(score)[k])
    requires forall j :: 0 <= j < k ==> !Matches(Lower(userMessage), Rules(score)[j])
    ensures GenerateAiResponse(userMessage, true, score, draw) == Rules(score)[k].reply
  {
    FirstGroupWins(Lower(userMessage), Rules(score), k);
  }

  /** A question about both the score and the source gets the score reply:
      the confidence group is checked first. */
  lemma ScoreBeforeSource(userMessage: string, score: string, draw: nat)
    requires draw < DefaultCount
    requires Contains(Lower(userMessage), "score")
    ensures GenerateAiResponse(userMessage, true, score, draw) == ConfidenceReply(score)
  {
    assert Matches(Lower(userMessage), Rules(score)[0]);
    FirstMatchingGroupAnswers(userMessage, score, draw, 0);
  }

  /** The text of a chat line: typed (or fixed) text, or one of the
      assistant's replies, whose words are `Text(reply)`. */
  datatype ChatText = Typed(text: string) | Answered(reply: Reply)

  /** One entry of `chatHistory`. */
  datatype ChatEntry = ChatEntry(sender: string, message: ChatText, timestamp: int)

  const Assistant := "AI Assistant"
  const UserSender := "You"
  const AnalysisDone := "Analysis complete! I found several interesting findings. Ask me about any specific aspect."

  class Page {
    var currentImage: Option<string>
    var analysisInProgress: bool
    var chatHistory: seq<ChatEntry>

    constructor ()
      ensures currentImage == None && !analysisInProgress && chatHistory == []
    {
      currentImage := None;
      analysisInProgress := false;
      chatHistory := [];
    }

    /** `addChatMessage(sender, message)`: exactly one entry is appended. */
    method AddChatMessage(sender: string, message: ChatText, now: int)
      modifies this
      ensures chatHistory == old(chatHistory) + [ChatEntry(sender, message, now)]
      ensures currentImage == old(currentImage) && analysisInProgress == old(analysisInProgress)
    {
      chatHistory := chatHistory + [ChatEntry(sender, message, now)];
    }

    /** `startAnalysis()`: nothing happens while an analysis runs. */
    method StartAnalysis() returns (started: bool)
      modifies this
      ensures started <==> !old(analysisInProgress)
      ensures analysisInProgress
      ensures chatHistory == old(chatHistory) && currentImage == old(currentImage)
    {
      if analysisInProgress {
        return false;
      }
      analysisInProgress := true;
      return true;
    }

    /** The last step of the analysis, four seconds later: the guard opens
        again and the assistant says it is done. */
    method FinishAnalysis(now: int)
      modifies this
      ensures !analysisInProgress
      ensures chatHistory == old(chatHistory) + [ChatEntry(Assistant, Typed(AnalysisDone), now)]
      ensures currentImage == old(currentImage)
    {
      analysisInProgress := false;
      AddChatMessage(Assistant, Typed(AnalysisDone), now);
    }

    /** `sendChatMessage()`: a message that trims to nothing is ignored;
        otherwise the user's line and then the assistant's reply are added. */
    method SendChatMessage(input: string, score: string, draw: nat, sentAt: int, repliedAt: int)
      returns (reply: Option<Reply>)
      requires draw < DefaultCount
      modifies this
      ensures Trim(input) == "" ==> reply == None && chatHistory == old(chatHistory)
      ensures Trim(input) != "" ==>
        reply == Some(GenerateAiResponse(Trim(input), old(currentImage).Some?, score, draw))
        && chatHistory == old(chatHistory) + [ChatEntry(UserSender, Typed(Trim(input)), sentAt),
                                              ChatEntry(Assistant, Answered(reply.value), repliedAt)]
      ensures currentImage == old(currentImage) && analysisInProgress == old(analysisInProgress)
    {
      var message := Trim(input);
      if message == "" {
        return None;
      }
      ghost var before := chatHistory;
      var asked := ChatEntry(UserSender, Typed(message), sentAt);
      AddChatMessage(UserSender, Typed(message), sentAt);
      var response := Answer(message, score, draw, repliedAt);
      var answered := ChatEntry(Assistant, Answered(response), repliedAt);
      assert chatHistory == before + [asked] + [answered] == before + [asked, answered];
      return Some(response);
    }

    /** The delayed half of `sendChatMessage()`: the assistant's reply to
        the message is added. */
    method Answer(message: string, score: string, draw: nat, repliedAt: int) returns (response: Reply)
      requires draw < DefaultCount
      modifies this
      ensures response == GenerateAiResponse(message, currentImage.Some?, score, draw)
      ensures chatHistory == old(chatHistory) + [ChatEntry(Assistant, Answered(response), repliedAt)]
      ensures currentImage == old(currentImage) && analysisInProgress == old(analysisInProgress)
    {
      response := GenerateAiResponse(message, currentImage.Some?, score, draw);
      AddChatMessage(Assistant, Answered(response), repliedAt);
    }
  }
}
