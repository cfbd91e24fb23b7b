/**
 * The main window's bookkeeping (`MainWindow`): the scene-count stepper, the
 * prompt box with its placeholder, the Generate button that fills one tab per
 * scene, each tab's "Generate Video" button, and closing a tab. The WPF
 * controls are reduced to the state the handlers read and write: the two text
 * boxes, the tabs and the messages shown to the user.
 */
module MovieMakerWindow {
  import opened Common
  import opened Text
  import opened ScenePrompts
  import opened VideoJobs

  /** The gray hint the prompt box shows while it holds no prompt. */
  const Placeholder: string := "Enter video prompt"
  const InvalidInputMessage: string := "Please enter a valid prompt and scene count."
  const VideoErrorPrefix: string := "Error generating video: "
  const GenerateCaption: string := "Generate Video"
  const GeneratingCaption: string := "Generating..."
  /** The resolution used when no radio button is checked or it has no tag. */
  const DefaultTag: string := "1280x720"
  const PortraitTag: string := "720x1280"
  const FilePrefix: string := "scene_video_"
  /** Every scene video is asked for with this length in seconds. */
  const VideoLength: int := 10
  const StepperMin: int := 1
  const StepperMax: int := 10

  // ---------------------------------------------------------------------
  // The scene-count stepper

  /** `Increase_Click` on the text of the number box. */
  function StepUp(text: string): string {
    match ParseInt(text)
    case Some(current) => if current < StepperMax then IntToString(current + 1) else text
    case None => text
  }

  /** `Decrease_Click` on the text of the number box. */
  function StepDown(text: string): string {
    match ParseInt(text)
    case Some(current) => if current > StepperMin then IntToString(current - 1) else text
    case None => text
  }

  /** Increase adds one below the maximum and leaves other text as it is. */
  lemma StepUpReads(text: string)
    ensures match ParseInt(text)
      case None => StepUp(text) == text
      case Some(n) => ParseInt(StepUp(text)) == Some(if n < StepperMax then n + 1 else n)
  {
    match ParseInt(text)
    case None =>
    case Some(n) =>
      if n < StepperMax {
        IntToStringRoundTrip(n + 1);
      }
  }

  /** Decrease subtracts one above the minimum and leaves other text as it is. */
  lemma StepDownReads(text: string)
    ensures match ParseInt(text)
      case None => StepDown(text) == text
      case Some(n) => ParseInt(StepDown(text)) == Some(if n > StepperMin then n - 1 else n)
  {
    match ParseInt(text)
    case None =>
    case Some(n) =>
      if n > StepperMin {
        IntToStringRoundTrip(n - 1);
      }
  }

  /** A count between 1 and 10 stays between 1 and 10 under either button. */
  lemma StepsStayInRange(text: string, n: int)
    requires ParseInt(text) == Some(n) && StepperMin <= n <= StepperMax
    ensures ParseInt(StepUp(text)).Some? && StepperMin <= ParseInt(StepUp(text)).value <= StepperMax
    ensures ParseInt(StepDown(text)).Some? && StepperMin <= ParseInt(StepDown(text)).value <= StepperMax
  {
    StepUpReads(text);
    StepDownReads(text);
  }

  // ---------------------------------------------------------------------
  // The prompt box

  /** `PromptBox_GotFocus`: the placeholder is cleared, anything else stays. */
  function FocusIn(text: string): string {
    if text == Placeholder then "" else text
  }

  /** `PromptBox_LostFocus`: a blank box gets the placeholder back. */
  function FocusOut(text: string): string {
    if IsBlank(text) then Placeholder else text
  }

  /** The prompt `Generate_Click` reads: none for the placeholder, else the trimmed text. */
  function PromptInput(text: string): string {
    if text == Placeholder then "" else Trim(text)
  }

  /**
   * The prompt is missing exactly when the box shows the placeholder or is
   * blank; a prompt that is there has no surrounding whitespace.
   */
  lemma PromptInputBlank(text: string)
    ensures IsBlank(PromptInput(text)) <==> text == Placeholder || IsBlank(text)
    ensures !IsBlank(PromptInput(text)) ==>
      var p := PromptInput(text); !IsWhite(p[0]) && !IsWhite(p[|p| - 1])
  {
    if text != Placeholder {
      TrimShape(text);
    }
  }

  /** Moving the focus in or out never changes the prompt Generate would use. */
  lemma FocusKeepsPrompt(text: string)
    ensures PromptInput(FocusIn(text)) == PromptInput(text)
    ensures PromptInput(FocusOut(text)) == PromptInput(text)
  {
    TrimShape(text);
    TrimShape("");
  }

  // ---------------------------------------------------------------------
  // Scene tabs

  /** The header of the tab at position `k - 1`. */
  function SceneLabel(k: int): string {
    "Scene " + IntToString(k)
  }

  /** The text of a tab for which no scene was generated. */
  function MissingText(i: int): string {
    "[Scene " + IntToString(i + 1) + " text missing]"
  }

  function PadText(scenes: seq<string>, i: nat): string {
    if i < |scenes| then scenes[i] else MissingText(i)
  }

  /** The texts of the tabs: one per requested scene, generated or filled in. */
  function PadScenes(scenes: seq<string>, count: int): (r: seq<string>)
    ensures |r| == if count < 0 then 0 else count
  {
    seq(if count < 0 then 0 else count, i requires 0 <= i => PadText(scenes, i))
  }

  /** Scenes beyond the requested count are dropped. */
  lemma PadScenesTruncates(scenes: seq<string>, count: int)
    requires 0 <= count <= |scenes|
    ensures PadScenes(scenes, count) == scenes[..count]
  {
    var r := PadScenes(scenes, count);
    forall i | 0 <= i < count
      ensures r[i] == scenes[..count][i]
    {
    }
  }

  /** Missing scenes are filled in with numbered placeholders. */
  lemma PadScenesExtends(scenes: seq<string>, count: int)
    requires |scenes| <= count
    ensures PadScenes(scenes, count) == scenes + seq(count - |scenes|, k requires 0 <= k => MissingText(|scenes| + k))
  {
    var r := PadScenes(scenes, count);
    var fill := seq(count - |scenes|, k requires 0 <= k => MissingText(|scenes| + k));
    forall i | 0 <= i < count
      ensures r[i] == (scenes + fill)[i]
    {
    }
  }

  /** The base name of the video file of the scene created at index `sceneIndex`. */
  function SceneFileName(sceneIndex: int): string {
    FilePrefix + IntToString(sceneIndex + 1)
  }

  /** Scenes created at different indices write different files. */
  lemma SceneFileNameInjective(a: int, b: int)
    requires 0 <= a < MaxInt32 && 0 <= b < MaxInt32 && a != b
    ensures SceneFileName(a) != SceneFileName(b)
  {
    IntToStringInjective(a + 1, b + 1);
    assert SceneFileName(a)[|FilePrefix|..] == IntToString(a + 1);
    assert SceneFileName(b)[|FilePrefix|..] == IntToString(b + 1);
  }

  /** One radio button of the resolution panel. */
  datatype RadioButton = RadioButton(isChecked: bool, tag: Option<string>)

  /** The tag of the first checked radio button, or the default. */
  function SelectedTag(radios: seq<RadioButton>): (r: string)
    ensures (forall i :: 0 <= i < |radios| ==> !radios[i].isChecked) ==> r == DefaultTag
    ensures forall i :: 0 <= i < |radios| && radios[i].isChecked && (forall j :: 0 <= j < i ==> !radios[j].isChecked) ==>
              r == (if radios[i].tag.Some? then radios[i].tag.value else DefaultTag)
  {
    if radios == [] then DefaultTag
    else if radios[0].isChecked then (if radios[0].tag.Some? then radios[0].tag.value else DefaultTag)
    else SelectedTag(radios[1..])
  }

  /** The size of the requested video and of the player showing it. */
  datatype Resolution = Resolution(outputWidth: int, outputHeight: int, playerWidth: int, playerHeight: int)

  /**
   * Portrait output and a portrait player for the portrait tag, landscape for
   * every other tag; the video is always 720 by 1280 in 16:9 or 9:16.
   */
  function ResolutionFor(tag: string): (r: Resolution)
    ensures r.outputWidth < r.outputHeight <==> tag == PortraitTag
    ensures r.playerWidth < r.playerHeight <==> tag == PortraitTag
    ensures r.outputWidth * 9 == r.outputHeight * 16 || r.outputWidth * 16 == r.outputHeight * 9
    ensures r.outputWidth * r.outputHeight == 720 * 1280
    ensures 0 < r.outputWidth && 0 < r.outputHeight && 0 < r.playerWidth && 0 < r.playerHeight
  {
    if tag == PortraitTag then Resolution(720, 1280, 280, 700)
    else Resolution(1280, 720, 960, 540)
  }

  /**
   * One tab: its header, its scene text, the index it was created at (which
   * names its video file), the path of its last video, its two buttons and
   * the size of its player.
   */
  datatype SceneTab = SceneTab(
    heading: string,
    text: string,
    sceneIndex: int,
    videoPath: Option<string>,
    generateEnabled: bool,
    generateCaption: string,
    downloadEnabled: bool,
    playerWidth: int,
    playerHeight: int)

  /** The tab `Generate_Click` creates at index `i`. */
  function NewTab(i: nat, text: string): SceneTab {
    SceneTab(SceneLabel(i + 1), text, i, None, true, GenerateCaption, false, 960, 540)
  }

  function FreshTabs(texts: seq<string>): seq<SceneTab> {
    seq(|texts|, i requires 0 <= i < |texts| => NewTab(i, texts[i]))
  }

  /**
   * Tab headers read "Scene 1" to "Scene n" in order, and the creation
   * indices increase from left to right and fit in 32 bits.
   */
  ghost predicate WellNumbered(tabs: seq<SceneTab>) {
    (forall i :: 0 <= i < |tabs| ==> tabs[i].heading == SceneLabel(i + 1)) &&
    (forall i :: 0 <= i < |tabs| ==> 0 <= tabs[i].sceneIndex < MaxInt32) &&
    (forall i, j :: 0 <= i < j < |tabs| ==> tabs[i].sceneIndex < tabs[j].sceneIndex)
  }

  /** Changing a tab but not its header or index keeps the numbering. */
  lemma UpdateKeepsNumbering(tabs: seq<SceneTab>, pos: nat, t: SceneTab)
    requires WellNumbered(tabs) && pos < |tabs|
    requires t.heading == tabs[pos].heading && t.sceneIndex == tabs[pos].sceneIndex
    ensures WellNumbered(tabs[pos := t])
  {
  }

  /** No two open tabs write the same video file. */
  lemma DistinctVideoFiles(tabs: seq<SceneTab>)
    requires WellNumbered(tabs)
    ensures forall i, j :: 0 <= i < |tabs| && 0 <= j < |tabs| && i != j ==>
      SceneFileName(tabs[i].sceneIndex) != SceneFileName(tabs[j].sceneIndex)
  {
    forall i, j | 0 <= i < |tabs| && 0 <= j < |tabs| && i != j
      ensures SceneFileName(tabs[i].sceneIndex) != SceneFileName(tabs[j].sceneIndex)
    {
      SceneFileNameInjective(tabs[i].sceneIndex, tabs[j].sceneIndex);
    }
  }

  /** One more requested scene adds one tab at the end. */
  lemma FreshTabsGrow(scenes: seq<string>, i: nat)
    ensures FreshTabs(PadScenes(scenes, i + 1)) == FreshTabs(PadScenes(scenes, i)) + [NewTab(i, PadText(scenes, i))]
  {
    var longer, shorter := FreshTabs(PadScenes(scenes, i + 1)), FreshTabs(PadScenes(scenes, i));
    assert |longer| == |shorter| + 1;
    forall k | 0 <= k < i
      ensures longer[k] == shorter[k]
    {
    }
  }

  /** Freshly created tabs are well numbered. */
  lemma FreshTabsWellNumbered(texts: seq<string>)
    requires |texts| <= MaxInt32
    ensures WellNumbered(FreshTabs(texts))
  {
  }

  /** Removing the element at `pos` moves the later ones one place left. */
  lemma RemovedAt<T>(s: seq<T>, pos: nat, r: seq<T>)
    requires pos < |s| && r == s[..pos] + s[pos + 1..]
    ensures |r| == |s| - 1
    ensures forall i :: 0 <= i < |r| ==> r[i] == s[if i < pos then i else i + 1]
  {
  }

  /** Closing a tab and renumbering the rest keeps the tabs well numbered. */
  lemma CloseKeepsNumbering(before: seq<SceneTab>, pos: nat, after: seq<SceneTab>)
    requires WellNumbered(before) && pos < |before|
    requires |after| == |before| - 1
    requires forall i :: 0 <= i < |after| ==>
      after[i] == before[if i < pos then i else i + 1].(heading := SceneLabel(i + 1))
    ensures WellNumbered(after)
  {
    forall i, j | 0 <= i < j < |after|
      ensures after[i].sceneIndex < after[j].sceneIndex
    {
      var bi, bj := if i < pos then i else i + 1, if j < pos then j else j + 1;
      assert after[i].sceneIndex == before[bi].sceneIndex && after[j].sceneIndex == before[bj].sceneIndex;
    }
  }

  class MainWindow {
    const prompter: ScenePrompter
    const videoGenerator: VideoGenerator
    var promptText: string
    var promptGray: bool
    var numberText: string
    var tabs: seq<SceneTab>
    /** The message boxes shown so far. */
    var messages: seq<string>

    /** The tabs are well numbered (see `WellNumbered`). */
    ghost predicate Valid()
      reads this
    {
      WellNumbered(tabs)
    }

    /**
     * Both clients are built from the configured endpoint and key; the text
     * client also gets the deployment name and the video client the
     * "preview" API version. The chat model's answers stand for what that
     * deployment replies.
     */
    constructor (endpoint: string, apiKey: string, deploymentName: string,
                 answer: (nat, ChatRequest) -> Result<string, string>,
                 initialPrompt: string, initialGray: bool, initialNumber: string)
      ensures Valid()
      ensures fresh(prompter) && fresh(prompter.textService) && fresh(videoGenerator)
      ensures prompter.textService.endpoint == endpoint && prompter.textService.apiKey == apiKey
      ensures prompter.textService.deploymentName == deploymentName
      ensures prompter.textService.answer == answer && prompter.textService.requests == []
      ensures videoGenerator.Valid() && videoGenerator.endpoint == endpoint
      ensures videoGenerator.apiKey == apiKey && videoGenerator.apiVersion == "preview"
      ensures promptText == initialPrompt && promptGray == initialGray && numberText == initialNumber
      ensures tabs == [] && messages == []
    {
      var textGenerator := new ChatService(endpoint, apiKey, deploymentName, answer);
      videoGenerator := new VideoGenerator(endpoint, apiKey, "preview");
      prompter := new ScenePrompter(textGenerator);
      promptText := initialPrompt;
      promptGray := initialGray;
      numberText := initialNumber;
      tabs := [];
      messages := [];
    }

    /** `PromptBox_GotFocus`. */
    method PromptGotFocus()
      modifies this
      ensures promptText == FocusIn(old(promptText))
      ensures promptGray == (old(promptGray) && old(promptText) != Placeholder)
      ensures numberText == old(numberText) && tabs == old(tabs) && messages == old(messages)
    {
      if promptText == Placeholder {
        promptText := "";
        promptGray := false;
      }
    }

    /** `PromptBox_LostFocus`. */
    method PromptLostFocus()
      modifies this
      ensures promptText == FocusOut(old(promptText))
      ensures promptGray == (old(promptGray) || IsBlank(old(promptText)))
      ensures numberText == old(numberText) && tabs == old(tabs) && messages == old(messages)
    {
      if IsBlank(promptText) {
        promptText := Placeholder;
        promptGray := true;
      }
    }

    /** `Increase_Click`. */
    method Increase()
      modifies this
      ensures numberText == StepUp(old(numberText))
      ensures promptText == old(promptText) && promptGray == old(promptGray)
      ensures tabs == old(tabs) && messages == old(messages)
    {
      var parsed := ParseInt(numberText);
      if parsed.Some? {
        var current := parsed.value;
        if current < StepperMax {
          numberText := IntToString(current + 1);
        }
      }
    }

    /** `Decrease_Click`. */
    method Decrease()
      modifies this
      ensures numberText == StepDown(old(numberText))
      ensures promptText == old(promptText) && promptGray == old(promptGray)
      ensures tabs == old(tabs) && messages == old(messages)
    {
      var parsed := ParseInt(numberText);
      if parsed.Some? {
        var current := parsed.value;
        if current > StepperMin {
          numberText := IntToString(current - 1);
        }
      }
    }

    /**
     * `Generate_Click`. Without a count or a prompt it shows a message and
     * changes nothing else. Otherwise it clears the tabs, asks for the scenes
     * once, and creates exactly one tab per requested scene (none for a
     * negative count), filling in the scenes that were not generated. An
     * error of the chat request is not caught: it leaves the tabs cleared and
     * escapes the handler.
     */
    method GenerateClick() returns (unhandled: Option<string>)
      requires Valid()
      modifies this, prompter.textService
      ensures Valid()
      ensures promptText == old(promptText) && promptGray == old(promptGray) && numberText == old(numberText)
      ensures var textPrompt := PromptInput(old(promptText));
        var count := ParseInt(old(numberText));
        if count.None? || IsBlank(textPrompt) then
          unhandled == None && tabs == old(tabs) && messages == old(messages) + [InvalidInputMessage] &&
          prompter.textService.requests == old(prompter.textService.requests)
        else
          var request := ChatRequest(Instruction(count.value, textPrompt), SystemMessage);
          messages == old(messages) &&
          prompter.textService.requests == old(prompter.textService.requests) + [request] &&
          match prompter.textService.answer(|old(prompter.textService.requests)|, request)
          case Failure(e) => unhandled == Some(e) && tabs == []
          case Success(reply) => unhandled == None && tabs == FreshTabs(PadScenes(ScenesFromReply(reply), count.value))
    {
      var textPrompt := PromptInput(promptText);
      var parsed := ParseInt(numberText);
      if parsed.None? || IsBlank(textPrompt) {
        messages := messages + [InvalidInputMessage];
        return None;
      }
      var sceneCount := parsed.value;
      tabs := [];
      var aiScenes := prompter.GenerateScenes(textPrompt, sceneCount);
      if aiScenes.Failure? {
        return Some(aiScenes.error);
      }
      AddSceneTabs(aiScenes.value, sceneCount);
      FreshTabsWellNumbered(PadScenes(aiScenes.value, sceneCount));
      unhandled := None;
    }

    /**
     * The loop of `Generate_Click` that adds, to the cleared tab control, one
     * tab per requested scene with the generated text or a placeholder.
     */
    method AddSceneTabs(scenes: seq<string>, sceneCount: int)
      requires tabs == []
      modifies this
      ensures tabs == FreshTabs(PadScenes(scenes, sceneCount))
      ensures promptText == old(promptText) && promptGray == old(promptGray) && numberText == old(numberText)
      ensures messages == old(messages)
    {
      var added: seq<SceneTab> := [];
      var i := 0;
      while i < sceneCount
        invariant 0 <= i && (i <= sceneCount || i == 0)
        invariant added == FreshTabs(PadScenes(scenes, i))
        invariant unchanged(this)
      {
        var sceneText := if i < |scenes| then scenes[i] else MissingText(i);
        var sceneIndex := i;
        FreshTabsGrow(scenes, i);
        added := added + [NewTab(sceneIndex, sceneText)];
        i := i + 1;
      }
      tabs := added;
    }

    /**
     * The "Generate Video" button of the tab at `pos`. The resolution comes
     * from the checked radio button; the job asks for the tab's text, ten
     * seconds, and a file named after the index the tab was created at.
     * While the job runs both buttons are disabled. A path is kept when one
     * is returned, and download is enabled only for a non-empty path to a
     * file that exists; an error is shown as a message. Once the call ends
     * the generate button is enabled again with its caption restored; a job
     * still being polled leaves it disabled.
     */
    method SceneVideoClick(pos: nat, radios: seq<RadioButton>, script: ServiceScript, existingFiles: set<string>)
      returns (outcome: VideoOutcome, requests: seq<HttpRequest>)
      requires Valid() && pos < |tabs|
      modifies this
      ensures Valid()
      ensures promptText == old(promptText) && promptGray == old(promptGray) && numberText == old(numberText)
      ensures |tabs| == |old(tabs)|
      ensures forall i :: 0 <= i < |tabs| && i != pos ==> tabs[i] == old(tabs)[i]
      ensures var tab := old(tabs)[pos];
        var res := ResolutionFor(SelectedTag(radios));
        tabs[pos] == tab.(
          playerWidth := res.playerWidth,
          playerHeight := res.playerHeight,
          videoPath := if outcome.Returned? then Some(outcome.path) else tab.videoPath,
          downloadEnabled := outcome.Returned? && outcome.path != "" && outcome.path in existingFiles,
          generateEnabled := !outcome.StillPolling?,
          generateCaption := if outcome.StillPolling? then GeneratingCaption else GenerateCaption)
      ensures messages == old(messages) + (if outcome.Thrown? then [VideoErrorPrefix + ErrorMessage(outcome.error)] else [])
      ensures var tab := old(tabs)[pos];
        var res := ResolutionFor(SelectedTag(radios));
        (IsBlank(tab.text) <==> outcome == Thrown(InvalidPrompt)) &&
        (IsBlank(tab.text) ==> requests == []) &&
        (!IsBlank(tab.text) ==>
           |requests| > 0 &&
           requests[0] == Post(videoGenerator.CreateUrl(), JobBody(tab.text, VideoLength, res.outputWidth, res.outputHeight, Model))) &&
        (outcome.Returned? && outcome.path != "" ==>
          outcome.path == PathCombine(script.tempDir, SceneFileName(tab.sceneIndex) + ".mp4")) &&
        (!IsBlank(tab.text) ==>
          videoGenerator.FollowsScript(script, tab.text, SceneFileName(tab.sceneIndex), VideoLength,
                                       res.outputWidth, res.outputHeight, outcome, requests))
    {
      var tab := tabs[pos];
      var prompt := tab.text;
      var filename := FilePrefix;
      var videoLength := VideoLength;
      var selectedRes := SelectedTag(radios);
      var res := ResolutionFor(selectedRes);
      tab := tab.(playerWidth := res.playerWidth, playerHeight := res.playerHeight);
      tab := tab.(generateEnabled := false, generateCaption := GeneratingCaption, downloadEnabled := false);
      UpdateKeepsNumbering(tabs, pos, tab);
      tabs := tabs[pos := tab];
      var sceneFile := filename + IntToString(tab.sceneIndex + 1);
      assert sceneFile == SceneFileName(tab.sceneIndex);
      outcome, requests := videoGenerator.GenerateVideo(script, prompt, sceneFile, videoLength, res.outputWidth, res.outputHeight);
      if outcome.Thrown? {
        messages := messages + [VideoErrorPrefix + ErrorMessage(outcome.error)];
      }
      if outcome.Returned? {
        var videoPath := outcome.path;
        tab := tab.(videoPath := Some(videoPath));
        if videoPath != "" && videoPath in existingFiles {
          tab := tab.(downloadEnabled := true);
        }
      }
      // an outcome that is still polling leaves the awaiting handler suspended
      if !outcome.StillPolling? {
        tab := tab.(generateEnabled := true, generateCaption := GenerateCaption);
      }
      UpdateKeepsNumbering(tabs, pos, tab);
      tabs := tabs[pos := tab];
    }

    /** `RenumberSceneTabs`: the tab at position `i` gets the header "Scene i+1". */
    method RenumberSceneTabs()
      modifies this
      ensures |tabs| == |old(tabs)|
      ensures forall i :: 0 <= i < |tabs| ==> tabs[i] == old(tabs)[i].(heading := SceneLabel(i + 1))
      ensures promptText == old(promptText) && promptGray == old(promptGray) && numberText == old(numberText)
      ensures messages == old(messages)
    {
      var i := 0;
      while i < |tabs|
        invariant 0 <= i <= |tabs| == |old(tabs)|
        invariant forall k :: 0 <= k < i ==> tabs[k] == old(tabs)[k].(heading := SceneLabel(k + 1))
        invariant forall k :: i <= k < |tabs| ==> tabs[k] == old(tabs)[k]
        invariant promptText == old(promptText) && promptGray == old(promptGray) && numberText == old(numberText)
        invariant messages == old(messages)
      {
        tabs := tabs[i := tabs[i].(heading := SceneLabel(i + 1))];
        i := i + 1;
      }
    }

    /**
     * The close button of the tab at `pos`: the tab goes, the tabs after it
     * move one place left and every header is renumbered; creation indices,
     * and so video file names, stay as they were.
     */
    method CloseTab(pos: nat)
      requires Valid() && pos < |tabs|
      modifies this
      ensures Valid()
      ensures |tabs| == |old(tabs)| - 1
      ensures forall i :: 0 <= i < |tabs| ==>
        tabs[i] == old(tabs)[if i < pos then i else i + 1].(heading := SceneLabel(i + 1))
      ensures promptText == old(promptText) && promptGray == old(promptGray) && numberText == old(numberText)
      ensures messages == old(messages)
    {
      var before := tabs;
      tabs := tabs[..pos] + tabs[pos + 1..];
      RemovedAt(before, pos, tabs);
      RenumberSceneTabs();
      CloseKeepsNumbering(before, pos, tabs);
    }
  }
}
