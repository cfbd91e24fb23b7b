# AI Movie Maker — a verified model of its scene and video logic

AI Movie Maker is a WPF desktop application. The user types a prompt and a
scene count. The application asks a chat model to write that many short
scenes. It shows each scene in a tab of its own. From there the user can have
each scene turned into a video by an Azure OpenAI video-generation job
("Sora"). This project models the three parts of that application that hold
real logic, and proves what they promise.

- **Scene-text generation** (`AIPrompts.GenerateScenes`, module
  `ScenePrompts`, file `scene_prompts.dfy`).
  - It sends one instruction text to the chat service: the count, the prompt
    and a fixed block of rules.
  - It splits the reply on `#######` and drops the empty pieces.
  - It deletes every `Scene<whitespace><digits>` label in each piece,
    ignoring case, in one left-to-right pass.
  - It trims each piece.
  - The chat client is a `ChatService` object, built from the endpoint, the
    key and the deployment name. Its answer to the request at each position
    of its log is fixed but unknown, so the same request asked twice may get
    two different replies. It keeps the log of the requests made to it.
- **The video-job client** (`AIVideoGenerator`, module `VideoJobs`, file
  `video_jobs.dfy`).
  - It checks the prompt and builds the three URLs.
  - It submits the job and polls it until the first terminal status.
  - It classifies the outcome.
  - The HTTP exchanges are replaced by a `ServiceScript` value. That value
    holds the job id the service assigns, its answers to the successive
    status requests, whether the download succeeds, and the temporary
    directory. The method returns the list of requests it made.
- **The main window** (`MainWindow`, module `MovieMakerWindow`, file
  `main_window.dfy`). This is a class with the state the handlers change:
  - the prompt box text and colour
  - the number box text
  - the list of scene tabs
  - the log of message boxes shown

  Its methods are the event handlers:
  - the placeholder focus handlers
  - the clamped 1..10 stepper
  - `Generate_Click`, with input validation and the padding of the scene
    list to the requested count
  - a scene's "Generate Video" button, with the resolution choice and the
    file name
  - closing a tab, followed by `RenumberSceneTabs`

The shared .NET helpers are in module `Text` (`text.dfy`): whitespace,
`string.Trim`, `int.TryParse` and `int.ToString`. `Option` and `Result` are
in module `Common` (`common.dfy`).

The application keeps no per-scene status registry, does not merge or
concatenate the scene videos, does not reuse freed scene indices and does not
check job results for staleness; neither does the model.

## Model

| member | source | states |
|---|---|---|
| Text.Trim | AI-Movie-Maker/AIPrompts.cs:28 | `string.Trim`: the text between the leading and the trailing whitespace run, or empty for a blank text; what this means is stated by `TrimShape`. |
| Text.TrimShape | AI-Movie-Maker/AIPrompts.cs:28 | `Trim` leaves a whitespace-only prefix, the result, then a whitespace-only suffix. Neither end of a non-empty result is whitespace. The result is empty exactly when the input is blank. |
| Text.TrimIdempotent | AI-Movie-Maker/AIPrompts.cs:28 | Trimming an already trimmed text changes nothing. |
| Text.IsBlank | AI-Movie-Maker/MainWindow.xaml.cs:53 | `string.IsNullOrWhiteSpace` on a string: every character is whitespace. `TrimShape` and `PromptInputBlank` show that it holds exactly when trimming leaves nothing. |
| Text.ParseInt | AI-Movie-Maker/MainWindow.xaml.cs:62 | `int.TryParse` yields a value only when it fits in a 32-bit `int`. |
| Text.IntToString | AI-Movie-Maker/MainWindow.xaml.cs:65 | `int.ToString` is non-empty, has no whitespace and ends in a digit. |
| Text.IntToStringCanonical | AI-Movie-Maker/MainWindow.xaml.cs:65 | `int.ToString` writes a minus sign exactly for a negative number, never a plus sign, then digits without leading zeros. |
| Text.IntToStringRoundTrip | AI-Movie-Maker/MainWindow.xaml.cs:62-65 | Parsing what `ToString` printed gives the same 32-bit number back. |
| Text.IntToStringInjective | AI-Movie-Maker/MainWindow.xaml.cs:182 | Different 32-bit numbers print differently. |
| ScenePrompts.ClarificationNamesSeparator | AI-Movie-Maker/AIPrompts.cs:36-47 | The fixed rules tell the model to separate the scenes with `#######`, the separator the reply is split on. |
| ScenePrompts.ClarificationInfoScene | AI-Movie-Maker/AIPrompts.cs:36-47 | The fixed rules text, character for character; `ClarificationNamesSeparator` shows it names the separator. |
| ScenePrompts.UserMessage | AI-Movie-Maker/AIPrompts.cs:19 | The request line `Generate <count> short scenes based on the following prompt: <prompt>`. `InstructionInjective` shows that the request determines the count and the prompt. |
| ScenePrompts.Instruction | AI-Movie-Maker/AIPrompts.cs:19-22 | The request text: `Generate <count> short scenes based on the following prompt: <prompt>`, a newline, the rules and a newline; `InstructionInjective` shows it determines the count and the prompt. |
| ScenePrompts.InstructionInjective | AI-Movie-Maker/AIPrompts.cs:19 | The instruction text determines the scene count and the prompt it was built from. |
| ScenePrompts.FindFrom | AI-Movie-Maker/AIPrompts.cs:25 | The separator search finds the leftmost occurrence at or after the start position, and none exists before it. |
| ScenePrompts.SplitRaw | AI-Movie-Maker/AIPrompts.cs:25 | `Split` on `#######` before empty pieces are dropped: at least one piece. `JoinSplitRaw` and `SplitRawPiecesFree` show that the pieces rebuild the reply and never hold the separator. |
| ScenePrompts.JoinSplitRaw | AI-Movie-Maker/AIPrompts.cs:25 | Joining the raw pieces with the separator gives the reply back, so splitting loses nothing. |
| ScenePrompts.SplitRawPiecesFree | AI-Movie-Maker/AIPrompts.cs:25 | No raw piece contains the separator. |
| ScenePrompts.RemoveEmpty | AI-Movie-Maker/AIPrompts.cs:25 | `RemoveEmptyEntries` keeps only non-empty pieces, and only pieces that were there. |
| ScenePrompts.RemoveEmptyOne | AI-Movie-Maker/AIPrompts.cs:25 | One piece is kept exactly when it is not empty. |
| ScenePrompts.RemoveEmptyAppend | AI-Movie-Maker/AIPrompts.cs:25 | Dropping empty pieces works piece by piece, so every non-empty piece is kept, once and in its place. |
| ScenePrompts.RemoveEmptyMultiset | AI-Movie-Maker/AIPrompts.cs:25 | The kept pieces are the given pieces with their multiplicities, less every empty one. |
| ScenePrompts.ConcatRemoveEmpty | AI-Movie-Maker/AIPrompts.cs:25 | Dropping the empty pieces keeps every character and the order of the pieces. |
| ScenePrompts.SplitScenes | AI-Movie-Maker/AIPrompts.cs:25 | `Split("#######", RemoveEmptyEntries)`: the raw pieces between separators, less the empty ones; stated by the lemmas below. |
| ScenePrompts.SplitScenesFragments | AI-Movie-Maker/AIPrompts.cs:25 | Every fragment is non-empty and free of the separator. The fragments in order spell out the reply without its separators. |
| ScenePrompts.SplitScenesEmpty | AI-Movie-Maker/AIPrompts.cs:25 | An empty reply has no fragments. |
| ScenePrompts.SplitScenesWithoutSeparator | AI-Movie-Maker/AIPrompts.cs:25 | A non-empty reply without the separator is exactly one fragment. |
| ScenePrompts.SplitTwo | AI-Movie-Maker/AIPrompts.cs:25 | Two non-empty texts without `#` joined by the separator split back into those two texts. |
| ScenePrompts.TwoScenesSplit | AI-Movie-Maker/AIPrompts.cs:25 | The reply `Scene 1 A city.#######Scene 2 A forest.` splits into its two labelled fragments. |
| ScenePrompts.LabelLength | AI-Movie-Maker/AIPrompts.cs:28 | The greedy length of a `Scene\s+\d+` match at the start of a text, or 0; at most the text's length. `LabelLengthMatchesPattern` relates it to the pattern. |
| ScenePrompts.LabelLengthMatchesPattern | AI-Movie-Maker/AIPrompts.cs:28 | The greedy label length at a position matches `Scene\s+\d+` there. No longer prefix matches, and when the length is 0 no prefix matches at all. |
| ScenePrompts.Clean | AI-Movie-Maker/AIPrompts.cs:28 | Deleting labels never makes a text longer. |
| ScenePrompts.CleanDeletesLabel | AI-Movie-Maker/AIPrompts.cs:28 | A whole label at the front, followed by a non-digit or by nothing, is deleted. |
| ScenePrompts.CleanWithoutLabels | AI-Movie-Maker/AIPrompts.cs:28 | A text in which no label starts anywhere is left unchanged. |
| ScenePrompts.CleanKeepsPrefix | AI-Movie-Maker/AIPrompts.cs:28 | Characters at which no label starts are kept as they are. |
| ScenePrompts.CleanInnerLabel | AI-Movie-Maker/AIPrompts.cs:28 | A label after a stretch without labels is deleted, and the stretch before it is kept. |
| ScenePrompts.MidTextExample | AI-Movie-Maker/AIPrompts.cs:28 | A label in the middle of the text is deleted too: `A Scene 2 B` becomes `A  B`. |
| ScenePrompts.SinglePassJoins | AI-Movie-Maker/AIPrompts.cs:28 | Deleting the inner label of `SceScene 1ne 2` leaves `Scene 2`. |
| ScenePrompts.LabelVanishes | AI-Movie-Maker/AIPrompts.cs:28 | `Scene 2` alone is deleted whole. |
| ScenePrompts.SinglePassExample | AI-Movie-Maker/AIPrompts.cs:28 | The replacement is one pass, not a fixpoint: `SceScene 1ne 2` becomes `Scene 2`, which a second pass would delete. |
| ScenePrompts.LabelOnlyFragment | AI-Movie-Maker/AIPrompts.cs:28 | A fragment that is only a label and a space, `Scene 3 `, becomes the empty scene. |
| ScenePrompts.LabelledScene | AI-Movie-Maker/AIPrompts.cs:28 | A fragment made of a one-digit label, a space and a text is cleaned to that text. The text must have no whitespace at its ends and no place where a label could start. |
| ScenePrompts.CityScene | AI-Movie-Maker/AIPrompts.cs:28 | `Scene 1 A city.` is cleaned to `A city.`. |
| ScenePrompts.ForestScene | AI-Movie-Maker/AIPrompts.cs:28 | `Scene 2 A forest.` is cleaned to `A forest.`. |
| ScenePrompts.CleanScene | AI-Movie-Maker/AIPrompts.cs:28 | One fragment with its labels deleted, then trimmed; `CleanSceneEnds` states its ends. |
| ScenePrompts.CleanSceneEnds | AI-Movie-Maker/AIPrompts.cs:28 | A cleaned and trimmed fragment is empty or has no whitespace at either end. |
| ScenePrompts.ScenesFromReply | AI-Movie-Maker/AIPrompts.cs:25-30 | There is one scene per non-empty fragment, whatever count was asked for. |
| ScenePrompts.ScenesAreCleanedFragments | AI-Movie-Maker/AIPrompts.cs:25-31 | Scene `i` is fragment `i` cleaned and trimmed, in the reply's order. No scene has whitespace at either end, though a scene may be empty. |
| ScenePrompts.TwoScenesExample | AI-Movie-Maker/AIPrompts.cs:24-31 | The reply `Scene 1 A city.#######Scene 2 A forest.` gives the scenes `A city.` and `A forest.`. |
| ScenePrompts.ChatService.constructor | AI-Actions/AITextGenerator.cs:12-16 | The client keeps the endpoint, the key and the deployment name it is built with, and has answered nothing yet. |
| ScenePrompts.ChatService.Ask | AI-Actions/AITextGenerator.cs:18-30 | Each call logs exactly one request and returns the service's answer to the request at that position of the log. |
| ScenePrompts.ScenePrompter.constructor | AI-Movie-Maker/AIPrompts.cs:10-13 | The prompter uses the text service it is given. |
| ScenePrompts.ScenePrompter.GenerateScenes | AI-Movie-Maker/AIPrompts.cs:15-32 | Asks exactly once, with the instruction built from the count and the prompt. A failure propagates. Otherwise the result is the cleaned scenes of the reply. |
| ScenePrompts.ScenePrompter.CleanAll | AI-Movie-Maker/AIPrompts.cs:26-30 | The `foreach` returns one cleaned and trimmed scene per fragment, in order. |
| VideoJobs.VideoGenerator.constructor | AI-Actions/AIVideoGenerator.cs:14-19 | The base URL is the endpoint plus `/openai/v1/video/generations/`. The version suffix is `?api-version=` plus the version. |
| VideoJobs.VideoGenerator.CreateUrl | AI-Actions/AIVideoGenerator.cs:42 | The job-creation URL: the base, `jobs` and the version suffix; spelled out by `CreateUrlSpelledOut`. |
| VideoJobs.VideoGenerator.StatusUrl | AI-Actions/AIVideoGenerator.cs:49 | The status URL: the base, `jobs/`, the job id and the version suffix; spelled out by `StatusUrlSpelledOut`. |
| VideoJobs.VideoGenerator.ContentUrl | AI-Actions/AIVideoGenerator.cs:67 | The content URL: the base, `/`, the generation id, `/content/video` and the version suffix; spelled out by `ContentUrlSpelledOut`. |
| VideoJobs.VideoGenerator.CreateUrlSpelledOut | AI-Actions/AIVideoGenerator.cs:42 | The job-creation URL is the endpoint, `/openai/v1/video/generations/jobs?api-version=` and the version. |
| VideoJobs.VideoGenerator.StatusUrlSpelledOut | AI-Actions/AIVideoGenerator.cs:49 | The status URL is the base, `jobs/`, the job id and the version suffix. |
| VideoJobs.VideoGenerator.ContentUrlSpelledOut | AI-Actions/AIVideoGenerator.cs:67 | The content URL has two slashes after `generations`, then the generation id, `/content/video` and the suffix. |
| VideoJobs.VideoGenerator.StatusUrlInjective | AI-Actions/AIVideoGenerator.cs:49 | Different job ids are polled at different URLs. |
| VideoJobs.IsTerminal | AI-Actions/AIVideoGenerator.cs:59 | The statuses that end the polling loop: `succeeded`, `failed` and `cancelled`. |
| VideoJobs.FirstTerminal | AI-Actions/AIVideoGenerator.cs:52-59 | Finds the first answer whose status is `succeeded`, `failed` or `cancelled`, and no answer before it has such a status. |
| VideoJobs.ErrorMessage | AI-Actions/AIVideoGenerator.cs:86-89 | The message of a job that did not succeed ends with its status. |
| VideoJobs.PathCombine | AI-Actions/AIVideoGenerator.cs:72-73 | The path ends with the file name. Before it stands the directory itself exactly when the directory is empty or already ends in `\` or `/`, and otherwise the directory followed by `\`. |
| VideoJobs.VideoGenerator.FollowsScript | AI-Actions/AIVideoGenerator.cs:42-89 | For a non-blank prompt: one create request, status requests up to the first terminal status (or every scripted answer when none is terminal), and the outcome that status calls for. |
| VideoJobs.VideoGenerator.GenerateVideo | AI-Actions/AIVideoGenerator.cs:22-90 | A blank prompt, and only a blank prompt, throws before any request. Otherwise the method does four things. It creates the job once with the prompt, duration, size and `sora`. It polls at least once, up to the first terminal status. It throws with the status on `failed`/`cancelled`, and throws on `succeeded` without generations. Otherwise it fetches the first generation and returns `tempDir\filename.mp4`, or `""` when the fetch failed. If the answers run out before a terminal status, it is still polling. The non-blank case is stated through `FollowsScript`. |
| MovieMakerWindow.StepUp | AI-Movie-Maker/MainWindow.xaml.cs:60-67 | `Increase_Click` on the number box's text: a parsed count below 10 is printed one higher, anything else is left as it is; `StepUpReads` states what it reads back as. |
| MovieMakerWindow.StepDown | AI-Movie-Maker/MainWindow.xaml.cs:69-76 | `Decrease_Click` on the number box's text: a parsed count above 1 is printed one lower, anything else is left as it is; `StepDownReads` states what it reads back as. |
| MovieMakerWindow.StepUpReads | AI-Movie-Maker/MainWindow.xaml.cs:60-67 | Increase adds one to a parsed count below 10. It leaves a count of 10 or more, and unparsable text, as they are. |
| MovieMakerWindow.StepDownReads | AI-Movie-Maker/MainWindow.xaml.cs:69-76 | Decrease subtracts one from a parsed count above 1. It leaves a count of 1 or less, and unparsable text, as they are. |
| MovieMakerWindow.StepsStayInRange | AI-Movie-Maker/MainWindow.xaml.cs:60-76 | A count in 1..10 stays in 1..10 under either button. |
| MovieMakerWindow.FocusIn | AI-Movie-Maker/MainWindow.xaml.cs:42-49 | Getting the focus clears the placeholder and keeps any other text. |
| MovieMakerWindow.FocusOut | AI-Movie-Maker/MainWindow.xaml.cs:51-58 | Losing the focus puts the placeholder into a blank box and keeps any other text. |
| MovieMakerWindow.PromptInput | AI-Movie-Maker/MainWindow.xaml.cs:80 | The prompt `Generate_Click` reads: empty for the placeholder, the trimmed text otherwise; `PromptInputBlank` and `FocusKeepsPrompt` state its properties. |
| MovieMakerWindow.PromptInputBlank | AI-Movie-Maker/MainWindow.xaml.cs:80-82 | The prompt is missing exactly when the box shows the placeholder or is blank. A prompt that is present has no whitespace at its ends. |
| MovieMakerWindow.FocusKeepsPrompt | AI-Movie-Maker/MainWindow.xaml.cs:42-58 | Moving the focus in or out never changes the prompt that Generate would read. |
| MovieMakerWindow.SceneLabel | AI-Movie-Maker/MainWindow.xaml.cs:251 | The tab header `Scene k`. `FreshTabsWellNumbered` and `CloseKeepsNumbering` show that the open tabs are headed `Scene 1`..`Scene n`. |
| MovieMakerWindow.MissingText | AI-Movie-Maker/MainWindow.xaml.cs:92 | The text of the tab at index `i` when no scene was generated for it: `[Scene i+1 text missing]`. |
| MovieMakerWindow.PadScenes | AI-Movie-Maker/MainWindow.xaml.cs:88-92 | There is exactly one tab text per requested scene, and none for a negative count. |
| MovieMakerWindow.PadScenesTruncates | AI-Movie-Maker/MainWindow.xaml.cs:88-92 | Generated scenes beyond the requested count are ignored. |
| MovieMakerWindow.PadScenesExtends | AI-Movie-Maker/MainWindow.xaml.cs:88-92 | Missing scenes are filled with `[Scene i+1 text missing]`, after the generated ones. |
| MovieMakerWindow.SceneFileName | AI-Movie-Maker/MainWindow.xaml.cs:145-182 | The file name of the scene created at index `i`: `scene_video_` followed by `i+1`; `SceneFileNameInjective` shows different indices give different names. |
| MovieMakerWindow.SceneFileNameInjective | AI-Movie-Maker/MainWindow.xaml.cs:180-186 | Scenes created at different indices write different `scene_video_<n>` files. |
| MovieMakerWindow.SelectedTag | AI-Movie-Maker/MainWindow.xaml.cs:148-150 | The tag of the first checked radio button is used. With no checked button, or a checked button without a tag, `1280x720` is used. |
| MovieMakerWindow.ResolutionFor | AI-Movie-Maker/MainWindow.xaml.cs:152-163 | All four sizes are positive. The output and the player are portrait exactly for `720x1280`. The output has area 720 × 1280 in 16:9 or 9:16, which leaves exactly 720 by 1280 for the portrait tag and 1280 by 720 for any other. The player sizes, 280 by 700 and 960 by 540, are fixed by the body only. |
| MovieMakerWindow.UpdateKeepsNumbering | AI-Movie-Maker/MainWindow.xaml.cs:165-203 | Updating a tab's player, buttons or video path keeps the headers and creation indices well numbered. |
| MovieMakerWindow.DistinctVideoFiles | AI-Movie-Maker/MainWindow.xaml.cs:94 | No two open tabs write the same video file. |
| MovieMakerWindow.NewTab | AI-Movie-Maker/MainWindow.xaml.cs:94-279 | The tab the loop creates at index `i`: headed `Scene i+1`, holding its text, no video yet, an enabled `Generate Video` button, a disabled download button and a 960 by 540 player. |
| MovieMakerWindow.FreshTabsGrow | AI-Movie-Maker/MainWindow.xaml.cs:88-279 | One more loop iteration appends one tab to the end. |
| MovieMakerWindow.FreshTabsWellNumbered | AI-Movie-Maker/MainWindow.xaml.cs:249-253 | New tabs are headed `Scene 1`..`Scene n` and carry increasing creation indices. |
| MovieMakerWindow.CloseKeepsNumbering | AI-Movie-Maker/MainWindow.xaml.cs:269-273 | Removing a tab and renumbering the rest keeps the headers `Scene 1`..`Scene n` and the creation indices increasing. |
| MovieMakerWindow.MainWindow.constructor | AI-Movie-Maker/MainWindow.xaml.cs:21-40 | Both clients get the configured endpoint and key. The text client also gets the deployment name and the video client API version `preview`. The text client has answered nothing, and there are no tabs and no messages yet. |
| MovieMakerWindow.MainWindow.PromptGotFocus | AI-Movie-Maker/MainWindow.xaml.cs:42-49 | The placeholder is cleared and turns black. Anything else stays. |
| MovieMakerWindow.MainWindow.PromptLostFocus | AI-Movie-Maker/MainWindow.xaml.cs:51-58 | A blank box gets the grey placeholder back. Anything else stays. |
| MovieMakerWindow.MainWindow.Increase | AI-Movie-Maker/MainWindow.xaml.cs:60-67 | The number box becomes `StepUp` of its text, and nothing else changes. |
| MovieMakerWindow.MainWindow.Decrease | AI-Movie-Maker/MainWindow.xaml.cs:69-76 | The number box becomes `StepDown` of its text, and nothing else changes. |
| MovieMakerWindow.MainWindow.GenerateClick | AI-Movie-Maker/MainWindow.xaml.cs:78-291 | An unparsable count or a missing prompt shows the message and changes nothing else. Otherwise the tabs are cleared and the chat service is asked exactly once. The tabs are the padded scenes, headed `Scene 1`..`Scene n`. A chat failure escapes with the tabs cleared. |
| MovieMakerWindow.MainWindow.AddSceneTabs | AI-Movie-Maker/MainWindow.xaml.cs:88-280 | The loop adds one new tab per requested scene: the generated text, or the placeholder text. |
| MovieMakerWindow.MainWindow.SceneVideoClick | AI-Movie-Maker/MainWindow.xaml.cs:142-204 | Only the clicked tab changes. Its player gets the chosen size. The job asks for the tab's text, 10 seconds, the chosen output size and `scene_video_<creation index + 1>`. The returned path is kept. Download is enabled only for a non-empty path to an existing file. An error becomes a message. The button is re-enabled with its caption once the call ends. The outcome and the requests follow the service's script as `FollowsScript` states, so, for example, a job whose first terminal status is `failed` adds `Error generating video: Job didn't succeed. Status: failed` to the messages. |
| MovieMakerWindow.MainWindow.RenumberSceneTabs | AI-Movie-Maker/MainWindow.xaml.cs:294-310 | The tab at position `i` is headed `Scene i+1`. Nothing else about any tab changes. |
| MovieMakerWindow.MainWindow.CloseTab | AI-Movie-Maker/MainWindow.xaml.cs:269-273 | The closed tab goes and the later tabs move one place left. Headers are renumbered 1..n, and creation indices, and with them file names, stay. |

## Left out

- The Azure OpenAI chat completion behind `AITextGenerator.Ask` is not modelled: the answer to the request at each position of the log is a fixed but unknown function, and a `Failure` stands for any exception the client throws.
- HTTP, JSON, headers, `Task.Delay(5000)` and writing the video file are replaced by the `ServiceScript` answers; one loop iteration is one status request. Transport failures (`EnsureSuccessStatusCode`, malformed JSON, a missing `id` or `status`) are not modelled.
- VideoJobs.VideoGenerator.GenerateVideo: a job whose status never becomes terminal makes the source poll forever; the model stops when the scripted answers run out and reports `StillPolling`, and in that case the window leaves the scene's generate button disabled, since the source never reaches its `finally`.
- Concurrency between the scenes' asynchronous click handlers is not modelled; each click is one atomic step.
- WPF layout and presentation are not modelled: text boxes, brushes beyond the grey flag, `MediaElement` playback, the loading animation, `MessageBox` (kept only as the `messages` log), the download button's `SaveFileDialog` and `File.Copy`, and `SelectedIndex = 0`.
- Configuration loading (`appsettings.json`) is left out; the endpoint, key, deployment name and chat behaviour are constructor parameters, as is the initial content of the prompt and number boxes.
- Typing into the prompt box, the number box or a scene's text box is not an operation of the model. Each handler is specified for an arbitrary current state of the boxes, but a tab's `text` keeps the text it was created with, whereas the source sends the scene box's text as the user last edited it.
- Text.IsWhite: whitespace is the ASCII set (tab through carriage return, and space) and digits are `0`..`9`. `char.IsWhiteSpace` (used by `Trim` and `string.IsNullOrWhiteSpace`) and the regular-expression classes `\s` and `\d` also accept Unicode whitespace and Unicode decimal digits, which the model does not.
- Text.ParseInt: `int.TryParse` with the default integer style accepts exactly this whitespace and these digits, so the model is exact there, except that .NET also tolerates trailing NUL characters, which the model rejects.
- ScenePrompts.ToLower: case-insensitive matching folds only `A`..`Z` to `a`..`z`; `RegexOptions.IgnoreCase` uses the culture's case tables, which may also fold letters outside that range.
- ScenePrompts.NewLine: `Environment.NewLine` is fixed to `"\r\n"`, the value on Windows where the application runs.
- Null strings are not modelled: every string is a value.
- VideoJobs.PathCombine: `Path.Combine` with a rooted file name (which discards the directory) is not modelled; the file name is always `scene_video_<n>.mp4`.
- MovieMakerWindow.MainWindow.SceneVideoClick: the file-existence check is the `existingFiles` parameter; the file system is not modelled.
