/**
 * Scene-text generation (`AIPrompts.GenerateScenes`): one instruction text is
 * sent to the chat service once, the reply is split on the separator
 * `#######` with empty pieces dropped, every `Scene <spaces><digits>` label
 * is deleted from each piece (case-insensitively, in one left-to-right
 * pass) and each piece is trimmed.
 */
module ScenePrompts {
  import opened Common
  import opened Text

  const Separator: string := "#######"
  /** `Environment.NewLine` on Windows, where the application runs. */
  const NewLine: string := "\r\n"
  const SystemMessage: string := "You are a short scene generator which generates descriptive scenes to be used as prompts for AI video Generation using Sora"

  // ---------------------------------------------------------------------
  // The instruction text
  // ---------------------------------------------------------------------

  predicate OccursAt(s: string, pat: string, i: nat) {
    i + |pat| <= |s| && s[i..i + |pat|] == pat
  }

  predicate Contains(s: string, pat: string) {
    exists i: nat | i <= |s| :: OccursAt(s, pat, i)
  }

  lemma OccursBetween(head: string, pat: string, tail: string)
    ensures OccursAt(head + pat + tail, pat, |head|)
  {
    assert (head + pat + tail)[|head|..|head| + |pat|] == pat;
  }

  const ClarificationHead: string := "Important Instructions:\n"
    + "- If the prompt is not clear, just return the text ERROR.\n"
    + "- Return each of the scenes separated by "
  const ClarificationTail: string := "\n"
    + "- Each scene starts with Scene number, not not put a colon after the number\n"
    + "- Be very descriptive about everything in each scene\n"
    + "- Each scene must somehow relate to the last unless there is only 1 scene\n"
    + "- The scene\\scenes are to used as prompts for an AI video Generator, there will be no audio\n"
    + "- Each scene must be treated as a different AI prompt, the AI will not remember previous prompts\n"
    + "- Be very descriptive about recurring characters so they appear looking the same in separate scenes, redesribe the same characters in different scenes, ensure the description is the same\n"

  /** The fixed rules appended to every request. */
  function ClarificationInfoScene(): string {
    ClarificationHead + Separator + ClarificationTail
  }

  /** The rules ask the model to separate the scenes with the separator. */
  lemma ClarificationNamesSeparator()
    ensures Contains(ClarificationInfoScene(), Separator)
  {
    OccursBetween(ClarificationHead, Separator, ClarificationTail);
    assert |ClarificationHead| <= |ClarificationInfoScene()|;
  }

  const UserMessageMiddle: string := " " + "short scenes based on the following prompt: "

  /** The first line of the request: the scene count and the prompt. */
  function UserMessage(numberOfScenes: int, textPrompt: string): string {
    "Generate " + (IntToString(numberOfScenes) + (UserMessageMiddle + textPrompt))
  }

  /** What the string builder holds: two lines, each ended by `AppendLine`. */
  function Instruction(numberOfScenes: int, textPrompt: string): string {
    UserMessage(numberOfScenes, textPrompt) + (NewLine + ClarificationInfoScene() + NewLine)
  }

  lemma NoWhitePrefixBeforeSpace(a1: string, r1: string, a2: string, r2: string)
    requires NoWhite(a1) && NoWhite(a2)
    requires |r1| > 0 && r1[0] == ' ' && |r2| > 0 && r2[0] == ' '
    requires a1 + r1 == a2 + r2
    ensures a1 == a2
  {
    var k := if |a1| < |a2| then |a1| else |a2|;
    assert (a1 + r1)[k] == (a2 + r2)[k];
    assert |a1| == |a2|;
    assert a1 == (a1 + r1)[..|a1|];
    assert a2 == (a2 + r2)[..|a2|];
  }

  /** The request determines the count and the prompt it was built from. */
  lemma InstructionInjective(n1: int, p1: string, n2: int, p2: string)
    requires MinInt32 <= n1 <= MaxInt32 && MinInt32 <= n2 <= MaxInt32
    requires Instruction(n1, p1) == Instruction(n2, p2)
    ensures n1 == n2 && p1 == p2
  {
    var s1, s2 := IntToString(n1), IntToString(n2);
    var r1, r2 := UserMessageMiddle + p1, UserMessageMiddle + p2;
    CancelSuffix(UserMessage(n1, p1), UserMessage(n2, p2), NewLine + ClarificationInfoScene() + NewLine);
    CancelPrefix("Generate ", s1 + r1, s2 + r2);
    assert UserMessageMiddle[0] == ' ';
    assert r1[0] == ' ' && r2[0] == ' ';
    NoWhitePrefixBeforeSpace(s1, r1, s2, r2);
    CancelPrefix(s1, r1, r2);
    if n1 != n2 {
      IntToStringInjective(n1, n2);
    }
    CancelPrefix(UserMessageMiddle, p1, p2);
  }

  // ---------------------------------------------------------------------
  // Splitting the reply
  // ---------------------------------------------------------------------

  /** Leftmost occurrence of `pat` in `s` at or after position `from`. */
  function FindFrom(s: string, pat: string, from: nat): (r: Option<nat>)
    requires |pat| > 0
    ensures r.Some? ==> from <= r.value && OccursAt(s, pat, r.value)
    ensures forall i: nat :: from <= i && (r.None? || i < r.value) ==> !OccursAt(s, pat, i)
    decreases |s| - from
  {
    if from + |pat| > |s| then None
    else if s[from..from + |pat|] == pat then Some(from)
    else FindFrom(s, pat, from + 1)
  }

  /** `Split` on the separator, empty pieces included. */
  function SplitRaw(s: string): (pieces: seq<string>)
    ensures |pieces| > 0
    decreases |s|
  {
    match FindFrom(s, Separator, 0)
    case None => [s]
    case Some(k) => [s[..k]] + SplitRaw(s[k + |Separator|..])
  }

  /** The pieces with the separator between consecutive ones. */
  function Join(pieces: seq<string>): string
    requires |pieces| > 0
  {
    if |pieces| == 1 then pieces[0] else pieces[0] + Separator + Join(pieces[1..])
  }

  /** Splitting loses nothing: joining the pieces gives the reply back. */
  lemma {:induction false} JoinSplitRaw(s: string)
    ensures Join(SplitRaw(s)) == s
    decreases |s|
  {
    match FindFrom(s, Separator, 0)
    case None =>
    case Some(k) =>
      var rest := s[k + |Separator|..];
      JoinSplitRaw(rest);
      assert SplitRaw(s) == [s[..k]] + SplitRaw(rest);
      assert s == s[..k] + Separator + rest;
  }

  lemma NoOccurrenceBefore(s: string, k: nat)
    requires k <= |s|
    requires forall i: nat :: i < k ==> !OccursAt(s, Separator, i)
    ensures !Contains(s[..k], Separator)
  {
    forall i: nat | OccursAt(s[..k], Separator, i)
      ensures false
    {
      assert s[..k][i..i + |Separator|] == s[i..i + |Separator|];
      assert OccursAt(s, Separator, i);
    }
  }

  /** No raw piece contains the separator. */
  lemma {:induction false} SplitRawPiecesFree(s: string)
    ensures forall p :: p in SplitRaw(s) ==> !Contains(p, Separator)
    decreases |s|
  {
    match FindFrom(s, Separator, 0)
    case None =>
      assert SplitRaw(s) == [s];
    case Some(k) =>
      var rest := s[k + |Separator|..];
      SplitRawPiecesFree(rest);
      NoOccurrenceBefore(s, k);
      assert SplitRaw(s) == [s[..k]] + SplitRaw(rest);
  }

  /** `StringSplitOptions.RemoveEmptyEntries`. */
  function RemoveEmpty(pieces: seq<string>): (r: seq<string>)
    ensures forall p :: p in r ==> p != [] && p in pieces
  {
    if pieces == [] then []
    else if pieces[0] == [] then RemoveEmpty(pieces[1..])
    else [pieces[0]] + RemoveEmpty(pieces[1..])
  }

  /** A single piece is kept exactly when it is not empty. */
  lemma RemoveEmptyOne(p: string)
    ensures RemoveEmpty([p]) == if p == [] then [] else [p]
  {
    assert [p][1..] == [];
  }

  /**
   * Dropping the empty pieces works piece by piece: together with
   * `RemoveEmptyOne` this says every non-empty piece is kept, once, in order.
   */
  lemma {:induction false} RemoveEmptyAppend(a: seq<string>, b: seq<string>)
    ensures RemoveEmpty(a + b) == RemoveEmpty(a) + RemoveEmpty(b)
  {
    if a == [] {
      assert a + b == b;
    } else {
      assert (a + b)[0] == a[0] && (a + b)[1..] == a[1..] + b;
      RemoveEmptyAppend(a[1..], b);
    }
  }

  /** The kept pieces are the given ones, as often as they occur, less the empty ones. */
  lemma {:induction false} RemoveEmptyMultiset(pieces: seq<string>)
    ensures multiset(RemoveEmpty(pieces)) == multiset(pieces)[[] := 0]
  {
    if pieces != [] {
      RemoveEmptyMultiset(pieces[1..]);
      assert pieces == [pieces[0]] + pieces[1..];
    }
  }

  /** The fragments `response.Split("#######", RemoveEmptyEntries)` yields. */
  function SplitScenes(reply: string): seq<string> {
    RemoveEmpty(SplitRaw(reply))
  }

  function Concat(pieces: seq<string>): string {
    if pieces == [] then [] else pieces[0] + Concat(pieces[1..])
  }

  lemma {:induction false} ConcatRemoveEmpty(pieces: seq<string>)
    ensures Concat(RemoveEmpty(pieces)) == Concat(pieces)
  {
    if pieces != [] {
      var rest := pieces[1..];
      ConcatRemoveEmpty(rest);
      assert Concat(pieces) == pieces[0] + Concat(rest);
      if pieces[0] == [] {
        assert RemoveEmpty(pieces) == RemoveEmpty(rest);
        assert pieces[0] + Concat(rest) == Concat(rest);
      } else {
        var r := [pieces[0]] + RemoveEmpty(rest);
        assert RemoveEmpty(pieces) == r;
        assert r[0] == pieces[0] && r[1..] == RemoveEmpty(rest);
        assert Concat(r) == r[0] + Concat(r[1..]);
      }
    }
  }

  /**
   * Every fragment is non-empty and free of the separator, and the fragments
   * in order spell out the reply once its separators are taken out.
   */
  lemma SplitScenesFragments(reply: string)
    ensures forall f :: f in SplitScenes(reply) ==> f != [] && !Contains(f, Separator)
    ensures Concat(SplitScenes(reply)) == Concat(SplitRaw(reply))
    ensures Join(SplitRaw(reply)) == reply
  {
    SplitRawPiecesFree(reply);
    ConcatRemoveEmpty(SplitRaw(reply));
    JoinSplitRaw(reply);
  }

  /** An empty reply has no fragments. */
  lemma SplitScenesEmpty()
    ensures SplitScenes("") == []
  {
    assert FindFrom("", Separator, 0) == None;
    assert SplitRaw("") == [""];
  }

  /** A non-empty reply without the separator is one fragment. */
  lemma SplitScenesWithoutSeparator(reply: string)
    requires reply != [] && !Contains(reply, Separator)
    ensures SplitScenes(reply) == [reply]
  {
    var r := FindFrom(reply, Separator, 0);
    assert r.Some? ==> OccursAt(reply, Separator, r.value);
    assert r == None;
    assert SplitRaw(reply) == [reply];
    assert RemoveEmpty([reply]) == [reply] + RemoveEmpty([]);
  }

  // ---------------------------------------------------------------------
  // Deleting `Scene\s+\d+` labels, case-insensitively
  // ---------------------------------------------------------------------

  function ToLower(c: char): char {
    if 'A' <= c <= 'Z' then (c as int + 32) as char else c
  }

  /** `s` starts with the word "scene" in any mix of cases. */
  predicate SceneWordAt(s: string) {
    |s| >= 5 && ToLower(s[0]) == 's' && ToLower(s[1]) == 'c' && ToLower(s[2]) == 'e'
      && ToLower(s[3]) == 'n' && ToLower(s[4]) == 'e'
  }

  /** Number of digits at the start of `s`. */
  function DigitRun(s: string): (n: nat)
    ensures n <= |s|
    ensures AllDigits(s[..n])
    ensures n < |s| ==> !IsDigit(s[n])
  {
    if |s| == 0 || !IsDigit(s[0]) then 0
    else
      var k := DigitRun(s[1..]);
      assert s[1..][..k] == s[1..k + 1];
      1 + k
  }

  /**
   * Length of the match of `Scene\s+\d+` that the regular-expression engine
   * finds at the start of `s`, or 0 when there is none. Both repetitions are
   * greedy, and whitespace and digits are disjoint, so the match takes the
   * whole run of whitespace and then the whole run of digits.
   */
  function LabelLength(s: string): (n: nat)
    ensures n <= |s|
  {
    if !SceneWordAt(s) then 0
    else
      var w := LeadingWhite(s[5..]);
      if w == 0 then 0
      else
        var d := DigitRun(s[5 + w..]);
        if d == 0 then 0 else 5 + w + d
  }

  /** The pattern read declaratively: the word, some whitespace, some digits. */
  ghost predicate IsLabel(t: string) {
    SceneWordAt(t) && exists w :: LabelSplit(t, w)
  }

  /** `t` after the word is `w` whitespace characters and then only digits, at least one. */
  predicate LabelSplit(t: string, w: int) {
    1 <= w && 5 + w < |t| && IsBlank(t[5..5 + w]) && AllDigits(t[5 + w..])
  }

  lemma LeadingWhiteExact(s: string, w: nat)
    requires w < |s| && IsBlank(s[..w]) && !IsWhite(s[w])
    ensures LeadingWhite(s) == w
  {
  }

  lemma {:induction false} DigitRunAtLeast(s: string, m: nat)
    requires m <= |s| && AllDigits(s[..m])
    ensures DigitRun(s) >= m
    decreases m
  {
    if m > 0 {
      assert s[..m][0] == s[0];
      assert s[1..][..m - 1] == s[..m][1..];
      DigitRunAtLeast(s[1..], m - 1);
    }
  }

  lemma DigitRunExact(s: string, m: nat)
    requires m <= |s| && AllDigits(s[..m]) && (m < |s| ==> !IsDigit(s[m]))
    ensures DigitRun(s) == m
  {
    DigitRunAtLeast(s, m);
    DigitsPrefix(s, DigitRun(s), m);
  }

  lemma DigitsPrefix(s: string, n: nat, m: nat)
    ensures m < n <= |s| && AllDigits(s[..n]) ==> IsDigit(s[m])
  {
    if m < n <= |s| && AllDigits(s[..n]) {
      assert s[..n][m] == s[m];
    }
  }

  /** No match of the pattern at the start of `s` is longer than the greedy one. */
  lemma LabelBound(s: string, n: nat)
    ensures n <= |s| && IsLabel(s[..n]) ==> n <= LabelLength(s)
  {
    if n <= |s| && IsLabel(s[..n]) {
      var t := s[..n];
      var w :| LabelSplit(t, w);
      assert SceneWordAt(s);
      assert s[5..][..w] == t[5..5 + w];
      assert IsDigit(t[5 + w..][0]);
      LeadingWhiteExact(s[5..], w);
      assert s[5 + w..][..n - 5 - w] == t[5 + w..];
      DigitRunAtLeast(s[5 + w..], n - 5 - w);
    }
  }

  /**
   * The greedy computation agrees with the pattern: a positive length is a
   * match, and no longer prefix (nor any prefix, when the length is 0) is one.
   */
  lemma LabelLengthMatchesPattern(s: string)
    ensures LabelLength(s) > 0 ==> IsLabel(s[..LabelLength(s)])
    ensures forall n :: LabelLength(s) < n <= |s| ==> !IsLabel(s[..n])
  {
    var len := LabelLength(s);
    if len > 0 {
      var w := LeadingWhite(s[5..]);
      var d := DigitRun(s[5 + w..]);
      var t := s[..len];
      assert t[5..5 + w] == s[5..][..w];
      assert t[5 + w..] == s[5 + w..][..d];
      assert LabelSplit(t, w);
    }
    forall n | len < n <= |s|
      ensures !IsLabel(s[..n])
    {
      LabelBound(s, n);
    }
  }

  /** `Regex.Replace(s, "Scene\s+\d+", "", IgnoreCase)`: one left-to-right pass. */
  function Clean(s: string): (r: string)
    ensures |r| <= |s|
    decreases |s|
  {
    if s == [] then []
    else
      var n := LabelLength(s);
      if n > 0 then Clean(s[n..]) else [s[0]] + Clean(s[1..])
  }

  /** A label at the front, followed by a non-digit or nothing, is deleted whole. */
  lemma CleanDeletesLabel(t: string, u: string)
    requires IsLabel(t)
    requires u == [] || !IsDigit(u[0])
    ensures Clean(t + u) == Clean(u)
  {
    var s := t + u;
    var w :| LabelSplit(t, w);
    assert s[..|t|] == t;
    assert s[5..][..w] == t[5..5 + w];
    assert s[5..][w] == t[5 + w..][0];
    LeadingWhiteExact(s[5..], w);
    var d := |t| - 5 - w;
    assert s[5 + w..][..d] == t[5 + w..];
    DigitRunExact(s[5 + w..], d);
    assert LabelLength(s) == |t|;
    assert s[|t|..] == u;
  }

  /** A text in which no label starts anywhere is left as it is. */
  lemma {:induction false} CleanWithoutLabels(s: string)
    requires forall i, n :: 0 <= i < n <= |s| ==> !IsLabel(s[i..n])
    ensures Clean(s) == s
    decreases |s|
  {
    if s != [] {
      LabelLengthMatchesPattern(s);
      var len := LabelLength(s);
      assert !IsLabel(s[0..len]) || len == 0;
      assert s[..len] == s[0..len];
      assert len == 0;
      forall i, n | 0 <= i < n <= |s[1..]|
        ensures !IsLabel(s[1..][i..n])
      {
        assert s[1..][i..n] == s[i + 1..n + 1];
      }
      CleanWithoutLabels(s[1..]);
      assert s == [s[0]] + s[1..];
    }
  }

  /** One fragment of the reply, cleaned and trimmed. */
  function CleanScene(fragment: string): string {
    Trim(Clean(fragment))
  }

  /** The scene texts `GenerateScenes` returns for a given reply. */
  function ScenesFromReply(reply: string): (scenes: seq<string>)
    ensures |scenes| == |SplitScenes(reply)|
  {
    var fragments := SplitScenes(reply);
    seq(|fragments|, i requires 0 <= i < |fragments| => CleanScene(fragments[i]))
  }

  /**
   * One scene per non-empty fragment, in the reply's order, each one the
   * cleaned fragment with no whitespace at either end.
   */
  lemma ScenesAreCleanedFragments(reply: string)
    ensures var scenes := ScenesFromReply(reply);
      forall i :: 0 <= i < |scenes| ==>
        scenes[i] == Trim(Clean(SplitScenes(reply)[i])) &&
        (scenes[i] == [] || (!IsWhite(scenes[i][0]) && !IsWhite(scenes[i][|scenes[i]| - 1])))
  {
    var scenes := ScenesFromReply(reply);
    forall i | 0 <= i < |scenes|
      ensures scenes[i] == [] || (!IsWhite(scenes[i][0]) && !IsWhite(scenes[i][|scenes[i]| - 1]))
    {
      CleanSceneEnds(SplitScenes(reply)[i]);
    }
  }

  /** A cleaned scene has no whitespace at either end. */
  lemma CleanSceneEnds(fragment: string)
    ensures var c := CleanScene(fragment);
      c == [] || (!IsWhite(c[0]) && !IsWhite(c[|c| - 1]))
  {
    TrimShape(Clean(fragment));
  }

  // ---------------------------------------------------------------------
  // The chat service and `GenerateScenes`
  // ---------------------------------------------------------------------

  datatype ChatRequest = ChatRequest(user: string, system: string)

  /**
   * The chat-completion client (`AITextGenerator`): it is built from the
   * endpoint, the key and the deployment name; its answer to the request at
   * a given position of its log is fixed but unknown (a failure stands for
   * the exception the client throws), and it keeps the log of requests made
   * to it.
   */
  class ChatService {
    const endpoint: string
    const apiKey: string
    const deploymentName: string
    const answer: (nat, ChatRequest) -> Result<string, string>
    var requests: seq<ChatRequest>

    constructor (endpoint: string, apiKey: string, deploymentName: string,
                 answer: (nat, ChatRequest) -> Result<string, string>)
      ensures this.endpoint == endpoint && this.apiKey == apiKey && this.deploymentName == deploymentName
      ensures this.answer == answer && requests == []
    {
      this.endpoint := endpoint;
      this.apiKey := apiKey;
      this.deploymentName := deploymentName;
      this.answer := answer;
      requests := [];
    }

    /** `Ask`: logs one request and returns the service's answer to it. */
    method Ask(userQuestionText: string, systemInstructionText: string) returns (reply: Result<string, string>)
      modifies this
      ensures requests == old(requests) + [ChatRequest(userQuestionText, systemInstructionText)]
      ensures reply == answer(|old(requests)|, ChatRequest(userQuestionText, systemInstructionText))
    {
      reply := answer(|requests|, ChatRequest(userQuestionText, systemInstructionText));
      requests := requests + [ChatRequest(userQuestionText, systemInstructionText)];
    }
  }

  /** `AIPrompts`: turns a prompt into scene texts with one chat request. */
  class ScenePrompter {
    const textService: ChatService

    constructor (textService: ChatService)
      ensures this.textService == textService
    {
      this.textService := textService;
    }

    /**
     * Asks exactly once, with the instruction built from the count and the
     * prompt; a failure of the request propagates; otherwise the result is
     * one cleaned scene per non-empty fragment of the reply (however many
     * scenes were asked for).
     */
    method GenerateScenes(textPrompt: string, numberOfScenes: int) returns (scenes: Result<seq<string>, string>)
      modifies textService
      ensures textService.requests
        == old(textService.requests) + [ChatRequest(Instruction(numberOfScenes, textPrompt), SystemMessage)]
      ensures scenes == match textService.answer(|old(textService.requests)|,
                                                 ChatRequest(Instruction(numberOfScenes, textPrompt), SystemMessage))
        case Failure(e) => Failure(e)
        case Success(reply) => Success(ScenesFromReply(reply))
    {
      var promptBuilder := "";
      promptBuilder := promptBuilder + UserMessage(numberOfScenes, textPrompt) + NewLine;
      promptBuilder := promptBuilder + ClarificationInfoScene() + NewLine;
      AppendLinesIsInstruction(numberOfScenes, textPrompt);
      var response := textService.Ask(promptBuilder, SystemMessage);
      if response.Failure? {
        return Failure(response.error);
      }
      var rawScenes := SplitScenes(response.value);
      var list := CleanAll(rawScenes);
      ScenesFromFragments(response.value, list);
      scenes := Success(list);
    }

    /** The `foreach` of `GenerateScenes`: each fragment cleaned and trimmed, in order. */
    method CleanAll(rawScenes: seq<string>) returns (list: seq<string>)
      ensures |list| == |rawScenes|
      ensures forall k :: 0 <= k < |list| ==> list[k] == CleanScene(rawScenes[k])
    {
      list := [];
      var i := 0;
      while i < |rawScenes|
        invariant 0 <= i <= |rawScenes|
        invariant |list| == i
        invariant forall k :: 0 <= k < i ==> list[k] == CleanScene(rawScenes[k])
      {
        var cleaned := Trim(Clean(rawScenes[i]));
        list := list + [cleaned];
        i := i + 1;
      }
    }
  }

  /** The fragments of a reply, each cleaned, are its scenes. */
  lemma ScenesFromFragments(reply: string, list: seq<string>)
    requires |list| == |SplitScenes(reply)|
    requires forall k :: 0 <= k < |list| ==> list[k] == CleanScene(SplitScenes(reply)[k])
    ensures list == ScenesFromReply(reply)
  {
  }

  /** The two `AppendLine` calls build exactly the instruction text. */
  lemma AppendLinesIsInstruction(numberOfScenes: int, textPrompt: string)
    ensures "" + UserMessage(numberOfScenes, textPrompt) + NewLine + ClarificationInfoScene() + NewLine
      == Instruction(numberOfScenes, textPrompt)
  {
    AppendLinesAssociate(UserMessage(numberOfScenes, textPrompt), NewLine, ClarificationInfoScene());
  }

  lemma AppendLinesAssociate(u: string, n: string, c: string)
    ensures "" + u + n + c + n == u + (n + c + n)
  {
    assert "" + u == u;
  }

  // ---------------------------------------------------------------------
  // Worked examples
  // ---------------------------------------------------------------------

  /** A text without the letter s before its last four characters holds no label. */
  lemma NoLabelWithoutS(text: string)
    requires forall i :: 0 <= i && i + 5 <= |text| ==> ToLower(text[i]) != 's'
    ensures forall i, n :: 0 <= i < n <= |text| ==> !IsLabel(text[i..n])
  {
  }

  /** Where the first separator is, when no '#' comes before it. */
  lemma FirstSeparator(s: string, k: nat)
    requires OccursAt(s, Separator, k)
    requires forall v :: 0 <= v < k ==> s[v] != '#'
    ensures FindFrom(s, Separator, 0) == Some(k)
  {
    forall v: nat | v < k
      ensures !OccursAt(s, Separator, v)
    {
      SeparatorStartsWithHash(s, v);
    }
  }

  lemma NoSeparator(s: string)
    requires forall v :: 0 <= v < |s| ==> s[v] != '#'
    ensures FindFrom(s, Separator, 0) == None
  {
    forall v: nat
      ensures !OccursAt(s, Separator, v)
    {
      SeparatorStartsWithHash(s, v);
    }
  }

  lemma SeparatorStartsWithHash(s: string, v: nat)
    ensures OccursAt(s, Separator, v) ==> s[v] == '#'
  {
    if OccursAt(s, Separator, v) {
      assert s[v..v + |Separator|][0] == '#';
    }
  }

  /** Two non-empty texts without '#' joined by the separator split back into the two. */
  lemma SplitTwo(a: string, b: string)
    requires a != [] && b != []
    requires forall v :: 0 <= v < |a| ==> a[v] != '#'
    requires forall v :: 0 <= v < |b| ==> b[v] != '#'
    ensures SplitScenes(a + Separator + b) == [a, b]
  {
    var reply := a + Separator + b;
    OccursBetween(a, Separator, b);
    forall v | 0 <= v < |a|
      ensures reply[v] != '#'
    {
      assert reply[v] == a[v];
    }
    FirstSeparator(reply, |a|);
    assert reply[|a| + |Separator|..] == b;
    NoSeparator(b);
    assert SplitRaw(b) == [b];
    assert reply[..|a|] == a;
    assert SplitRaw(reply) == [a, b];
    assert RemoveEmpty([b]) == [b] + RemoveEmpty([]);
  }

  lemma TwoScenesSplit(reply: string)
    requires reply == "Scene 1 A city." + Separator + "Scene 2 A forest."
    ensures SplitScenes(reply) == ["Scene 1 A city.", "Scene 2 A forest."]
  {
    TwoScenesPieces();
    SplitTwo("Scene 1 A city.", "Scene 2 A forest.");
  }

  lemma TwoScenesPieces()
    ensures forall v :: 0 <= v < |"Scene 1 A city."| ==> "Scene 1 A city."[v] != '#'
    ensures forall v :: 0 <= v < |"Scene 2 A forest."| ==> "Scene 2 A forest."[v] != '#'
  {
  }

  lemma CityScene()
    ensures CleanScene("Scene 1 A city.") == "A city."
  {
    CityPieces();
    LabelledScene('1', "A city.");
  }

  lemma CityPieces()
    ensures "Scene " + ['1'] + " " + "A city." == "Scene 1 A city."
    ensures forall j :: 0 <= j && j + 5 <= |"A city."| ==> ToLower("A city."[j]) != 's'
  {
  }

  lemma ForestScene()
    ensures CleanScene("Scene 2 A forest.") == "A forest."
  {
    ForestPieces();
    LabelledScene('2', "A forest.");
  }

  lemma ForestPieces()
    ensures "Scene " + ['2'] + " " + "A forest." == "Scene 2 A forest."
    ensures forall j :: 0 <= j && j + 5 <= |"A forest."| ==> ToLower("A forest."[j]) != 's'
  {
    assert "A forest."[..5] == ['A', ' ', 'f', 'o', 'r'];
  }

  /**
   * A fragment that is a one-digit label, a space and a text is cleaned to
   * that text when the text has no whitespace at its ends and no label can
   * start in it.
   */
  lemma LabelledScene(d: char, body: string)
    requires IsDigit(d) && |body| > 0 && !IsWhite(body[0]) && !IsWhite(body[|body| - 1])
    requires forall j :: 0 <= j && j + 5 <= |body| ==> ToLower(body[j]) != 's'
    ensures CleanScene("Scene " + [d] + " " + body) == body
  {
    var heading, text := "Scene " + [d], " " + body;
    Associate(heading, " ", body);
    forall i | 0 <= i && i + 5 <= |text|
      ensures ToLower(text[i]) != 's'
    {
      if i > 0 {
        assert text[i] == body[i - 1];
      }
    }
    NoLabelWithoutS(text);
    CleanLabelled(heading, text, body);
  }

  /** A fragment that is only a label and a space gives an empty scene. */
  lemma LabelOnlyFragment(fragment: string)
    requires fragment == "Scene 3 "
    ensures CleanScene(fragment) == ""
  {
    LabelOnlyPieces(fragment);
    CleanDeletesLabel("Scene 3", " ");
    CleanPlain(" ");
    BlankTrim(" ");
  }

  lemma LabelOnlyPieces(fragment: string)
    requires fragment == "Scene 3 "
    ensures fragment == "Scene 3" + " " && IsLabel("Scene 3") && IsBlank(" ")
  {
    assert LabelSplit("Scene 3", 1);
  }

  /** A blank text trims to nothing. */
  lemma BlankTrim(s: string)
    requires IsBlank(s)
    ensures Trim(s) == ""
  {
    TrimShape(s);
  }

  lemma ScenesOfTwoFragments(reply: string, a: string, b: string)
    requires SplitScenes(reply) == [a, b]
    ensures ScenesFromReply(reply) == [CleanScene(a), CleanScene(b)]
  {
  }

  /** The reply split into its two labelled scenes. */
  lemma TwoScenesExample()
    ensures ScenesFromReply("Scene 1 A city.#######Scene 2 A forest.") == ["A city.", "A forest."]
  {
    var reply := "Scene 1 A city.#######Scene 2 A forest.";
    assert reply == "Scene 1 A city." + Separator + "Scene 2 A forest.";
    TwoScenesSplit(reply);
    ScenesOfTwoFragments(reply, "Scene 1 A city.", "Scene 2 A forest.");
    CityScene();
    ForestScene();
  }

  lemma CleanPlain(s: string)
    requires forall i :: 0 <= i && i + 5 <= |s| ==> ToLower(s[i]) != 's'
    ensures Clean(s) == s
  {
    NoLabelWithoutS(s);
    CleanWithoutLabels(s);
  }

  /** No label starts at position `i` of `s`. */
  predicate NoLabelAt(s: string, i: nat)
    requires i <= |s|
  {
    LabelLength(s[i..]) == 0
  }

  /** Characters where no label starts are kept as they are. */
  lemma {:induction false} CleanKeepsPrefix(s: string, k: nat)
    requires k <= |s|
    requires forall i :: 0 <= i < k ==> NoLabelAt(s, i)
    ensures Clean(s) == s[..k] + Clean(s[k..])
    decreases k
  {
    if k > 0 {
      var t := s[1..];
      CleanKeepsNoLabel(s);
      NoLabelShift(s, k);
      CleanKeepsPrefix(t, k - 1);
      SliceJoin(s, k);
      Associate([s[0]], t[..k - 1], Clean(s[k..]));
    }
  }

  /** The first character is kept when no label starts there. */
  lemma CleanKeepsNoLabel(s: string)
    requires s != [] && NoLabelAt(s, 0)
    ensures Clean(s) == [s[0]] + Clean(s[1..])
  {
    assert s[0..] == s;
  }

  lemma NoLabelShift(s: string, k: nat)
    requires 0 < k <= |s|
    requires forall i :: 0 <= i < k ==> NoLabelAt(s, i)
    ensures forall i :: 0 <= i < k - 1 ==> NoLabelAt(s[1..], i)
  {
    var t := s[1..];
    forall i | 0 <= i < k - 1
      ensures NoLabelAt(t, i)
    {
      assert NoLabelAt(s, i + 1);
      assert t[i..] == s[i + 1..];
    }
  }

  lemma SliceJoin(s: string, k: nat)
    requires 0 < k <= |s|
    ensures [s[0]] + s[1..][..k - 1] == s[..k] && s[1..][k - 1..] == s[k..]
  {
    assert [s[0]] + s[1..][..k - 1] == s[..k];
  }

  lemma Associate(a: string, b: string, c: string)
    ensures a + (b + c) == (a + b) + c
  {
  }

  /**
   * A label after a stretch where no label starts is deleted, and the
   * stretch before it is kept.
   */
  lemma CleanInnerLabel(p: string, t: string, u: string)
    requires forall i :: 0 <= i < |p| ==> NoLabelAt(p + (t + u), i)
    requires IsLabel(t) && (u == [] || !IsDigit(u[0]))
    ensures Clean(p + (t + u)) == p + Clean(u)
  {
    var v := t + u;
    CleanKeepsPrefix(p + v, |p|);
    SplitAt(p, v);
    CleanDeletesLabel(t, u);
  }

  lemma SplitAt(p: string, v: string)
    ensures (p + v)[..|p|] == p && (p + v)[|p|..] == v
  {
  }

  /** A label in the middle of a scene is deleted too, not only a leading one. */
  lemma MidTextExample(s: string)
    requires s == "A Scene 2 B"
    ensures Clean(s) == "A  B"
  {
    MidTextPieces(s);
    CleanInnerLabel("A ", "Scene 2", " B");
    CleanPlain(" B");
  }

  /** The literal facts `MidTextExample` rests on. */
  lemma MidTextPieces(s: string)
    requires s == "A Scene 2 B"
    ensures s == "A " + ("Scene 2" + " B") && "A " + " B" == "A  B"
    ensures forall i :: 0 <= i < |"A "| ==> NoLabelAt(s, i)
    ensures IsLabel("Scene 2")
  {
    assert s[0] == 'A' && s[1..][0] == ' ';
    assert LabelSplit("Scene 2", 1);
  }

  /**
   * The deletion is one pass, not repeated until nothing matches: deleting
   * the inner word joins "Sce" and "ne 2" into a new word that stays.
   */
  lemma SinglePassExample(s: string, t: string)
    requires s == "SceScene 1ne 2" && t == "Scene 2"
    ensures Clean(s) == t && Clean(t) == ""
  {
    SinglePassJoins(s, t);
    LabelVanishes(t);
  }

  lemma SinglePassJoins(s: string, t: string)
    requires s == "SceScene 1ne 2" && t == "Scene 2"
    ensures Clean(s) == t
  {
    var before, word, rest := "Sce", "Scene 1", "ne 2";
    SinglePassPieces(s, t);
    CleanInnerLabel(before, word, rest);
    CleanPlain(rest);
  }

  /** The literal facts `SinglePassJoins` rests on. */
  lemma SinglePassPieces(s: string, t: string)
    requires s == "SceScene 1ne 2" && t == "Scene 2"
    ensures s == "Sce" + ("Scene 1" + "ne 2") && "Sce" + "ne 2" == t
    ensures forall i :: 0 <= i < |"Sce"| ==> NoLabelAt(s, i)
    ensures IsLabel("Scene 1")
  {
    assert s[0] == 'S' && s[1..][0] == 'c' && s[2..][0] == 'e' && s[2..][1] == 'S';
    assert LabelSplit("Scene 1", 1);
  }

  lemma LabelVanishes(t: string)
    requires t == "Scene 2"
    ensures Clean(t) == ""
  {
    assert LabelSplit(t, 1);
    CleanDeletesLabel(t, "");
    assert t + "" == t;
  }

  lemma CleanLabelled(heading: string, text: string, trimmed: string)
    requires |heading| == 7 && SceneWordAt(heading) && heading[5] == ' ' && IsDigit(heading[6])
    requires text == " " + trimmed && |trimmed| > 0
    requires !IsWhite(trimmed[0]) && !IsWhite(trimmed[|trimmed| - 1])
    requires forall i, n :: 0 <= i < n <= |text| ==> !IsLabel(text[i..n])
    ensures CleanScene(heading + text) == trimmed
  {
    assert heading[5..5 + 1] == [' '];
    assert heading[5 + 1..] == [heading[6]];
    assert LabelSplit(heading, 1);
    CleanDeletesLabel(heading, text);
    CleanWithoutLabels(text);
    TrimOneSpace(trimmed);
  }

  /** One space before a text with no whitespace at its ends is trimmed away. */
  lemma TrimOneSpace(t: string)
    requires |t| > 0 && !IsWhite(t[0]) && !IsWhite(t[|t| - 1])
    ensures Trim(" " + t) == t
  {
    var s := " " + t;
    assert s[1..] == t;
    assert LeadingWhite(s) == 1 + LeadingWhite(t);
    assert s[|s| - 1] == t[|t| - 1];
  }
}
