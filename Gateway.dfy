/** The AI assistant gateway, call_gemini_api, which app.py and server_web.py
    define identically: it builds a bounded chat history, wraps it with the
    user's instruction in a fixed template and asks the generative model,
    falling back to fixed replies when no API key is configured or the call
    fails. The model call itself is the `generate` parameter. */
module Gateway {
  import opened Board

  /** How many of the newest board entries are scanned. */
  const Window := 20
  /** How many text entries are kept. */
  const Limit := 10

  const NoKeyReply := "AI機能が設定されていません。"
  const CallFailedReply := "AIアシスタントの呼び出し中にエラーが発生しました。"
  const UnknownName := "Unknown"

  const PromptHead :=
    "あなたはチャットを支援する、賢くてフレンドリーなAIアシスタントです。\n"
    + "以下のチャット履歴とユーザーからの指示を考慮して、回答を生成してください。\n"
    + "チャットの参加者のように、自然な言葉で応答してください。\n\n"
    + "--- 直近のチャット履歴 ---\n"
  const PromptMiddle := "\n--- ここまで ---\n\n--- ユーザーからの指示 ---\n"
  const PromptTail := "\n--- ここまで ---\n\nAIアシスタントとしてのあなたの回答:"

  /** Whether an API key was configured at start-up, and the model call:
      `generate(prompt)` is the response text, or None when the call raises. */
  datatype AiConfig = AiConfig(hasKey: bool, generate: string -> Option<string>)

  /** The filter of the history scan: the entry has a "message" key whose
      value is truthy. Image entries and empty or null texts fail it. */
  predicate HasText(m: Message) {
    m.body.Text? && Truthy(m.body.message)
  }

  /** history[-20:]: the newest `Window` entries, or all of them. */
  function Recent(h: seq<Message>): (r: seq<Message>)
    ensures |r| == if |h| <= Window then |h| else Window
    ensures r == h[|h| - |r|..]
  {
    if |h| <= Window then h else h[|h| - Window..]
  }

  /** The entries of `s` that pass the filter, in their order in `s`. */
  function TextOnly(s: seq<Message>): (r: seq<Message>)
    ensures |r| <= |s|
    ensures forall i :: 0 <= i < |r| ==> HasText(r[i]) && r[i] in s
    decreases |s|
  {
    if s == [] then []
    else TextOnly(s[..|s| - 1]) + (if HasText(s[|s| - 1]) then [s[|s| - 1]] else [])
  }

  lemma {:induction false} TextOnlyAppend(a: seq<Message>, b: seq<Message>)
    ensures TextOnly(a + b) == TextOnly(a) + TextOnly(b)
    decreases |b|
  {
    if b == [] {
      assert a + b == a;
    } else {
      var b' := b[..|b| - 1];
      assert (a + b)[..|a + b| - 1] == a + b';
      assert (a + b)[|a + b| - 1] == b[|b| - 1];
      TextOnlyAppend(a, b');
    }
  }

  /** The entries the prompt history is built from: the first `Limit` text
      entries among the newest `Window` ones. */
  function Selected(h: seq<Message>): (r: seq<Message>)
    ensures |r| <= Limit
    ensures |r| == if |TextOnly(Recent(h))| <= Limit then |TextOnly(Recent(h))| else Limit
    ensures forall i :: 0 <= i < |r| ==> HasText(r[i]) && r[i] in Recent(h)
  {
    var t := TextOnly(Recent(h));
    if |t| <= Limit then t else t[..Limit]
  }

  /** One history line, f"{username}: {message}" with "Unknown" for an entry
      without a username. */
  function Line(m: Message): string
    requires m.body.Text?
  {
    Shown(GetOr(m.username, Str(UnknownName))) + ": " + Shown(m.body.message)
  }

  function Lines(s: seq<Message>): (r: seq<string>)
    requires forall i :: 0 <= i < |s| ==> s[i].body.Text?
    ensures |r| == |s|
    ensures forall i :: 0 <= i < |s| ==> r[i] == Line(s[i])
    decreases |s|
  {
    if s == [] then [] else Lines(s[..|s| - 1]) + [Line(s[|s| - 1])]
  }

  function Reverse<T>(s: seq<T>): (r: seq<T>)
    ensures |r| == |s|
    ensures forall i :: 0 <= i < |s| ==> r[i] == s[|s| - 1 - i]
    decreases |s|
  {
    if s == [] then [] else Reverse(s[1..]) + [s[0]]
  }

  /** "\n".join(lines) */
  function JoinLines(lines: seq<string>): string
    decreases |lines|
  {
    if lines == [] then ""
    else if |lines| == 1 then lines[0]
    else lines[0] + "\n" + JoinLines(lines[1..])
  }

  /** The prompt history text: the selected entries' lines, newest first. */
  function PromptHistory(h: seq<Message>): string {
    JoinLines(Reverse(Lines(Selected(h))))
  }

  /** A three-part template filled with the history and the instruction. */
  function Fill(head: string, middle: string, tail: string, history: string, userPrompt: string): string {
    head + history + middle + userPrompt + tail
  }

  /** The template that wraps the history and the user's instruction. */
  function FinalPrompt(history: string, userPrompt: string): string {
    Fill(PromptHead, PromptMiddle, PromptTail, history, userPrompt)
  }

  /** The gateway's reply. */
  function Suggest(ai: AiConfig, h: seq<Message>, userPrompt: JsonStr): (reply: string)
    ensures !ai.hasKey ==> reply == NoKeyReply
    ensures ai.hasKey ==>
              var outcome := ai.generate(FinalPrompt(PromptHistory(h), Shown(userPrompt)));
              reply == if outcome.None? then CallFailedReply else outcome.value
  {
    if !ai.hasKey then NoKeyReply
    else match ai.generate(FinalPrompt(PromptHistory(h), Shown(userPrompt)))
      case None => CallFailedReply
      case Some(text) => text
  }

  /** One step of the scan extends the filtered prefix by at most the entry scanned. */
  lemma TextOnlyStep(s: seq<Message>, i: nat)
    requires i < |s|
    ensures TextOnly(s[..i + 1]) == TextOnly(s[..i]) + (if HasText(s[i]) then [s[i]] else [])
  {
    assert s[..i + 1][..i] == s[..i];
  }

  lemma LinesSnoc(s: seq<Message>, m: Message)
    requires forall i :: 0 <= i < |s| ==> s[i].body.Text?
    requires m.body.Text?
    ensures Lines(s + [m]) == Lines(s) + [Line(m)]
  {
    assert (s + [m])[..|s|] == s;
  }

  /** Where the scan stops: at the end of the window with at most `Limit`
      entries kept, or at a text entry with `Limit` entries already kept. */
  lemma ScanStop(h: seq<Message>, i: nat)
    requires i <= |Recent(h)|
    requires i == |Recent(h)| ==> |TextOnly(Recent(h)[..i])| <= Limit
    requires i < |Recent(h)| ==> |TextOnly(Recent(h)[..i])| == Limit
    ensures Selected(h) == TextOnly(Recent(h)[..i])
  {
    var w := Recent(h);
    if i < |w| {
      assert w == w[..i] + w[i..];
      TextOnlyAppend(w[..i], w[i..]);
      var front, back := TextOnly(w[..i]), TextOnly(w[i..]);
      if back == [] {
        assert front + back == front;
      } else {
        assert (front + back)[..Limit] == front;
      }
    } else {
      assert w[..i] == w;
    }
  }

  /** The lines collected by a finished scan give the prompt history. */
  lemma ScanDone(h: seq<Message>, i: nat, kept: seq<Message>, lines: seq<string>)
    requires i <= |Recent(h)|
    requires kept == TextOnly(Recent(h)[..i]) && |kept| <= Limit
    requires i < |Recent(h)| ==> |kept| == Limit
    requires lines == Lines(kept)
    ensures JoinLines(Reverse(lines)) == PromptHistory(h)
  {
    ScanStop(h, i);
  }

  /** The history scan of call_gemini_api: a loop over history[-20:] that
      collects the lines of text entries and stops once 10 are collected. */
  method BuildPromptHistory(history: seq<Message>) returns (text: string)
    ensures text == PromptHistory(history)
  {
    var window := Recent(history);
    var lines: seq<string> := [];
    ghost var kept: seq<Message> := [];
    var i := 0;
    while i < |window|
      invariant 0 <= i <= |window|
      invariant kept == TextOnly(window[..i]) && |kept| <= Limit
      invariant lines == Lines(kept)
    {
      TextOnlyStep(window, i);
      if HasText(window[i]) {
        if |lines| >= Limit {
          break;
        }
        LinesSnoc(kept, window[i]);
        kept := kept + [window[i]];
        lines := lines + [Line(window[i])];
      }
      i := i + 1;
    }
    ScanDone(history, i, kept, lines);
    text := JoinLines(Reverse(lines));
  }

  /** call_gemini_api: the fixed reply without an API key (the history is not
      even built), otherwise the model's text or the fixed error reply. */
  method CallGemini(ai: AiConfig, history: seq<Message>, userPrompt: JsonStr) returns (reply: string)
    ensures reply == Suggest(ai, history, userPrompt)
  {
    if !ai.hasKey {
      return NoKeyReply;
    }
    var promptHistory := BuildPromptHistory(history);
    var prompt := FinalPrompt(promptHistory, Shown(userPrompt));
    var outcome := ai.generate(prompt);
    match outcome {
      case None => reply := CallFailedReply;
      case Some(text) => reply := text;
    }
  }

  /** Which entries of the window make it into the history: entry j is the
      k-th selected entry exactly when it has text and fewer than `Limit`
      text entries (k of them) come before it in the window. */
  lemma SelectedEntry(h: seq<Message>, j: nat)
    requires j < |Recent(h)|
    ensures var w := Recent(h); var k := |TextOnly(w[..j])|;
      (HasText(w[j]) && k < Limit) <==> (k < |Selected(h)| && Selected(h)[k] == w[j])
  {
    var w := Recent(h);
    if HasText(w[j]) {
      TextOnlyAt(w, j);
    }
  }

  /** A text entry's place among the filtered entries is the number of text
      entries before it. */
  lemma TextOnlyAt(w: seq<Message>, j: nat)
    requires j < |w| && HasText(w[j])
    ensures |TextOnly(w[..j])| < |TextOnly(w)|
    ensures TextOnly(w)[|TextOnly(w[..j])|] == w[j]
  {
    assert w == w[..j + 1] + w[j + 1..];
    TextOnlyAppend(w[..j + 1], w[j + 1..]);
    TextOnlyStep(w, j);
  }

  /** Entries older than the newest `Window` never influence the prompt. */
  lemma OlderHistoryIgnored(older: seq<Message>, recent: seq<Message>)
    requires |recent| >= Window
    ensures Selected(older + recent) == Selected(recent)
    ensures PromptHistory(older + recent) == PromptHistory(recent)
  {
    var h := older + recent;
    assert h[|h| - Window..] == recent[|recent| - Window..];
  }

  /** The history lines come newest first: line k is that of the k-th newest
      selected entry. */
  lemma HistoryNewestFirst(h: seq<Message>, k: nat)
    requires k < |Selected(h)|
    ensures Reverse(Lines(Selected(h)))[k] == Line(Selected(h)[|Selected(h)| - 1 - k])
  {
  }

  lemma SliceOfJoin(a: string, b: string, c: string)
    ensures (a + b + c)[|a|..|a| + |b|] == b
  {
    assert (a + b + c)[|a|..|a| + |b|] == (a + b + c)[..|a| + |b|][|a|..];
    assert (a + b + c)[..|a| + |b|] == a + b;
  }

  /** The filled template carries the history text and the instruction
      verbatim, at fixed places; so does the prompt, whose template parts
      are PromptHead, PromptMiddle and PromptTail. */
  lemma TemplateEmbeds(head: string, middle: string, tail: string, history: string, userPrompt: string)
    ensures var p := Fill(head, middle, tail, history, userPrompt);
      var at := |head| + |history| + |middle|;
      && |p| == at + |userPrompt| + |tail|
      && p[|head|..|head| + |history|] == history
      && p[at..at + |userPrompt|] == userPrompt
  {
    SliceOfJoin(head, history, middle + userPrompt + tail);
    SliceOfJoin(head + history + middle, userPrompt, tail);
    var p := Fill(head, middle, tail, history, userPrompt);
    assert p == head + history + (middle + userPrompt + tail);
    assert p == (head + history + middle) + userPrompt + tail;
  }
}
