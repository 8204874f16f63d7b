/** Prompt templates: `{{name}}` placeholders and their substitution, and the
    default processing prompts for each provider. */
module Template {
  import opened Js

  /** The variables passed to a render; a key that is absent stands for a property
      whose value is `undefined`. */
  type Variables = map<string, string>

  /** The end of the run of non-`}` characters that starts at `k`: the first index
      at or after `k` holding `}`, or `|s|`. */
  function RunEnd(s: string, k: nat): (r: nat)
    requires k <= |s|
    decreases |s| - k
    ensures k <= r <= |s|
    ensures forall m :: k <= m < r ==> s[m] != '}'
    ensures r < |s| ==> s[r] == '}'
  {
    if k == |s| || s[k] == '}' then k else RunEnd(s, k + 1)
  }

  /** The regular expression `/\{\{([^}]+)\}\}/` matches at index `i`: two opening
      braces, at least one character that is not `}`, then two closing braces. */
  predicate MatchAt(s: string, i: nat) {
    i + 1 < |s| && s[i] == '{' && s[i + 1] == '{'
    && var j := RunEnd(s, i + 2);
       j > i + 2 && j + 1 < |s| && s[j + 1] == '}'
  }

  /** The leftmost match at or after `from`, which is where a global regular
      expression resumes after its previous match. */
  function FirstMatch(s: string, from: nat): (r: Option<nat>)
    decreases |s| - from
    ensures r.Some? ==> from <= r.value && MatchAt(s, r.value)
    ensures r.Some? ==> forall i :: from <= i < r.value ==> !MatchAt(s, i)
    ensures r.None? ==> forall i :: from <= i ==> !MatchAt(s, i)
  {
    if from + 1 >= |s| then None
    else if MatchAt(s, from) then Some(from)
    else FirstMatch(s, from + 1)
  }

  /** The replacement for one match: the variable named by the trimmed key when it
      is defined, otherwise the matched text itself. */
  function Substitute(key: string, whole: string, vars: Variables): string {
    if Trim(key) in vars then vars[Trim(key)] else whole
  }

  /** The index just after the match that starts at `i`. */
  function MatchEnd(s: string, i: nat): (r: nat)
    requires MatchAt(s, i)
    ensures i + 4 < r + 1 <= |s| + 1
  {
    RunEnd(s, i + 2) + 2
  }

  /** What the match starting at `i` is replaced by. */
  function Replacement(s: string, vars: Variables, i: nat): string
    requires MatchAt(s, i)
  {
    Substitute(s[i + 2..MatchEnd(s, i) - 2], s[i..MatchEnd(s, i)], vars)
  }

  /** The `replace` with a global regular expression, from index `from` on. */
  function RenderFrom(s: string, vars: Variables, from: nat): (r: string)
    requires from <= |s|
    decreases |s| - from
    ensures vars == map[] ==> r == s[from..]
  {
    match FirstMatch(s, from)
    case None => s[from..]
    case Some(i) => s[from..i] + Replacement(s, vars, i) + RenderFrom(s, vars, MatchEnd(s, i))
  }

  /** `renderTemplate(template, variables)`. */
  function RenderTemplate(template: string, vars: Variables): (r: string)
    ensures vars == map[] ==> r == template
  {
    RenderFrom(template, vars, 0)
  }

  /** `s` holds no placeholder at all. */
  predicate NoPlaceholder(s: string) {
    forall i :: 0 <= i < |s| ==> !MatchAt(s, i)
  }

  /** `s` holds no `{{` and does not end in `{`: nothing in it can begin a match,
      whatever follows it. */
  predicate NoOpening(s: string) {
    (forall i :: 0 <= i < |s| - 1 ==> !(s[i] == '{' && s[i + 1] == '{'))
    && (s != [] ==> s[|s| - 1] != '{')
  }

  /** A template with no placeholder renders to itself, whatever the variables. */
  lemma RenderNoPlaceholder(s: string, vars: Variables)
    requires NoPlaceholder(s)
    ensures RenderTemplate(s, vars) == s
  {
    assert FirstMatch(s, 0).None?;
  }

  lemma {:induction false} RunEndShift(a: string, b: string, k: nat)
    requires k <= |b|
    ensures RunEnd(a + b, |a| + k) == |a| + RunEnd(b, k)
    decreases |b| - k
  {
    if k < |b| && b[k] != '}' {
      assert (a + b)[|a| + k] == b[k];
      RunEndShift(a, b, k + 1);
    } else if k < |b| {
      assert (a + b)[|a| + k] == b[k];
    }
  }

  /** Whether a match starts at an index depends only on what follows it. */
  lemma MatchAtShift(a: string, b: string, k: nat)
    requires k <= |b|
    ensures MatchAt(a + b, |a| + k) == MatchAt(b, k)
  {
    if k + 1 < |b| {
      RunEndShift(a, b, k + 2);
      var j := RunEnd(b, k + 2);
      if j + 1 < |b| {
        assert (a + b)[|a| + j + 1] == b[j + 1];
      }
      assert (a + b)[|a| + k] == b[k] && (a + b)[|a| + k + 1] == b[k + 1];
    }
  }

  /** Nothing in `pre` can begin a match, whatever follows it. */
  lemma NoMatchIn(pre: string, rest: string)
    requires NoOpening(pre)
    ensures forall i :: 0 <= i < |pre| ==> !MatchAt(pre + rest, i)
  {
    forall i | 0 <= i < |pre|
      ensures !MatchAt(pre + rest, i)
    {
      if i + 1 < |pre| {
        assert (pre + rest)[i] == pre[i] && (pre + rest)[i + 1] == pre[i + 1];
      } else {
        assert (pre + rest)[i] == pre[i];
      }
    }
  }

  /** The run of non-`}` characters at the start of `key + rest` is `key`. */
  lemma {:induction false} RunEndKey(key: string, rest: string, k: nat)
    requires k <= |key| && forall m :: 0 <= m < |key| ==> key[m] != '}'
    requires rest != [] && rest[0] == '}'
    ensures RunEnd(key + rest, k) == |key|
    decreases |key| - k
  {
    assert (key + rest)[|key|] == rest[0];
    if k < |key| {
      assert (key + rest)[k] == key[k];
      RunEndKey(key, rest, k + 1);
    }
  }

  /** The text of a placeholder for `key`. */
  function Placeholder(key: string): (r: string)
    ensures |r| == |key| + 4 && r[..2] == "{{" && r[2..|key| + 2] == key && r[|key| + 2..] == "}}"
  {
    "{{" + key + "}}"
  }

  /** The placeholder right after `pre` is a match, ending just before `post`. */
  lemma PlaceholderMatch(pre: string, key: string, post: string)
    requires key != [] && forall m :: 0 <= m < |key| ==> key[m] != '}'
    ensures MatchAt(pre + Placeholder(key) + post, |pre|)
    ensures RunEnd(pre + Placeholder(key) + post, |pre| + 2) == |pre| + 2 + |key|
  {
    var s := pre + Placeholder(key) + post;
    var a := pre + "{{";
    var b := key + ("}}" + post);
    assert s == a + b;
    RunEndKey(key, "}}" + post, 0);
    RunEndShift(a, b, 0);
    assert RunEnd(s, |pre| + 2) == |pre| + 2 + |key|;
    assert s[|pre|] == '{' && s[|pre| + 1] == '{';
    assert s[|pre| + 3 + |key|] == '}';
  }

  /** No match starts inside `post` in `pre + mid + post`. */
  lemma NoMatchAfter(pre: string, mid: string, post: string)
    requires NoPlaceholder(post)
    ensures FirstMatch(pre + mid + post, |pre| + |mid|).None?
  {
    var s := pre + mid + post;
    forall i | |pre| + |mid| <= i
      ensures !MatchAt(s, i)
    {
      if i <= |s| {
        MatchAtShift(pre + mid, post, i - (|pre| + |mid|));
      }
    }
  }

  /** The first match in `pre + Placeholder(key) + post` is the placeholder. */
  lemma FirstMatchIsPlaceholder(pre: string, key: string, post: string)
    requires NoOpening(pre)
    requires key != [] && forall m :: 0 <= m < |key| ==> key[m] != '}'
    ensures FirstMatch(pre + Placeholder(key) + post, 0) == Some(|pre|)
  {
    var s := pre + Placeholder(key) + post;
    NoMatchIn(pre, Placeholder(key) + post);
    assert s == pre + (Placeholder(key) + post);
    PlaceholderMatch(pre, key, post);
  }

  /** One step of the global replace: the text before the first match, the match's
      replacement, then the rendering of what follows the match. */
  lemma RenderStep(s: string, vars: Variables, from: nat, i: nat)
    requires from <= |s| && FirstMatch(s, from) == Some(i)
    ensures RenderFrom(s, vars, from) == s[from..i] + Replacement(s, vars, i) + RenderFrom(s, vars, MatchEnd(s, i))
  {
  }

  /** The replacement of a match is the substitution of its key. */
  lemma ReplacementOf(s: string, vars: Variables, i: nat, key: string, whole: string)
    requires MatchAt(s, i)
    requires key == s[i + 2..MatchEnd(s, i) - 2] && whole == s[i..MatchEnd(s, i)]
    ensures Replacement(s, vars, i) == Substitute(key, whole, vars)
  {
  }

  /** Rendering resumes after the placeholder and leaves `post` untouched. */
  lemma RenderTail(s: string, pre: string, mid: string, post: string, vars: Variables, from: nat)
    requires s == pre + mid + post && from == |pre| + |mid|
    requires NoPlaceholder(post)
    ensures RenderFrom(s, vars, from) == post
  {
    var s := pre + mid + post;
    NoMatchAfter(pre, mid, post);
    assert s[|pre| + |mid|..] == post;
  }

  /** One placeholder: `pre + "{{" + key + "}}" + post` renders to `pre`, the
      placeholder's replacement, then `post` untouched.  The replacement is
      inserted verbatim: a value that itself looks like `{{x}}` is not expanded
      again, and an undefined key keeps its placeholder text. */
  lemma RenderOnePlaceholder(pre: string, key: string, post: string, vars: Variables)
    requires NoOpening(pre) && NoPlaceholder(post)
    requires key != [] && forall m :: 0 <= m < |key| ==> key[m] != '}'
    ensures RenderTemplate(pre + Placeholder(key) + post, vars)
         == pre + Substitute(key, Placeholder(key), vars) + post
  {
    var s := pre + Placeholder(key) + post;
    var e := |pre| + |key| + 4;
    FirstMatchIsPlaceholder(pre, key, post);
    PlaceholderMatch(pre, key, post);
    PlaceholderReplacement(pre, key, post, vars);
    RenderTail(s, pre, Placeholder(key), post, vars, e);
    RenderOneMatch(s, vars, |pre|, e, pre, Substitute(key, Placeholder(key), vars), post);
  }

  /** A text whose first match is replaced by `rep` and whose rest renders to `post`. */
  lemma RenderOneMatch(s: string, vars: Variables, i: nat, e: nat, pre: string, rep: string, post: string)
    requires i <= |s| && FirstMatch(s, 0) == Some(i) && MatchEnd(s, i) == e
    requires s[..i] == pre && Replacement(s, vars, i) == rep && RenderFrom(s, vars, e) == post
    ensures RenderTemplate(s, vars) == pre + rep + post
  {
    assert s[0..i] == pre;
    RenderStep(s, vars, 0, i);
  }

  /** The replacement of the placeholder right after `pre`. */
  lemma PlaceholderReplacement(pre: string, key: string, post: string, vars: Variables)
    requires MatchAt(pre + Placeholder(key) + post, |pre|)
    requires RunEnd(pre + Placeholder(key) + post, |pre| + 2) == |pre| + 2 + |key|
    ensures Replacement(pre + Placeholder(key) + post, vars, |pre|) == Substitute(key, Placeholder(key), vars)
    ensures (pre + Placeholder(key) + post)[..|pre|] == pre
  {
    var s := pre + Placeholder(key) + post;
    PlaceholderSlices(pre, key, post);
    ReplacementOf(s, vars, |pre|, key, Placeholder(key));
  }

  /** Where the parts of `pre + Placeholder(key) + post` sit. */
  lemma PlaceholderSlices(pre: string, key: string, post: string)
    ensures (pre + Placeholder(key) + post)[..|pre|] == pre
    ensures (pre + Placeholder(key) + post)[|pre|..|pre| + |key| + 4] == Placeholder(key)
    ensures (pre + Placeholder(key) + post)[|pre| + 2..|pre| + 2 + |key|] == key
  {
    var mid := Placeholder(key);
    var s := pre + mid + post;
    assert s == pre + (mid + post);
    assert s[|pre|..|pre| + |key| + 4] == mid;
    assert s[|pre| + 2..|pre| + 2 + |key|] == mid[2..|key| + 2];
  }

  // ---------------------------------------------------------------------------
  // Default processing prompts

  /** `defaultTemplates.openai.processing`: asks for a JSON object and ends with
      the transcript placeholder. */
  const OpenAIProcessing: string := "You are an AI assistant that processes WhatsApp voice message transcriptions. Process the following transcript and provide your response in the following JSON format:\n\n{\n  \"original_transcript\": \"Copy the original transcript exactly as provided.\",\n  \"cleaned_transcript\": \"If the transcript is not in English, translate it to English. Then, create a grammatically correct, polished version in English. Remove filler words, false starts, and repetitions. Maintain the original meaning.\",\n  \"summary\": \"Write a concise 1-2 sentence summary in English that captures the core message and key information from the transcript.\",\n  \"reply\": \"Suggest a natural, conversational reply in English that directly addresses the main points or questions from the message.\"\n}\n\nEnsure that the response contains only the JSON object with no additional text.\n\nTRANSCRIPT:\n{{transcription}}"

  /** `defaultTemplates.claude.processing`: the same text as the OpenAI prompt. */
  const ClaudeProcessing: string := "You are an AI assistant that processes WhatsApp voice message transcriptions. Process the following transcript and provide your response in the following JSON format:\n\n{\n  \"original_transcript\": \"Copy the original transcript exactly as provided.\",\n  \"cleaned_transcript\": \"If the transcript is not in English, translate it to English. Then, create a grammatically correct, polished version in English. Remove filler words, false starts, and repetitions. Maintain the original meaning.\",\n  \"summary\": \"Write a concise 1-2 sentence summary in English that captures the core message and key information from the transcript.\",\n  \"reply\": \"Suggest a natural, conversational reply in English that directly addresses the main points or questions from the message.\"\n}\n\nEnsure that the response contains only the JSON object with no additional text.\n\nTRANSCRIPT:\n{{transcription}}"

  /** `defaultTemplates[provider]?.processing`: only `openai` and `claude` have a
      default prompt. */
  function DefaultProcessing(provider: string): (r: Option<string>)
    ensures r.Some? <==> provider == "openai" || provider == "claude"
  {
    if provider == "openai" then Some(OpenAIProcessing)
    else if provider == "claude" then Some(ClaudeProcessing)
    else None
  }

  /** The background bundle's own `defaultTemplates.openai.processing`, an older
      prompt asking for four `----`-separated sections in `{{language}}`. */
  const BundledOpenAIProcessing: string := "You are an AI assistant that processes WhatsApp voice message transcriptions. Process the following transcript following these exact instructions:\n\nYour response MUST follow this exact format with FOUR sections separated by '----':\n[original transcript] ---- [grammatically corrected version in {{language}}]\n[English translation] ---- [concise summary in English] ---- [natural reply in {{language}}]\n\nInstructions for each section:\n1. First section: Copy the original transcript exactly as provided.\n2. Second section: Create a grammatically correct, polished version of the transcript in {{language}}. Remove filler words, false starts, and repetitions. Maintain the original meaning. Then, on the next line, provide the English translation.\n3. Third section: Write a concise 1-2 sentence summary in English that captures the core message and key information from the transcript.\n4. Fourth section: Suggest a natural, conversational reply in {{language}} that directly addresses the main points or questions from the message. The reply should sound like something a real person would say in a WhatsApp conversation (not formal or robotic).\n\nUse ONLY '----' as separators with no additional text, headers, or explanations.\n\nTRANSCRIPT:\n{{transcription}}"
}
