/** The AI request layer of services/geminiService.ts: the two provider adapters, the
    fallback router that walks the configured priority list, the connection check and
    the four tasks built on the router.

    The vendor SDK call and `fetch` are not modelled: a `Transport` maps each request the
    adapters build to what the vendor answered (a thrown error is an `Err` carrying its
    message). */
module AIService {
  import opened Types
  import opened Text
  import AIConfigStore

  datatype Mode = Chat | Json

  /** A request: the prompt, an optional context ("" when missing, since only its presence
      is tested) and the answer mode. */
  datatype Payload = Payload(prompt: string, context: string, mode: Mode)

  const GeminiDefaultModel: string := "gemini-3-flash-preview"
  const BailianDefaultModel: string := "qwen-turbo"
  const Temperature: real := 0.3
  const ContextHeader: string := "\n\nContext/Content:\n"
  const SystemMessage: string := "You are a helpful assistant."

  datatype GeminiRequest = GeminiRequest(
    apiKey: string,
    model: string,
    contents: string,
    temperature: real,
    jsonMime: bool)

  datatype ChatMessage = ChatMessage(role: string, content: string)

  datatype BailianRequest = BailianRequest(
    url: string,
    authorization: string,
    model: string,
    messages: seq<ChatMessage>,
    temperature: real,
    jsonObject: bool)

  /** The HTTP answer of the Bailian endpoint. `content` is the message content of the first
      choice in the JSON body (missing when any step of that path is absent), or the error
      raised while reading the body as JSON. */
  datatype HttpReply = HttpReply(ok: bool, status: nat, errText: string, content: Result<Option<string>, string>)

  datatype Transport = Transport(
    gemini: GeminiRequest -> Result<Option<string>, string>,
    bailian: BailianRequest -> Result<HttpReply, string>)

  // ---------------------------------------------------------------------------
  // Adapters

  function GeminiContents(p: Payload): string {
    if p.context != "" then p.prompt + ContextHeader + p.context else p.prompt
  }

  function BuildGeminiRequest(cfg: GeminiSettings, p: Payload): GeminiRequest {
    GeminiRequest(cfg.apiKey, if cfg.model != "" then cfg.model else GeminiDefaultModel,
                  GeminiContents(p), Temperature, p.mode == Json)
  }

  /** `callGemini` */
  function CallGemini(cfg: GeminiSettings, p: Payload, t: Transport): Result<string, string> {
    if cfg.apiKey == "" then Err("Gemini API Key missing")
    else
      match t.gemini(BuildGeminiRequest(cfg, p))
      case Err(m) => Err(m)
      case Ok(text) => Ok(text.GetOr(""))
  }

  predicate IsSlash(c: char) { c == '/' }

  /** The chat-completions address: the base URL without its trailing slashes, then
      "/chat/completions". */
  function BailianUrl(cfg: BailianSettings): string {
    var base := if cfg.baseURL != "" then cfg.baseURL else AIConfigStore.DefaultBailianBaseURL;
    DropWhileEnd(base, IsSlash) + "/chat/completions"
  }

  function BailianUserContent(p: Payload): string {
    if p.context != "" then p.prompt + "\n\n" + p.context else p.prompt
  }

  function BuildBailianRequest(cfg: BailianSettings, p: Payload): BailianRequest {
    BailianRequest(
      BailianUrl(cfg), "Bearer " + cfg.apiKey,
      if cfg.model != "" then cfg.model else BailianDefaultModel,
      [ChatMessage("system", SystemMessage), ChatMessage("user", BailianUserContent(p))],
      Temperature, p.mode == Json)
  }

  /** `callBailian` */
  function CallBailian(cfg: BailianSettings, p: Payload, t: Transport): Result<string, string> {
    if cfg.apiKey == "" then Err("Bailian API Key missing")
    else
      match t.bailian(BuildBailianRequest(cfg, p))
      case Err(m) => Err(m)
      case Ok(reply) =>
        if !reply.ok then Err("Bailian API Error: " + DecimalString(reply.status) + " " + reply.errText)
        else
          match reply.content
          case Err(m) => Err(m)
          case Ok(c) => Ok(c.GetOr(""))
  }

  function Call(q: AIProvider, cfg: AIConfig, p: Payload, t: Transport): Result<string, string> {
    match q
    case Gemini => CallGemini(cfg.gemini, p, t)
    case Bailian => CallBailian(cfg.bailian, p, t)
  }

  /** Without a key neither adapter reaches its vendor: the outcome is the same whatever the
      transport would have answered. */
  lemma MissingKeyCallsNothing(cfg: AIConfig, p: Payload, t1: Transport, t2: Transport)
    ensures cfg.gemini.apiKey == "" ==>
      CallGemini(cfg.gemini, p, t1) == CallGemini(cfg.gemini, p, t2) == Err("Gemini API Key missing")
    ensures cfg.bailian.apiKey == "" ==>
      CallBailian(cfg.bailian, p, t1) == CallBailian(cfg.bailian, p, t2) == Err("Bailian API Key missing")
  {
  }

  /** Both adapters put the prompt first and the context last; Gemini separates them by the
      "Context/Content:" header, Bailian by a blank line, and without a context the prompt
      is sent alone. JSON mode is requested exactly when the payload asks for it. */
  lemma AdapterRequestShape(cfg: AIConfig, p: Payload)
    ensures var g := BuildGeminiRequest(cfg.gemini, p);
      && StartsWith(g.contents, p.prompt) && EndsWith(g.contents, p.context)
      && (p.context != "" ==> g.contents[|p.prompt|..|g.contents| - |p.context|] == ContextHeader)
      && (p.context == "" ==> g.contents == p.prompt)
      && (g.jsonMime <==> p.mode == Json)
      && g.model != ""
    ensures var b := BuildBailianRequest(cfg.bailian, p); var u := b.messages[1].content;
      && |b.messages| == 2 && b.messages[0] == ChatMessage("system", SystemMessage)
      && b.messages[1].role == "user"
      && StartsWith(u, p.prompt) && EndsWith(u, p.context)
      && (p.context != "" ==> u[|p.prompt|..|u| - |p.context|] == "\n\n")
      && (p.context == "" ==> u == p.prompt)
      && (b.jsonObject <==> p.mode == Json)
      && b.model != ""
  {
    var g := GeminiContents(p);
    if p.context != "" {
      assert g[..|p.prompt|] == p.prompt;
      assert g[|g| - |p.context|..] == p.context;
      assert g[|p.prompt|..|g| - |p.context|] == ContextHeader;
    }
    var u := BailianUserContent(p);
    if p.context != "" {
      assert u[..|p.prompt|] == p.prompt;
      assert u[|u| - |p.context|..] == p.context;
      assert u[|p.prompt|..|u| - |p.context|] == "\n\n";
    }
  }

  /** The endpoint is the configured base URL (or the default one when it is empty) with
      its trailing slashes removed, followed by "/chat/completions". */
  lemma BailianUrlShape(cfg: BailianSettings)
    ensures var base := if cfg.baseURL != "" then cfg.baseURL else AIConfigStore.DefaultBailianBaseURL;
      exists k :: 0 <= k <= |base|
        && BailianUrl(cfg) == base[..k] + "/chat/completions"
        && (k > 0 ==> base[k - 1] != '/')
        && (forall i :: k <= i < |base| ==> base[i] == '/')
  {
    var base := if cfg.baseURL != "" then cfg.baseURL else AIConfigStore.DefaultBailianBaseURL;
    var r := DropWhileEnd(base, IsSlash);
    assert BailianUrl(cfg) == base[..|r|] + "/chat/completions";
  }

  /** A non-OK HTTP status becomes an error naming the status and the body; an answer with no
      text becomes "". */
  lemma AdapterResponses(cfg: AIConfig, p: Payload, t: Transport)
    ensures cfg.gemini.apiKey != "" && t.gemini(BuildGeminiRequest(cfg.gemini, p)) == Ok(None) ==>
              CallGemini(cfg.gemini, p, t) == Ok("")
    ensures var reply := t.bailian(BuildBailianRequest(cfg.bailian, p));
      cfg.bailian.apiKey != "" && reply.Ok? && !reply.value.ok ==>
        CallBailian(cfg.bailian, p, t) ==
        Err("Bailian API Error: " + DecimalString(reply.value.status) + " " + reply.value.errText)
    ensures var reply := t.bailian(BuildBailianRequest(cfg.bailian, p));
      cfg.bailian.apiKey != "" && reply.Ok? && reply.value.ok && reply.value.content == Ok(None) ==>
        CallBailian(cfg.bailian, p, t) == Ok("")
  {
  }

  // ---------------------------------------------------------------------------
  // The fallback router

  const DisabledMessage: string := "AI features are disabled globally."
  const AllFailedPrefix: string := "All enabled AI providers failed. Details: "

  function AllFailedMessage(errors: seq<string>): string {
    AllFailedPrefix + Join(errors, "; ")
  }

  /** What the router returns, and (for the proofs) which providers it called, in order. */
  datatype Outcome = Outcome(result: Result<string, string>, called: seq<AIProvider>)

  function ErrorEntry(q: AIProvider, e: Result<string, string>): string {
    ProviderName(q) + ": " + (if e.Err? then e.error else "")
  }

  /** The rest of the loop over `ps`, with the error messages gathered so far in `errors`. */
  function Walk(cfg: AIConfig, ps: seq<AIProvider>, p: Payload, t: Transport, errors: seq<string>): Outcome
    decreases |ps|
  {
    if ps == [] then Outcome(Err(AllFailedMessage(errors)), [])
    else if !cfg.ProviderEnabled(ps[0]) then Walk(cfg, ps[1..], p, t, errors)
    else
      var e := Call(ps[0], cfg, p, t);
      if e.Ok? then Outcome(e, [ps[0]])
      else
        var rest := Walk(cfg, ps[1..], p, t, errors + [ErrorEntry(ps[0], e)]);
        Outcome(rest.result, [ps[0]] + rest.called)
  }

  /** The fallback router run on the stored configuration. */
  function Fallback(cfg: AIConfig, p: Payload, t: Transport): Outcome {
    if !cfg.enabled then Outcome(Err(DisabledMessage), [])
    else Walk(cfg, cfg.priority, p, t, [])
  }

  /** The providers of `ps` that are switched on, in order. */
  function EnabledOrder(cfg: AIConfig, ps: seq<AIProvider>): seq<AIProvider> {
    Filter(ps, cfg.ProviderEnabled)
  }

  function Entries(cfg: AIConfig, qs: seq<AIProvider>, p: Payload, t: Transport): seq<string>
    decreases |qs|
  {
    if qs == [] then [] else [ErrorEntry(qs[0], Call(qs[0], cfg, p, t))] + Entries(cfg, qs[1..], p, t)
  }

  function Prefixed(c: seq<AIProvider>, o: Outcome): Outcome {
    Outcome(o.result, c + o.called)
  }

  /** The fallback router: the loop over the priority list that collects one error entry per
      failed provider. */
  method RunWithFallback(cfg: AIConfig, p: Payload, t: Transport)
    returns (r: Result<string, string>, ghost called: seq<AIProvider>)
    ensures Outcome(r, called) == Fallback(cfg, p, t)
  {
    if !cfg.enabled {
      return Err(DisabledMessage), [];
    }
    var errors: seq<string> := [];
    called := [];
    var i := 0;
    while i < |cfg.priority|
      invariant 0 <= i <= |cfg.priority|
      invariant Fallback(cfg, p, t) == Prefixed(called, Walk(cfg, cfg.priority[i..], p, t, errors))
    {
      var provider := cfg.priority[i];
      assert cfg.priority[i..][1..] == cfg.priority[i + 1..];
      if cfg.ProviderEnabled(provider) {
        var e := Call(provider, cfg, p, t);
        if e.Ok? {
          called := called + [provider];
          return e, called;
        }
        errors := errors + [ErrorEntry(provider, e)];
        called := called + [provider];
      }
      i := i + 1;
    }
    r := Err(AllFailedMessage(errors));
  }

  /** With AI switched off globally the router fails at once and calls no provider. */
  lemma DisabledCallsNothing(cfg: AIConfig, p: Payload, t: Transport)
    requires !cfg.enabled
    ensures Fallback(cfg, p, t) == Outcome(Err(DisabledMessage), [])
  {
  }

  predicate IsPrefix<T(==)>(a: seq<T>, b: seq<T>) {
    |a| <= |b| && b[..|a|] == a
  }

  /** The providers called are the switched-on providers of `ps` in priority order, cut
      off after the first success: each called provider but the last failed. */
  lemma {:induction false} WalkOrder(cfg: AIConfig, ps: seq<AIProvider>, p: Payload, t: Transport, errors: seq<string>)
    ensures var o := Walk(cfg, ps, p, t, errors);
      && IsPrefix(o.called, EnabledOrder(cfg, ps))
      && (forall k :: 0 <= k < |o.called| - 1 ==> Call(o.called[k], cfg, p, t).Err?)
    decreases |ps|
  {
    if ps != [] {
      WalkOrder(cfg, ps[1..], p, t, errors);
      if cfg.ProviderEnabled(ps[0]) {
        var e := Call(ps[0], cfg, p, t);
        if e.Err? {
          WalkOrder(cfg, ps[1..], p, t, errors + [ErrorEntry(ps[0], e)]);
        }
      }
    }
  }

  /** A success is the answer of the last provider called, and it is returned unchanged
      (an empty answer included). */
  lemma {:induction false} WalkSuccess(cfg: AIConfig, ps: seq<AIProvider>, p: Payload, t: Transport, errors: seq<string>)
    ensures var o := Walk(cfg, ps, p, t, errors);
      o.result.Ok? ==> o.called != [] && o.result == Call(o.called[|o.called| - 1], cfg, p, t)
    decreases |ps|
  {
    if ps != [] {
      if cfg.ProviderEnabled(ps[0]) {
        var e := Call(ps[0], cfg, p, t);
        if e.Err? {
          WalkSuccess(cfg, ps[1..], p, t, errors + [ErrorEntry(ps[0], e)]);
        }
      } else {
        WalkSuccess(cfg, ps[1..], p, t, errors);
      }
    }
  }

  /** A failure means every switched-on provider was called and failed. */
  lemma {:induction false} WalkFailureCalls(cfg: AIConfig, ps: seq<AIProvider>, p: Payload, t: Transport, errors: seq<string>)
    ensures var o := Walk(cfg, ps, p, t, errors);
      o.result.Err? ==>
        && o.called == EnabledOrder(cfg, ps)
        && (forall k :: 0 <= k < |o.called| ==> Call(o.called[k], cfg, p, t).Err?)
    decreases |ps|
  {
    if ps != [] {
      if cfg.ProviderEnabled(ps[0]) {
        var e := Call(ps[0], cfg, p, t);
        if e.Err? {
          WalkFailureCalls(cfg, ps[1..], p, t, errors + [ErrorEntry(ps[0], e)]);
        }
      } else {
        WalkFailureCalls(cfg, ps[1..], p, t, errors);
      }
    }
  }

  lemma AppendCons(xs: seq<string>, x: string, ys: seq<string>)
    ensures (xs + [x]) + ys == xs + ([x] + ys)
  {
  }

  lemma EntriesCons(cfg: AIConfig, q: AIProvider, qs: seq<AIProvider>, p: Payload, t: Transport)
    ensures Entries(cfg, [q] + qs, p, t) == [ErrorEntry(q, Call(q, cfg, p, t))] + Entries(cfg, qs, p, t)
  {
    assert ([q] + qs)[1..] == qs;
  }

  /** The failure message lists one "provider: message" entry per attempt, in order, after
      the ones gathered before. */
  lemma {:induction false} WalkFailureMessage(cfg: AIConfig, ps: seq<AIProvider>, p: Payload, t: Transport, errors: seq<string>)
    ensures var o := Walk(cfg, ps, p, t, errors);
      o.result.Err? ==> o.result.error == AllFailedMessage(errors + Entries(cfg, o.called, p, t))
    decreases |ps|
  {
    var o := Walk(cfg, ps, p, t, errors);
    if ps == [] {
      assert o.called == [];
      assert errors + Entries(cfg, [], p, t) == errors;
    } else if !cfg.ProviderEnabled(ps[0]) {
      assert o == Walk(cfg, ps[1..], p, t, errors);
      WalkFailureMessage(cfg, ps[1..], p, t, errors);
    } else {
      var e := Call(ps[0], cfg, p, t);
      if e.Err? {
        var errors' := errors + [ErrorEntry(ps[0], e)];
        WalkFailureMessage(cfg, ps[1..], p, t, errors');
        var rest := Walk(cfg, ps[1..], p, t, errors');
        assert o == Outcome(rest.result, [ps[0]] + rest.called);
        EntriesCons(cfg, ps[0], rest.called, p, t);
        var later := Entries(cfg, rest.called, p, t);
        assert Entries(cfg, o.called, p, t) == [ErrorEntry(ps[0], e)] + later;
        AppendCons(errors, ErrorEntry(ps[0], e), later);
      } else {
        assert o.result == e;
      }
    }
  }

  /** The router's promise: providers are called in priority order, switched-off ones are
      skipped, the first success is returned and nothing after it is called; if all fail
      (or none is switched on) the error lists every failure in order. */
  lemma FallbackContract(cfg: AIConfig, p: Payload, t: Transport)
    requires cfg.enabled
    ensures var o := Fallback(cfg, p, t);
      && IsPrefix(o.called, EnabledOrder(cfg, cfg.priority))
      && (forall k :: 0 <= k < |o.called| - 1 ==> Call(o.called[k], cfg, p, t).Err?)
      && (o.result.Ok? ==> o.called != [] && o.result == Call(o.called[|o.called| - 1], cfg, p, t))
      && (o.result.Err? ==>
            o.called == EnabledOrder(cfg, cfg.priority) &&
            o.result.error == AllFailedMessage(Entries(cfg, o.called, p, t)))
  {
    WalkOrder(cfg, cfg.priority, p, t, []);
    WalkSuccess(cfg, cfg.priority, p, t, []);
    WalkFailureCalls(cfg, cfg.priority, p, t, []);
    WalkFailureMessage(cfg, cfg.priority, p, t, []);
    assert [] + Entries(cfg, Fallback(cfg, p, t).called, p, t) == Entries(cfg, Fallback(cfg, p, t).called, p, t);
  }

  /** The router succeeds exactly when some switched-on provider of the priority list
      answers. */
  lemma {:induction false} WalkSucceedsIff(cfg: AIConfig, ps: seq<AIProvider>, p: Payload, t: Transport, errors: seq<string>)
    ensures Walk(cfg, ps, p, t, errors).result.Ok? <==>
      exists k :: 0 <= k < |ps| && cfg.ProviderEnabled(ps[k]) && Call(ps[k], cfg, p, t).Ok?
    decreases |ps|
  {
    if ps != [] {
      var e := Call(ps[0], cfg, p, t);
      var errors' := if cfg.ProviderEnabled(ps[0]) && e.Err? then errors + [ErrorEntry(ps[0], e)] else errors;
      WalkSucceedsIff(cfg, ps[1..], p, t, errors');
      if exists k :: 0 <= k < |ps| && cfg.ProviderEnabled(ps[k]) && Call(ps[k], cfg, p, t).Ok? {
        var k :| 0 <= k < |ps| && cfg.ProviderEnabled(ps[k]) && Call(ps[k], cfg, p, t).Ok?;
        if k > 0 && !(cfg.ProviderEnabled(ps[0]) && e.Ok?) {
          assert ps[1..][k - 1] == ps[k];
        }
      } else {
        forall k | 0 <= k < |ps| - 1 && cfg.ProviderEnabled(ps[1..][k])
          ensures Call(ps[1..][k], cfg, p, t).Err?
        {
          assert ps[1..][k] == ps[k + 1];
        }
      }
    }
  }

  // ---------------------------------------------------------------------------
  // Connection check

  const PingPrompt: string := "Hello, reply with 'OK'."

  /** The connection check of one provider: only the named adapter is called. */
  function CheckConnection(q: AIProvider, cfg: AIConfig, t: Transport): bool {
    var e := Call(q, cfg, Payload(PingPrompt, "", Chat), t);
    e.Ok? && e.value != ""
  }

  /** The check is true exactly when the named provider answers with non-empty text; the
      priority list, the global switch and the per-provider switches play no part. */
  lemma CheckConnectionMeaning(q: AIProvider, cfg: AIConfig, t: Transport,
                               priority: seq<AIProvider>, on: bool, gOn: bool, bOn: bool)
    ensures CheckConnection(q, cfg, t) <==>
      (var e := Call(q, cfg, Payload(PingPrompt, "", Chat), t); e.Ok? && e.value != "")
    ensures CheckConnection(q, cfg, t) ==
      CheckConnection(q, cfg.(priority := priority, enabled := on,
                              gemini := cfg.gemini.(enabled := gOn),
                              bailian := cfg.bailian.(enabled := bOn)), t)
  {
    var cfg' := cfg.(priority := priority, enabled := on,
                     gemini := cfg.gemini.(enabled := gOn), bailian := cfg.bailian.(enabled := bOn));
    var ping := Payload(PingPrompt, "", Chat);
    if q == Gemini {
      assert BuildGeminiRequest(cfg'.gemini, ping) == BuildGeminiRequest(cfg.gemini, ping);
    } else {
      assert BuildBailianRequest(cfg'.bailian, ping) == BuildBailianRequest(cfg.bailian, ping);
    }
  }

  /** The other provider's transport is never consulted. */
  lemma CheckConnectionOnlyNamed(cfg: AIConfig, t: Transport,
                                 g: GeminiRequest -> Result<Option<string>, string>,
                                 b: BailianRequest -> Result<HttpReply, string>)
    ensures CheckConnection(Gemini, cfg, t) == CheckConnection(Gemini, cfg, t.(bailian := b))
    ensures CheckConnection(Bailian, cfg, t) == CheckConnection(Bailian, cfg, t.(gemini := g))
  {
  }

  // ---------------------------------------------------------------------------
  // Tasks

  const SuggestionHead: string := "You are a technical documentation assistant. \n    Task: "
  const SuggestionTail: string :=
    "\n    Return ONLY the improved/generated content in Markdown format. Do not include conversational filler."

  function SuggestionPrompt(instruction: string): string {
    SuggestionHead + instruction + SuggestionTail
  }

  /** `generateContentSuggestion`: the current content travels as the context. */
  function GenerateContentSuggestion(currentContent: string, instruction: string, cfg: AIConfig, t: Transport)
    : (r: Result<string, string>)
  {
    Fallback(cfg, Payload(SuggestionPrompt(instruction), currentContent, Chat), t).result
  }

  const TranslateHead: string :=
    "Translate the following text to English for a technical documentation UI label. \n" +
    "    Keep it concise and professional (Title Case).\n" +
    "    Return ONLY the English translation. No quotes, no explanations.\n" +
    "    \n" +
    "    Text: \""

  function TranslatePrompt(text: string): string {
    TranslateHead + text + "\""
  }

  /** `translateToEnglish`: the router's answer, trimmed. */
  function TranslateToEnglish(text: string, cfg: AIConfig, t: Transport): Result<string, string> {
    TrimReply(Fallback(cfg, Payload(TranslatePrompt(text), "", Chat), t).result)
  }

  /** A successful answer with its surrounding white space removed; a failure passes through. */
  function TrimReply(o: Result<string, string>): Result<string, string> {
    match o
    case Err(m) => Err(m)
    case Ok(s) => Ok(Trim(s))
  }

  /** The translation is the provider's answer without surrounding white space; a failure of
      the router is passed on unchanged. */
  lemma TranslateTrims(o: Result<string, string>)
    ensures var r := TrimReply(o);
      && (o.Err? ==> r == Err(o.error))
      && (o.Ok? ==> r.Ok? && r.value == o.value[TrimOffset(o.value)..TrimOffset(o.value) + |r.value|]
                      && (r.value != [] ==> !IsSpace(r.value[0]) && !IsSpace(r.value[|r.value| - 1])))
  {
    if o.Ok? {
      TrimShape(o.value);
    }
  }

  /** One entry of the JSON array the PDF analysis asks for. */
  datatype ImportedDoc = ImportedDoc(title: string, categoryName: string, content: string)

  const PdfCharLimit: nat := 300000

  const AnalyzeInstruction: string :=
    "You are a technical documentation expert.\n" +
    "    Analyze the provided raw PDF text.\n" +
    "    1. Split the content into logical documents (Overview, Quick Start, API, etc.).\n" +
    "    2. Return a valid JSON array where each object has:\n" +
    "       - \"title\": string\n" +
    "       - \"categoryName\": string (group related docs)\n" +
    "       - \"content\": string (Markdown format)\n" +
    "    \n" +
    "    Return ONLY valid JSON."

  const PdfContentHeader: string := "PDF CONTENT:\n"

  /** The first `n` characters of `s`, or all of it when it is shorter. */
  function Head(s: string, n: nat): (r: string)
    ensures |r| <= n && StartsWith(s, r)
    ensures |s| <= n ==> r == s
  {
    if |s| <= n then s else s[..n]
  }

  function PdfPayload(pdfText: string): Payload {
    Payload(AnalyzeInstruction, PdfContentHeader + Head(pdfText, PdfCharLimit), Json)
  }

  /** The answer with every "```json" and then every "```" removed, and trimmed. */
  function StripFences(s: string): string {
    Trim(ReplaceAll(ReplaceAll(s, "```json", ""), "```", ""))
  }

  /** The PDF analysis; `parse` stands for the JSON parser read as an array of entries. */
  function AnalyzePdfContent(pdfText: string, cfg: AIConfig, t: Transport,
                             parse: string -> Option<seq<ImportedDoc>>): Result<seq<ImportedDoc>, string>
  {
    ParseReply(Fallback(cfg, PdfPayload(pdfText), t).result, parse)
  }

  /** The cleaned answer handed to the JSON parser; a failure of the router passes through. */
  function ParseReply(o: Result<string, string>, parse: string -> Option<seq<ImportedDoc>>)
    : Result<seq<ImportedDoc>, string>
  {
    match o
    case Err(m) => Err(m)
    case Ok(s) =>
      match parse(StripFences(s))
      case None => Err("AI response was not valid JSON")
      case Some(docs) => Ok(docs)
  }

  /** At most the first 300000 characters of the PDF text are sent, as JSON-mode context. */
  lemma PdfPayloadBound(pdfText: string)
    ensures var c := PdfPayload(pdfText).context;
      && |c| <= |PdfContentHeader| + PdfCharLimit
      && StartsWith(c, PdfContentHeader)
      && StartsWith(pdfText, c[|PdfContentHeader|..])
      && (|pdfText| <= PdfCharLimit ==> c == PdfContentHeader + pdfText)
      && PdfPayload(pdfText).mode == Json
  {
    var c := PdfPayload(pdfText).context;
    assert c[|PdfContentHeader|..] == Head(pdfText, PdfCharLimit);
  }

  /** A router success whose cleaned text does not parse still fails, with the JSON error. */
  lemma AnalyzeParseFailure(o: Result<string, string>, parse: string -> Option<seq<ImportedDoc>>)
    ensures o.Ok? && parse(StripFences(o.value)).None? ==>
      ParseReply(o, parse) == Err("AI response was not valid JSON")
    ensures o.Ok? && parse(StripFences(o.value)).Some? ==>
      ParseReply(o, parse) == Ok(parse(StripFences(o.value)).value)
    ensures o.Err? ==> ParseReply(o, parse) == Err(o.error)
  {
  }

  // Removing "```" leaves no "```" behind: the left-to-right scan eats each run of
  // backticks three at a time from its start, so fewer than three are left of every run.

  const Fence: string := "```"

  function StripFence(s: string): string {
    ReplaceAll(s, Fence, "")
  }

  lemma StripFenceHead(s: string)
    requires s != [] && !StartsWith(s, Fence)
    ensures StripFence(s) == [s[0]] + StripFence(s[1..])
  {
  }

  /** What is left of `s` starts with a backtick only if `s` does. */
  lemma StripFenceFirst(s: string)
    ensures StripFence(s) != [] && StripFence(s)[0] == '`' ==> s != [] && s[0] == '`'
  {
    if s != [] && !StartsWith(s, Fence) {
      StripFenceHead(s);
    } else if s != [] {
      assert s[..3][0] == s[0];
    }
  }

  /** What is left of `s` starts with two backticks only if `s` does. */
  lemma StripFencePair(s: string)
    ensures var r := StripFence(s);
      |r| >= 2 && r[0] == '`' && r[1] == '`' ==> |s| >= 2 && s[0] == '`' && s[1] == '`'
  {
    if s != [] && !StartsWith(s, Fence) {
      StripFenceHead(s);
      StripFenceFirst(s[1..]);
    } else if s != [] {
      assert s[..3][0] == s[0] && s[..3][1] == s[1];
    }
  }

  lemma {:induction false} StripFenceClean(s: string)
    ensures Avoids(StripFence(s), Fence)
    decreases |s|
  {
    if |s| >= 3 && s[..3] == Fence {
      StripFenceClean(s[3..]);
      assert StripFence(s) == "" + StripFence(s[3..]);
      assert "" + StripFence(s[3..]) == StripFence(s[3..]);
    } else if s != [] {
      var t := s[1..];
      StripFenceClean(t);
      StripFenceHead(s);
      var r := StripFence(s);
      assert r[1..] == StripFence(t);
      if |r| >= 3 && r[..3] == Fence {
        assert r[0] == '`' && StripFence(t)[0] == '`' && StripFence(t)[1] == '`' by {
          assert r[..3][0] == r[0] && r[..3][1] == r[1] && r[..3][2] == r[2];
        }
        StripFencePair(t);
        assert false;
      }
      assert Avoids(r[1..], Fence);
    }
  }

  /** The text handed to the JSON parser holds no code fence. */
  lemma StripFencesClean(s: string)
    ensures !Contains(StripFences(s), Fence)
  {
    var stripped := StripFence(ReplaceAll(s, "```json", ""));
    StripFenceClean(ReplaceAll(s, "```json", ""));
    var k := TrimOffset(stripped);
    AvoidsSuffix(stripped, Fence, k);
    AvoidsPrefix(stripped[k..], Fence, |Trim(stripped)|);
    assert stripped[k..][..|Trim(stripped)|] == Trim(stripped);
    AvoidsNotContains(StripFences(s), Fence);
  }

  // Chat with the site content

  const ContextLimit: nat := 200000
  const TruncationMarker: string := "\n...(truncated)..."

  function DocBlock(d: Doc): string {
    "\n---\nDOCUMENT TITLE: " + d.title + "\nCONTENT:\n" + d.content + "\n"
  }

  /** The blocks of `docs`, in order. */
  function SiteText(docs: seq<Doc>): string
    decreases |docs|
  {
    if docs == [] then "" else SiteText(docs[..|docs| - 1]) + DocBlock(docs[|docs| - 1])
  }

  predicate IsPublished(d: Doc) { d.status == Published }

  function Truncate(s: string): string {
    if |s| > ContextLimit then s[..ContextLimit] + TruncationMarker else s
  }

  /** The `forEach` that grows `siteContext`, then the truncation. */
  method BuildSiteContext(docs: seq<Doc>) returns (siteContext: string)
    ensures siteContext == Truncate(SiteText(Filter(docs, IsPublished)))
  {
    var allDocs := Filter(docs, IsPublished);
    siteContext := "";
    var i := 0;
    while i < |allDocs|
      invariant 0 <= i <= |allDocs|
      invariant siteContext == SiteText(allDocs[..i])
    {
      assert allDocs[..i + 1][..i] == allDocs[..i];
      siteContext := siteContext + DocBlock(allDocs[i]);
      i := i + 1;
    }
    assert allDocs[..|allDocs|] == allDocs;
    if |siteContext| > ContextLimit {
      siteContext := siteContext[..ContextLimit] + "\n...(truncated)...";
    }
  }

  lemma {:induction false} SiteTextAppend(a: seq<Doc>, b: seq<Doc>)
    ensures SiteText(a + b) == SiteText(a) + SiteText(b)
    decreases |b|
  {
    if b == [] {
      assert a + b == a;
    } else {
      var b' := b[..|b| - 1];
      var last := b[|b| - 1];
      SiteTextAppend(a, b');
      assert (a + b)[..|a + b| - 1] == a + b';
      assert (a + b)[|a + b| - 1] == last;
      calc {
        SiteText(a + b);
        SiteText(a + b') + DocBlock(last);
        (SiteText(a) + SiteText(b')) + DocBlock(last);
        SiteText(a) + (SiteText(b') + DocBlock(last));
      }
    }
  }

  /** Only published documents reach the context: adding an unpublished one changes
      nothing, adding a published one appends its block. */
  lemma SiteContextPublishedOnly(docs: seq<Doc>, d: Doc)
    ensures !IsPublished(d) ==>
      SiteText(Filter(docs + [d], IsPublished)) == SiteText(Filter(docs, IsPublished))
    ensures IsPublished(d) ==>
      SiteText(Filter(docs + [d], IsPublished)) == SiteText(Filter(docs, IsPublished)) + DocBlock(d)
  {
    FilterAppend(docs, [d], IsPublished);
    SiteTextAppend(Filter(docs, IsPublished), Filter([d], IsPublished));
    assert Filter(docs, IsPublished) + [] == Filter(docs, IsPublished);
    assert SiteText([d]) == SiteText([]) + DocBlock(d) by {
      assert [d][..0] == [];
    }
  }

  /** A context longer than 200000 characters keeps exactly its first 200000, followed by
      the truncation marker; a shorter one is kept whole. */
  lemma TruncateShape(s: string)
    ensures |s| <= ContextLimit ==> Truncate(s) == s
    ensures |s| > ContextLimit ==>
      && |Truncate(s)| == ContextLimit + |TruncationMarker|
      && Truncate(s)[..ContextLimit] == s[..ContextLimit]
      && EndsWith(Truncate(s), TruncationMarker)
  {
    if |s| > ContextLimit {
      var r := Truncate(s);
      assert r[..ContextLimit] == s[..ContextLimit];
      assert r[|r| - |TruncationMarker|..] == TruncationMarker;
    }
  }

  datatype ChatRole = UserRole | AssistantRole

  datatype ChatTurn = ChatTurn(role: ChatRole, content: string)

  function RoleName(r: ChatRole): string {
    match r
    case UserRole => "user"
    case AssistantRole => "assistant"
  }

  function HistoryLine(h: ChatTurn): string {
    RoleName(h.role) + ": " + h.content
  }

  function ChatPrompt(siteContext: string, history: seq<ChatTurn>, newMessage: string): string {
    "You are the intelligent assistant for the \"DevCenter\" platform.\n" +
    "    Your goal is to answer user questions based STRICTLY on the documentation provided in the context below.\n" +
    "    \n" +
    "    Rules:\n" +
    "    1. If the answer is found in the context, answer clearly and concisely in Markdown.\n" +
    "    2. If the answer is NOT found in the context, politely state that the information is not available in the current documentation.\n" +
    "    3. Be helpful and professional.\n" +
    "    \n" +
    "    Documentation Context:\n" +
    "    " + siteContext + "\n" +
    "    \n" +
    "    Chat History:\n" +
    "    " + Join(Map(history, HistoryLine), "\n") + "\n" +
    "    \n" +
    "    User Question: " + newMessage
  }

  /** `chatWithSiteContent` over the documents of the store. */
  method ChatWithSiteContent(history: seq<ChatTurn>, newMessage: string, docs: seq<Doc>,
                             cfg: AIConfig, t: Transport)
    returns (r: Result<string, string>)
    ensures r == Fallback(cfg, Payload(ChatPrompt(Truncate(SiteText(Filter(docs, IsPublished))), history, newMessage),
                                       "", Chat), t).result
  {
    var siteContext := BuildSiteContext(docs);
    var prompt := ChatPrompt(siteContext, history, newMessage);
    ghost var called;
    r, called := RunWithFallback(cfg, Payload(prompt, "", Chat), t);
  }
}
