/**
  The two-stage pipeline and the batch loop of `process_excel`: every row's
  slogan is normalised, explained, then translated with that explanation in
  the prompt; one record per row is accumulated and the table is written
  once, after the last row.
 */
module Pipeline {
  import opened Wrappers
  import opened Normalizer
  import opened Templates
  import opened Invocation

  /** One input line: the `source` and `prod_catalog` columns. */
  datatype SourceRow = SourceRow(source: string, prodCatalog: string)

  /** One output line: the `source`, `think` and `destination` columns. */
  datatype Record = Record(source: string, think: string, destination: string)

  /** The run's fixed inputs: the templates' wording, `destination_lang` and `model_size`. */
  datatype Config = Config(wording: Wording, destinationLang: string, modelSize: string)

  /** Both stages are called with an empty system prompt. */
  const SYSTEM_PROMPT := ""

  /** The two stages; each names its task type and the tag its output sits in. */
  datatype Stage = ExplanationStage | TranslationStage {
    function TaskType(): string
    {
      match this
      case ExplanationStage => "explanation"
      case TranslationStage => "translation"
    }

    /** Opening tag the assistant turn is primed with. */
    function OpenTag(): string
    {
      match this
      case ExplanationStage => "<explanation>"
      case TranslationStage => "<translation>"
    }
  }

  /** A rendered prompt as a user turn, followed by the assistant turn primed with the stage's opening tag. */
  function Conversation(prompt: string, stage: Stage): (turns: seq<Message>)
    ensures |turns| == 2 && turns[0].role == User && turns[1].role == Assistant
    ensures turns[0].content == [Text(prompt)]
    ensures turns[1].content == [Text("<" + stage.TaskType() + ">")]
  {
    OpenTagNamesTask(stage);
    [Message(User, [Text(prompt)]), Message(Assistant, [Text(stage.OpenTag())])]
  }

  /** The priming tag is the task type in angle brackets. */
  lemma OpenTagNamesTask(stage: Stage)
    ensures stage.OpenTag() == "<" + stage.TaskType() + ">"
  {
    match stage
    case ExplanationStage =>
      assert "<" + "explanation" + ">" == "<explanation>";
    case TranslationStage =>
      assert "<" + "translation" + ">" == "<translation>";
  }

  function StageRequest(prompt: string, stage: Stage, modelSize: string): Request
  {
    BuildRequest(SYSTEM_PROMPT, Conversation(prompt, stage), modelSize, stage.TaskType())
  }

  /** The request of the explanation stage for a normalised slogan. */
  function ExplanationRequest(cfg: Config, source: string, prodCatalog: string): Request
  {
    StageRequest(ExplanationPrompt(cfg.wording, source, prodCatalog), ExplanationStage, cfg.modelSize)
  }

  /** The request of the translation stage, carrying the explanation returned for the same row. */
  function TranslationRequest(cfg: Config, source: string, prodCatalog: string, explanation: string): Request
  {
    StageRequest(TranslationPrompt(cfg.wording, source, prodCatalog, cfg.destinationLang, explanation),
                 TranslationStage, cfg.modelSize)
  }

  /** The text of a request's first turn. */
  function UserText(req: Request): string
  {
    if |req.messages| > 0 && |req.messages[0].content| > 0 && req.messages[0].content[0].Text?
    then req.messages[0].content[0].text
    else ""
  }

  /**
    Each stage sends exactly two turns: the rendered prompt as the user turn,
    then an assistant turn holding the opening tag whose closing tag is the
    stage's only stop sequence; the model id follows `model_size`.
   */
  lemma StageRequestShape(prompt: string, stage: Stage, modelSize: string)
    ensures var req := StageRequest(prompt, stage, modelSize);
      && req.system == ""
      && |req.messages| == 2
      && req.messages[0] == Message(User, [Text(prompt)])
      && req.messages[1] == Message(Assistant, [Text(stage.OpenTag())])
      && req.decoding.stopSequences == ["</" + stage.OpenTag()[1..]]
      && req.decoding.temperature == (if stage == ExplanationStage then 1.0 else 0.1)
      && req.modelId == (if modelSize == "haiku" then HAIKU_MODEL_ID else SONNET_MODEL_ID)
  {
    match stage
    case ExplanationStage =>
      assert "</" + "<explanation>"[1..] == "</explanation>";
    case TranslationStage =>
      assert "</" + "<translation>"[1..] == "</translation>";
  }

  /** `p` holds `v` starting at offset `at`. */
  predicate HoldsAt(p: string, at: nat, v: string)
  {
    at + |v| <= |p| && p[at..at + |v|] == v
  }

  /**
    The translation request's user turn holds, each in its own slot and
    verbatim, the explanation, the product category, the destination
    language and the normalised slogan.
   */
  lemma TranslationRequestCarriesInputs(cfg: Config, source: string, prodCatalog: string, explanation: string)
    ensures var p := UserText(TranslationRequest(cfg, source, prodCatalog, explanation));
      var w := cfg.wording;
      var atCatalog := |w.translateHead| + |explanation| + |w.afterExplanation|;
      var atLang := atCatalog + |prodCatalog| + |w.afterCatalog|;
      var atSource := atLang + |cfg.destinationLang| + |w.afterLang|;
      && HoldsAt(p, |w.translateHead|, explanation)
      && HoldsAt(p, atCatalog, prodCatalog)
      && HoldsAt(p, atLang, cfg.destinationLang)
      && HoldsAt(p, atSource, source)
      && |p| == atSource + |source| + |w.translateTail|
  {
    UserTextOfStage(TranslationPrompt(cfg.wording, source, prodCatalog, cfg.destinationLang, explanation),
                    TranslationStage, cfg.modelSize);
    TranslationPromptLayout(cfg.wording, source, prodCatalog, cfg.destinationLang, explanation);
  }

  /** The user turn of a stage's request is the prompt it was built from. */
  lemma UserTextOfStage(prompt: string, stage: Stage, modelSize: string)
    ensures UserText(StageRequest(prompt, stage, modelSize)) == prompt
  {
    var req := StageRequest(prompt, stage, modelSize);
    assert req.messages == Conversation(prompt, stage);
  }

  /** Where each value sits in the filled translation prompt. */
  lemma TranslationPromptLayout(w: Wording, source: string, prodCatalog: string, destinationLang: string,
                                explanation: string)
    ensures var p := TranslationPrompt(w, source, prodCatalog, destinationLang, explanation);
      var atCatalog := |w.translateHead| + |explanation| + |w.afterExplanation|;
      var atLang := atCatalog + |prodCatalog| + |w.afterCatalog|;
      var atSource := atLang + |destinationLang| + |w.afterLang|;
      && HoldsAt(p, |w.translateHead|, explanation)
      && HoldsAt(p, atCatalog, prodCatalog)
      && HoldsAt(p, atLang, destinationLang)
      && HoldsAt(p, atSource, source)
      && |p| == atSource + |source| + |w.translateTail|
  {
    var p := TranslationPrompt(w, source, prodCatalog, destinationLang, explanation);
    var a := w.translateHead + explanation;
    var b := a + w.afterExplanation + prodCatalog;
    var c := b + w.afterCatalog + destinationLang;
    var d := c + w.afterLang + source;
    PrefixOfJoin(d, w.translateTail, p);
    PrefixOfJoin(c, w.afterLang + source, d);
    PrefixOfJoin(b, w.afterCatalog + destinationLang, c);
    PrefixOfJoin(a, w.afterExplanation + prodCatalog, b);
    HoldsAtJoin(p, w.translateHead, explanation);
    HoldsAtJoin(p, a + w.afterExplanation, prodCatalog);
    HoldsAtJoin(p, b + w.afterCatalog, destinationLang);
    HoldsAtJoin(p, c + w.afterLang, source);
  }

  /** A prefix of `x + y` that is itself a prefix of `p`: `x` is a prefix of `p`. */
  lemma PrefixOfJoin(x: string, y: string, p: string)
    requires x + y <= p
    ensures x <= p
  {
    assert p[..|x|] == (x + y)[..|x|];
  }

  /** When `q + v` opens `p`, `p` holds `v` right after `q`. */
  lemma HoldsAtJoin(p: string, q: string, v: string)
    requires q + v <= p
    ensures HoldsAt(p, |q|, v)
  {
    assert p[|q|..|q| + |v|] == (q + v)[|q|..];
  }

  /** The explanation request's user turn holds the product category and the normalised slogan verbatim. */
  lemma ExplanationRequestCarriesInputs(cfg: Config, source: string, prodCatalog: string)
    ensures var p := UserText(ExplanationRequest(cfg, source, prodCatalog));
      var w := cfg.wording;
      var atSource := |w.explanationHead| + |prodCatalog| + |w.explanationMid|;
      && HoldsAt(p, |w.explanationHead|, prodCatalog)
      && HoldsAt(p, atSource, source)
      && |p| == atSource + |source| + |w.explanationTail|
  {
    UserTextOfStage(ExplanationPrompt(cfg.wording, source, prodCatalog), ExplanationStage, cfg.modelSize);
    ExplanationPromptLayout(cfg.wording, source, prodCatalog);
  }

  /** Where each value sits in the filled explanation prompt. */
  lemma ExplanationPromptLayout(w: Wording, source: string, prodCatalog: string)
    ensures var p := ExplanationPrompt(w, source, prodCatalog);
      var atSource := |w.explanationHead| + |prodCatalog| + |w.explanationMid|;
      && HoldsAt(p, |w.explanationHead|, prodCatalog)
      && HoldsAt(p, atSource, source)
      && |p| == atSource + |source| + |w.explanationTail|
  {
    var p := ExplanationPrompt(w, source, prodCatalog);
    var a := w.explanationHead + prodCatalog;
    var b := a + w.explanationMid + source;
    PrefixOfJoin(b, w.explanationTail, p);
    PrefixOfJoin(a, w.explanationMid + source, b);
    HoldsAtJoin(p, w.explanationHead, prodCatalog);
    HoldsAtJoin(p, a + w.explanationMid, source);
  }

  /**
    One row against a backend that answers `respond` and has already
    received `calls`: the outcome and the transcript afterwards.
   */
  function RowSpec(respond: (seq<Request>, Request) -> Reply, calls: seq<Request>, row: SourceRow, cfg: Config)
    : (out: (Result<Record, Error>, seq<Request>))
    ensures |calls| < |out.1| <= |calls| + 2 && out.1[..|calls|] == calls
    ensures out.1[|calls|] == ExplanationRequest(cfg, ReplacePunctuation(row.source), row.prodCatalog)
    ensures out.0.Success? ==> |out.1| == |calls| + 2 && out.0.value.source == ReplacePunctuation(row.source)
  {
    var source := ReplacePunctuation(row.source);
    var explanationReq := ExplanationRequest(cfg, source, row.prodCatalog);
    var explanation := ResponseText(respond(calls, explanationReq));
    if explanation.Failure? then (Failure(explanation.error), calls + [explanationReq])
    else
      var translationReq := TranslationRequest(cfg, source, row.prodCatalog, explanation.value);
      var translation := ResponseText(respond(calls + [explanationReq], translationReq));
      if translation.Failure? then (Failure(translation.error), calls + [explanationReq] + [translationReq])
      else (Success(Record(source, explanation.value, translation.value)), calls + [explanationReq] + [translationReq])
  }

  /**
    Row `row` was served at position `at` of transcript `calls` and produced
    `rec`: the explanation request comes first, its answer is the record's
    explanation, and the translation request that follows carries exactly
    that explanation; its answer is the record's translation.
   */
  predicate RowServed(respond: (seq<Request>, Request) -> Reply, calls: seq<Request>, at: nat, row: SourceRow, rec: Record, cfg: Config)
  {
    && at + 2 <= |calls|
    && rec.source == ReplacePunctuation(row.source)
    && calls[at] == ExplanationRequest(cfg, rec.source, row.prodCatalog)
    && ResponseText(respond(calls[..at], calls[at])) == Success(rec.think)
    && calls[at + 1] == TranslationRequest(cfg, rec.source, row.prodCatalog, rec.think)
    && ResponseText(respond(calls[..at + 1], calls[at + 1])) == Success(rec.destination)
  }

  /** A row that succeeds adds its two requests, explanation first, and nothing else. */
  lemma RowSuccess(respond: (seq<Request>, Request) -> Reply, calls: seq<Request>, row: SourceRow, cfg: Config)
    requires RowSpec(respond, calls, row, cfg).0.Success?
    ensures var (r, after) := RowSpec(respond, calls, row, cfg);
      && |after| == |calls| + 2 && after[..|calls|] == calls
      && RowServed(respond, after, |calls|, row, r.value, cfg)
  {
    var (r, after) := RowSpec(respond, calls, row, cfg);
    assert after[..|calls|] == calls;
    assert after[..|calls| + 1] == calls + [after[|calls|]];
  }

  /**
    A row that fails either failed at its explanation call, and then no
    translation request was sent, or failed at the translation call made
    with the explanation that call returned.
   */
  lemma RowFailure(respond: (seq<Request>, Request) -> Reply, calls: seq<Request>, row: SourceRow, cfg: Config)
    requires RowSpec(respond, calls, row, cfg).0.Failure?
    ensures var (r, after) := RowSpec(respond, calls, row, cfg);
      var source := ReplacePunctuation(row.source);
      var explanationReq := ExplanationRequest(cfg, source, row.prodCatalog);
      var explanation := ResponseText(respond(calls, explanationReq));
      && after[..|calls|] == calls
      && (|after| == |calls| + 1 <==> explanation.Failure?)
      && (explanation.Failure? ==> after == calls + [explanationReq] && r.error == explanation.error)
      && (explanation.Success? ==>
            var translationReq := TranslationRequest(cfg, source, row.prodCatalog, explanation.value);
            && after == calls + [explanationReq, translationReq]
            && ResponseText(respond(calls + [explanationReq], translationReq)) == Failure(r.error))
  {
    var (r, after) := RowSpec(respond, calls, row, cfg);
    assert after[..|calls|] == calls;
  }

  /** Whether a row is served at some position depends only on the transcript up to its own requests. */
  lemma RowServedPrefix(respond: (seq<Request>, Request) -> Reply, calls: seq<Request>, at: nat, row: SourceRow,
                        rec: Record, cfg: Config)
    requires at + 2 <= |calls|
    requires RowServed(respond, calls[..at + 2], at, row, rec, cfg)
    ensures RowServed(respond, calls, at, row, rec, cfg)
  {
    assert calls[..at + 2][..at] == calls[..at];
    assert calls[..at + 2][..at + 1] == calls[..at + 1];
  }

  /** Processing of one row on a given transcript: the row's outcome and the transcript afterwards. */
  type RowStep = (seq<Request>, SourceRow) -> (Result<Record, Error>, seq<Request>)

  /** The pipeline's row step against a backend that answers `respond`. */
  function PipelineStep(respond: (seq<Request>, Request) -> Reply, cfg: Config): RowStep
  {
    (calls: seq<Request>, row: SourceRow) => RowSpec(respond, calls, row, cfg)
  }

  /** A step that succeeds adds exactly two requests to the transcript and keeps the earlier ones. */
  ghost predicate AddsTwoOnSuccess(step: RowStep)
  {
    forall calls, row :: step(calls, row).0.Success? ==>
      |step(calls, row).1| == |calls| + 2 && step(calls, row).1[..|calls|] == calls
  }

  lemma PipelineStepAddsTwo(respond: (seq<Request>, Request) -> Reply, cfg: Config)
    ensures AddsTwoOnSuccess(PipelineStep(respond, cfg))
  {
    var step := PipelineStep(respond, cfg);
    forall calls, row | step(calls, row).0.Success?
      ensures |step(calls, row).1| == |calls| + 2 && step(calls, row).1[..|calls|] == calls
    {
      RowSuccess(respond, calls, row, cfg);
    }
  }

  /**
    The loop of `process_excel` over a row step: rows in input order,
    records appended one per row, stopping at the first row that fails.
   */
  function Batch(step: RowStep, calls: seq<Request>, rows: seq<SourceRow>): (out: (Result<seq<Record>, Error>, seq<Request>))
    ensures out.0.Success? ==> |out.0.value| == |rows|
  {
    if rows == [] then (Success([]), calls)
    else
      var before := Batch(step, calls, rows[..|rows| - 1]);
      if before.0.Failure? then before
      else
        var last := step(before.1, rows[|rows| - 1]);
        if last.0.Failure? then (Failure(last.0.error), last.1)
        else (Success(before.0.value + [last.0.value]), last.1)
  }

  /** The whole batch against a backend that answers `respond` and has already received `calls`. */
  function BatchSpec(respond: (seq<Request>, Request) -> Reply, calls: seq<Request>, rows: seq<SourceRow>, cfg: Config)
    : (out: (Result<seq<Record>, Error>, seq<Request>))
    ensures out.0.Success? ==> |out.0.value| == |rows| && |out.1| == |calls| + 2 * |rows| && out.1[..|calls|] == calls
  {
    var step := PipelineStep(respond, cfg);
    var out := Batch(step, calls, rows);
    if out.0.Success? then
      PipelineStepAddsTwo(respond, cfg);
      BatchSuccess(step, calls, rows);
      out
    else out
  }

  /**
    A batch that succeeds yields one record per row, in row order, after
    exactly two requests per row: record `i` is what row `i` yields when
    processed on the transcript left by rows `0..i-1`, and its two requests
    are the next two of the transcript.
   */
  lemma {:induction false} BatchSuccess(step: RowStep, calls: seq<Request>, rows: seq<SourceRow>)
    requires AddsTwoOnSuccess(step)
    requires Batch(step, calls, rows).0.Success?
    ensures var (r, after) := Batch(step, calls, rows);
      && |r.value| == |rows|
      && |after| == |calls| + 2 * |rows| && after[..|calls|] == calls
      && forall i :: 0 <= i < |rows| ==>
           step(after[..|calls| + 2 * i], rows[i]) == (Success(r.value[i]), after[..|calls| + 2 * i + 2])
  {
    if rows != [] {
      var init := rows[..|rows| - 1];
      var before := Batch(step, calls, init);
      BatchSuccess(step, calls, init);
      var last := step(before.1, rows[|rows| - 1]);
      var (r, after) := Batch(step, calls, rows);
      assert after == last.1 && r.value == before.0.value + [last.0.value];
      forall i | 0 <= i < |rows|
        ensures step(after[..|calls| + 2 * i], rows[i]) == (Success(r.value[i]), after[..|calls| + 2 * i + 2])
      {
        if i < |init| {
          assert rows[i] == init[i] && r.value[i] == before.0.value[i];
          assert after[..|calls| + 2 * i] == before.1[..|calls| + 2 * i];
          assert after[..|calls| + 2 * i + 2] == before.1[..|calls| + 2 * i + 2];
        } else {
          assert after[..|calls| + 2 * i] == before.1;
          assert after[..|calls| + 2 * i + 2] == after;
        }
      }
    }
  }

  /**
    In a batch that succeeds, row `i` was served by requests `2i` and
    `2i + 1` after the initial transcript: explanation first, its answer is
    record `i`'s explanation, and the translation request carries exactly that
    explanation; its answer is record `i`'s translation.
   */
  lemma BatchRowServed(respond: (seq<Request>, Request) -> Reply, calls: seq<Request>, rows: seq<SourceRow>, i: nat, cfg: Config)
    requires i < |rows|
    requires BatchSpec(respond, calls, rows, cfg).0.Success?
    ensures var (r, after) := BatchSpec(respond, calls, rows, cfg);
      && |r.value| == |rows| && |after| == |calls| + 2 * |rows|
      && RowServed(respond, after, |calls| + 2 * i, rows[i], r.value[i], cfg)
  {
    var step := PipelineStep(respond, cfg);
    PipelineStepAddsTwo(respond, cfg);
    BatchSuccess(step, calls, rows);
    var (r, after) := Batch(step, calls, rows);
    RowServedWithin(respond, after, |calls| + 2 * i, rows[i], r.value[i], cfg);
  }

  /** A row whose two requests sit at offset `at` of a transcript, on the transcript before them, is served there. */
  lemma RowServedWithin(respond: (seq<Request>, Request) -> Reply, after: seq<Request>, at: nat,
                        row: SourceRow, rec: Record, cfg: Config)
    requires at + 2 <= |after|
    requires PipelineStep(respond, cfg)(after[..at], row) == (Success(rec), after[..at + 2])
    ensures RowServed(respond, after, at, row, rec, cfg)
  {
    RowSuccess(respond, after[..at], row, cfg);
    RowServedPrefix(respond, after, at, row, rec, cfg);
  }

  /** Once a prefix of the batch has failed, the rows after it are never sent and the outcome stays that failure. */
  lemma {:induction false} BatchFailureSticks(step: RowStep, calls: seq<Request>, rows: seq<SourceRow>, k: nat)
    requires k <= |rows|
    requires Batch(step, calls, rows[..k]).0.Failure?
    ensures Batch(step, calls, rows) == Batch(step, calls, rows[..k])
  {
    if k < |rows| {
      var init := rows[..|rows| - 1];
      assert init[..k] == rows[..k];
      BatchFailureSticks(step, calls, init, k);
    } else {
      assert rows[..k] == rows;
    }
  }

  /** The batch's outcome is that of row `k` failing after every earlier row succeeded. */
  predicate FailedAt(step: RowStep, calls: seq<Request>, rows: seq<SourceRow>, k: nat)
    requires k < |rows|
  {
    var before := Batch(step, calls, rows[..k]);
    var row := step(before.1, rows[k]);
    && before.0.Success?
    && row.0.Failure?
    && Batch(step, calls, rows) == (Failure(row.0.error), row.1)
  }

  /**
    A batch that fails failed at some row `k`: the rows before it all
    succeeded, row `k` raised the reported error, and no request was sent
    after the one that failed.
   */
  lemma {:induction false} BatchFailure(step: RowStep, calls: seq<Request>, rows: seq<SourceRow>)
    requires Batch(step, calls, rows).0.Failure?
    ensures exists k :: 0 <= k < |rows| && FailedAt(step, calls, rows, k)
  {
    var init := rows[..|rows| - 1];
    var before := Batch(step, calls, init);
    if before.0.Failure? {
      BatchFailure(step, calls, init);
      var k :| 0 <= k < |init| && FailedAt(step, calls, init, k);
      assert init[..k] == rows[..k] && init[k] == rows[k];
      BatchFailureSticks(step, calls, rows, |init|);
      assert FailedAt(step, calls, rows, k);
    } else {
      assert FailedAt(step, calls, rows, |rows| - 1);
    }
  }

  /**
    The worked example: the slogan 易如反掌 for a snack bar, into English.
    The slogan has nothing to normalise; the explanation request comes first
    and holds the slogan and the category; the translation request that
    follows holds the returned explanation and the target language.
   */
  lemma SnackBarScenario(respond: (seq<Request>, Request) -> Reply, calls: seq<Request>, row: SourceRow, cfg: Config)
    requires row.source == "易如反掌" && row.prodCatalog == "snack bar" && cfg.destinationLang == "English"
    requires RowSpec(respond, calls, row, cfg).0.Success?
    ensures var (r, after) := RowSpec(respond, calls, row, cfg);
      var w := cfg.wording;
      && |after| == |calls| + 2
      && r.value.source == row.source
      && RowServed(respond, after, |calls|, row, r.value, cfg)
      && HoldsAt(UserText(after[|calls|]), |w.explanationHead|, row.prodCatalog)
      && HoldsAt(UserText(after[|calls|]), |w.explanationHead| + |row.prodCatalog| + |w.explanationMid|, row.source)
      && HoldsAt(UserText(after[|calls| + 1]), |w.translateHead|, r.value.think)
      && HoldsAt(UserText(after[|calls| + 1]),
                 |w.translateHead| + |r.value.think| + |w.afterExplanation| + |row.prodCatalog| + |w.afterCatalog|,
                 cfg.destinationLang)
  {
    var (r, after) := RowSpec(respond, calls, row, cfg);
    NothingToNormalize(row.source);
    RowSuccess(respond, calls, row, cfg);
    ExplanationRequestCarriesInputs(cfg, row.source, row.prodCatalog);
    TranslationRequestCarriesInputs(cfg, row.source, row.prodCatalog, r.value.think);
  }

  lemma NothingToNormalize(s: string)
    requires s == "易如反掌"
    ensures ReplacePunctuation(s) == s
  {
    assert FULL_WIDTH_COMMA !in s && FULL_WIDTH_PERIOD !in s;
  }

  /** The output workbook: no table until one is written. */
  class OutputFile {
    var table: Option<seq<Record>>

    constructor ()
      ensures table == None
    {
      table := None;
    }

    /** `to_excel`: the whole table, written at once. */
    method ToExcel(records: seq<Record>)
      modifies this
      ensures table == Some(records)
    {
      table := Some(records);
    }
  }

  /** The body of the loop for one row: normalise, explain, translate. */
  method RunRow(backend: Backend, row: SourceRow, cfg: Config) returns (r: Result<Record, Error>)
    modifies backend
    ensures (r, backend.calls) == RowSpec(backend.respond, old(backend.calls), row, cfg)
  {
    var source := ReplacePunctuation(row.source);
    var explanationTurns := Conversation(ExplanationPrompt(cfg.wording, source, row.prodCatalog), ExplanationStage);
    var explanation := InvokeClaudeMsg(backend, SYSTEM_PROMPT, explanationTurns, cfg.modelSize, "explanation");
    if explanation.Failure? {
      return Failure(explanation.error);
    }
    var translationPrompt :=
      TranslationPrompt(cfg.wording, source, row.prodCatalog, cfg.destinationLang, explanation.value);
    var translationTurns := Conversation(translationPrompt, TranslationStage);
    var translation := InvokeClaudeMsg(backend, SYSTEM_PROMPT, translationTurns, cfg.modelSize, "translation");
    if translation.Failure? {
      return Failure(translation.error);
    }
    r := Success(Record(source, explanation.value, translation.value));
  }

  /**
    The loop of `process_excel`: rows in order, one record appended per row;
    the table is written only after the last row, so a failure leaves
    `output` as it was.
   */
  method RunBatch(backend: Backend, output: OutputFile, rows: seq<SourceRow>, cfg: Config)
    returns (r: Result<seq<Record>, Error>)
    modifies backend, output
    ensures (r, backend.calls) == BatchSpec(backend.respond, old(backend.calls), rows, cfg)
    ensures output.table == if r.Success? then Some(r.value) else old(output.table)
  {
    var records: seq<Record> := [];
    var i := 0;
    while i < |rows|
      invariant 0 <= i <= |rows|
      invariant (Success(records), backend.calls) == BatchSpec(backend.respond, old(backend.calls), rows[..i], cfg)
      invariant output.table == old(output.table)
    {
      var rec := RunRow(backend, rows[i], cfg);
      assert rows[..i + 1][..i] == rows[..i];
      if rec.Failure? {
        BatchFailureSticks(PipelineStep(backend.respond, cfg), old(backend.calls), rows, i + 1);
        return Failure(rec.error);
      }
      records := records + [rec.value];
      i := i + 1;
    }
    assert rows[..i] == rows;
    output.ToExcel(records);
    r := Success(records);
  }

  /** `process_excel` with the program's own template wording. */
  method ProcessExcel(backend: Backend, output: OutputFile, rows: seq<SourceRow>, destinationLang: string,
                      modelSize: string) returns (r: Result<seq<Record>, Error>)
    modifies backend, output
    ensures (r, backend.calls)
         == BatchSpec(backend.respond, old(backend.calls), rows, Config(SOURCE_WORDING, destinationLang, modelSize))
    ensures output.table == if r.Success? then Some(r.value) else old(output.table)
  {
    r := RunBatch(backend, output, rows, Config(SOURCE_WORDING, destinationLang, modelSize));
  }
}
