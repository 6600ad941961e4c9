# Two-stage slogan translation, modelled in Dafny

The program translates advertising slogans with a large language model, in two
stages per slogan. A spreadsheet row gives a slogan (`source`) and the category
of the product it advertises (`prod_catalog`). For each row, the program does
four things in order:

1. It normalises the slogan's punctuation. Each full-width comma `，` becomes
   `", "` and each full-width period `。` is deleted.
2. It fills the explanation template and asks the model for a plain-language
   explanation of the slogan. The call uses the explanation decoding settings:
   temperature 1.0, stopping at `</explanation>`.
3. It fills the translation template with that explanation, the category, the
   target language and the slogan. It then asks the model for the translation,
   using temperature 0.1 and stopping at `</translation>`.
4. It appends a record `(source, think, destination)`.

The table is written once, after the last row. Any failed call ends the run
before the table is written.

The project has five modules:

- `Wrappers`: the `Option` and `Result` types. A `Failure` stands for an
  exception raised by the modelled code.
- `Normalizer`: `replace_punctuation`.
- `Templates`: the two templates and their rendering by `str.format`. A
  template is a sequence of literal text and named fields. The template text is
  a `Wording` record, and `SOURCE_WORDING` holds the program's own text.
- `Invocation`: `invoke_claude_msg`. It picks the model id and the decoding
  parameters, builds the request, sends it and reads the text of the reply's
  first content block.
  - The inference service is a `Backend` object. Its fixed answer function
    `respond` sees the request and every earlier request, and its `calls`
    field records what it was sent.
- `Pipeline`: one row (`RunRow`, specified by `RowSpec`) and the loop of
  `process_excel` (`RunBatch`/`ProcessExcel`, specified by `BatchSpec`).
  - `Batch` is the loop written over any row step, so the facts about order
    and failure are proved once for every step.
  - `OutputFile` holds the written table.

All source paths below are relative to the repository root.

## Model

| member | source | states |
|---|---|---|
| Normalizer.Replace | translation-chain-prompts.py:187 | `str.replace` with a one-character needle: text without the needle is returned unchanged, and every character of the result comes from the replacement or is a non-needle character of the input |
| Normalizer.ReplacePunctuation | translation-chain-prompts.py:183-188 | no full-width comma or full-width period is left after normalisation; a slogan containing neither is returned unchanged |
| Normalizer.ReplacePunctuationIsOnePass | translation-chain-prompts.py:187 | the two chained replacements equal a single left-to-right pass that maps `，` to `", "`, deletes `。` and keeps every other character |
| Normalizer.ReplacePunctuationIdempotent | translation-chain-prompts.py:183-188 | normalising an already normalised slogan changes nothing |
| Normalizer.ReplacePunctuationLength | translation-chain-prompts.py:187 | the result is longer than the input by the number of full-width commas and shorter by the number of full-width periods |
| Normalizer.OnePassLength | translation-chain-prompts.py:187 | the same length count for the one-pass reference definition |
| Normalizer.ReplaceAppend | translation-chain-prompts.py:187 | replacing in a concatenation is the concatenation of the replacements |
| Normalizer.ReplacePunctuationAppend | translation-chain-prompts.py:183-188 | normalisation distributes over concatenation of slogan fragments |
| Normalizer.ReplacePunctuationExample | translation-chain-prompts.py:183-188 | `"A，B。"` normalises to `"A, B"` |
| Normalizer.PairOfChars | translation-chain-prompts.py:187 | a two-character text normalises character by character |
| Normalizer.SingleChar | translation-chain-prompts.py:187 | one character normalises as the one-pass reference says |
| Templates.Render | translation-chain-prompts.py:128-130 | `format` succeeds exactly when every field the template names has a value; otherwise it reports a field that is named and missing (the KeyError) |
| Templates.RenderReportsFirstMissing | translation-chain-prompts.py:128-130 | the reported field is the leftmost missing one: every field before its slot has a value |
| Templates.FieldsOfSplit | translation-chain-prompts.py:13-42 | the fields of a template are those of any prefix plus those of the matching suffix |
| Templates.RenderAppend | translation-chain-prompts.py:128-130 | rendering a concatenation of templates concatenates their renderings |
| Templates.RenderIgnoresUnusedFields | translation-chain-prompts.py:128-130 | values for fields the template does not name do not change the rendering, whether it succeeds or reports the same missing field |
| Templates.FieldsOfAppend | translation-chain-prompts.py:13-42 | the fields of a concatenation are the union of the parts' fields |
| Templates.OccurrencesAppend | translation-chain-prompts.py:13-42 | the field counts of a concatenation add up |
| Templates.LitSlotFacts | translation-chain-prompts.py:13-42 | literal text followed by one field names only that field, once, and renders to the text followed by the value |
| Templates.LitFacts | translation-chain-prompts.py:13-42 | a literal piece names no field and renders to itself |
| Templates.AppendFacts | translation-chain-prompts.py:13-42 | fields, field counts and renderings of two complete pieces add up when they are joined |
| Templates.ExplanationShapeRender | translation-chain-prompts.py:13-16 | the explanation template names the category and the slogan once each and no other field; rendering puts each value verbatim in its slot |
| Templates.TranslateShapeRender | translation-chain-prompts.py:18-42 | the translation template names explanation, category, target language and slogan exactly once each, in that order; rendering puts each value verbatim in its slot |
| Templates.ExplanationPrompt | translation-chain-prompts.py:128-130 | the filled explanation prompt is the template text with the category and then the slogan inserted verbatim |
| Templates.SourceTemplateFields | translation-chain-prompts.py:13-42 | `SOURCE_WORDING`, the program's two template texts: the explanation template names the category and the slogan once each and nothing else, and the translation template names explanation, category, target language and slogan once each |
| Templates.TranslationPrompt | translation-chain-prompts.py:151-156 | the filled translation prompt is the template text with explanation, category, target language and slogan inserted verbatim, in that order |
| Invocation.ModelId | translation-chain-prompts.py:51-56 | `"haiku"` selects the haiku model id; every other value, `"sonnet"` included, selects the sonnet model id |
| Invocation.ModelIdChoice | translation-chain-prompts.py:51-56 | the haiku id is chosen if and only if `model_size` is `"haiku"`, and the sonnet id if and only if it is not |
| Invocation.BuildRequest | translation-chain-prompts.py:51-105 | `claude3_params`: the system prompt and turns are passed through unchanged. The model id is haiku's exactly for `"haiku"`. The fixed parameters are in every request, and the stop sequence and temperature are the explanation task's exactly for `"explanation"` |
| Invocation.DecodingFor | translation-chain-prompts.py:58-105 | every branch uses version `bedrock-2023-05-31`, 20000 max tokens, top_p 0.5 and top_k 50. `"explanation"` stops at `</explanation>` with temperature 1.0; `"translation"` and every other task type stop at `</translation>` with temperature 0.1 |
| Invocation.ResponseText | translation-chain-prompts.py:108-109 | the reply yields text exactly when it parsed and its first content block is text, and then the text is that block's. Otherwise the call raises, and the error is `BackendUnavailable` exactly when the service was unreachable |
| Invocation.Backend.InvokeModel | translation-chain-prompts.py:107 | the request is appended to the transcript, and the reply is what the service answers given the earlier requests |
| Invocation.InvokeClaudeMsg | translation-chain-prompts.py:45-109 | exactly one request is sent: model id from the size, decoding parameters from the task type. The result is the text of the reply to it |
| Pipeline.Conversation | translation-chain-prompts.py:122-164 | the `filled_template` list has two turns, user then assistant. The user turn is the rendered prompt, and the assistant turn is the task type in angle brackets |
| Pipeline.OpenTagNamesTask | translation-chain-prompts.py:134-163 | each stage primes the assistant with `<` + its task type + `>` |
| Pipeline.StageRequestShape | translation-chain-prompts.py:122-142 | each stage sends an empty system prompt and exactly two turns: the rendered prompt as the user turn, then an assistant turn with the opening tag. The only stop sequence is the matching closing tag, the temperature follows the stage and the model id follows the size |
| Pipeline.UserTextOfStage | translation-chain-prompts.py:122-133 | the user turn of a stage's request is exactly the prompt it was built from |
| Pipeline.ExplanationPromptLayout | translation-chain-prompts.py:128-130 | in the filled explanation prompt, the category and then the slogan sit verbatim at offsets fixed by the template text |
| Pipeline.ExplanationRequestCarriesInputs | translation-chain-prompts.py:122-133 | the explanation request's user turn holds the category and the normalised slogan verbatim, at fixed offsets given by the template text |
| Pipeline.TranslationPromptLayout | translation-chain-prompts.py:151-156 | in the filled translation prompt, the explanation, category, target language and slogan sit verbatim, in that order, at offsets fixed by the template text |
| Pipeline.TranslationRequestCarriesInputs | translation-chain-prompts.py:145-159 | the translation request's user turn holds the explanation, the category, the target language and the normalised slogan verbatim, each at its own offset |
| Pipeline.RowSpec | translation-chain-prompts.py:120-178 | the loop body on one row: it sends one or two requests after the earlier ones, and the first is always the explanation request for the normalised slogan. When it succeeds it sends exactly two, and the record's `source` is the normalised slogan |
| Pipeline.RowSuccess | translation-chain-prompts.py:119-178 | a row that succeeds sends exactly two requests after the earlier ones. The explanation request comes first, and its answer is the record's `think`. The translation request comes next, carrying that exact explanation, and its answer is the record's `destination`. The record's `source` is the normalised slogan |
| Pipeline.RowFailure | translation-chain-prompts.py:140-167 | a row that fails either failed at the explanation call, and then sends no translation request, or failed at the translation call made with the returned explanation. The error is the one that call raised |
| Pipeline.RowServedPrefix | translation-chain-prompts.py:119-178 | whether a row was served at a position depends only on the transcript up to its own two requests |
| Pipeline.RowServedWithin | translation-chain-prompts.py:119-178 | a row step that succeeds at an offset of the transcript means the row was served there |
| Pipeline.PipelineStepAddsTwo | translation-chain-prompts.py:119-178 | every row that succeeds adds exactly two requests and keeps the earlier ones |
| Pipeline.Batch | translation-chain-prompts.py:119-180 | the `for` loop over any row step: when it succeeds there is exactly one record per row |
| Pipeline.BatchSpec | translation-chain-prompts.py:119-180 | the loop over the pipeline's rows: when it succeeds there is one record per row, exactly two requests were sent per row, and the earlier requests are unchanged |
| Pipeline.BatchSuccess | translation-chain-prompts.py:119-180 | a batch that succeeds gives one record per row, in row order, after exactly two requests per row. Record `i` is what row `i` yields on the transcript left by rows `0..i-1` |
| Pipeline.BatchRowServed | translation-chain-prompts.py:119-180 | in a successful run, row `i` is served by requests `2i` and `2i+1`: explanation first, then the translation carrying that explanation |
| Pipeline.BatchFailureSticks | translation-chain-prompts.py:119-180 | once a prefix of the rows has failed, no later row is processed and the outcome stays that failure |
| Pipeline.BatchFailure | translation-chain-prompts.py:119-180 | a failing batch failed at some row `k`. Every earlier row succeeded, row `k` raised the reported error, and nothing was sent after it |
| Pipeline.SnackBarScenario | translation-chain-prompts.py:119-167 | for slogan 易如反掌, category "snack bar" and target English, the slogan is left unchanged. The explanation request holds the category and slogan, and the translation request holds the returned explanation and "English" |
| Pipeline.NothingToNormalize | translation-chain-prompts.py:183-188 | 易如反掌 has nothing to normalise |
| Pipeline.OutputFile.ToExcel | translation-chain-prompts.py:180 | the whole table is written at once |
| Pipeline.RunRow | translation-chain-prompts.py:120-178 | one row's body: the outcome and the requests sent are those of `RowSpec` |
| Pipeline.RunBatch | translation-chain-prompts.py:119-180 | the loop's outcome and requests are those of `BatchSpec`. The table is written only when every row succeeded; after a failure the output is left as it was |
| Pipeline.ProcessExcel | translation-chain-prompts.py:112-180 | `process_excel` with the program's own templates, empty system prompt, target language and model size, as `RunBatch` states |

## Left out

- Reading the input workbook and writing the output workbook with pandas are not modelled. The input is a sequence of `SourceRow`s, and writing is `OutputFile.ToExcel`.
- Cells that are not strings are not modelled: an empty cell is read as a float NaN, and `replace` on it raises. Both columns are taken to be strings.
- The boto3 client and the network are not modelled. The service is the `respond` function of a `Backend`. It may answer each request differently depending on the requests before it, but it is otherwise arbitrary.
- Serialisation of the request body to JSON and parsing of the reply are not modelled. The body is the `Request` record. A reply is either parsed content blocks, an unparseable body, or no answer. The `"type": "text"` key of each content block is the `Text` constructor.
- Each request is recorded in the `calls` transcript, which exists only so the contracts can state the order and content of requests. The program itself keeps no such list.
- The `verbose` printing and the progress `print` calls are not modelled, because they do not affect any result.
- The timestamp in the output file name and the `__main__` block's fixed arguments are not modelled.
- `top_p`, `temperature` and the other real-valued parameters are exact `real`s and are only compared, never computed with.
- Templates.Render: `str.format` parsing of the template text is not modelled. Escaped braces, format specs, conversions and positional fields do not occur in either template. The templates are held already split into literal text and named fields.
- Templates.SOURCE_WORDING: nothing is proved about the particular words of the two templates. Every property of the pipeline is proved for any `Wording`, and `ProcessExcel` instantiates it with the program's text.
- Pipeline.ProcessExcel: an exception raised by a call propagates out of `process_excel`. The model returns `Failure` with the error instead, and it leaves the table unwritten, as the program does.
- The docstring of `replace_punctuation` speaks of replacing both marks with their English counterparts. The code deletes the full-width period instead of turning it into `.`. The model follows the code.
