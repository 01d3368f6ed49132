# Food image classification gateway: a verified model of its decision logic

The gateway (`backend/food.py`) is a small Flask service. It takes an uploaded food image, forwards
it with a fixed instruction to a Gemini model and returns the food type, freshness and
deliverability advice the model reports. Most of the file is plumbing. This project models the
parts that decide things:

- **Credential resolution** (`Startup.ResolveKey`). `GEMINI_API_KEY or VITE_GEMINI_API_KEY` is
  read, and an empty value or the sample placeholder `your-gemini-api-key-here` counts as no key.
- **Model selection at start-up** (`Startup.SelectModel`, specified by `Startup.SelectFrom`).
  The provider's listing is filtered to models advertising `generateContent`. A `for` loop with
  `break` takes the first whose name contains `vision` or `image`, and falls back to the first
  capable model. No key, a failed listing or no capable model selects nothing.
  `Startup.Configure` runs both steps in order.
- **The `/analyze` handler** (`Analyze.Analyze`, `Analyze.MainPath`). It checks in this order:
  missing `image` field (400), missing or empty filename (400), no key (200 demo reply), no model
  (200 demo reply). Then the main path decodes the image, calls the provider, cleans and parses
  its text, and maps the fields. A parse failure gives a 500 with its own message. Any other
  failure gives a 500 whose error is "Unexpected error during analysis: " followed by the
  exception text. This includes a parsed value that is not an object, which has no `get`.
- **Response cleaning and field mapping** (`Analyze.Clean`, `Analyze.MapFields`). Cleaning is
  `strip()`, then delete every "```json", then delete every "```". Mapping copies `food_type`,
  `freshness` and `deliverability` into `food_type`, `freshness` and `advice`. Each field
  defaults to "Unknown" on its own.

The Python string operations the code relies on are modelled in `Text`:
- `str.strip()`, with Python's Unicode whitespace set;
- the substring test `p in t`;
- `str.replace(p, "")`, which scans left to right and deletes non-overlapping occurrences.

The foreign calls are inputs, gathered in `Analyze.Services`: PIL's `Image.open`, the provider's
`generate_content` and `json.loads`. The decoder and the provider call either return a value or
raise an exception with a text. `json.loads` returns a value, raises `JSONDecodeError`, or raises
some other exception with a text (a `RecursionError` on deeply nested input, for example). The provider's model listing is a function of the key, so it is consulted only when a
key exists. The two environment variables are optional strings.

Files: `wrappers.dfy` (Option), `text.dfy`, `startup.dfy`, `analyze.dfy`.

Cleaning is not idempotent: whitespace uncovered by deleting a fence is not stripped again.
`Analyze.CleanKeepsUncoveredSpace` shows this: for any whitespace character c,
"```json" + c + "```" cleans to c, and c cleans to "".

## Model

| member | source | states |
|---|---|---|
| `Startup.ResolveKey` | backend/food.py:23-28 | The resolved key is never empty and never the placeholder. A non-empty primary variable decides alone: it is the key, or there is no key if it holds the placeholder, which does not fall through to the fallback. Only an unset or empty primary lets the fallback be used, under the same rules. |
| `Startup.GenerateCapable` | backend/food.py:123-126 | The filtered listing holds only models advertising `generateContent`, all from the listing, and it keeps every such model. |
| `Startup.FirstHinted` | backend/food.py:128-129 | Returns the index of the first model whose name contains "vision" or "image", or none when no name does. |
| `Startup.SelectModel` | backend/food.py:119-141 | The loop with `break` and the fallback select exactly what the policy `SelectFrom` selects. Without a key, or when listing raised, no model is selected. |
| `Startup.Configure` | backend/food.py:119-143 | Start-up resolves the key first and selects a model only with a key. The invariant holds: no key means no model. |
| `Startup.SelectedSupportsGenerate` | backend/food.py:123-135 | A selected name belongs to a listed model that advertises `generateContent`. |
| `Startup.PrefersFirstHinted` | backend/food.py:127-132 | The first generate-capable model in listing order whose name contains "vision" or "image" is selected. |
| `Startup.FallsBackToFirstCapable` | backend/food.py:133-136 | If no capable model has an image hint, the first generate-capable model in listing order is selected. |
| `Startup.NoneOnlyWithoutCapable` | backend/food.py:133-138 | A listing selects no model exactly when none of its models advertises `generateContent`. |
| `Startup.FirstHintedOfCapable` | backend/food.py:123-132 | Filtering keeps order: the first preferred model of the listing is the first hinted model of the filtered list. |
| `Startup.FirstOfCapable` | backend/food.py:133-135 | Filtering keeps order: the first capable model of the listing heads the filtered list. |
| `Text.Strip` | backend/food.py:88 | `strip()` yields a result with no whitespace at either end. In the input, only whitespace comes before and after it. |
| `Text.StripUnique` | backend/food.py:88 | Exactly one string has those two properties, so `Strip` is fully determined by them. |
| `Text.StripIdempotent` | backend/food.py:88 | Stripping twice is stripping once. |
| `Text.Contains` | backend/food.py:129 | The substring test `p in t` holds exactly when `p` occurs in `t` at some index. |
| `Text.DeleteAll` | backend/food.py:88 | `replace(p, "")` never lengthens the text. Its behaviour is fixed by `DeleteAllChanges` and `DeleteAllFirstOccurrence`; `DeleteAllDetermined` proves that these two leave no other choice. |
| `Text.DeleteAllChanges` | backend/food.py:88 | `replace(p, "")` changes the text exactly when `p` occurs in it. When it does, at least one whole occurrence is removed. |
| `Text.DeleteAllFirstOccurrence` | backend/food.py:88 | `replace(p, "")` deletes the leftmost occurrence of `p`. Everything before it is kept unchanged, even a partial match such as the backtick in "`a```", and scanning resumes after the occurrence. |
| `Text.DeleteAllDetermined` | backend/food.py:88 | Any function that leaves text without `p` unchanged and deletes the leftmost occurrence as above equals `replace(p, "")` on every input. |
| `Text.DeleteAllPrefix` | backend/food.py:88 | A prefix free of the pattern's first character passes through `replace(p, "")` untouched. |
| `Text.DeleteAllLeading` | backend/food.py:88 | A leading occurrence is deleted, and scanning resumes right after it. |
| `Text.NoFenceLeft` | backend/food.py:88 | After `replace("```", "")` the text contains no "```", even when backticks were adjacent to deleted ones. |
| `Analyze.Clean` | backend/food.py:88 | The cleaned provider text contains neither "```" nor "```json". |
| `Analyze.NoJsonFenceWithoutFence` | backend/food.py:88 | Text without "```" cannot contain "```json". |
| `Analyze.CleanFencedBlock` | backend/food.py:88 | A reply fenced as "```json\n" + body + "\n```", with no backtick in the body, cleans to "\n" + body + "\n". |
| `Analyze.CleanKeepsUncoveredSpace` | backend/food.py:88 | The strip happens before fence deletion, so uncovered whitespace stays: "```json" + c + "```" cleans to the whitespace character c. Cleaning c again gives "", so cleaning is not idempotent. |
| `Analyze.MapFields` | backend/food.py:91-95 | The result has exactly the fields `food_type`, `freshness` and `advice`. Each is copied from its source key (`deliverability` for `advice`) when that key is present, and is "Unknown" otherwise. |
| `Analyze.MapFieldsIgnoresOtherKeys` | backend/food.py:91-95 | Adding or changing any key other than the three source keys does not change the result. |
| `Analyze.MapFieldsDefaultsIndependently` | backend/food.py:91-95 | Removing one source key resets only its own field to "Unknown"; the other two are unchanged. |
| `Analyze.UnexpectedOutcome` | backend/food.py:100-102 | The catch-all reply is a 500 whose only key, `error`, holds "Unexpected error during analysis: " followed by the exception text. It never equals the parse-failure reply. |
| `Analyze.MainPath` | backend/food.py:69-102 | The main path answers 200 or 500. It answers 200 exactly when the image decoded, the provider answered and the cleaned text parsed to an object, and the body is then that object's mapped fields. A 500 body holds only `error`. The "AI response was not valid JSON." reply occurs exactly when the parser rejected the cleaned text. Otherwise the catch-all 500 carries the text of the exception raised. That is the decoder's or the provider's exception; any other exception from the parser; or, for a parsed value that is not an object, "'<type>' object has no attribute 'get'". |
| `Analyze.Analyze` | backend/food.py:42-102 | A missing `image` field gives 400 "No image file uploaded.", before anything else is checked. A missing or empty filename gives 400 "No file selected.". 400 occurs exactly when an upload check fails. With no key, the reply is exactly the 200 demo reply with the missing-key error and advice. With a key but no model, it is exactly the 200 demo reply with the model-failure error and advice. Once all four checks pass, the reply is the main path's reply for the uploaded bytes and the selected model. A 200 reply has an `error` key exactly when key or model is missing. The model-failure advice never appears without a key. Every 200 reply has the three result fields. A 500 reply arises only on the main path. |
| `Analyze.FencedReplyIsMapped` | backend/food.py:85-95 | End to end: a provider reply fenced as a JSON code block, which the parser reads as the apple object, yields 200 with food_type "Apple", freshness "Fresh" and advice "Deliverable - ripe". |

## Left out

- Flask routing, CORS, `jsonify` and `app.run`: web framework machinery. Replies are modelled as a status and a JSON object.
- The `/ping` and `/models` endpoints. One returns a constant; the other passes the provider's listing through with a catch-all 500.
- `load_dotenv` and `os.getenv`: environment I/O. The two variables are optional string inputs.
- The Gemini SDK (`configure`, `list_models`, `GenerativeModel`, `generate_content`): a foreign network client. The listing, and the generated text or the exception raised, are inputs. A model is identified by its name.
- PIL's `Image.open`: a foreign decoder. It either returns an opaque image or raises with a text.
- `json.loads`: a library parser. It is an injected function that returns a value, a decode error, or another exception with its text.
- All `print` logging. This includes the raw provider text logged when parsing fails.
- A listing entry whose `supported_generation_methods` attribute exists but is not a list. The model takes the method list as a sequence, with a missing attribute read as empty.
- Multipart requests that repeat the `image` field: the request is modelled as one file per field name.
- The text of exceptions raised by the provider or the decoder: it is an input, and the reply carries it after the fixed prefix.
