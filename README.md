# Investment assistant: profile schema, profile store and transcript formatter

This project models the deterministic parts of a conversational investment-advisory
assistant in Dafny and proves properties of them. The rest of the assistant is
language-model prompting.

- **Profile schema** (`models/schemas.py`). The pydantic records `SecurityType`,
  `Holdings`, `UserProfile` and `AnalysisResult`, as they are declared. The model has
  open intervals on `risk_tolerance` and `time_horizon`, a four-value enum, and a
  required, positive `quantity` and `purchase_price`. It also has a defaulted
  `profit_target` and a single required `current_holdings`. Construction
  (`UserProfile(**data)`) is `Schemas.Validate`. It maps an abstract decoded JSON value
  to `Option<UserProfile>` and fills in defaults. `model_dump()` is `Schemas.Dump`.
  `Schemas.CarriesProfile` is a declarative reading of the schema: "this raw object
  gives these field values". It is the reference that validation is proved against.
- **Profile store** (`tools/profile_management.py`). The tools `check_profile_exists`,
  `save_profile` and `load_profile` are methods of a class. The class holds the
  state of the one profile file: `Absent`, `Malformed` (text that `json.load`
  rejects) or `Parsed(value)`. It also records whether the data directory exists.
  Each message is a reply datatype whose `Text()` is the literal string.
- **Older profile store** (`tools/profile.py`). The same three tools, returning
  booleans and an optional profile, over the same kind of state. Its `save_profile`
  does not create the data directory.
- **Transcript formatter** (`conversation_formatter/formatter.py`). `trim_text` is a
  function built on Python's `str.split()` and `" ".join` (module `Words`).
  `print_turn_history` is a method with loop invariants. It returns the numbered
  trace entries instead of printing them. `get_response_text` is a backwards search.

The `save_profile` docstring (tools/profile_management.py:37-74) and the system
prompt (prompt.py:124-141) describe a richer schema than the code declares: a list of
holdings that may be absent, six security kinds, and holdings with optional
`quantity`, `purchase_price`, `total_value` and `notes`. The model follows the
declared schema, and lemmas show that the documented examples are rejected.
`check_profile_exists` (tools/profile_management.py:29-32) and `load_profile`
(tools/profile_management.py:107-110) give their "corrupted" message only for text
that is not JSON. A decoded record that does not validate gets "Profile validation
failed: …" from the check and "Failed to load profile: …" from the load.

## Model

| member | source | states |
|---|---|---|
| `Schemas.ParseSecurityType` | models/schemas.py:5-9 | An accepted string is exactly the value of the enum member returned; a rejected string is the value of no member. |
| `Schemas.SecurityTypeAccepts` | models/schemas.py:5-14 | `security_type` accepts exactly "Stock", "Bond", "ETF" and "Cryptocurrency"; "Mutual Fund" and "Index Fund" are rejected. |
| `Schemas.ValidateHoldings` | models/schemas.py:13-17 | A validated holding has positive `quantity` and `purchase_price` and is exactly what the raw object carries. |
| `Schemas.Validate` | models/schemas.py:24-29 | A validated profile satisfies every field constraint and is exactly what the raw object carries, with the default `profit_target` when the key is absent. A falsy value (an empty dict, null, and so on) is rejected. |
| `Schemas.DumpHoldings` | models/schemas.py:13-17 | The dump of a holding carries that holding, with the enum written as its string value. |
| `Schemas.Dump` | models/schemas.py:24-29 | The dump of a profile carries that profile, writes out `profit_target`, and is never falsy. |
| `Schemas.ValidateHoldingsComplete` | models/schemas.py:13-17 | Any valid holding that a raw object carries is exactly what holding validation returns. |
| `Schemas.ValidateComplete` | models/schemas.py:24-29 | Validation is complete and deterministic: any valid profile the input carries is exactly the result. |
| `Schemas.DumpRoundTrip` | models/schemas.py:24-29 | Validating the dump of a valid profile gives the profile back. |
| `Schemas.RevalidateDump` | models/schemas.py:24-29 | Validating the dump of a validated profile yields the same profile. |
| `Schemas.RiskToleranceOpenInterval` | models/schemas.py:25 | With the other fields acceptable, `risk_tolerance = x` is accepted exactly when 0 < x < 30, so 0 and 30 are both rejected. |
| `Schemas.TimeHorizonOpenInterval` | models/schemas.py:26 | With the other fields acceptable, `time_horizon = x` is accepted exactly when 0 < x < 50, so 0 and 50 are both rejected. |
| `Schemas.ProfitTargetDefault` | models/schemas.py:28 | Removing `profit_target` yields the same profile with "Maximum profit a user can achieve"; a supplied string is kept unchanged. |
| `Schemas.HoldingsRequired` | models/schemas.py:29 | A `current_holdings` that is null, a list, or missing makes the profile invalid. |
| `Schemas.InvestmentGoalRequired` | models/schemas.py:27 | A missing or null `investment_goal` makes the profile invalid. |
| `Schemas.HoldingsNeedQuantityAndPrice` | models/schemas.py:16-17 | An accepted holding has both `quantity` and `purchase_price`, each positive; removing either one rejects it. |
| `Schemas.HoldingsRejectedShapes` | models/schemas.py:14-17 | A holding with no value fields, or with only `total_value`, is rejected, and so is one whose `security_type` is not an enum value. |
| `Schemas.Strings` | models/schemas.py:22 | A `list[str]` is accepted exactly when every item is a string, and then it yields those strings in order. |
| `Schemas.ValidateAnalysisResult` | models/schemas.py:19-22 | A validated analysis result takes its three required fields from the raw object; `supporting_data` must be a list of strings. |
| `Schemas.ValidateAnalysisResultComplete` | models/schemas.py:19-22 | Every object with string `recommended_action` and `reasoning` and a `supporting_data` list of strings validates, to exactly those values. |
| `Schemas.StringsRoundTrip` | models/schemas.py:22 | Reading back the dump of a list of strings gives the list. |
| `Schemas.AnalysisResultRoundTrip` | models/schemas.py:19-22 | Every analysis result survives dumping and validating again. |
| `Words.Split` | conversation_formatter/formatter.py:7 | `str.split()` yields only non-empty words without whitespace. |
| `Words.SplitJoin` | conversation_formatter/formatter.py:7-10 | Splitting the single-space join of words gives the words back. |
| `Words.SplitJoinSuffix` | conversation_formatter/formatter.py:10 | Splitting the join of words with "..." appended gives the same words, with the last one carrying "...". |
| `Words.SplitEmpty` | conversation_formatter/formatter.py:7 | `str.split()` returns no words exactly when the text is empty or all whitespace. |
| `Words.SplitCount` | conversation_formatter/formatter.py:7-9 | The number of words `split()` returns, which `trim_text` compares with `max_words`, is the number of places in the text where a non-whitespace character is followed by whitespace or the end. |
| `Words.SplitConcat` | conversation_formatter/formatter.py:7 | The words, put back together with nothing between them, are exactly the non-whitespace characters of the text in order: `split()` drops whitespace and nothing else. |
| `Formatter.TrimText` | conversation_formatter/formatter.py:3-10 | Empty text gives "". Text with at most `max_words` words comes back unchanged, whitespace included. Otherwise the result is the words kept by `words[:max_words]` (a negative `max_words` counting from the end) joined by single spaces, followed by "..."; its words are the kept words with "..." attached to the last, and nothing kept gives just "...". |
| `Formatter.TrimTextIdempotent` | conversation_formatter/formatter.py:3-10 | For `max_words >= 0`, trimming a trimmed text changes nothing. |
| `Formatter.EventOf` | conversation_formatter/formatter.py:25-52 | Human, tool, AI-with-tool-calls and AI-with-content messages each take one step; an empty AI message or another type takes none. Tool calls win over content and share one step, which shows one line pair per call, in order: the tool name or "unknown", and the trimmed JSON arguments or "(no args)". Human, tool and AI texts are shown trimmed. |
| `Formatter.TraceNumbering` | conversation_formatter/formatter.py:21-52 | The trace has one entry per step-taking message, numbered consecutively from the first step. |
| `Formatter.TraceAppend` | conversation_formatter/formatter.py:21-52 | Tracing two message lists in turn continues the numbering where the first list stopped. |
| `Formatter.PrintToolCalls` | conversation_formatter/formatter.py:35-40 | The loop over `tool_calls` yields one line pair per call, in order: the tool name or "unknown", and the trimmed JSON arguments or "(no args)". |
| `Formatter.PrintTurnHistory` | conversation_formatter/formatter.py:13-54 | The loop produces the trace of the messages: steps start at 1, advance by exactly one per step-taking message, and there is one entry per such message. |
| `Formatter.GetResponseText` | conversation_formatter/formatter.py:57-64 | Returns the content of the last message of any type whose content is non-empty, or "(No response)" when there is none. |
| `Formatter.GetAiResponseText` | conversation_formatter/formatter.py:57-60 | Returns the content of the last AI message with content, or "(No response)". |
| `Formatter.ResponseTextDiscrepancy` | conversation_formatter/formatter.py:59-64 | On a user message followed by an AI message with tool calls only, the search as written returns the user's text, and the AI-only search returns "(No response)". |
| `ProfileManagement.CheckReplyFor` | tools/profile_management.py:19-32 | No file gives "No profile found". Non-JSON gives "corrupted". A falsy value gives "empty". The reply is "Profile exists and is valid." exactly when the stored value validates; any other value gets "validation failed". |
| `ProfileManagement.LoadReplyFor` | tools/profile_management.py:99-110 | No file gives "not found" and non-JSON gives "corrupted". A load succeeds exactly when the stored value validates, and it returns the dump of the validated profile (defaults filled in, not the raw stored value), which validates to the same profile. Anything else, an empty value included, is "Failed to load profile". |
| `ProfileManagement.ProfileStore.CheckProfileExists` | tools/profile_management.py:11-32 | The reply is the one `CheckReplyFor` gives for the current file. |
| `ProfileManagement.ProfileStore.SaveProfile` | tools/profile_management.py:35-88 | Saving succeeds exactly when the data validates. On failure, neither the file nor the directory changes. On success, the directory exists and the whole file is the dump of the validated profile. |
| `ProfileManagement.ProfileStore.LoadProfile` | tools/profile_management.py:91-110 | The reply is the one `LoadReplyFor` gives for the current file. |
| `ProfileManagement.SaveLoadRoundTrip` | tools/profile_management.py:77-106 | After a successful save, the check reports a valid profile and the load returns the dump of the validated data. |
| `ProfileManagement.SaveThenLoad` | tools/profile_management.py:77-106 | On a store, a save of valid data followed by check and load gives "saved", "valid", and exactly the dump of the validated data, which validates back to it. |
| `ProfileManagement.EmptyFileReplies` | tools/profile_management.py:24-26 | For a falsy stored value the check says "empty", while the load, which has no such test (lines 103-110), reports a failed load. |
| `ProfileManagement.ReadersAgree` | tools/profile_management.py:27-28 | The check says "valid" exactly when the load succeeds. |
| `ProfileManagement.DocumentedExamplesRejected` | tools/profile_management.py:56-70 | Whatever the other fields hold, the documented holdings examples are rejected by the schema: "Index Fund" with only `total_value`, `quantity` alone, `total_value` with `notes`, and null holdings. |
| `LegacyProfile.LegacyProfileStore.CheckProfileExists` | tools/profile.py:5-20 | True exactly when the file exists, decodes and validates; any failure, a missing file included, gives false. |
| `LegacyProfile.LegacyProfileStore.SaveProfile` | tools/profile.py:22-39 | Returns true exactly when the data validates and the data directory exists, and then the file is the dump of the validated profile. Otherwise nothing is written. The directory is never created. |
| `LegacyProfile.LegacyProfileStore.LoadProfile` | tools/profile.py:41-51 | As written, it always returns None. |
| `LegacyProfile.LegacyProfileStore.LoadProfileIntended` | tools/profile.py:41-51 | With `json.load`, it returns the validated profile of a file that decodes, and None otherwise. |
| `LegacyProfile.SaveThenLoad` | tools/profile.py:33-51 | After a successful save the check returns true. The loader as written still returns None, while the intended loader returns the validated profile. |

## Left out

- The fundamental scoring rubric, horizon labels and orchestration are instructions to the language model in `prompt.py`. No code computes them, so they are not modelled.
- `agent.py`, `prompt.py`, `tools/fundamental_analysis.py` and `tools/fundamental_analisys.py` are not modelled. They are a language-model agent loop, constant prompt text, and calls to an external market-data service.
- Filesystem and JSON mechanics are abstracted to a file state and a decoded value. This covers `Path.exists`, `open`, `mkdir`, JSON text, indentation, key order and float rendering. `Loaded` carries the dumped value, not the indented JSON text `load_profile` returns.
- Files that exist but cannot be read are not modelled. That includes permission errors and bytes that are not text; such files would get the "validation failed" / "failed to load" replies. Operating-system write failures in `ProfileStore.SaveProfile` are not modelled either.
- Exception texts (`str(e)`) after the failure prefixes are not modelled; each reply's `Text()` gives the literal prefix only.
- Schemas.Validate: only pydantic's lax coercion of booleans to floats is modelled. Numeric strings for a float field are rejected here, although pydantic accepts them. Enum or model instances given in place of raw values are not modelled, and NaN and infinities are outside the reals.
- The two stores use different paths: one relative to the module, the other relative to the working directory. Each is modelled as its own store, and their sharing a file is not modelled.
- `print_turn_history` is modelled only as the sequence of numbered entries. Left out: the banner lines, emoji, the `turn_number` argument, the `result` dictionary around the message list (both `print_turn_history` and `get_response_text` read `result.get("messages", [])`; the model takes the list directly), and the JSON rendering of tool arguments, which is taken as given text.
- Message content is modelled only as plain text. A list of content blocks and a tool message whose `name` is None are not modelled; `trim_text`'s `str(text)` on non-strings is not modelled either.

## Findings

| source | as written | input that shows it | evidently intended | confidence | as-written member | corrected member |
|---|---|---|---|---|---|---|
| tools/profile.py:48 | `json.loads(file)` is handed the file object, so it raises `TypeError`; the error is swallowed and `load_profile` always returns None | any existing, valid profile file, e.g. right after a successful `save_profile` | `json.load(file)`, returning the validated profile | high, not executed | `LegacyProfile.LegacyProfileStore.LoadProfile` | `LegacyProfile.LegacyProfileStore.LoadProfileIntended` |
| conversation_formatter/formatter.py:60-63 | returns the content of the last non-empty message of any type, although its comment and docstring say the last AI message | `[HumanMessage("hi"), AIMessage("", tool_calls=[load_profile])]` gives "hi", the user's own input | the content of the last AI message with content, here "(No response)" | medium, not executed | `Formatter.GetResponseText` | `Formatter.GetAiResponseText` |
