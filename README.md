# Recipe chat backend — a verified Dafny model

This project models the core logic of a recipe-chat web backend and proves properties of it.
Users sign up and sign in with e-mail and password, and hold access tokens and rotating refresh
tokens. They keep recipes as JSON documents and edit them over a WebSocket chat, where a
language model extracts, creates, modifies or advises on recipes.

The model covers these parts:

- **The chat connection** (`ChatSession`, `ChatIntent`).
  - The in-band authentication that begins each connection, with its fixed order of checks and close reasons.
  - The message loop and the token-expiry monitor with its re-authentication handshake.
  - The registry of live clients.
  - The keyword routing of a chat message to extraction, generation, modification, suggestions or help, including the fields stamped on a new recipe.
  - One connection is an event-driven machine. Its phases are Authenticating, Connected and Closed. Its events are a frame, the passing of time, or a disconnect. A class (`ChatConnection`) runs the machine against a `ConnectionManager`.
- **The sliding-window rate limiter** (`RateLimit`).
  - The per-key timestamp lists, pruned lazily, and check-then-record admission.
  - The periodic clean-up, the client key, the first-match choice of limiter, and the response headers.
- **Validators and sanitisers** (`Validation`).
  - String trimming and capping, recipe sanitising, e-mail shape, password strength, filename sanitising and the recipe completeness check.
- **Post-processing of the language model's replies** (`RecipeProcessor`).
  - Fence stripping, the per-mode error messages, keeping id and created_at on a modification, and the suggestion prompt.
- **The request models** (`Schemas`), as validity predicates over JSON values.
- **The account endpoints** (`AuthApi`) over a store of users, refresh tokens and reset tokens: sign-up, sign-in, refresh rotation, logout, forgot-password and reset-password.
- **The recipe endpoints** (`RecipesApi`) over an owner-scoped recipe table: create with auto-title and a completeness gate, list, get, patch-merge and delete.
- **Small helpers**: auto-titles, the JSON encoder fallback (`Helpers`), the CORS origin list and defaults (`Config`), and the metrics reset (`Metrics`).

Where the source updates state in place, the model is a class. Examples are
`ConnectionManager`, `RateLimiter`, `WebsocketMetrics`, `AuthStore`, `RecipeStore` and
`ChatConnection`. Each method is proved against a pure function of its old state, and the
properties are proved as lemmas about those functions.

Foreign code is a parameter of the model. This covers token decoding and password hashing,
`bleach.clean`, the URL pattern, `json.loads` and the language model. It also covers the ISO-8601
clock text and fresh identifiers. Time is whole seconds.

Shared modules hold the common vocabulary:
- `Wrappers`: Option and Result.
- `Json`: JSON values, with Python truthiness and a `str()` display that is exact for strings, integers, booleans and None only (see `Json.Display` under Left out).
- `Text`: Python string operations, with the whitespace set, `strip`, `split`/`join`, ASCII `lower` and decimals.

## Model

| member | source | states |
|---|---|---|
| Config.CorsOriginsList | src/config.py:36-38 | one entry per comma-separated piece, so the comma count plus one; each entry is the stripped piece, contains no ',' and keeps its place; empty pieces are kept |
| Config.CorsOriginsListOfJoin | src/config.py:36-38 | origins without commas or surrounding space, joined with ',', are read back unchanged and in order |
| Config.DefaultCorsOriginsList | src/config.py:23 | the default setting yields exactly the two localhost origins, ports 3000 and 3001 |
| Helpers.GetNextRecipeNumber | src/utils/helpers.py:23-25 | the existing count plus one, whatever the user id |
| RecipesApi.AutoTitleIsNextNumber | src/api/recipes.py:31-37 | the inline `recipe_count + 1` of create is `get_next_recipe_number` of the caller's count: a blank title becomes `generate_recipe_title` of that number |
| Helpers.GenerateRecipeTitle | src/utils/helpers.py:28-30 | the title starts with "Untitled Recipe " and is followed only by decimal digits for a non-negative number |
| Helpers.GenerateRecipeTitleRoundTrip | src/utils/helpers.py:28-30 | the number can be read back from the title's digits |
| Helpers.GenerateRecipeTitleInjective | src/utils/helpers.py:28-30 | distinct recipe numbers give distinct titles |
| Helpers.ZeroPad | src/utils/helpers.py:13-14 | the isoformat field is all digits, at least as wide as asked, exactly that wide when the value fits, and has the value's decimal value |
| Helpers.IsoFormat | src/utils/helpers.py:13-14 | `datetime.isoformat()`: 19 characters (26 with microseconds), with separators at the fixed places and each field zero-padded |
| Helpers.UuidString | src/utils/helpers.py:11-12 | `str(uuid)`: 36 characters, dashes at 8, 13, 18 and 23, and the 32 hex digits in order between them |
| Helpers.EncodeDefault | src/utils/helpers.py:10-15 | a UUID gives its canonical text, a datetime its ISO text; anything else is refused with the base encoder's TypeError |
| Metrics.ResetValues | src/api/metrics.py:23-25 | the same keys; "active_connections" keeps its value and every other counter is 0 |
| Metrics.ResetIdempotent | src/api/metrics.py:23-25 | resetting twice equals resetting once |
| Metrics.WebsocketMetrics.constructor | src/chat/websocket.py:27-37 | the nine counters, all 0 |
| Metrics.WebsocketMetrics.Reset | src/api/metrics.py:21-26 | the key-by-key loop leaves the counters equal to `ResetValues` of the old ones and answers "Metrics reset successfully" |
| RateLimit.Recent | src/middleware/rate_limit.py:84-87 | exactly the timestamps strictly newer than the cutoff, in order |
| RateLimit.RecentConcat | src/middleware/rate_limit.py:84-87 | pruning distributes over concatenation |
| RateLimit.RecentRecent | src/middleware/rate_limit.py:50-53 | pruning at a later cutoff after an earlier one equals pruning once at the later one (also line 84-87) |
| RateLimit.Min | src/middleware/rate_limit.py:92 | `min`: an element no greater than any other |
| RateLimit.RetryAfter | src/middleware/rate_limit.py:92-94 | at least 1, at least oldest + 60 − now, and equal to one of the two |
| RateLimit.Admit | src/middleware/rate_limit.py:84-98 | the kept list is pruned; it rejects without recording iff the kept list holds the limit or more, otherwise appends now |
| RateLimit.AdmitBounded | src/middleware/rate_limit.py:90-98 | a key holding at most the limit still does so after a check, and all its entries are within the window |
| RateLimit.ReplayIsRecentAdmitted | src/middleware/rate_limit.py:84-98 | over non-decreasing call times, the stored list is exactly the admitted calls of the last minute, and never more than the limit |
| RateLimit.AdmittedPerMinute | src/middleware/rate_limit.py:84-98 | at every call, at most the limit of calls were admitted in the minute up to it |
| RateLimit.Cleaned | src/middleware/rate_limit.py:45-57 | every list is pruned to the window, and exactly the keys whose list is left empty are deleted |
| RateLimit.CleanupInvisible | src/middleware/rate_limit.py:45-57 | a clean-up never changes a later admission decision for any key (also line 84-98) |
| RateLimit.RateLimiter.constructor | src/middleware/rate_limit.py:15-19 | the given limit and no entries |
| RateLimit.RateLimiter.CheckRateLimit | src/middleware/rate_limit.py:74-98 | only the caller's key changes, to `Admit`'s list; the flag and the retry-after are `Admit`'s and `RetryAfter`'s; a bounded table stays bounded |
| RateLimit.RateLimiter.CleanupOldEntries | src/middleware/rate_limit.py:45-57 | the key-by-key loop leaves the table equal to `Cleaned` of the old one |
| RateLimit.UserIdOf | src/middleware/rate_limit.py:116-126 | a user id is found only under a "Bearer " header whose token decodes to claims with a `sub` |
| RateLimit.GetClientKey | src/middleware/rate_limit.py:59-72 | "user:<id>" for a truthy user id; otherwise "ip:" and the first X-Forwarded-For item stripped, else the socket host, else "unknown" |
| RateLimit.UserAndAddressKeysDiffer | src/middleware/rate_limit.py:59-72 | a signed-in caller's key never equals an address key |
| RateLimit.SelectLimiter | src/middleware/rate_limit.py:101-106 | first match: forgot-password POST, then recipes POST, then /v1/auth/, /v1/chat/ and other /v1/; no limiter outside /v1/ (also line 132-145) |
| RateLimit.RejectHeaders | src/middleware/rate_limit.py:158-163 | the four headers: Retry-After, the limit, Remaining "0", and the reset time |
| RateLimit.AdmitHeaders | src/middleware/rate_limit.py:170-173 | the limit, Remaining = max(0, limit − stored), and now + 60 |
| RateLimit.Respond | src/middleware/rate_limit.py:148-173 | 429 with the retry-after and reject headers exactly when `Admit` refuses; otherwise admit headers counted on the new list |
| RateLimit.RespondHeaders | src/middleware/rate_limit.py:150-172 | an admitted answer never reports negative room; a refusal waits at least one second |
| RateLimit.Middleware.constructor | src/middleware/rate_limit.py:101-106 | five fresh limiters, all empty |
| RateLimit.Middleware.Handle | src/middleware/rate_limit.py:109-175 | an unlimited path passes untouched; otherwise only the chosen limiter's table changes, as `Respond` says for the request's key |
| Validation.SanitizeString | src/utils/validation.py:14-34 | "" for a non-string; otherwise a prefix of the cleaned, stripped text, capped at a positive maximum, whole when there is no cap or it fits |
| Validation.CollapseDots | src/utils/validation.py:145 | no '.' is left; every character is '_' or a non-dot of the input |
| Validation.DropDots | src/utils/validation.py:133 | a suffix of the input that does not start with '.' |
| Validation.FilenameBase | src/utils/validation.py:130-142 | only word characters, non-space whitespace, '.' and '-' |
| Validation.FoldedStem | src/utils/validation.py:144-145 | the stem has no '.' and only allowed characters |
| Validation.CapDotted | src/utils/validation.py:147-152 | one dot; when the extension fits, at most the maximum long and ending in "." + extension |
| Validation.CapPlain | src/utils/validation.py:153-154 | no dot, and at most the maximum long |
| Validation.SanitizeFilename | src/utils/validation.py:128-156 | no '/', '\\' or ' '; only allowed characters; at most one '.'; within the maximum, keeping the extension when it fits |
| Validation.DottedName | src/utils/validation.py:144-152 | stem + "." + extension holds exactly one dot, ends in "." + extension, and splits back into stem and extension |
| Validation.IndexOf | src/utils/validation.py:91-94 | the first position of the character, or none exactly when it is absent |
| Validation.LastIndexOf | src/utils/validation.py:91-94 | the last position of the character, or none exactly when it is absent |
| Validation.EmailScanCorrect | src/utils/validation.py:91-94 | the one-pass scan accepts exactly the strings the e-mail pattern matches |
| Validation.IsValidEmailMeaning | src/utils/validation.py:91-94 | accepted iff the pattern matches the whole text, or the text without one final "\n" (Python `$`) |
| Validation.EmailExamplePlain | src/utils/validation.py:91-94 | "user@example.com" is accepted |
| Validation.EmailExampleDotted | src/utils/validation.py:91-94 | dots in the local part and the domain are accepted |
| Validation.EmailExampleTagged | src/utils/validation.py:91-94 | a '+' tag is accepted |
| Validation.EmailExampleNoAt | src/utils/validation.py:91-94 | a text without '@' is refused |
| Validation.EmailExampleNoLocalPart | src/utils/validation.py:91-94 | an empty local part is refused |
| Validation.EmailExampleNoTld | src/utils/validation.py:91-94 | a domain without a dot is refused |
| Validation.EmailScanNoSpace | src/utils/validation.py:91-94 | no string the scan accepts contains a space |
| Validation.IsValidEmailNoSpace | src/utils/validation.py:91-94 | no accepted address contains a space |
| Validation.EmailExampleSpace | src/utils/validation.py:91-94 | "user @example.com" is refused |
| Validation.ValidatePasswordStrength | src/utils/validation.py:103-125 | no issue iff at least 8 characters with a letter and a digit; each issue iff its requirement fails, in the order length, letter, number |
| Validation.BlankMeaning | src/utils/validation.py:167-171 | a field passes exactly when it is a string with a non-whitespace character; only a truthy non-string raises |
| Validation.Elements | src/utils/validation.py:177 | `enumerate` yields a list's items, a string's characters and a dict's keys (also line 188) |
| Validation.ItemIssueNone | src/utils/validation.py:176-195 | an item draws no issue and raises nothing exactly when it is a dict with non-blank text and, for a step, an int order of 1 or more |
| Validation.WalkItems | src/utils/validation.py:176-195 | the `enumerate` loop over a section's items reports each item's issue in order, or stops at the first exception, exactly as `Collect` of the per-item checks |
| Validation.CollectEmpty | src/utils/validation.py:175-195 | the walk reports nothing iff none of its checks reports or raises |
| Validation.CollectAbort | src/utils/validation.py:175-195 | once the walk has raised, it stays raised with the same error |
| Validation.ItemsIssuesEmpty | src/utils/validation.py:174-195 | a list draws no issue iff every item is complete |
| Validation.SectionIssuesEmpty | src/utils/validation.py:174-195 | a section reports nothing iff it is a non-empty list of complete items |
| Validation.CompletenessIssuesEmpty | src/utils/validation.py:159-197 | no issue and no exception exactly for the complete recipes: title, yield, and non-empty lists of complete ingredients and steps |
| Validation.WalkSection | src/utils/validation.py:174-195 | the loop appending per-item issues computes `SectionIssues` |
| Validation.ValidateRecipeCompleteness | src/utils/validation.py:159-197 | the title and yield checks and both loops compute `CompletenessIssues` |
| Validation.CapKey | src/utils/validation.py:51-65 | only that key is rewritten, and its new value is within the cap |
| Validation.CapTruthy | src/utils/validation.py:42-48 | only a present, truthy field is rewritten, to a string within the cap |
| Validation.SanitizeIngredient | src/utils/validation.py:51-59 | a dict keeps its keys, with text ≤ 200, unit ≤ 50, canonical_name ≤ 100; a non-dict is unchanged |
| Validation.SanitizeStep | src/utils/validation.py:62-65 | a dict keeps its keys, with text ≤ 1000; a non-dict is unchanged |
| Validation.CleanTags | src/utils/validation.py:68-73 | no more tags than given, each a string of at most 50 |
| Validation.CleanTagsOfStrings | src/utils/validation.py:68-73 | all-string tags keep their number and order |
| Validation.SanitizeTags | src/utils/validation.py:67-73 | at most the first 20 cleaned tags |
| Validation.SanitizeFileNameField | src/utils/validation.py:82-86 | raises iff the file name is truthy and not a string; otherwise only the file name may change |
| Validation.SanitizeSource | src/utils/validation.py:76-86 | (intended rule) a string url failing the URL check becomes ""; a null or absent url is left |
| Validation.CapTop | src/utils/validation.py:42-48 | title and yield capped at 200 and description at 500 when truthy; nothing else changes |
| Validation.SanitizeIngredients | src/utils/validation.py:51-59 | the same number and kinds of items, every dict capped |
| Validation.SanitizeIngredientsInPlace | src/utils/validation.py:51-59 | the loop rewriting each ingredient in its place leaves exactly `SanitizeIngredients` of the original list |
| Validation.SanitizeSteps | src/utils/validation.py:62-65 | the same number and kinds of items, every dict capped |
| Validation.SanitizeStepsInPlace | src/utils/validation.py:62-65 | the loop rewriting each step in its place leaves exactly `SanitizeSteps` of the original list |
| Validation.MapList | src/utils/validation.py:51-73 | only a list-valued key is rewritten |
| Validation.SanitizedFieldsKeys | src/utils/validation.py:37-88 | no key is added or removed, and only the sanitised keys change |
| Validation.SanitizedFieldsTopCaps | src/utils/validation.py:42-48 | title and yield ≤ 200 and description ≤ 500 when truthy |
| Validation.SanitizedFieldsListCaps | src/utils/validation.py:51-73 | ingredient and step dicts within their caps, lists of the same shape, at most 20 tags of at most 50 |
| Validation.SanitizeRecipeData | src/utils/validation.py:37-88 | the field pass and the ingredient and step loops compute `SanitizedRecipe` (corrected; see Findings) |
| Validation.SanitizeSourceAgrees | src/utils/validation.py:76-81 | with a string url or none, the written and the intended source rule agree |
| Validation.SanitizeSourceAsWrittenFails | src/utils/validation.py:76-86 | as written, the source rule raises iff the url is present but not a string, or the file name is truthy and not a string |
| Validation.SanitizeSourceTotal | src/utils/validation.py:76-86 | the intended rule never raises on a source the schema admits |
| Validation.UrlLessSourceRaises | src/utils/validation.py:76-81 | a dumped url-less source makes the written rule raise TypeError; the intended one passes |
| Validation.ScriptUrlBlanked | src/utils/validation.py:79-81 | a "javascript:" url becomes "" |
| Schemas.StepValidComplete | src/models/schemas.py:16-19 | a schema-valid step meets the completeness check's step bounds |
| Schemas.RecipeValidComplete | src/models/schemas.py:28-46 | a schema-valid recipe whose texts are not all whitespace passes the completeness check |
| Schemas.RecipeValidSourceTotal | src/models/schemas.py:22-25 | a schema-valid recipe's source never makes the intended source rule raise (also line 45) |
| Schemas.PasswordError | src/models/schemas.py:75 | the length error first, then the first missing letter or digit; none exactly for a strong password (also line 78-84) |
| Schemas.UserCreateAccepted | src/models/schemas.py:73-90 | sign-up data is accepted iff the e-mail is valid, the password is strong, and it is confirmed verbatim |
| Schemas.MismatchOnlyAfterPassword | src/models/schemas.py:86-90 | "Passwords do not match" is reported only when the password passed and the confirmation met its length bound |
| Schemas.ResetPasswordErrors | src/models/schemas.py:119-129 | the new password obeys the sign-up rule: no error iff it is strong |
| Schemas.DefaultMessageId | src/models/schemas.py:135 | "msg_" followed by the first 8 hex digits (also line 142) |
| RecipeProcessor.DropOpeningFence | src/llm/recipe_processor.py:63 | what is left is a suffix of the text, at least the three backticks shorter |
| RecipeProcessor.DropOpeningFenceLongest | src/llm/recipe_processor.py:63 | the removed prefix is one of ```, ```\n, ```json, ```json\n, and the longest of them the text starts with |
| RecipeProcessor.DropClosingFence | src/llm/recipe_processor.py:64 | never lengthens the text |
| RecipeProcessor.DropClosingFenceRestores | src/llm/recipe_processor.py:64 | the text is the result plus a closing ``` (with the newline before it when there is one), placed before a kept final newline as Python `$` allows; without a closing fence nothing changes |
| RecipeProcessor.Unfence | src/llm/recipe_processor.py:62-64 | a text not starting with ``` is unchanged; none is lengthened |
| RecipeProcessor.CleanReplyUnfenced | src/llm/recipe_processor.py:61-64 | a reply not starting with ``` reaches the parser only stripped |
| RecipeProcessor.UnfenceJson | src/llm/recipe_processor.py:62-64 | "```json\n" + body + "\n```" gives the body |
| RecipeProcessor.UnfencePlain | src/llm/recipe_processor.py:62-64 | "```\n" + body + "\n```" gives the body |
| RecipeProcessor.CleanReplyJsonFence | src/llm/recipe_processor.py:61-64 | a fenced json reply yields exactly its (stripped) body |
| RecipeProcessor.CleanReplyPlainFence | src/llm/recipe_processor.py:61-64 | an untagged fenced reply yields its body |
| RecipeProcessor.CleanReplyNoFinalNewline | src/llm/recipe_processor.py:61-64 | on a stripped reply the `$`-before-newline case of the closing fence cannot arise |
| RecipeProcessor.Stamped | src/llm/recipe_processor.py:178-182 | extraction and generation validate the parsed object unchanged |
| RecipeProcessor.ProcessReplyOutcome | src/llm/recipe_processor.py:66-78 | the parse message iff the JSON does not parse; the recipe iff it is a schema-valid object once stamped; else the schema message, per mode (also line 128-140, line 176-194) |
| RecipeProcessor.ProcessReplyPropagates | src/llm/recipe_processor.py:56 | an error of the completion reaches the caller unchanged (also line 118, line 166) |
| RecipeProcessor.ModifyKeepsIdentity | src/llm/recipe_processor.py:178-182 | the result keeps the current id and created_at when present, and every other field as returned |
| RecipeProcessor.ExtractRecipe | src/llm/recipe_processor.py:56-78 | a success is a schema-valid recipe, exactly the parsed cleaned reply |
| RecipeProcessor.GenerateRecipe | src/llm/recipe_processor.py:118-140 | a success is a schema-valid recipe, exactly the parsed cleaned reply |
| RecipeProcessor.ModifyRecipe | src/llm/recipe_processor.py:166-194 | a success is valid and carries the current id and created_at when present |
| RecipeProcessor.TextOf | src/llm/recipe_processor.py:210 | `ing['text']`: a dict's text, or the error that subscripting that kind of value gives |
| RecipeProcessor.IngredientLines | src/llm/recipe_processor.py:210 | one "- <text>" line per ingredient, or the first item's error |
| RecipeProcessor.SuggestionPromptLines | src/llm/recipe_processor.py:207-212 | one-line ingredient texts give exactly one "- <text>" line each, in order |
| RecipeProcessor.SuggestionPromptUntitled | src/llm/recipe_processor.py:207 | the title defaults to "Untitled" |
| RecipeProcessor.GetRecipeSuggestions | src/llm/recipe_processor.py:197-217 | the stripped reply, or the prompt's or the completion's error |
| ChatIntent.MakeItNeverModifies | src/chat/websocket.py:125 | as written, a message containing "make it" never routes to modification (also line 142-145) |
| ChatIntent.MakeItVegetarianNoExtract | src/chat/websocket.py:104 | the help text's "make it vegetarian" has no extraction keyword (also line 176) |
| ChatIntent.MakeItVegetarianGenerates | src/chat/websocket.py:125 | as written, the help text's modification example routes to generation (also line 176) |
| ChatIntent.Classify | src/chat/websocket.py:104-181 | modification and suggestions only with ingredients; help only without extraction or generation keywords (corrected; see Findings) |
| ChatIntent.ModifyKeywordModifies | src/chat/websocket.py:142-145 | with ingredients, any modification keyword without an extraction keyword routes to modification |
| ChatIntent.ClassifyAgreesElsewhere | src/chat/websocket.py:104-181 | the corrected routing differs from the written one only where a modification keyword meets a generation keyword |
| ChatIntent.MakeItVegetarianModifies | src/chat/websocket.py:142-145 | under the corrected routing the example is a modification (also line 176) |
| ChatIntent.KeywordLengthAt | src/chat/websocket.py:106 | the length of the extraction keyword at a position, 0 if none is there |
| ChatIntent.FirstKeyword | src/chat/websocket.py:106 | the leftmost keyword position at or after the start, none iff there is none |
| ChatIntent.ExtractText | src/chat/websocket.py:106-108 | the stripped text after the first ':' following the leftmost keyword, or none |
| ChatIntent.KeywordAt | src/chat/websocket.py:106 | the keyword found at a position |
| ChatIntent.KeywordNotInside | src/chat/websocket.py:106 | no extraction keyword occurs inside another at a later offset |
| ChatIntent.KeywordsDoNotNest | src/chat/websocket.py:106 | a keyword starting inside another one ends after it |
| ChatIntent.ExtractTextFound | src/chat/websocket.py:106-107 | the search succeeds iff some keyword (any case) is followed later by ':' (also line 121-122) |
| ChatIntent.FirstKeywordOfMention | src/chat/websocket.py:104-106 | a mentioned keyword is found by the scan |
| ChatIntent.ExtractTextExample | src/chat/websocket.py:106-108 | "Extract recipe from: body" hands the stripped body to the extractor |
| ChatIntent.StampNew | src/chat/websocket.py:112-114 | id = the recipe id, created_at kept (or now), updated_at = now; every other field kept (also line 131-133) |
| ChatIntent.Failed | src/chat/websocket.py:183-185 | the reply starts with the apology, has no data and stores nothing |
| ChatIntent.ProcessChatMessage | src/chat/websocket.py:89-185 | always a reply, never an exception; with no data sent the stored recipe is unchanged, and a changed one is exactly the data sent; a non-string message gets the AttributeError apology (corrected; see Findings) |
| ChatIntent.ProcessChatMessageReplies | src/chat/websocket.py:120-122 | suggestions and help keep the recipe; the two help texts by ingredients; paste guidance with no data when no ':' follows (also line 156-181) |
| ChatIntent.ProcessChatMessageStamps | src/chat/websocket.py:112-154 | extracted and generated recipes are stamped with id, created_at and updated_at; a modified one with updated_at; the stored data is the data sent |
| ChatIntent.ProcessChatMessageContainsErrors | src/chat/websocket.py:183-185 | on the generation route, a failing model call answers the apology plus the call's own text, with no data and nothing stored |
| ChatIntent.ProcessChatMessageFailures | src/chat/websocket.py:183-185 | on every route (extraction once text follows a ':', generation, modification, suggestions), a failing call answers the apology plus that failure's text, with no data and nothing stored |
| ChatSession.ConnectionManager.constructor | src/chat/websocket.py:43-44 | no live clients |
| ChatSession.ConnectionManager.Connect | src/chat/websocket.py:46-48 | the client is mapped to the socket; nothing else changes |
| ChatSession.ConnectionManager.Disconnect | src/chat/websocket.py:50-53 | the client is removed; an unknown id changes nothing |
| ChatSession.WarningDelay | src/chat/websocket.py:196-197 | 0 iff the token has at most 60 s left; otherwise now + delay is exactly 60 s before expiry |
| ChatSession.WarningDelayAsWritten | src/chat/websocket.py:196-197 | as written, the delay equals the intended one on a UTC host; where neither delay is clamped to 0, it equals the intended one only there |
| ChatSession.WarningLateEastOfUtc | src/chat/websocket.py:196-197 | as written, on a UTC+2 host, a fresh token's warning is due 8040 s later instead of 840, after expiry |
| ChatSession.WarningLostWestOfUtc | src/chat/websocket.py:196-199 | as written, on a UTC−5 host, no warning is scheduled for a fresh token |
| ChatSession.StartMonitor | src/chat/websocket.py:196-200 | finished at once iff the delay is 0; else it sleeps until 60 s before expiry, a time after now (corrected; see Findings) |
| ChatSession.Wake | src/chat/websocket.py:199-214 | a due sleeping monitor sends one auth_required "Token expiring soon" and waits 30 s; otherwise nothing is sent and nothing changes |
| ChatSession.PayloadOf | src/chat/websocket.py:274 | the payload, only when it is an object (also line 281, line 345-346) |
| ChatSession.GreetingFrame | src/chat/websocket.py:326-333 | a recipe_update with no request id and the greeting; recipe data is the recipe iff its ingredients are truthy |
| ChatSession.AuthenticateAccepts | src/chat/websocket.py:267-313 | accepted iff the type is auth, the payload parses, the token is truthy, decodes, is unexpired, has a sub, the user exists and owns the recipe; each refusal has one of the prelude's reasons |
| ChatSession.ParseChatMessage | src/chat/websocket.py:368 | parses iff the payload is an object, the id a string when given, and the timestamp a string or number when given; the id defaults to the fresh one (also src/models/schemas.py:133-137) |
| ChatSession.LoopStep | src/chat/websocket.py:336-405 | at most one frame, always a recipe_update; the only close is "Invalid or expired token" |
| ChatSession.MonitorStep | src/chat/websocket.py:209-232 | sends nothing; closes iff the connection ends, with "Expected auth message" or "Invalid token"; otherwise a restarted monitor |
| ChatSession.NextCloses | src/chat/websocket.py:257-418 | every close uses 1008 and ends in Closed |
| ChatSession.NextRegistry | src/chat/websocket.py:315-317 | a client is registered only when the prelude succeeds, under "<user>:<recipe>", and removed on every exit from a connected session (also line 411-418) |
| ChatSession.PreludeOutcome | src/chat/websocket.py:257-333 | the prelude registers only after every check, starts the monitor on the token's expiry and sends the greeting first; its closes have prelude reasons |
| ChatSession.EmptyChatMessageIgnored | src/chat/websocket.py:369-372 | a falsy or missing content gets no reply and changes nothing but the last message id |
| ChatSession.ChatMessageAnswered | src/chat/websocket.py:374-391 | other content gets exactly one recipe_update with that message's id; the connection stays open |
| ChatSession.OtherTypesIgnored | src/chat/websocket.py:392-393 | another type sends nothing and leaves the session as it was |
| ChatSession.LoopErrorsAnswered | src/chat/websocket.py:395-405 | a loop error answers the apology with no data, tied to the last parsed message id or none |
| ChatSession.ReauthOutcome | src/chat/websocket.py:344-364 | an undecodable or expired token closes with "Invalid or expired token"; a valid one restarts the monitor on the new expiry and sends nothing |
| ChatSession.WarningOnlyWhenDue | src/chat/websocket.py:199-207 | auth_required is sent only by a sleeping monitor whose time has come |
| ChatSession.FinishedStaysSilent | src/chat/websocket.py:199 | a finished monitor sends no warning and stays finished until an auth frame arrives |
| ChatSession.AwaitingOutcome | src/chat/websocket.py:209-236 | after the warning: restart on a decodable token, end silently, or close with "Expected auth message", "Invalid token" or "Re-authentication timeout" |
| ChatSession.RunSnoc | src/chat/websocket.py:336-338 | one more event extends the trace by exactly that event's step |
| ChatSession.RunFromClosed | src/chat/websocket.py:411-418 | a closed connection stays closed and silent |
| ChatSession.RunClosesOnce | src/chat/websocket.py:257-418 | a run sends at most one close, with code 1008, and ends Closed after it |
| ChatSession.RunFinishedNeverWarns | src/chat/websocket.py:196-200 | a session whose monitor has finished never warns while no auth frame arrives |
| ChatSession.ChatConnection.constructor | src/chat/websocket.py:251-254 | an accepted connection waiting for its auth frame, with no client id and nothing sent or closed |
| ChatSession.ChatConnection.Receive | src/chat/websocket.py:244-418 | the phase, frames and closes follow `Next`, and the manager's registry changes as the step says |
| ChatSession.ChatConnection.Serve | src/chat/websocket.py:336-405 | the loop over the events leaves the state that `Run` describes |
| AuthApi.AccessFor | src/auth/security.py:25-38 | the token's sub is the user and its expiry now + 15 minutes |
| ChatSession.FreshAccessTokenWarned | src/chat/websocket.py:196-200 | a freshly issued access token is warned about 840 s after issue, one minute before it lapses; the monitor started on it sleeps until then |
| AuthApi.FindByEmail | src/api/auth.py:27-28 | finds a user iff the address is taken, and the found user has it (also line 72-73) |
| AuthApi.SignupOutcome | src/api/auth.py:24-65 | 409 "email_exists" iff the address is taken, with nothing stored; otherwise the user and exactly one refresh token for them are added and both tokens returned (corrected; see Findings) |
| AuthApi.SigninOutcome | src/api/auth.py:69-104 | 401 "invalid_credentials" iff the address is unknown or the password is wrong, with nothing stored; otherwise one new refresh token for the user (corrected; see Findings) |
| AuthApi.RefreshOutcome | src/api/auth.py:108-142 | 401 iff the token is unknown or expired (now > expires_at); otherwise it is deleted and a new one stored for the same user (also src/auth/security.py:64-66) |
| AuthApi.LogoutOutcome | src/api/auth.py:146-158 | always "Logged out successfully"; the token is gone afterwards, and nothing else changes |
| AuthApi.ForgotPasswordOutcome | src/api/auth.py:162-188 | the same message always; a one-hour reset token is stored only for a known address (also src/auth/security.py:48-52) |
| AuthApi.ResetPasswordOutcome | src/api/auth.py:192-228 | accepted iff the token exists, is unused, unexpired and its user exists; then the hash is replaced and the token marked used |
| AuthApi.SignupTwiceRefused | src/api/auth.py:27-32 | a second sign-up with the same address is refused, whatever the password |
| AuthApi.SignupThenSignin | src/api/auth.py:24-104 | after a sign-up the same password signs in as the new user, given a sound hash |
| AuthApi.SigninRefusalsAlike | src/api/auth.py:76-80 | an unknown address and a wrong password get the same answer and store nothing |
| AuthApi.RefreshRotates | src/api/auth.py:124-137 | after a refresh the old token is refused and the new one accepted until its expiry |
| AuthApi.LogoutIdempotent | src/api/auth.py:146-158 | logging out twice equals logging out once |
| AuthApi.LogoutThenRefreshRefused | src/api/auth.py:146-158 | a logged-out token no longer refreshes (also line 111-121) |
| AuthApi.ForgotPasswordAlike | src/api/auth.py:164-165 | the answer does not reveal whether the address is known (also line 188) |
| AuthApi.ResetSingleUse | src/api/auth.py:195-226 | a reset token issued for a known address resets that user's password once, and is refused the second time |
| AuthApi.MissingFields | src/models/schemas.py:98-102 | exactly the required fields not given |
| AuthApi.BuildUserResponse | src/models/schemas.py:98-102 | builds iff every required field is passed, else a 500 |
| AuthApi.AsWritten | src/api/auth.py:57-65 | the store is the one after the commits; an error answer is unchanged (also line 96-104) |
| AuthApi.SignupAsWrittenFails | src/api/auth.py:57-65 | as written, a successful sign-up answers 500 after storing the user and a token, and a retry gets "email_exists" (also src/models/schemas.py:98-102) |
| AuthApi.SigninAsWrittenFails | src/api/auth.py:96-104 | as written, a correct sign-in answers 500 after storing a refresh token (also src/models/schemas.py:98-102) |
| AuthApi.UserRowResponseBuilds | src/api/auth.py:60-63 | the response model without `name` builds from exactly the fields the handlers pass (also line 99-102, line 234-237) |
| AuthApi.AuthStore.constructor | src/api/auth.py:19-20 | empty tables |
| AuthApi.AuthStore.Signup | src/api/auth.py:24-65 | the tables and answer are `SignupOutcome`'s (corrected; see Findings) |
| AuthApi.AuthStore.Signin | src/api/auth.py:69-104 | the tables and answer are `SigninOutcome`'s (corrected; see Findings) |
| AuthApi.AuthStore.Refresh | src/api/auth.py:108-142 | the tables and answer are `RefreshOutcome`'s |
| AuthApi.AuthStore.Logout | src/api/auth.py:146-158 | the tables and answer are `LogoutOutcome`'s |
| AuthApi.AuthStore.ForgotPassword | src/api/auth.py:162-188 | the tables and answer are `ForgotPasswordOutcome`'s |
| AuthApi.AuthStore.ResetPassword | src/api/auth.py:192-228 | the tables and answer are `ResetPasswordOutcome`'s |
| RecipesApi.Status | src/api/recipes.py:51-53 | 404 exactly for a missing recipe, 422 exactly for an incomplete or schema-rejected one, 500 exactly for a duplicate id or an uncaught error (also line 116-118, line 167-169) |
| RecipesApi.Lookup | src/api/recipes.py:105-113 | a row iff the id exists and the caller owns it |
| RecipesApi.OwnedCount | src/api/recipes.py:33-36 | the number of the caller's recipes, at most the table's size |
| RecipesApi.OwnedCountInsert | src/api/recipes.py:33-36 | a new row of the caller's adds one to the caller's count and none to anyone else's (also line 57-64) |
| RecipesApi.RecipeIdOf | src/api/recipes.py:27-28 | a truthy id is kept; otherwise the fresh one |
| RecipesApi.Prepared | src/api/recipes.py:27-42 | the id is set; the title becomes "Untitled Recipe <count+1>" iff it is blank; created_at = updated_at = now; all else kept |
| RecipesApi.CreateOutcome | src/api/recipes.py:20-68 | a refusal changes nothing, and an incompleteness refusal lists its issues; an acceptance stores the sanitised prepared document, which is complete, once under a new id for the caller (corrected; see Findings) |
| RecipesApi.CreateAccepted | src/api/recipes.py:45-64 | a create is accepted iff the sanitised document is complete and its id is new |
| RecipesApi.AutoTitlesNumberedInTurn | src/api/recipes.py:31-37 | two blank-titled recipes created in a row are numbered one after the other |
| RecipesApi.GetOutcome | src/api/recipes.py:99-121 | the document iff the caller owns it, else 404 |
| RecipesApi.Merge | src/api/recipes.py:150-158 | set, non-null patch fields overwrite; all other fields keep their values; no key is lost |
| RecipesApi.PatchOutcome | src/api/recipes.py:125-179 | 404 with no change for a non-owner; else the merge with a new updated_at, stored iff schema-valid, otherwise 422 with no change |
| RecipesApi.EmptyPatchRestampsOnly | src/api/recipes.py:150-177 | an accepted patch that sets nothing changes only updated_at |
| RecipesApi.DeleteOutcome | src/api/recipes.py:183-210 | the caller's recipe is removed, else 404 and no change |
| RecipesApi.DeleteThenGet | src/api/recipes.py:206-208 | after a delete the recipe is gone for everyone (also line 105-119) |
| RecipesApi.OthersRecipesInvisible | src/api/recipes.py:105-119 | get, patch and delete of another user's recipe all answer 404 and change nothing (also line 133-147, line 190-204) |
| RecipesApi.Summarise | src/api/recipes.py:87-93 | the document's id, title and yield when present, else the row id, "Untitled" and "1 serving"; the row's time |
| RecipesApi.ListingCount | src/api/recipes.py:77-82 | a listing holds exactly the caller's recipes, so its length is their count |
| RecipesApi.RecipeStore.constructor | src/api/recipes.py:15-16 | an empty table |
| RecipesApi.RecipeStore.CreateRecipe | src/api/recipes.py:20-68 | the table and answer are `CreateOutcome`'s (corrected; see Findings) |
| RecipesApi.RecipeStore.ListRecipes | src/api/recipes.py:71-95 | the loop gives one summary per owned recipe, in the query's order, newest first |
| RecipesApi.RecipeStore.GetRecipe | src/api/recipes.py:99-121 | the answer is `GetOutcome`'s and nothing changes |
| RecipesApi.RecipeStore.UpdateRecipe | src/api/recipes.py:125-179 | the field loop and the store give `PatchOutcome`'s table and answer |
| RecipesApi.RecipeStore.DeleteRecipe | src/api/recipes.py:183-210 | the table and answer are `DeleteOutcome`'s |

## Left out

- Concurrency. The monitor task and the message loop both read the next frame. The model settles the race in the monitor's favour while it waits for re-authentication, and `asyncio` sleeping, timeouts and cancellation become `Timeout` events and monitor states.
- Wall-clock time is whole seconds. `datetime` differences and `total_seconds` are integer arithmetic, and the ISO text of the clock is a parameter (`iso`).
- Unicode. `lower`, `strip` and the regex classes `\w`, `\s` and `\d` are modelled on ASCII plus Python's whitespace set.
- Token signing and hashing are oracles: JWT encode and decode, with the library's own `exp` check inside the decoder, and bcrypt hash and verify. `secrets.token_urlsafe` and `uuid4` become fresh-value parameters. The operations that store them require that they do not collide with stored values.
- `bleach.clean`, `json.loads`, the language model client and the prompt wording are oracle parameters.
- The `is_valid_url` pattern (src/utils/validation.py:97-100) is a parameter. Only its tested examples are stated, as `UrlCheckAsTested`.
- A frame that is not JSON ends the connection like a disconnect (no close frame). The outbound frames' own `id` and `timestamp` are not modelled.
- The chat connection's writes to `recipe.updated_at` and the `db.commit` calls are not modelled. The stored recipe data is.
- `AuthMessage`, `AuthRequiredMessage`, `ErrorMessage` and `MessageType` are imported by src/chat/websocket.py but not defined in src/models/schemas.py. The model assumes the type strings "auth" and "chat_message", and that an auth message needs an object payload.
- pydantic's coercions (a numeric string for an int, say), its timestamp parsing and `model_dump` normalisation are not modelled. Request bodies are taken as their dumped, already validated form.
- The re-validation of stored documents on the way out (`RecipeSchema(**recipe.recipe_data)`, src/api/recipes.py:68, 121, 179) is not modelled, and neither is the text of pydantic's 422 message on a bad patch.
- RecipesApi.RecipeStore.ListRecipes: the SQL `ORDER BY updated_at DESC` is not computed. The rows the query returns are a precondition (`Listing`: each owned id once, newest first).
- The limiter's background clean-up loop (src/middleware/rate_limit.py:21-43) is not modelled. Its body `_cleanup_old_entries` is.
- The TESTING bypass of the middleware (src/middleware/rate_limit.py:112-114) is not modelled.
- The shallow copy in `sanitize_recipe_data` (src/utils/validation.py:39) aliases the caller's nested dicts. The model works on values, so that aliasing is not captured.
- Logging, the unused WebSocket metric counters and `get_websocket_metrics` are not modelled.
- `get_me` (src/api/auth.py:231-238) and src/auth/dependencies.py only repeat the decode-and-look-up chain. They are not modelled beyond `AuthApi.UserRowResponseBuilds`.
- `get_current_user_admin` is imported by src/api/metrics.py but defined nowhere. The metrics endpoints are modelled without it.
- Some tests assert behaviour the code does not have. This covers a per-connection chat rate limit, a connection cap, a message-size close, the 60-per-minute API limit, and some validation expectations. The model follows the code there. Where the code has a bug listed under Findings, the operations named in the lines below use the intended definition instead.
- src/db/database.py, src/db/models.py, src/api/chat.py, src/main.py and the deployment scripts are not part of this model.
- Validation.SanitizeRecipeData: uses the corrected url rule (`SanitizeSource`), so a source without a url is kept; as written it raises TypeError (`UrlLessSourceRaises`, see Findings).
- RecipesApi.CreateOutcome: sanitises with the corrected url rule, so a recipe whose source has no url is stored; as written create answers 500 (see Findings).
- RecipesApi.RecipeStore.CreateRecipe: its table and answer are `CreateOutcome`'s, with the corrected url rule; as written create answers 500 for a url-less source (see Findings).
- ChatIntent.Classify: is the corrected routing, with modification tested before generation; as written "make it …" routes to generation (`MakeItVegetarianGenerates`, see Findings). `ClassifyAgreesElsewhere` states where the two routings agree.
- ChatIntent.ProcessChatMessage: routes through the corrected `Classify`, so "Make it vegetarian" on a recipe with ingredients modifies; as written it generates a new recipe (see Findings).
- ChatSession.StartMonitor: uses the delay measured from the true UTC time (`WarningDelay`); as written the delay depends on the host's UTC offset (`WarningDelayAsWritten`, see Findings).
- AuthApi.SignupOutcome: answers Ok with the tokens; as written the answer is 500 after the user and token are committed, because `UserResponse` requires `name` (`SignupAsWrittenFails`, see Findings).
- AuthApi.SigninOutcome: answers Ok with the tokens; as written the answer is 500 after the refresh token is stored (`SigninAsWrittenFails`, see Findings).
- AuthApi.AuthStore.Signup: its tables and answer are `SignupOutcome`'s corrected Ok; the as-written tables are the same, and only the answer differs (`AsWritten`).
- AuthApi.AuthStore.Signin: its tables and answer are `SigninOutcome`'s corrected Ok; the as-written tables are the same, and only the answer differs (`AsWritten`).
- Json.Display: prints "<float>", "<list>" and "<dict>" in place of Python's `str()` of a float, a list or a dict. So `RateLimit.GetClientKey` gives two different list-valued user ids the same key, where the source gives each its own bucket. `RecipeProcessor.IngredientLines` prints such ingredient texts as the placeholder.
- Schemas.RecipeValid: the model reads only the alias `yield`; the field name `yield_`, which `populate_by_name` also accepts on input, is not modelled.
- Validation.SanitizeString: a negative `max_length` is modelled as Python's slice from the end. Only the positive-cap bound is stated.
- ChatSession.ChatConnection.Receive: the mid-session auth frame is not checked for `sub` or user, as in the code.

## Findings

| source | as written | input that shows it | evidently intended | confidence | as-written member | corrected member |
|---|---|---|---|---|---|---|
| src/chat/websocket.py:196-197 | `datetime.utcnow().timestamp()` reads the naive UTC time as local time, so "now" is off by the host's UTC offset | a fresh 15-minute token on a host at UTC+2: the warning is scheduled 8040 s ahead, after the token expired; at UTC−5 no warning is scheduled | the delay measured from the true current time: 840 s for a fresh token | not executed | ChatSession.WarningLateEastOfUtc | ChatSession.WarningDelay |
| src/utils/validation.py:76-81 with src/api/recipes.py:45-46 | `if "url" in source` tests presence only, and `model_dump` always includes `url`, so a source without a url passes `None` to `re.match` | a recipe with `source: {"type": "text"}`: the url is None, `is_valid_url(None)` raises TypeError, and create answers 500 | only a string url is tested; a null url is left alone | not executed | Validation.UrlLessSourceRaises | Validation.SanitizeSourceTotal |
| src/chat/websocket.py:125, 142-145, 176 | the generation keywords are tested before the modification keywords, and "make" is a substring of "make it" | "Make it vegetarian", the help text's own modification example, on a recipe with ingredients: it routes to generation and replaces the recipe | a modification keyword on a recipe with ingredients reaches `modify_recipe` | not executed | ChatIntent.MakeItVegetarianGenerates | ChatIntent.MakeItVegetarianModifies |
| src/models/schemas.py:98-102 with src/api/auth.py:60-63, 99-102 | `UserResponse` requires `name`, which the handlers never pass and no table holds | any successful sign-up or sign-in: building the response raises after the user and token were committed, so the answer is 500 and a retry of the sign-up gets 409 | the response built from id, email and created_at, as the handlers pass them | not executed | AuthApi.SignupAsWrittenFails | AuthApi.UserRowResponseBuilds |
