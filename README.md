# Website idea generator: the idea engine, AI response handling and the history filter

This project models, in Dafny, the three pieces of deterministic logic of the
website idea generator and proves what they promise:

- **The procedural idea engine** (`src/lib/ideaEngine.ts`, modules
  `IdeaEngine` and `IdeaBatch`).
  - `generateIdea` either copies an entry of the niche's curated pool or
    builds an "adjective noun" idea from the niche's word lists, or from the
    generic ones.
  - `createIdeaObject` classifies the idea as Game or App and attaches the
    matching tech stack and the six steps of the matching step template. It
    also sets the difficulty, a fresh identity and cleared flags.
  - `generateIdeaBatch` fills `count` slots. A used title is re-drawn at
    most ten times. From the third re-draw on, the procedural branch is
    forced.
  - The batch loops are a method (`FillBatch`, with `FillOne` for one outer
    iteration). It is proved equal to a specification function (`Batch`)
    over the slots the loops go through. Lemmas about that function give:
    - the call numbering;
    - the contents of `usedTitles`;
    - the freshness of every title accepted before the re-draws run out;
    - the shape of every idea.
- **AI response normalisation and provider fallback** (`src/lib/aiProviders.ts`,
  modules `Text` and `AiProviders`).
  - `parseIdeasFromJSON` strips the code fences, trims, parses and maps each
    element to an idea with field defaults.
  - `generateIdeasWithFallback` tries Pollinations, Gemini and OpenRouter in
    order. It skips Gemini without a key, returns the first non-empty list
    and collects an error entry for each provider that throws. When none
    succeeds it throws an aggregate message. The loop is a method proved
    equal to a recursive specification (`Fallback`). Lemmas over that
    specification state the call order, success and failure.
- **The history filter** (`src/components/features/HistorySidebar.tsx`,
  module `HistoryFilter`). `filteredIdeas` keeps the ideas the filter mode
  selects and sorts them newest first with a stable sort.

## Inputs

The environment becomes inputs:

- `Math.random()` becomes a `Draw` record per call of `generateIdea`:
  - a boolean for `< 0.40`;
  - a boolean for `> 0.7`;
  - a value in [0, 1) for each `Math.floor(Math.random() * n)` pick.
- `uuidv4()` and `Date.now()` become fields of that record: the idea's
  identifier, six step identifiers and the timestamp.
- The calls of a batch are numbered, and `draw(k)` is what call `k` takes.
- The tables (`CURATED_IDEAS`, `STRICT_TEMPLATES`, the generic word lists,
  `WEB_STEPS`, `GAME_STEPS`) form a `Catalog`.
  - `SourceCatalog` holds the source's tables.
  - The generation lemmas hold for any `Sound` catalog.
  - `SourceCatalogSound` proves the source's tables are sound.
- `JSON.parse` is a parameter `parse` that returns a JSON value or an error.
  The identifier and timestamp of element `i` come from `stamps(i)`.
- Each provider's `generate` call is a parameter `generate`. It returns a
  list of ideas or throws with a message.

## Behaviour of the code worth noting

- **Fallback.** `generateIdeasWithFallback` is one plain sequential loop over
  the three providers.
  - No two providers run at the same time, and no key is rotated.
  - A provider that resolves to an empty list is passed over silently.
  - A skipped Gemini leaves no error entry.
  - The aggregate message names only the providers that threw.
- **Parsing.** `parseIdeasFromJSON` does not search the text for a JSON array
  inside prose. It only removes the fences and trims.
  - An empty array parses to an empty list, not an error.
  - A parse error propagates unchanged.
  - The element mapping fails only on a `null` element, and a non-array
    value fails at `.map`.
- **Steps.** The `Idea` interface comments out `steps`, yet both
  `createIdeaObject` and `parseIdeasFromJSON` set it. The model keeps `steps`
  in the record.

## Model

| member | source | states |
|---|---|---|
| Text.RemoveAll | src/lib/aiProviders.ts:33 | A global `replace(/p/g, "")` is no longer than its input. `RemoveAllSubMultiset`, `RemoveAllKeepsPrefix` and `RemoveAllAbsent` state which characters it keeps. |
| Text.RemoveAllSubMultiset | src/lib/aiProviders.ts:33 | The replace never adds a character: the result's characters are a sub-multiset of the input's. |
| Text.RemoveAllKeepsPrefix | src/lib/aiProviders.ts:33 | Text before a match that holds no first character of the pattern is kept as it is, the match is dropped, and the scan resumes right after it. |
| Text.RemoveAllAbsent | src/lib/aiProviders.ts:33 | Removing a pattern that does not occur leaves the text unchanged. |
| Text.NoFenceAfterRemoval | src/lib/aiProviders.ts:33 | After every "```" is removed, no "```" is left, including none formed from characters on either side of a removed fence. |
| Text.IsJsSpace | src/lib/aiProviders.ts:33 | No contract of its own. It is the set of characters `trim()` strips (ECMAScript white space and line terminators); `TrimStartStripsSpaces`, `TrimEndStripsSpaces` and `Trim` state what is stripped and what is left. |
| Text.TrimStart | src/lib/aiProviders.ts:33 | The result is a suffix of the input that is empty or does not start with ECMAScript white space. |
| Text.TrimStartStripsSpaces | src/lib/aiProviders.ts:33 | Every character stripped from the front is white space. |
| Text.TrimEnd | src/lib/aiProviders.ts:33 | The result is a prefix of the input that is empty or does not end with white space. |
| Text.TrimEndStripsSpaces | src/lib/aiProviders.ts:33 | Every character stripped from the back is white space. |
| Text.Trim | src/lib/aiProviders.ts:33 | `trim()` is no longer than its input and has no white space at either end. |
| Text.TrimTrimmed | src/lib/aiProviders.ts:33 | A text with no white space at either end is its own trim. |
| Text.TrimContains | src/lib/aiProviders.ts:33 | Trimming keeps a contiguous piece, so any pattern in the trimmed text was in the input. |
| Text.NoJsonFence | src/lib/aiProviders.ts:33 | A text without "```" has no "```json" either. |
| Text.Join | src/lib/aiProviders.ts:156 | No contract of its own. `FallbackFailure` states the message that `errors.join("; ")` builds. |
| Text.ToLower | src/lib/ideaEngine.ts:157 | `toLowerCase` keeps the length and lowers each ASCII capital in place. |
| IdeaEngine.Pick | src/lib/ideaEngine.ts:132 | `Math.floor(Math.random() * n)` is a valid index into a non-empty list of `n` entries. |
| IdeaEngine.TakesCurated | src/lib/ideaEngine.ts:130 | No contract of its own. `GenerateIdea` states that when it holds the idea copies an entry of the niche's curated pool, and that otherwise it is an adjective-noun idea. |
| IdeaEngine.HasWords | src/lib/ideaEngine.ts:144 | No contract of its own. `Words` and `GenerateIdea` (through `ProceduralShape`) state that the niche's own lists and tags are used exactly when it holds. |
| IdeaEngine.Words | src/lib/ideaEngine.ts:144-154 | The word lists used (the niche's own, or the generic ones) both have entries. |
| IdeaEngine.CuratedPoolFacts | src/lib/ideaEngine.ts:43-75 | Every curated pool has entries, each with a title and a description. No pool outside Gaming tags an entry "Gaming" or "RPG". |
| IdeaEngine.WordListFacts | src/lib/ideaEngine.ts:78-103 | Every niche's word lists have entries. No adjective outside Gaming is "Gaming" or "RPG", and no niche is named "RPG". |
| IdeaEngine.SourceCatalogSound | src/lib/ideaEngine.ts:43-125 | The source's tables satisfy every assumption the generation lemmas make. |
| IdeaEngine.TablesCoverNiches | src/lib/ideaEngine.ts:33-40 | Every niche of `NICHES` has a curated pool and word lists. |
| IdeaEngine.ProceduralTags | src/lib/ideaEngine.ts:148-153 | No contract of its own. `GenerateIdea` (through `ProceduralShape`) states the tags of an adjective-noun idea, and `ProceduralNotGame` states that they never make a game outside Gaming. |
| IdeaEngine.ProceduralDescription | src/lib/ideaEngine.ts:157 | No contract of its own. `GenerateIdea` (through `ProceduralShape`) states that an adjective-noun idea carries this description. |
| IdeaEngine.IsGame | src/lib/ideaEngine.ts:163 | No contract of its own. `GenerateIdea` and `CreateIdeaObject` state that the type is Game exactly when this test holds, and `GameIffGamingNiche` reduces it to the Gaming niche for sound tables. |
| IdeaEngine.GenerateIdea | src/lib/ideaEngine.ts:127-160 | The curated branch copies title, description and tags from one entry of the niche's pool. Otherwise the title is "adj noun" from the niche's or the generic lists, with the matching tags and description. Either way the type is Game exactly when the niche is Gaming or a tag is "Gaming"/"RPG", and the identity comes from the draw. |
| IdeaEngine.CreateIdeaObject | src/lib/ideaEngine.ts:162-187 | Title, description and tags are kept, and the type is Game or App by the game test. The stack and step template follow the type: six steps in template order, each with its fresh identifier and not completed. Difficulty is Hard or Medium by the draw; identity, timestamp and cleared flags are set. |
| IdeaEngine.CuratedNotGame | src/lib/ideaEngine.ts:163 | A curated entry outside the Gaming niche never classifies as a game. |
| IdeaEngine.ProceduralNotGame | src/lib/ideaEngine.ts:144-154 | An adjective-noun idea outside the Gaming niche never classifies as a game. |
| IdeaEngine.GameIffGamingNiche | src/lib/ideaEngine.ts:163-172 | With sound tables, a generated idea is a Game exactly when it was generated for the Gaming niche. |
| IdeaEngine.GeneratedWellFormed | src/lib/ideaEngine.ts:169-186 | A generated idea has a title and a description, type App or Game (never Website), and difficulty Medium or Hard (never Easy or Expert). It has six open steps, and neither flag is set. |
| IdeaBatch.Forced | src/lib/ideaEngine.ts:199-200 | No contract of its own. `FillOne` states that each re-draw passes `attempts > 1` before the increment, so the idea a slot holds was forced exactly when `Forced` holds; `BatchIdeas` states that such an idea is an adjective-noun idea. |
| IdeaBatch.Retry | src/lib/ideaEngine.ts:197-202 | The retry loop stops within ten re-draws, uses one call per re-draw, and holds an unused title unless it used up all ten. |
| IdeaBatch.FillSlot | src/lib/ideaEngine.ts:194-202 | One outer iteration makes one first call plus one per re-draw, and accepts an unused title unless its re-draws ran out. |
| IdeaBatch.SlotsFrom | src/lib/ideaEngine.ts:193-208 | The outer loop fills one slot per iteration. |
| IdeaBatch.FillOne | src/lib/ideaEngine.ts:194-202 | The first call and the inner `while` loop, passing `attempts > 1` as `forceProcedural`, end in the state the retry specification gives, holding the output of their last call. |
| IdeaBatch.Batch | src/lib/ideaEngine.ts:189-210 | The batch has `n` ideas. `FillBatch` is proved equal to it, and `SlotUsed`, `FreshTitle`, `DistinctTitlesUnlessExhausted` and `BatchIdeas` state its contents. |
| IdeaBatch.FillBatch | src/lib/ideaEngine.ts:189-210 | The two loops return exactly `count` ideas (none when `count` is 0 or less): the ideas the slots accept, in order. The loop keeps `usedTitles` equal to the titles pushed. |
| IdeaBatch.GenerateIdeaBatch | src/lib/ideaEngine.ts:189-210 | `generateIdeaBatch` is the batch loops run on `generateIdea`, call `k` drawing from `draw(k)`. |
| IdeaBatch.TitlesInSnoc | src/lib/ideaEngine.ts:206-207 | Pushing an idea adds its title to the used titles, even a title already there. |
| IdeaBatch.SlotUsed | src/lib/ideaEngine.ts:191-207 | Slot `k` is filled against the titles of the earlier slots, duplicates included. It starts at the call after the previous slot's last. |
| IdeaBatch.SlotCalls | src/lib/ideaEngine.ts:194-201 | Slots use consecutive calls: each makes one call plus one per re-draw, with at most ten re-draws. |
| IdeaBatch.FreshTitle | src/lib/ideaEngine.ts:199-206 | A slot that did not use up its re-draws accepted a title that no earlier slot accepted. |
| IdeaBatch.DistinctTitlesUnlessExhausted | src/lib/ideaEngine.ts:193-208 | When no slot used up its re-draws, no two ideas of the batch share a title. |
| IdeaBatch.GeneratorIdea | src/lib/ideaEngine.ts:194-200 | Every call made by the batch returns a well-formed idea: a title and a description, difficulty Medium or Hard, type App or Game, six open steps, both flags off. It is a game exactly for the Gaming niche, and an adjective-noun idea when the call forces the procedural branch. |
| IdeaBatch.BatchIdeas | src/lib/ideaEngine.ts:194-207 | Every idea of a batch is well formed (a title and a description, difficulty Medium or Hard, type App or Game, six open steps, both flags off) and a game exactly for the Gaming niche. It is an adjective-noun idea whenever its slot needed more than two re-draws. |
| AiProviders.Truthy | src/lib/aiProviders.ts:38-43 | No contract of its own. It is JavaScript truthiness of a JSON value; `StringOr`, `StringsOr` and `ToIdea` state how `t.x || d` uses it. |
| AiProviders.Field | src/lib/aiProviders.ts:38-43 | No contract of its own. It is `t.x` on a parsed element; `ToIdea` states each field of the idea in terms of it. |
| AiProviders.Falsy | src/lib/aiProviders.ts:38-43 | No contract of its own. It is the case where `t.x || d` gives `d`; `StringOr`, `StringsOr` and `ToIdea` state that the default is taken then. |
| AiProviders.StringOr | src/lib/aiProviders.ts:38-42 | A string field with a default is the default when the field is missing or falsy, and the field's string when it is a non-empty string. |
| AiProviders.StringsOr | src/lib/aiProviders.ts:41-43 | A list field with the empty default is empty when the field is missing or falsy, and the field's strings, in order, when it is an array of strings. |
| AiProviders.ToIdea | src/lib/aiProviders.ts:36-48 | Each field falls back to its default ("Untitled Idea", "", "App", [], "Medium", []) when missing or falsy, a non-empty string field is copied, and an array of strings in `tags` or `techStack` is copied in order. The element's stamp gives identifier and timestamp; steps are empty, there is no product spec and both flags are off. |
| AiProviders.Clean | src/lib/aiProviders.ts:33 | The cleaned text is no longer than the response and has no white space at either end. `CleanFenced` states what text survives, `CleanHasNoFence` that no fence does. |
| AiProviders.CleanFenced | src/lib/aiProviders.ts:33 | A reply that is one "```json … ```" block with no backtick inside reaches `JSON.parse` as the block's text, trimmed. |
| AiProviders.FencedBlockOpened | src/lib/aiProviders.ts:33 | Removing "```json" from such a block leaves its text and the closing fence. |
| AiProviders.CleanHasNoFence | src/lib/aiProviders.ts:33 | The cleaned text never holds three backticks in a row. |
| AiProviders.CleanIdempotent | src/lib/aiProviders.ts:33 | Cleaning a cleaned text changes nothing. |
| AiProviders.HasNull | src/lib/aiProviders.ts:36-38 | No contract of its own. `MapTemplates` and `ParseResult` state that a `null` element makes the mapping fail, as reading `t.title` on it throws. |
| AiProviders.MapTemplates | src/lib/aiProviders.ts:36-48 | `templates.map(...)` succeeds exactly on an array with no `null` element, and then yields one idea per element. |
| AiProviders.ParseIdeasFromJSON | src/lib/aiProviders.ts:32-49 | No contract of its own. `ParseResult` states its behaviour. |
| AiProviders.ParseResult | src/lib/aiProviders.ts:32-49 | Parsing yields ideas exactly when the cleaned text parses to an array with no `null` element. It then yields one idea per element, in order, each built from its element and stamp. A parse error propagates unchanged. |
| AiProviders.Name | src/lib/aiProviders.ts:120-124 | No contract of its own. The provider names enter the error entries that `FallbackFailure` states. |
| AiProviders.Succeeds | src/lib/aiProviders.ts:144 | No contract of its own. `RunSucceeded`, `FallbackSuccess` and `FallbackOrder` state that the loop returns the ideas of the first provider whose outcome passes it. |
| AiProviders.Entry | src/lib/aiProviders.ts:148-151 | No contract of its own. `RunFailedErrors` and `FallbackFailure` state that the entries are "name: message" for the providers that threw, in order. |
| AiProviders.FailureMessage | src/lib/aiProviders.ts:156 | No contract of its own. `FallbackFailure` states the message it builds. |
| AiProviders.Eligible | src/lib/aiProviders.ts:137-140 | The providers not skipped start with Pollinations and end with OpenRouter, and include Gemini exactly when the key is truthy. |
| AiProviders.RunFrom | src/lib/aiProviders.ts:134-156 | No contract of its own. `RunInvoked`, `RunSucceeded`, `RunFailedCalls` and `RunFailedErrors` state its behaviour from any point of the loop. |
| AiProviders.Fallback | src/lib/aiProviders.ts:127-157 | No contract of its own. `FallbackOrder`, `FallbackSuccess` and `FallbackFailure` state its behaviour. |
| AiProviders.GenerateIdeasWithFallback | src/lib/aiProviders.ts:127-157 | The `for` loop returns what the fallback specification returns, and calls exactly the providers it calls. |
| AiProviders.AttemptedProviders | src/lib/aiProviders.ts:134-140 | With the skipping rule, the providers tried are Pollinations, Gemini, OpenRouter with a key, and Pollinations, OpenRouter without. |
| AiProviders.RunInvoked | src/lib/aiProviders.ts:134-147 | The loop calls a prefix of the providers it does not skip, in order. |
| AiProviders.RunSucceeded | src/lib/aiProviders.ts:142-147 | When the loop returns ideas, they are the non-empty list of the last provider called, and no provider called before it succeeded. |
| AiProviders.RunFailedCalls | src/lib/aiProviders.ts:134-152 | When the loop ends without ideas, it called every provider it does not skip, and none succeeded. |
| AiProviders.RunFailedErrors | src/lib/aiProviders.ts:148-156 | When the loop ends without ideas, the errors are the entries of the providers that threw, in order, and the message is built from them. |
| AiProviders.FallbackOrder | src/lib/aiProviders.ts:120-147 | Providers are called in the fixed order, never Gemini without a key, and none after the first success. On success, the ideas returned are those of the last provider called with the same niche, count and key, and every provider called before it failed. |
| AiProviders.FallbackSuccess | src/lib/aiProviders.ts:142-147 | The function returns ideas exactly when some provider it may call succeeds. It then returns the list of the first such provider. |
| AiProviders.FallbackFailure | src/lib/aiProviders.ts:148-156 | When no provider succeeds, every provider it may call was called. The error is "All AI providers failed: " followed by the "name: message" entries of the throwing providers in order, joined by "; ". |
| HistoryFilter.Keep | src/components/features/HistorySidebar.tsx:24-27 | No contract of its own. `Select` and `FilteredIdeasSpec` state which ideas the mode keeps. |
| HistoryFilter.Select | src/components/features/HistorySidebar.tsx:24-27 | The filter is no longer than its input, and with `'all'` it is the input itself. |
| HistoryFilter.SelectCount | src/components/features/HistorySidebar.tsx:24-27 | The filter keeps each idea the mode selects, as often as it occurs, and drops every other. |
| HistoryFilter.SelectAppend | src/components/features/HistorySidebar.tsx:24-27 | Filtering a concatenation filters each part in place, so the kept ideas stay in their history order. |
| HistoryFilter.Insert | src/components/features/HistorySidebar.tsx:28 | Inserting adds exactly the one idea. |
| HistoryFilter.SortNewestFirst | src/components/features/HistorySidebar.tsx:28 | The sort is a permutation of its input. |
| HistoryFilter.InsertNewestFirst | src/components/features/HistorySidebar.tsx:28 | Inserting into a newest-first list keeps it newest first. |
| HistoryFilter.SortIsNewestFirst | src/components/features/HistorySidebar.tsx:28 | The sorted list has non-increasing `createdAt`. |
| HistoryFilter.SortStable | src/components/features/HistorySidebar.tsx:28 | Ideas with the same `createdAt` keep their relative order. |
| HistoryFilter.FilteredIdeas | src/components/features/HistorySidebar.tsx:24-28 | No contract of its own. `FilteredIdeasSpec` and `FilteredIdeasStable` state its behaviour. |
| HistoryFilter.FilteredIdeasSpec | src/components/features/HistorySidebar.tsx:24-28 | `filteredIdeas` is newest first and no longer than the history. It holds each selected idea as often as the history does, unchanged, and nothing else; with `'all'` it is a permutation of the history. |
| HistoryFilter.FilteredIdeasStable | src/components/features/HistorySidebar.tsx:24-28 | Ideas created at the same time appear in `filteredIdeas` in the order the filter kept them (`SelectAppend` gives the history order); with `'all'`, in exactly their history order. |

## Left out

- Probabilities: the 0.40 and 0.7 thresholds of `Math.random()` become booleans in the draw, so nothing about the odds of either branch is stated.
- `uuidv4()` and `Date.now()` are inputs; that they are fresh or increasing is not modelled.
- `generateIdeaBatch` and `generateIdeasWithFallback` take `count` as an integer. Their default arguments (25 and 20) are not modelled, nor a fractional `count`.
- Absolute title uniqueness in a batch is not a postcondition, because the code accepts a duplicate after ten re-draws. `DistinctTitlesUnlessExhausted` states uniqueness under the condition that no slot used up its re-draws.
- The provider bodies (prompt text, `fetch`, the Gemini SDK, HTTP status checks, `localStorage`) are network and foreign calls. Each is the outcome of the `generate` parameter. The message of a provider that throws is whatever that outcome carries.
- That OpenRouter receives `geminiApiKey` as its `apiKey` argument is kept only in that every call gets the same key. What OpenRouter does with it is part of its body.
- The `console.log` and `console.error` calls are output only and are not modelled.
- `JSON.parse` is the `parse` parameter. The grammar of JSON text and the parser's error messages are not modelled, and JSON numbers are reals with no NaN or infinity.
- AiProviders.ToIdea: a truthy field whose value the idea field cannot hold (a number as `title`, a string or a mixed array as `tags`) falls back to the default in the model, where the code would copy the value itself.
- AiProviders.StringOr: a truthy non-string value yields the default, not the value itself.
- AiProviders.StringsOr: a truthy value that is not an array of strings yields the empty list, not the value itself.
- Field access on objects does not see JavaScript prototype members (`t.constructor` and the like).
- Text.ToLower lowers ASCII capitals only. The idea tables are ASCII, so no other case mapping is needed.
- `src/lib/gemini.ts` (prototype and spec generation through Groq and Gemini) is network and SDK wrapping and is not part of this model.
- `src/lib/storage.ts` and `src/lib/firebase.ts` (IndexedDB and Firestore storage) are not part of this model.
- The authentication components are not part of this model.
- The page handlers of `src/app/page.tsx` and the rendering-only components (modals, cards, animated background) are not part of this model.
- React state and rendering around `filteredIdeas` are left out. Only the `filter(...).sort(...)` expression is modelled.
- `GenerateIdeasWithFallback` records the providers it calls in a ghost out-parameter `invoked`. The source keeps no such list, so it is a record for the proofs only.
