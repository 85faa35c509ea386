# Veritas chat: session store and mock producer

This project is a Dafny model of the two pieces of sequential logic in the
ai-news "Veritas" React application.

The first is the **session store** behind the hooks of `App.tsx`. It holds:

- a list of chat sessions;
- the current session id;
- the input text;
- the processing flag;
- the selected model;
- the local-storage entry.

Its handlers create, select and delete sessions and send a message. It also
has the mount and save effects. The store is the class `SessionStore.Store`.
The pure list transforms behind it live in the module `SessionOps`:

- prepend a fresh session;
- filter by id;
- map by id, with the updater closures represented as `SessionEdit` values;
- derive the title;
- patch the assistant message.

The second is the **mock response producer**
`GeminiService.streamChatResponse` of `aiConnect.ts`, the module `AiConnect`.
It fills a fixed template with the prompt and splits it on single spaces.
For each word it reports the text so far, then makes one final report with two
example sources and fixed metrics. The `onUpdate` callback is modelled by
returning the list of its argument triples in call order. The word loop is a
method with loop invariants, proved equal to the reference function
`Emissions`.

The records of `types.ts` are datatypes in the module `Types`. Optional
fields are `Option`s. The JavaScript string built-ins the code relies on are
in `JsString`:

- `split` on one character;
- `join`;
- `trim`, with the ECMAScript whitespace set;
- `slice(0, n)`.

`handleSendMessage` awaits the producer. The model takes what the producer
did as an input, `ProducerOutcome`:

- `Completed(updates)`: it resolved after emitting `updates`;
- `Rejected(updates)`: it rejected after emitting `updates`.

The mock is declared as `(prompt, onUpdate)`, but `App.tsx` calls it with five
arguments, so its `onUpdate` would be the message array. Calling that array
throws, so as wired the outcome is `Rejected([])` and the error branch runs.
`CompletedWithMockProducer` states what a send leaves behind when the
producer is called as declared and resolves.

Guard, selection and restore follow the code:

- The guard `!currentSessionId` also rejects the empty-string id, so
  `SendBlocked` includes that case.
- Selecting a session sets the id as given, even one that is not listed.

## Model

| member | source | states |
|---|---|---|
| JsString.Split | ai-news/src/utils/aiConnect.ts:39 | `split(" ")` gives at least one piece, and no piece contains the separator |
| JsString.JoinSplit | ai-news/src/utils/aiConnect.ts:39-43 | joining the split pieces with the separator gives the string back |
| JsString.SplitJoin | ai-news/src/utils/aiConnect.ts:39-43 | splitting the join of separator-free pieces gives the pieces back |
| JsString.SplitCount | ai-news/src/utils/aiConnect.ts:39 | there is exactly one more piece than there are separators |
| JsString.SplitFirstNonEmpty | ai-news/src/utils/aiConnect.ts:39 | a string not starting with the separator has a non-empty first piece |
| JsString.TrimStart | ai-news/src/App.tsx:141 | exactly the leading whitespace goes: the result is a suffix, the part removed is all whitespace, and the result starts with non-whitespace |
| JsString.TrimEnd | ai-news/src/App.tsx:141 | exactly the trailing whitespace goes: the result is a prefix, the part removed is all whitespace, and the result ends with non-whitespace |
| JsString.TrimEmptyIffBlank | ai-news/src/App.tsx:141 | `input.trim()` is empty exactly when every character is whitespace, both directions |
| JsString.SlicePrefix | ai-news/src/App.tsx:159 | `slice(0, n)` is a prefix of length `min(|s|, n)` |
| AiConnect.MockResponse | ai-news/src/utils/aiConnect.ts:25-36 | the reply is the fixed head, then the prompt verbatim, then the fixed tail; it starts with 'B' |
| AiConnect.FirstWordNonEmpty | ai-news/src/utils/aiConnect.ts:25-39 | the first word of the reply is not empty |
| AiConnect.EmitWords | ai-news/src/utils/aiConnect.ts:39-46 | the loop emits exactly the reference intermediate updates: the k-th carries the first k+1 words joined by spaces and no attachments; the final text is the whole join |
| AiConnect.IntermediateAt | ai-news/src/utils/aiConnect.ts:40-44 | in the reference sequence, the k-th intermediate update is the first k+1 words joined by single spaces, with no sources or metrics |
| AiConnect.StreamChatResponse | ai-news/src/utils/aiConnect.ts:15-69 | the method's calls are exactly the reference sequence `Emissions(prompt)` |
| AiConnect.EmissionCount | ai-news/src/utils/aiConnect.ts:39-49 | `onUpdate` runs once per word plus once; the word count is the spaces in the prompt and template plus one |
| AiConnect.FirstUpdate | ai-news/src/utils/aiConnect.ts:40-44 | the first update is exactly "Based", with no leading separator and no attachments |
| AiConnect.PrefixExtension | ai-news/src/utils/aiConnect.ts:43-44 | each intermediate text is the previous one plus a space and the next word, a strict extension, with no sources or metrics |
| AiConnect.FinalUpdate | ai-news/src/utils/aiConnect.ts:48-68 | the final text equals the last intermediate text and the whole reply; it carries the two example sources and the fixed metrics |
| SessionOps.NewSession | ai-news/src/App.tsx:93-115 | a fresh session has the given id and model, the title "New Investigation", and exactly a system then an assistant message, none loading and no user message |
| SessionOps.FindSession | ai-news/src/App.tsx:90-91 | a session is found exactly when the id is non-null and listed, and it has that id |
| SessionOps.FindSessionFirst | ai-news/src/App.tsx:90-91 | `find` returns the first session with the id |
| SessionOps.RemoveById | ai-news/src/App.tsx:122 | the filter keeps exactly the sessions with another id |
| SessionOps.RemoveByIdAbsent | ai-news/src/App.tsx:122 | deleting an unlisted id leaves the list unchanged |
| SessionOps.RemoveByIdAll | ai-news/src/App.tsx:122-126 | when every session has the id, nothing is left |
| SessionOps.RemoveByIdAppend | ai-news/src/App.tsx:122 | filtering distributes over concatenation, so the survivors keep their order |
| SessionOps.PatchOf | ai-news/src/App.tsx:196-234 | a streaming update sets content, sources and metrics with loading true; finalisation changes only the loading flag; failure sets the error text and loading false; id, role and timestamp never change |
| SessionOps.PatchWhere | ai-news/src/App.tsx:199-209 | messages keep length and order, and only those with the target id are patched |
| SessionOps.ApplyEdit | ai-news/src/App.tsx:162-185 | an updater keeps the session's id, model and creation time; appends add exactly one message at the end; a patch keeps title, update time and message count |
| SessionOps.ApplyEditsAppend | ai-news/src/App.tsx:132-138 | applying two runs of updaters in turn is applying their concatenation |
| SessionOps.UpdateWhere | ai-news/src/App.tsx:132-138 | `updateCurrentSession` keeps length, order and ids, changes only sessions with the current id, and is a no-op with a null or unlisted id |
| SessionOps.UpdateAll | ai-news/src/App.tsx:132-138 | a run of `updateCurrentSession` calls keeps the list's length and ids |
| SessionOps.UpdateAllPointwise | ai-news/src/App.tsx:132-138 | in a run, each targeted session receives the updaters in order, and every other session is untouched |
| SessionOps.UpdateAllAppend | ai-news/src/App.tsx:132-138 | a run split in two is the second part applied after the first |
| SessionOps.Title | ai-news/src/App.tsx:158-160 | the derived title is the input when it has at most 30 characters; otherwise it is the first 30 and "...", so never more than 33 |
| SessionOps.PatchOnlyLast | ai-news/src/App.tsx:199-209 | patching by an id only the last message carries changes that message alone |
| SessionOps.StreamingTouchesOnlyBot | ai-news/src/App.tsx:187-212 | streaming rewrites the placeholder from the latest update and leaves every earlier message as it was |
| SessionOps.OpeningResult | ai-news/src/App.tsx:162-185 | before the await, the session gets the title and update time, then exactly the user message and the empty loading placeholder, appended in that order |
| SessionOps.SendResult | ai-news/src/App.tsx:140-237 | with fresh message ids, a send leaves the earlier messages unchanged and in order, then the user message and the final assistant message |
| SessionOps.SendOnList | ai-news/src/App.tsx:140-237 | on the list, each session with the current id becomes the sent session, and all others are untouched |
| SessionOps.UpdateAllSend | ai-news/src/App.tsx:162-234 | a send's run of updaters is the two appends, the streaming patches, then the finalisation or error patch |
| SessionOps.TitleFrozen | ai-news/src/App.tsx:155-167 | a send derives the title from the input only for the first user message, and no later send changes it |
| SessionOps.CompletedWithMockProducer | ai-news/src/App.tsx:191-220 | with the producer resolving as declared, the assistant message ends with the whole reply, the two sources, the metrics and loading false |
| SessionOps.RejectedEndsInError | ai-news/src/App.tsx:221-234 | on rejection the assistant message ends with the error text and loading false |
| SessionOps.RestoredSessions | ai-news/src/App.tsx:57-76 | a stored non-empty list is taken as it is; an empty stored list gives just the fresh session; a missing or unparseable entry puts the fresh session in front of the earlier list |
| SessionOps.RestoredCurrent | ai-news/src/App.tsx:57-76 | after the mount effect the current id is the head of the list |
| SessionOps.PersistRestore | ai-news/src/App.tsx:57-83 | saving a non-empty list and restoring it gives the list back with its head current; an empty list is never written |
| SessionStore.Store.constructor | ai-news/src/App.tsx:41-51 | the initial hook values: no sessions, no current id, empty input, not processing, the Flash model |
| SessionStore.Store.SetInput | ai-news/src/App.tsx:422 | the text field sets the input |
| SessionStore.Store.SetSelectedModel | ai-news/src/App.tsx:343-344 | the model selector sets the model later sessions get |
| SessionStore.Store.CreateNewSession | ai-news/src/App.tsx:93-118 | the new session goes in front of the earlier sessions, which keep their order, and becomes current |
| SessionStore.Store.SelectSession | ai-news/src/App.tsx:257-260 | selection makes the given id current |
| SessionStore.Store.DeleteSession | ai-news/src/App.tsx:120-130 | the list loses exactly the sessions with the id; a non-current deletion keeps the current id; a current one moves to the head of the rest, or to none with a new session scheduled; a listed current id stays listed |
| SessionStore.Store.DeleteAndRunScheduled | ai-news/src/App.tsx:120-130 | the new list is the filtered list, or just a fresh session when the current session was deleted and nothing is left; the current id is kept, moves to the head of the rest, or is the fresh session's; a listed current id stays listed |
| SessionStore.Store.UpdateCurrentSession | ai-news/src/App.tsx:132-138 | the sessions become the map by the current id; input, flag and current id are untouched |
| SessionStore.Store.BeginSend | ai-news/src/App.tsx:140-185 | a blocked send (blank input, null or empty id, processing, or no session) changes nothing; otherwise the two appends, an empty input and processing true |
| SessionStore.Store.ApplyStreamUpdate | ai-news/src/App.tsx:196-211 | one `onUpdate` call patches the assistant message of the current session |
| SessionStore.Store.StreamAll | ai-news/src/App.tsx:191-212 | all the producer's updates, applied in order |
| SessionStore.Store.FinishSend | ai-news/src/App.tsx:214-237 | finalisation on success or the error patch on failure, then processing false |
| SessionStore.Store.HandleSendMessage | ai-news/src/App.tsx:140-238 | a blocked send changes nothing; otherwise the current session receives the whole run of updaters, the input is empty, processing ends false and a listed current id stays listed |
| SessionStore.Store.Restore | ai-news/src/App.tsx:57-76 | the mount effect takes a stored non-empty list with its head current, or creates a fresh session; afterwards the current id is listed |
| SessionStore.Store.SaveSessions | ai-news/src/App.tsx:79-83 | the save effect writes the list only when it is non-empty |

## Left out

- `localStorage` and `JSON.parse`/`JSON.stringify` are I/O. The stored entry is modelled as already parsed: missing, unparseable, or a session list. The JSON round trip is taken to give back the same sessions.
- `uuidv4()` and `Date.now()` are parameters. Each operation takes its fresh ids and a single `now` for all its timestamps.
- The `setTimeout` that defers creation after deleting the last session is not modelled as scheduling. `DeleteSession` reports that a creation is scheduled, and `DeleteAndRunScheduled` runs it as a second step.
- The producer's 30 ms pauses and async/await interleaving are not modelled.
- React's batching and stale closures are not modelled. Examples are the history snapshot at `App.tsx:188` and `deleteSession` reading `sessions` directly. Each setter takes effect at once, and functional setters see the latest value.
- The arguments the producer ignores (model, history, news mode) are not modelled, and the five-argument call is not modelled as such. Its effect enters only through `ProducerOutcome`.
- The sidebar's open state, scrolling, `handleKeyDown`, and the rendering in `App.tsx`, `Sidebar.tsx` and `ChatMessage.tsx` are presentation and are left out.
- Strings are sequences of characters. `length` and `slice` in JavaScript count UTF-16 code units, so the model differs from the code for characters outside the Basic Multilingual Plane.
- AiConnect.EmissionCount: the number of spaces in the template is left as `CountChar` of the two template halves rather than a numeral.
- SessionOps.FindSession: its own contract does not say which of several sessions with the id is found; `FindSessionFirst` states that it is the first.
- SessionOps.RemoveById: its own contract states membership and length only; the order and the cases of an absent id or only that id are the lemmas `RemoveByIdAppend`, `RemoveByIdAbsent` and `RemoveByIdAll`.
- SessionStore.Store.HandleSendMessage: its contract states the result as a run of updaters on the list. The closed form per session, with fresh message ids, is `SendOnList`.
