# Document-context store and prompt assembly of the chat backend

The chat backend keeps, for its whole lifetime, an in-memory dictionary of
uploaded documents (file name to content) and an optional "current" document
name. Uploading a document stores it, overwriting any earlier content under
the same name, and makes it current; resetting the context forgets which
document is current but keeps every stored document. A chat request reads
both: when the current name is a non-empty string that is stored, the prompt
begins with that document quoted after a fixed header; then comes a fixed
instruction naming the target language (default `english`), then the user's
question after the marker `\nUser asked: `. That text is handed to an external
translator; when the translator raises, the reply is the warning
`⚠️ Translation Error: ` followed by the error text.

The model (`chat_logic.dfy`, module `ChatLogic`; `wrappers.dfy` holds
`Option`) has:

- `Store`, the abstract value of the two pieces of state, with the pure
  operations `SetDoc` and `ClearCurrent` and the prompt functions
  `ContextText`, `SystemPrompt`, `ResponseText` and `Reply`;
- `ChatStore`, a class with the same two fields updated in place, whose
  methods are proved against those functions;
- lemmas about the prompt and about arbitrary sequences of uploads and resets
  (`Run`), since the store persists across requests.

Python truthiness is reproduced exactly: `IsTruthy` is false for `None` and
for the empty name, so a document uploaded under the name `""` is stored and
made current but never quoted (`EmptyNameNeverContributes`).

## Model

| member | source | states |
|---|---|---|
| ChatLogic.SetDoc | chat_logic.py:9-13 | the uploaded name maps to the new content (overwriting), becomes current, the key set grows by exactly that name, and every other entry keeps its content |
| ChatLogic.ClearCurrent | chat_logic.py:15-17 | the current name becomes none and the documents are unchanged |
| ChatLogic.ContextText | chat_logic.py:25-27 | the context prefix is non-empty exactly when the current name is a non-empty stored name, and then it is the header, that document's content and a blank line |
| ChatLogic.Reply | chat_logic.py:36-40 | the reply is the translator's text on success and the warning prefix followed by the error text when the translator raises |
| ChatLogic.SystemPrompt | chat_logic.py:29 | the system prompt is the context prefix, then the instruction naming the target language, then a full stop |
| ChatLogic.ResponseText | chat_logic.py:33 | the untranslated reply starts with the system prompt (so with the context prefix), then the `User asked` marker, then exactly the user's message |
| ChatLogic.ResponseDeterminesMessage | chat_logic.py:29-33 | for a fixed store and language, the untranslated reply determines the user's message |
| ChatLogic.OnlyCurrentDocumentMatters | chat_logic.py:25-27 | stores that agree on the current name and its entry give the same untranslated reply, whatever other documents they hold |
| ChatLogic.UploadedDocumentIsQuoted | chat_logic.py:9-27 | after uploading under a non-empty name, the untranslated reply begins with that content quoted after the header |
| ChatLogic.EmptyNameNeverContributes | chat_logic.py:26 | a document uploaded under the empty name is stored and current but yields no context |
| ChatLogic.ResetDropsContext | chat_logic.py:15-29 | after a reset every document is kept and the untranslated reply carries no document |
| ChatLogic.Step | chat_logic.py:9-17 | an upload adds its name to the stored names and makes it current; a reset adds nothing and clears the current name |
| ChatLogic.Run | chat_logic.py:6-17 | across any sequence of calls the stored names only grow, and an empty sequence of calls leaves the store as it was |
| ChatLogic.RunAppend | chat_logic.py:9-17 | running two batches of calls one after the other equals running their concatenation |
| ChatLogic.RunNeverForgets | chat_logic.py:12 | after any sequence of uploads and resets the stored names are the initial ones plus every uploaded name |
| ChatLogic.RunKeepsUntouched | chat_logic.py:12 | an entry that no call uploads keeps its content through any sequence of calls |
| ChatLogic.RunLastUploadWins | chat_logic.py:12 | the content stored under a name is that of the last upload under it |
| ChatLogic.RunCurrentFollowsLastCall | chat_logic.py:13-17 | the current name is that of the last call: the uploaded name after an upload, none after a reset |
| ChatLogic.RunKeepsCurrentStored | chat_logic.py:9-17 | if the current name is a stored name, it stays one through any sequence of calls |
| ChatLogic.ReachableContextFollowsTruthiness | chat_logic.py:6-27 | in every store reachable from the start, the current name is stored, so the context is present exactly when the current name is truthy |
| ChatLogic.ChatStore.constructor | chat_logic.py:6-7 | a new store holds no documents and no current name |
| ChatLogic.ChatStore.SetCurrentDoc | chat_logic.py:9-13 | updates the fields in place to `SetDoc` of the old state |
| ChatLogic.ChatStore.ResetContext | chat_logic.py:15-17 | changes only the current name, to `ClearCurrent` of the old state |
| ChatLogic.ChatStore.GetResponse | chat_logic.py:19-40 | changes nothing and returns `Reply` of the current state, with `english` as the default target language |

## Left out

- The translator (`GoogleTranslator(...).translate`) is a network service: it is a function parameter returning either a text or a raised error, and nothing is said about what it returns. Being a function, it answers the same request the same way within one proof; a real service need not.
- The error text is modelled as the string Python's `str(e)` would give; how an exception object renders is not modelled.
- The HTTP routes in `api.py`, the `fetch` wrappers in `src/api/backend.ts` and the React components in `src/components/ui/chat.tsx` and `src/pages/Index.tsx` are transport and presentation around these three operations.
- Concurrent requests touching the module-level globals are not modelled; the store is one sequential object.
