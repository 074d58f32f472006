# chatgpt-cli in Dafny

This project is a verified model of the core of `chatgpt` (`chatgpt/chatgpt.py`), a command-line client for an OpenAI
assistant. One invocation does the following:

- It joins its message words with single spaces.
- It optionally uploads a file, or recalls the id of the file uploaded last.
- With `--last` it recalls the previous response.
- Otherwise, if the message is non-empty, it provisions an assistant and a conversation thread and relays the message. An
  assistant is reused from a global cache file. A thread is reused from a per-shell cache file. An empty message provisions
  nothing and sends nothing.
- With `--code` it cuts the first fenced code block out of the response.
- It saves and prints the response, but only when the response is non-empty.

Per-shell state lives in files named `/tmp/<parent pid>` followed by the suffix `_thread_id`, `_last` or `_last_file`. The
assistant id lives in `~/.gpt/assistant_id`.

Modules, one file each:

- `Wrappers` (`wrappers.dfy`): `Option`.
- `CodeBlocks` (`code_blocks.dfy`): `extract_code_blocks`.
  - The regular expression ```` ```[^\n]*\n(.*?)``` ```` under `re.DOTALL` is given as a specification. `PatternMatch`
    covers every way the pattern matches. `FirstMatch` picks the leftmost start, and then the shortest lazy group.
  - A three-step scanner (`FirstBlock`) is proved to find exactly that match.
- `Words` (`words.dfy`): `' '.join`.
- `SessionPaths` (`session_paths.dfy`): the cache file names. The parent pid is written in decimal.
- `FileStore` (`file_store.dfy`): the local file system as a `FileSystem` class, with a `files: map<string, string>` field
  that `WriteFile` updates. Reads follow Python's text mode, in which universal-newline translation turns `"\r\n"` and `"\r"`
  into `"\n"`.
- `ChatClient` (`client.dfy`): the `Client` class, which models `OpenAIClient`.
  - The cache reads (`ReadFileIfExists`, `ReadLastResponse`, `GetLast`, `GetLastFile`) are functions of the file map.
  - The cache writes (`CreateAssistant`, `CreateThread`, `SaveLastResponse`, `AttachFile`) are `Client` methods. They
    modify the client's `FileSystem` through its one method, `WriteFile`.
  - `handle` is the method `Handle`. Spec functions (`HandleCalls`, `HandleOutcome`, `HandleFiles`) state what it does, and
    lemmas prove the rules it follows.
  - The remote service is a `Remote` value: the ids new objects get and a reply function. The remote calls made, in order,
    are a ghost trace `calls`.

Three behaviours of the code are easy to miss:

- A write followed by a read returns the same text only when the text holds no `'\r'`. The text-mode read normalises line
  endings (`FileStore.UniversalNewlinesIdentityIff`).
- `--last` sends no message and provisions nothing. It still uploads, because the `--file <path>` attachment runs before
  the `--last` check (chatgpt/chatgpt.py:163-175). So `--last` makes no remote call only when no file is uploaded
  (`ChatClient.HandleLastSendsNothing`).
- `--last` with no saved response prints `No last response found.` and saves that notice as the new last response. The
  notice is non-empty, so the code saves it.

## Model

| member | source | states |
|---|---|---|
| CodeBlocks.FirstBlock | chatgpt/chatgpt.py:139-147 | None exactly when the pattern has no match anywhere in the text; otherwise the block found is the regex's first match (leftmost opening fence, header up to the first newline, shortest body up to the next fence) |
| CodeBlocks.ExtractCodeBlocks | chatgpt/chatgpt.py:139-147 | without a match the response is returned unchanged; with one, the result is exactly the first match's group |
| CodeBlocks.FirstMatchUnique | chatgpt/chatgpt.py:143-147 | the first match (the one `matches[0]` takes) is unique |
| CodeBlocks.MatchIffLeftmostFenceCloses | chatgpt/chatgpt.py:140-144 | there is a match if and only if the leftmost fence is followed by a newline and then by another fence |
| CodeBlocks.ExtractedBlockHasNoFence | chatgpt/chatgpt.py:140-147 | an extracted block never contains three backticks |
| CodeBlocks.ExtractIdempotent | chatgpt/chatgpt.py:139-147 | extracting twice gives the same as extracting once |
| CodeBlocks.ExtractWellFormedBlock | chatgpt/chatgpt.py:139-147 | backtick-free prefix, a fence, a one-line tag, a backtick-free body and a fence: the body is extracted, whatever follows |
| CodeBlocks.ExtractPythonExample | chatgpt/chatgpt.py:139-147 | "Here:\n```python\nprint(1)\n```\nDone." gives "print(1)\n" |
| CodeBlocks.ExtractEmptyBlockExample | chatgpt/chatgpt.py:139-147 | "```\n```" gives the empty block, not the response |
| CodeBlocks.ExtractUnclosedExample | chatgpt/chatgpt.py:144-145 | an unclosed block leaves the response unchanged |
| Words.JoinWords | chatgpt/chatgpt.py:161 | `' '.join(args.message)`: the message starts with the first word (the rest of its shape is in the lemmas below) |
| Words.JoinEmptyIff | chatgpt/chatgpt.py:161 | the joined message is empty exactly when there are no words or one empty word |
| Words.JoinLength | chatgpt/chatgpt.py:161 | the message holds all characters of the words plus one space per gap |
| Words.JoinSnoc | chatgpt/chatgpt.py:161 | appending a word appends a space and that word |
| Words.JoinExample | chatgpt/chatgpt.py:161 | ["fix", "this", "bug"] becomes "fix this bug" |
| SessionPaths.DecimalString | chatgpt/chatgpt.py:20 | the pid's text is decimal digits, with no leading zero |
| SessionPaths.DecimalRoundTrip | chatgpt/chatgpt.py:20 | the pid can be read back from its decimal text |
| SessionPaths.DecimalInjective | chatgpt/chatgpt.py:20 | two pids have the same text if and only if they are equal |
| SessionPaths.ShellWorkingFile | chatgpt/chatgpt.py:19-20 | the working-file name is "/tmp/" followed by exactly the decimal text of the parent pid (digits, no leading zero), which reads back as the pid |
| SessionPaths.SessionFileShape | chatgpt/chatgpt.py:57 | `SessionFile`, the f-strings of lines 57, 70, 74, 134 and 157: "/tmp/", then only decimal digits that read back as the pid, then the slot's suffix |
| SessionPaths.GlobalAssistantFileShape | chatgpt/chatgpt.py:9 | `GlobalAssistantFile`: the home directory, then one '/', then ".gpt/assistant_id"; the '/' is added only when home does not already end with one |
| SessionPaths.SessionFileInjective | chatgpt/chatgpt.py:57 | two session files (pid, suffix `_thread_id`, `_last` or `_last_file`; also lines 70, 74, 134, 157) are equal if and only if pid and suffix are |
| SessionPaths.AssistantFileIsNotSessionFile | chatgpt/chatgpt.py:9 | the global assistant-id file is never a session file |
| FileStore.UniversalNewlines | chatgpt/chatgpt.py:24-25 | a text-mode read returns no '\r', is never longer than the file, and is empty only for an empty file |
| FileStore.UniversalNewlinesIdentityIff | chatgpt/chatgpt.py:24-25 | a read returns the stored text unchanged if and only if it has no '\r' |
| FileStore.UniversalNewlinesIdempotent | chatgpt/chatgpt.py:24-25 | re-reading text that was read changes nothing |
| FileStore.ReadFileIfExists | chatgpt/chatgpt.py:22-26 | None exactly for a missing path; otherwise the file's text, empty exactly when the file is |
| FileStore.FileSystem.WriteFile | chatgpt/chatgpt.py:28-31 | the path now holds the content, reads of every other path are unchanged, and reading the path back gives the content (exactly, when it has no '\r') |
| ChatClient.CacheFilesDistinct | chatgpt/chatgpt.py:9 | the assistant-id, thread-id, last-response and last-file files (lines 9, 57, 70, 134) are pairwise distinct |
| ChatClient.IsLastKeyword | chatgpt/chatgpt.py:165 | `args.file.lower() == 'last'` holds exactly for the four-letter spellings of "last" in any letter case |
| ChatClient.CacheHit | chatgpt/chatgpt.py:42 | `if cached and not force_new` (also line 59): a hit needs a present, non-empty cached id; force_new or a missing file always misses; otherwise a present id hits exactly when it is non-empty |
| ChatClient.Lower | chatgpt/chatgpt.py:165 | lower-casing keeps the length and leaves no capital ASCII letter |
| ChatClient.Client.CreateAssistant | chatgpt/chatgpt.py:40-54 | a non-empty cached id without force_new is returned and nothing changes; otherwise one assistant is created, its id is written to the global file (nothing else) and returned, and reading the file then gives it |
| ChatClient.Client.CreateThread | chatgpt/chatgpt.py:56-67 | the same cache-or-create rule for the session's thread-id file |
| ChatClient.Client.SaveLastResponse | chatgpt/chatgpt.py:69-71 | the session's `_last` file holds the response; read_last_response then gives it, and get_last gives it when non-empty |
| ChatClient.ReadLastResponse | chatgpt/chatgpt.py:73-75 | None exactly when the session has no `_last` file |
| ChatClient.GetLast | chatgpt/chatgpt.py:149-154 | never empty: the saved response when non-empty, else "No last response found." |
| ChatClient.GetLastFile | chatgpt/chatgpt.py:156-158 | None exactly when the session has no `_last_file` file |
| ChatClient.Client.AttachFile | chatgpt/chatgpt.py:122-136 | a missing path gives None with no upload and no change; an existing one is uploaded once, its id cached in `_last_file` and returned, and get_last_file then gives it |
| ChatClient.Client.SendMessage | chatgpt/chatgpt.py:77-120 | one send is attempted and recorded in `calls`, carrying the given assistant, thread, attachment and text, and the service's reply is returned (None when any step of the exchange fails, including the post itself) |
| ChatClient.Client.ResolveAttachment | chatgpt/chatgpt.py:163-171 | no --file gives no attachment; "last" recalls the cached id without an upload; a path is attached as attach_file does |
| ChatClient.Client.Provision | chatgpt/chatgpt.py:178-180 | the assistant and then the thread are each reused from a cache hit or created; the ids returned, the creation calls in order and the new files are those of ProvisionedId, ProvisionCalls and ProvisionFiles |
| ChatClient.Client.ObtainResponse | chatgpt/chatgpt.py:173-194 | --last recalls get_last with no call; an empty message gives no response with no call; otherwise assistant then thread are provisioned and one message is sent, whose reply is returned |
| ChatClient.Finish | chatgpt/chatgpt.py:196-201 | --code on no response crashes, and only then; a printed text is never empty; without --code the response is printed exactly when non-empty; with --code a response is printed exactly when its extracted block is non-empty, and the printed text is that block |
| ChatClient.Client.Conclude | chatgpt/chatgpt.py:196-201 | the outcome follows Finish; `_last` is written, with the printed text, only when something is printed |
| ChatClient.Client.Handle | chatgpt/chatgpt.py:160-201 | outcome, remote calls in order, and the final files equal HandleOutcome, HandleCalls and HandleFiles of the initial files |
| ChatClient.AttachKeepsOtherCaches | chatgpt/chatgpt.py:163-171 | the attachment step leaves the assistant, thread and last-response caches as they were |
| ChatClient.HandleRelaysJoinedMessage | chatgpt/chatgpt.py:161 | a relayed message is the words joined with ' ', with the resolved attachment, and is sent exactly once, as the last remote call (lines 176-194) |
| ChatClient.HandleLastSendsNothing | chatgpt/chatgpt.py:174-175 | with --last the only possible remote call is the upload of --file, none at all without one, and the outcome is the recalled get_last response |
| ChatClient.HandleEmptyMessageSendsNothing | chatgpt/chatgpt.py:176 | without --last and with an empty message, nothing but a --file upload is called, and there is no response (a crash under --code) |
| ChatClient.HandleNewRecreatesBoth | chatgpt/chatgpt.py:178-180 | --new creates a new assistant and a new thread, in that order, sends with their ids and caches both |
| ChatClient.HandleReusesCachedIds | chatgpt/chatgpt.py:178-180 | without --new each id is created exactly when its cache misses, and the cached id is sent otherwise |
| ChatClient.HandleSavesOnlyNonEmpty | chatgpt/chatgpt.py:199-201 | `_last` is written exactly when a non-empty response is printed, and then holds it; otherwise it is as before |
| ChatClient.HandleChangesOnlyCacheFiles | chatgpt/chatgpt.py:160-201 | no file other than the four cache files changes |
| ChatClient.HandleCrashesIff | chatgpt/chatgpt.py:196-197 | the run crashes exactly when --code is given and neither --last nor a reply yields a response |

## Left out

- The OpenAI service is not modelled. This covers `get_client`, the assistant, thread and upload requests, and the polling
  loop and message listing of `send_message`. What the service answers is the parameter `Remote`, and a failed exchange
  (the `except` branch) is a `None` reply.
- What is printed (progress notes, `--debug` output, the response) is not modelled. The printed response is the `Printed`
  outcome.
- `main` and argument parsing are not modelled. The parsed arguments are the datatype `Args`.
- The parent process id and the home directory are parameters of `Client`. `os.getppid` and `Path.home` are not part of
  this model.
- The bytes of an uploaded file are not modelled. An upload is identified by its path, and a path "exists" when it is a key
  of the file map. Directories, permissions and `os.makedirs` are left out, so a write never fails.
- Exceptions other than the `--code` TypeError are not modelled, for example an OS error while writing a cache file.
- Concurrent invocations sharing cache files are not modelled.
- `ChatClient.Lower`: folds only ASCII letters. `str.lower` also folds other Unicode letters, but no non-ASCII string
  lowers to "last".
- `SessionPaths.GlobalAssistantFile`: joins the home directory and `.gpt/assistant_id` with one `/`. It does not model any
  other pathlib normalisation.
