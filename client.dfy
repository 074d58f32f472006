/**
 * The command-line client (class OpenAIClient in chatgpt/chatgpt.py): the
 * cache-or-create provisioning of the assistant and the conversation thread,
 * the per-session "last response" and "last attached file" caches, and the
 * dispatch decision of `handle`.
 *
 * The remote assistant service is not modelled: what it would answer is a
 * `Remote` value, and every call that changes remote state is recorded in
 * the ghost trace `calls`, so that what is sent, and in which order, can be
 * stated.  Reads of the cache files are functions of the file contents;
 * writes are methods of the Client, which owns the file system it works on.
 */
module ChatClient {
  import opened Wrappers
  import opened CodeBlocks
  import opened Words
  import opened SessionPaths
  import opened FileStore

  /** A user message posted to a thread, with the optional attached file id. */
  datatype Request = Request(assistantId: string, threadId: string, attachment: Option<string>, text: string)

  /** A call that changes state at the remote service. */
  datatype RemoteCall =
    | CreateAssistantCall
    | CreateThreadCall
    | UploadFileCall(path: string)
    | SendMessageCall(request: Request)

  /**
   * The remote service's answers: the id a new assistant, thread or upload
   * gets, and the reply to a posted message (None when the exchange fails).
   */
  datatype Remote = Remote(assistantId: string, threadId: string, fileId: string, reply: Request -> Option<string>)

  /** The parsed command line: the message words and the flags --file, --last, --new, --code, --debug. */
  datatype Args = Args(message: seq<string>, file: Option<string>, last: bool, forceNew: bool, code: bool, debug: bool)

  /**
   * How an invocation ends: a response printed (and saved), no response,
   * or the TypeError that --code raises when there is no response at all.
   */
  datatype Outcome = Printed(text: string) | Silent | Crashed

  /** `if cached and not force_new`: a cached id is reused only when present, non-empty and not forced out. */
  function CacheHit(cached: Option<string>, forceNew: bool): (hit: bool)
    ensures hit ==> cached.Some? && |cached.value| > 0
    ensures forceNew || cached.None? ==> !hit
    ensures !forceNew && cached.Some? ==> (hit <==> |cached.value| > 0)
  {
    cached.Some? && cached.value != "" && !forceNew
  }

  /** The four files the client ever writes are pairwise distinct. */
  lemma CacheFilesDistinct(ppid: nat, home: string)
    ensures GlobalAssistantFile(home) != SessionFile(ppid, ThreadId)
    ensures GlobalAssistantFile(home) != SessionFile(ppid, LastResponse)
    ensures GlobalAssistantFile(home) != SessionFile(ppid, LastFileId)
    ensures SessionFile(ppid, ThreadId) != SessionFile(ppid, LastResponse)
    ensures SessionFile(ppid, ThreadId) != SessionFile(ppid, LastFileId)
    ensures SessionFile(ppid, LastResponse) != SessionFile(ppid, LastFileId)
  {
    AssistantFileIsNotSessionFile(home, ppid, ThreadId);
    AssistantFileIsNotSessionFile(home, ppid, LastResponse);
    AssistantFileIsNotSessionFile(home, ppid, LastFileId);
    SessionFileInjective(ppid, ThreadId, ppid, LastResponse);
    SessionFileInjective(ppid, ThreadId, ppid, LastFileId);
    SessionFileInjective(ppid, LastResponse, ppid, LastFileId);
  }

  /** Lower case of an ASCII letter; other characters are kept. */
  function LowerChar(c: char): char
  {
    if 'A' <= c <= 'Z' then (c as int + 32) as char else c
  }

  /** `str.lower()` on the ASCII letters. */
  function Lower(s: string): (r: string)
    ensures |r| == |s|
    ensures forall i :: 0 <= i < |s| ==> !('A' <= r[i] <= 'Z')
  {
    seq(|s|, i requires 0 <= i < |s| => LowerChar(s[i]))
  }

  /**
   * `args.file.lower() == 'last'`: the file argument asks for the previously
   * attached file exactly when it spells "last" in any letter case.
   */
  function IsLastKeyword(file: string): (b: bool)
    ensures b <==> |file| == 4 && file[0] in "lL" && file[1] in "aA" && file[2] in "sS" && file[3] in "tT"
  {
    var lowered := Lower(file);
    if |file| == 4 then
      assert lowered == [LowerChar(file[0]), LowerChar(file[1]), LowerChar(file[2]), LowerChar(file[3])];
      lowered == "last"
    else
      lowered == "last"
  }

  /** read_last_response: the cached last response of the session, None when there is none. */
  function ReadLastResponse(files: map<string, string>, ppid: nat): (r: Option<string>)
    ensures r.None? <==> SessionFile(ppid, LastResponse) !in files
    ensures r.Some? ==> '\r' !in r.value
  {
    ReadFileIfExists(files, SessionFile(ppid, LastResponse))
  }

  /** get_last: the cached last response when non-empty, else a fixed notice; never empty. */
  function GetLast(files: map<string, string>, ppid: nat): (r: string)
    ensures r != ""
    ensures CacheHit(ReadLastResponse(files, ppid), false) ==> r == ReadLastResponse(files, ppid).value
    ensures !CacheHit(ReadLastResponse(files, ppid), false) ==> r == "No last response found."
  {
    var lastResponse := ReadLastResponse(files, ppid);
    if lastResponse.Some? && lastResponse.value != "" then lastResponse.value
    else "No last response found."
  }

  /** get_last_file: the id of the file attached last in the session, None when there is none. */
  function GetLastFile(files: map<string, string>, ppid: nat): (r: Option<string>)
    ensures r.None? <==> SessionFile(ppid, LastFileId) !in files
    ensures r.Some? ==> '\r' !in r.value
  {
    ReadFileIfExists(files, SessionFile(ppid, LastFileId))
  }

  /**
   * The end of `handle`: --code extracts the first code block (and raises
   * when there is no response at all); the response is saved and printed
   * only when it is non-empty.
   */
  function Finish(response: Option<string>, code: bool): (o: Outcome)
    ensures o.Crashed? <==> code && response.None?
    ensures o.Printed? ==> o.text != ""
    ensures !code ==> (o.Printed? <==> response.Some? && response.value != "")
    ensures o.Printed? && !code ==> response == Some(o.text)
    ensures o.Printed? && code ==> o.text == ExtractCodeBlocks(response.value)
    ensures code && response.Some? ==> (o.Printed? <==> ExtractCodeBlocks(response.value) != "")
  {
    if response.None? then (if code then Crashed else Silent)
    else
      var text := if code then ExtractCodeBlocks(response.value) else response.value;
      if text != "" then Printed(text) else Silent
  }

  /** The two maps agree on path p: both lack it or both hold the same contents. */
  predicate Agree(m1: map<string, string>, m2: map<string, string>, p: string)
  {
    (p in m1 <==> p in m2) && (p in m1 ==> m1[p] == m2[p])
  }

  // ---------------------------------------------------------------------
  // What one invocation of `handle` does, step by step, as functions of the
  // file contents it starts from.

  /** The --file argument names a local file that exists, so it is uploaded. */
  predicate UploadRequested(file: Option<string>, files: map<string, string>)
  {
    file.Some? && !IsLastKeyword(file.value) && file.value in files
  }

  /** The attachment resolved from --file: none, the cached id for "last", or the new upload's id. */
  function AttachmentFor(file: Option<string>, files: map<string, string>, ppid: nat, remote: Remote): Option<string>
  {
    if file.None? then None
    else if IsLastKeyword(file.value) then GetLastFile(files, ppid)
    else if file.value in files then Some(remote.fileId)
    else None
  }

  /** The files after the attachment step: an upload caches its id for the session. */
  function AttachFiles(file: Option<string>, files: map<string, string>, ppid: nat, remote: Remote): map<string, string>
  {
    if UploadRequested(file, files) then files[SessionFile(ppid, LastFileId) := remote.fileId] else files
  }

  /** The message is relayed: no --last and a non-empty joined message. */
  predicate Relays(args: Args)
  {
    !args.last && JoinWords(args.message) != ""
  }

  /** The id provisioning settles on: the cached one on a cache hit, else the newly created one. */
  function ProvisionedId(cached: Option<string>, forceNew: bool, newId: string): string
  {
    if CacheHit(cached, forceNew) then cached.value else newId
  }

  /** The creation calls that provisioning makes, assistant first. */
  function ProvisionCalls(files: map<string, string>, ppid: nat, home: string, forceNew: bool): seq<RemoteCall>
  {
    (if CacheHit(ReadFileIfExists(files, GlobalAssistantFile(home)), forceNew) then [] else [CreateAssistantCall])
    + (if CacheHit(ReadFileIfExists(files, SessionFile(ppid, ThreadId)), forceNew) then [] else [CreateThreadCall])
  }

  /** The files after provisioning: each created id is written to its cache file. */
  function ProvisionFiles(files: map<string, string>, ppid: nat, home: string, forceNew: bool, remote: Remote): map<string, string>
  {
    var assistantFile, threadFile := GlobalAssistantFile(home), SessionFile(ppid, ThreadId);
    var afterAssistant :=
      if CacheHit(ReadFileIfExists(files, assistantFile), forceNew) then files
      else files[assistantFile := remote.assistantId];
    if CacheHit(ReadFileIfExists(files, threadFile), forceNew) then afterAssistant
    else afterAssistant[threadFile := remote.threadId]
  }

  /** The message posted once the assistant and the thread are provisioned. */
  function RelayRequest(files: map<string, string>, ppid: nat, home: string, forceNew: bool,
                        attachment: Option<string>, message: string, remote: Remote): Request
  {
    Request(ProvisionedId(ReadFileIfExists(files, GlobalAssistantFile(home)), forceNew, remote.assistantId),
            ProvisionedId(ReadFileIfExists(files, SessionFile(ppid, ThreadId)), forceNew, remote.threadId),
            attachment, message)
  }

  /** The request `handle` relays, read from the files as they are after the attachment step. */
  function HandleRequest(args: Args, files: map<string, string>, ppid: nat, home: string, remote: Remote): Request
  {
    RelayRequest(AttachFiles(args.file, files, ppid, remote), ppid, home, args.forceNew,
                 AttachmentFor(args.file, files, ppid, remote), JoinWords(args.message), remote)
  }

  /** The response before post-processing: the recalled one, the reply, or none. */
  function HandleResponse(args: Args, files: map<string, string>, ppid: nat, home: string, remote: Remote): Option<string>
  {
    if args.last then Some(GetLast(AttachFiles(args.file, files, ppid, remote), ppid))
    else if JoinWords(args.message) != "" then remote.reply(HandleRequest(args, files, ppid, home, remote))
    else None
  }

  function HandleOutcome(args: Args, files: map<string, string>, ppid: nat, home: string, remote: Remote): Outcome
  {
    Finish(HandleResponse(args, files, ppid, home, remote), args.code)
  }

  /** The remote calls of one invocation, in order. */
  function HandleCalls(args: Args, files: map<string, string>, ppid: nat, home: string, remote: Remote): seq<RemoteCall>
  {
    var attached := AttachFiles(args.file, files, ppid, remote);
    (if UploadRequested(args.file, files) then [UploadFileCall(args.file.value)] else [])
    + (if Relays(args) then
         ProvisionCalls(attached, ppid, home, args.forceNew) + [SendMessageCall(HandleRequest(args, files, ppid, home, remote))]
       else [])
  }

  /** The file contents once the response is obtained: after the attachment step and any provisioning. */
  function HandleFilesBeforeSave(args: Args, files: map<string, string>, ppid: nat, home: string, remote: Remote): map<string, string>
  {
    var attached := AttachFiles(args.file, files, ppid, remote);
    if Relays(args) then ProvisionFiles(attached, ppid, home, args.forceNew, remote) else attached
  }

  /** The files after the outcome: a printed response is saved as the session's last response. */
  function SaveOutcome(files: map<string, string>, ppid: nat, outcome: Outcome): map<string, string>
  {
    match outcome
    case Printed(text) => files[SessionFile(ppid, LastResponse) := text]
    case _ => files
  }

  /** The file contents after one invocation. */
  function HandleFiles(args: Args, files: map<string, string>, ppid: nat, home: string, remote: Remote): map<string, string>
  {
    SaveOutcome(HandleFilesBeforeSave(args, files, ppid, home, remote), ppid, HandleOutcome(args, files, ppid, home, remote))
  }

  // ---------------------------------------------------------------------
  // The rules `handle` follows.

  /** The attachment step leaves every cache file but the last-file one as it was. */
  lemma AttachKeepsOtherCaches(file: Option<string>, files: map<string, string>, ppid: nat, home: string, remote: Remote)
    ensures var after := AttachFiles(file, files, ppid, remote);
      && ReadFileIfExists(after, GlobalAssistantFile(home)) == ReadFileIfExists(files, GlobalAssistantFile(home))
      && ReadFileIfExists(after, SessionFile(ppid, ThreadId)) == ReadFileIfExists(files, SessionFile(ppid, ThreadId))
      && GetLast(after, ppid) == GetLast(files, ppid)
  {
    CacheFilesDistinct(ppid, home);
  }

  /**
   * A relayed message is the command-line words joined with single spaces;
   * it is sent exactly once, as the last remote call, with the resolved
   * attachment.
   */
  lemma HandleRelaysJoinedMessage(args: Args, files: map<string, string>, ppid: nat, home: string, remote: Remote)
    requires Relays(args)
    ensures var calls := HandleCalls(args, files, ppid, home, remote);
      && |calls| > 0
      && calls[|calls| - 1] == SendMessageCall(HandleRequest(args, files, ppid, home, remote))
      && (forall i :: 0 <= i < |calls| - 1 ==> !calls[i].SendMessageCall?)
    ensures HandleRequest(args, files, ppid, home, remote).text == JoinWords(args.message)
    ensures HandleRequest(args, files, ppid, home, remote).attachment == AttachmentFor(args.file, files, ppid, remote)
  {
    var calls := HandleCalls(args, files, ppid, home, remote);
    var prefix := calls[..|calls| - 1];
    assert forall c :: c in prefix ==> c.UploadFileCall? || c.CreateAssistantCall? || c.CreateThreadCall?;
    forall i | 0 <= i < |calls| - 1 ensures !calls[i].SendMessageCall? {
      assert calls[i] in prefix;
    }
  }

  /**
   * With --last nothing is provisioned or sent (an upload requested with
   * --file still happens first), and the recalled response is shown.
   */
  lemma HandleLastSendsNothing(args: Args, files: map<string, string>, ppid: nat, home: string, remote: Remote)
    requires args.last
    ensures forall c :: c in HandleCalls(args, files, ppid, home, remote) ==> c == UploadFileCall(args.file.value)
    ensures !UploadRequested(args.file, files) ==> HandleCalls(args, files, ppid, home, remote) == []
    ensures HandleOutcome(args, files, ppid, home, remote) == Finish(Some(GetLast(files, ppid)), args.code)
    ensures !args.code ==> HandleOutcome(args, files, ppid, home, remote) == Printed(GetLast(files, ppid))
  {
    AttachKeepsOtherCaches(args.file, files, ppid, home, remote);
  }

  /** Without --last, an empty message (no words, or one empty word) sends nothing. */
  lemma HandleEmptyMessageSendsNothing(args: Args, files: map<string, string>, ppid: nat, home: string, remote: Remote)
    requires !args.last && (|args.message| == 0 || args.message == [""])
    ensures forall c :: c in HandleCalls(args, files, ppid, home, remote) ==> c == UploadFileCall(args.file.value)
    ensures HandleOutcome(args, files, ppid, home, remote) == Finish(None, args.code)
    ensures HandleOutcome(args, files, ppid, home, remote) == if args.code then Crashed else Silent
  {
    JoinEmptyIff(args.message);
  }

  /**
   * --new with a relayed message creates both a new assistant and a new
   * thread, sends with their ids and caches both.
   */
  lemma HandleNewRecreatesBoth(args: Args, files: map<string, string>, ppid: nat, home: string, remote: Remote)
    requires Relays(args) && args.forceNew
    ensures var request := HandleRequest(args, files, ppid, home, remote);
      && request.assistantId == remote.assistantId && request.threadId == remote.threadId
      && HandleCalls(args, files, ppid, home, remote)
         == (if UploadRequested(args.file, files) then [UploadFileCall(args.file.value)] else [])
            + [CreateAssistantCall, CreateThreadCall, SendMessageCall(request)]
    ensures var after := HandleFiles(args, files, ppid, home, remote);
      && GlobalAssistantFile(home) in after && after[GlobalAssistantFile(home)] == remote.assistantId
      && SessionFile(ppid, ThreadId) in after && after[SessionFile(ppid, ThreadId)] == remote.threadId
  {
    CacheFilesDistinct(ppid, home);
  }

  /**
   * Without --new, a relayed message reuses each cached non-empty id, and
   * creates (and caches) a new one exactly when the cache misses.
   */
  lemma HandleReusesCachedIds(args: Args, files: map<string, string>, ppid: nat, home: string, remote: Remote)
    requires Relays(args) && !args.forceNew
    ensures var cached := ReadFileIfExists(files, GlobalAssistantFile(home));
      var request := HandleRequest(args, files, ppid, home, remote);
      && (CacheHit(cached, false) <==> CreateAssistantCall !in HandleCalls(args, files, ppid, home, remote))
      && request.assistantId == if CacheHit(cached, false) then cached.value else remote.assistantId
    ensures var cached := ReadFileIfExists(files, SessionFile(ppid, ThreadId));
      var request := HandleRequest(args, files, ppid, home, remote);
      && (CacheHit(cached, false) <==> CreateThreadCall !in HandleCalls(args, files, ppid, home, remote))
      && request.threadId == if CacheHit(cached, false) then cached.value else remote.threadId
  {
    AttachKeepsOtherCaches(args.file, files, ppid, home, remote);
  }

  /** The last-response file is written exactly when a non-empty response is printed, and holds it. */
  lemma HandleSavesOnlyNonEmpty(args: Args, files: map<string, string>, ppid: nat, home: string, remote: Remote)
    ensures var outcome, after := HandleOutcome(args, files, ppid, home, remote), HandleFiles(args, files, ppid, home, remote);
      var lastFile := SessionFile(ppid, LastResponse);
      && (outcome.Printed? ==> outcome.text != "" && lastFile in after && after[lastFile] == outcome.text)
      && (!outcome.Printed? ==> Agree(files, after, lastFile))
  {
    CacheFilesDistinct(ppid, home);
    // only the last-file, assistant and thread caches change before the save
    assert Agree(files, HandleFilesBeforeSave(args, files, ppid, home, remote), SessionFile(ppid, LastResponse));
  }

  /** No file other than the four cache files changes. */
  lemma HandleChangesOnlyCacheFiles(args: Args, files: map<string, string>, ppid: nat, home: string, remote: Remote, p: string)
    requires p != GlobalAssistantFile(home) && p != SessionFile(ppid, ThreadId)
    requires p != SessionFile(ppid, LastResponse) && p != SessionFile(ppid, LastFileId)
    ensures Agree(files, HandleFiles(args, files, ppid, home, remote), p)
  {
  }

  /** --code crashes exactly when there is no response to post-process. */
  lemma HandleCrashesIff(args: Args, files: map<string, string>, ppid: nat, home: string, remote: Remote)
    ensures HandleOutcome(args, files, ppid, home, remote).Crashed?
        <==> args.code && !args.last
             && (JoinWords(args.message) == "" || remote.reply(HandleRequest(args, files, ppid, home, remote)).None?)
  {
  }

  /** One invocation of the client for the shell whose process id is `ppid`. */
  class Client {
    const fs: FileSystem
    const ppid: nat
    const home: string
    ghost var calls: seq<RemoteCall>

    constructor (fs: FileSystem, ppid: nat, home: string)
      ensures this.fs == fs && this.ppid == ppid && this.home == home
      ensures calls == []
    {
      this.fs := fs;
      this.ppid := ppid;
      this.home := home;
      calls := [];
    }

    /**
     * create_assistant: a cached non-empty id is returned and nothing
     * changes, unless `forceNew`; otherwise the service creates an assistant,
     * whose id is written to the global file and returned.  Afterwards the
     * file holds the returned id, so a second call without `forceNew` reuses
     * it when it is non-empty.
     */
    method CreateAssistant(forceNew: bool, newId: string) returns (id: string)
      modifies this, fs
      ensures var cached := ReadFileIfExists(old(fs.files), GlobalAssistantFile(home));
        if CacheHit(cached, forceNew) then
          id == cached.value && fs.files == old(fs.files) && calls == old(calls)
        else
          id == newId && fs.files == old(fs.files)[GlobalAssistantFile(home) := newId]
          && calls == old(calls) + [CreateAssistantCall]
      ensures '\r' !in newId ==> ReadFileIfExists(fs.files, GlobalAssistantFile(home)) == Some(id)
      ensures id != "" && '\r' !in newId ==> CacheHit(ReadFileIfExists(fs.files, GlobalAssistantFile(home)), false)
    {
      var cached := ReadFileIfExists(fs.files, GlobalAssistantFile(home));
      if cached.Some? && cached.value != "" && !forceNew {
        UniversalNewlinesIdempotent(fs.files[GlobalAssistantFile(home)]);
        return cached.value;
      }
      fs.WriteFile(GlobalAssistantFile(home), newId);
      calls := calls + [CreateAssistantCall];
      id := newId;
    }

    /** create_thread: the cache-or-create rule of CreateAssistant, for this session's thread-id file. */
    method CreateThread(forceNew: bool, newId: string) returns (id: string)
      modifies this, fs
      ensures var cached := ReadFileIfExists(old(fs.files), SessionFile(ppid, ThreadId));
        if CacheHit(cached, forceNew) then
          id == cached.value && fs.files == old(fs.files) && calls == old(calls)
        else
          id == newId && fs.files == old(fs.files)[SessionFile(ppid, ThreadId) := newId]
          && calls == old(calls) + [CreateThreadCall]
      ensures '\r' !in newId ==> ReadFileIfExists(fs.files, SessionFile(ppid, ThreadId)) == Some(id)
      ensures id != "" && '\r' !in newId ==> CacheHit(ReadFileIfExists(fs.files, SessionFile(ppid, ThreadId)), false)
    {
      var threadIdFile := SessionFile(ppid, ThreadId);
      var cached := ReadFileIfExists(fs.files, threadIdFile);
      if cached.Some? && cached.value != "" && !forceNew {
        UniversalNewlinesIdempotent(fs.files[threadIdFile]);
        return cached.value;
      }
      fs.WriteFile(threadIdFile, newId);
      calls := calls + [CreateThreadCall];
      id := newId;
    }

    /** save_last_response: the session's last-response file now holds the response, which get_last returns. */
    method SaveLastResponse(response: string)
      modifies fs
      ensures fs.files == old(fs.files)[SessionFile(ppid, LastResponse) := response]
      ensures ReadLastResponse(fs.files, ppid) == Some(UniversalNewlines(response))
      ensures response != "" ==> GetLast(fs.files, ppid) == UniversalNewlines(response)
    {
      fs.WriteFile(SessionFile(ppid, LastResponse), response);
    }

    /**
     * attach_file: a missing local path gives None and changes nothing;
     * otherwise the file is uploaded and its new id cached for this session,
     * where "--file last" finds it again.
     */
    method AttachFile(path: string, uploadedId: string) returns (fileId: Option<string>)
      modifies this, fs
      ensures path !in old(fs.files) ==>
        fileId == None && fs.files == old(fs.files) && calls == old(calls)
      ensures path in old(fs.files) ==>
        fileId == Some(uploadedId) && fs.files == old(fs.files)[SessionFile(ppid, LastFileId) := uploadedId]
        && calls == old(calls) + [UploadFileCall(path)]
      ensures fileId.Some? && '\r' !in uploadedId ==> GetLastFile(fs.files, ppid) == fileId
    {
      if path !in fs.files {
        return None;
      }
      calls := calls + [UploadFileCall(path)];
      fs.WriteFile(SessionFile(ppid, LastFileId), uploadedId);
      fileId := Some(uploadedId);
    }

    /** send_message, abstracted: a send of the request is attempted and recorded, and the service's reply (None on failure) returned. */
    method SendMessage(assistantId: string, threadId: string, attachedFile: Option<string>, message: string, remote: Remote)
      returns (reply: Option<string>)
      modifies this
      ensures calls == old(calls) + [SendMessageCall(Request(assistantId, threadId, attachedFile, message))]
      ensures reply == remote.reply(Request(assistantId, threadId, attachedFile, message))
    {
      var request := Request(assistantId, threadId, attachedFile, message);
      calls := calls + [SendMessageCall(request)];
      reply := remote.reply(request);
    }

    /**
     * The first step of `handle`: no --file gives no attachment, "last" (in
     * any case) recalls the cached file id, and a path is uploaded.
     */
    method ResolveAttachment(file: Option<string>, remote: Remote) returns (attachedFile: Option<string>)
      modifies this, fs
      ensures attachedFile == AttachmentFor(file, old(fs.files), ppid, remote)
      ensures fs.files == AttachFiles(file, old(fs.files), ppid, remote)
      ensures calls == old(calls) + if UploadRequested(file, old(fs.files)) then [UploadFileCall(file.value)] else []
    {
      if file.None? {
        attachedFile := None;
      } else if IsLastKeyword(file.value) {
        attachedFile := GetLastFile(fs.files, ppid);
      } else {
        attachedFile := AttachFile(file.value, remote.fileId);
      }
    }

    /**
     * Lines 178-180 of `handle`: the assistant, then the thread, each reused
     * from its cache or created.
     */
    method Provision(forceNew: bool, remote: Remote) returns (assistantId: string, threadId: string)
      modifies this, fs
      ensures assistantId == ProvisionedId(ReadFileIfExists(old(fs.files), GlobalAssistantFile(home)), forceNew, remote.assistantId)
      ensures threadId == ProvisionedId(ReadFileIfExists(old(fs.files), SessionFile(ppid, ThreadId)), forceNew, remote.threadId)
      ensures calls == old(calls) + ProvisionCalls(old(fs.files), ppid, home, forceNew)
      ensures fs.files == ProvisionFiles(old(fs.files), ppid, home, forceNew, remote)
    {
      CacheFilesDistinct(ppid, home);
      ghost var start := fs.files;
      assistantId := CreateAssistant(forceNew, remote.assistantId);
      // writing the assistant file leaves the thread-id file as it was
      assert ReadFileIfExists(fs.files, SessionFile(ppid, ThreadId)) == ReadFileIfExists(start, SessionFile(ppid, ThreadId));
      threadId := CreateThread(forceNew, remote.threadId);
    }

    /**
     * The middle step of `handle`: with --last the recalled response;
     * without it and with a non-empty message, the reply to the message once
     * the assistant and the thread are provisioned; otherwise no response.
     */
    method ObtainResponse(last: bool, forceNew: bool, message: string, attachedFile: Option<string>, remote: Remote)
      returns (response: Option<string>)
      modifies this, fs
      ensures last || message == "" ==> calls == old(calls) && fs.files == old(fs.files)
      ensures last ==> response == Some(GetLast(old(fs.files), ppid))
      ensures !last && message == "" ==> response == None
      ensures !last && message != "" ==>
        var request := RelayRequest(old(fs.files), ppid, home, forceNew, attachedFile, message, remote);
        && calls == old(calls) + ProvisionCalls(old(fs.files), ppid, home, forceNew) + [SendMessageCall(request)]
        && fs.files == ProvisionFiles(old(fs.files), ppid, home, forceNew, remote)
        && response == remote.reply(request)
    {
      response := None;
      if last {
        response := Some(GetLast(fs.files, ppid));
      } else if message != "" {
        var assistantId, threadId := Provision(forceNew, remote);
        response := SendMessage(assistantId, threadId, attachedFile, message, remote);
      }
    }

    /**
     * The last step of `handle`: --code extracts the first code block (on no
     * response at all re.findall raises TypeError and nothing is saved); a
     * non-empty response is saved as the last response and printed.
     */
    method Conclude(response: Option<string>, code: bool) returns (outcome: Outcome)
      modifies fs
      ensures outcome == Finish(response, code)
      ensures fs.files == SaveOutcome(old(fs.files), ppid, outcome)
    {
      var text := response;
      if code {
        if text.None? {
          return Crashed;
        }
        text := Some(ExtractCodeBlocks(text.value));
      }
      if text.Some? && text.value != "" {
        SaveLastResponse(text.value);
        outcome := Printed(text.value);
      } else {
        outcome := Silent;
      }
    }

    /**
     * handle: resolve the attachment; with --last recall the cached response,
     * otherwise relay a non-empty message after provisioning; then apply
     * --code, and save and print the response only when it is non-empty.
     * `made` lists the remote calls made, in order.  The rules this follows
     * are the Handle... lemmas above.
     */
    method Handle(args: Args, remote: Remote) returns (outcome: Outcome, ghost made: seq<RemoteCall>)
      modifies this, fs
      ensures outcome == HandleOutcome(args, old(fs.files), ppid, home, remote)
      ensures made == HandleCalls(args, old(fs.files), ppid, home, remote)
      ensures calls == old(calls) + made
      ensures fs.files == HandleFiles(args, old(fs.files), ppid, home, remote)
    {
      ghost var before, start := calls, fs.files;
      var message := JoinWords(args.message);
      var attachedFile := ResolveAttachment(args.file, remote);
      ghost var uploads := calls[|before|..];
      assert calls == before + uploads;
      var response := ObtainResponse(args.last, args.forceNew, message, attachedFile, remote);
      assert response == HandleResponse(args, start, ppid, home, remote);
      made := HandleCalls(args, start, ppid, home, remote);
      assert calls == before + made;
      assert fs.files == HandleFilesBeforeSave(args, start, ppid, home, remote);
      outcome := Conclude(response, args.code);
    }
  }
}
