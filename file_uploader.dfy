// The SFTP file uploader of packages/frontend/src/composables/useFileUploader.ts:
// the remote path an upload goes to, the `uploads` dictionary and its
// status machine driven by the server's replies, and the sequence of chunk
// messages `sendFileChunks` sends. A file is its name and size; a chunk
// carries the byte range it was read from instead of its base64 text.
module FileUploader {
  import opened Wrappers
  import opened Strings

  // ------------------------------------------------------------- paths

  /** No '/' is directly followed by another. */
  predicate NoDoubleSlash(s: string)
  {
    forall i, j | 0 <= i < |s| && 0 <= j < |s| && j == i + 1 :: !(s[i] == '/' && s[j] == '/')
  }

  /** `base` without one trailing '/'. */
  function DropTrailingSlash(s: string): string
  {
    if EndsWith(s, "/") then s[..|s| - 1] else s
  }

  /** joinPath (useFileUploader.ts:17-21). */
  function JoinPath(base: string, name: string): string
  {
    if base == "/" then "/" + name
    else if EndsWith(base, "/") then base + name
    else base + "/" + name
  }

  /** joinPath puts exactly the one separator of `base` (its own trailing one, or one added) between base and name. */
  lemma JoinPathMeaning(base: string, name: string)
    ensures JoinPath(base, name) == DropTrailingSlash(base) + "/" + name
  {
    if EndsWith(base, "/") {
      assert base == base[..|base| - 1] + "/";
    }
  }

  /** `s.replace(/\/+/g, '/')`: every run of '/' becomes one '/'. */
  function Collapse(s: string): string
    decreases |s|
  {
    if s == [] then []
    else if |s| >= 2 && s[|s| - 1] == '/' && s[|s| - 2] == '/' then Collapse(s[..|s| - 1])
    else Collapse(s[..|s| - 1]) + [s[|s| - 1]]
  }

  /** Collapsing keeps the last character, and the first one. */
  lemma {:induction false} CollapseEnds(s: string)
    ensures |Collapse(s)| <= |s|
    ensures (s == []) == (Collapse(s) == [])
    ensures s != [] ==> Collapse(s)[|Collapse(s)| - 1] == s[|s| - 1]
    ensures s != [] ==> Collapse(s)[0] == s[0]
    decreases |s|
  {
    if s != [] {
      CollapseEnds(s[..|s| - 1]);
      if |s| >= 2 {
        assert s[..|s| - 1][|s| - 2] == s[|s| - 2];
        assert s[..|s| - 1][0] == s[0];
      }
    }
  }

  /** The collapsed path never holds "//". */
  lemma {:induction false} CollapseNoDoubleSlash(s: string)
    ensures NoDoubleSlash(Collapse(s))
    decreases |s|
  {
    if s != [] {
      var init := s[..|s| - 1];
      CollapseNoDoubleSlash(init);
      CollapseEnds(init);
      if !(|s| >= 2 && s[|s| - 1] == '/' && s[|s| - 2] == '/') && init != [] {
        assert init[|init| - 1] == s[|s| - 2];
      }
    }
  }

  /** A path without "//" is left as it is; so collapsing twice is collapsing once. */
  lemma {:induction false} CollapseFixes(s: string)
    requires NoDoubleSlash(s)
    ensures Collapse(s) == s
    decreases |s|
  {
    if s != [] {
      var init := s[..|s| - 1];
      var last := s[|s| - 1];
      assert NoDoubleSlash(init) by {
        forall i, j | 0 <= i < j < |init| && j == i + 1
          ensures !(init[i] == '/' && init[j] == '/')
        {
          assert init[i] == s[i] && init[j] == s[j];
        }
      }
      CollapseFixes(init);
      assert !(|s| >= 2 && last == '/' && s[|s| - 2] == '/') by {
        if |s| >= 2 {
          assert !(s[|s| - 2] == '/' && s[|s| - 2 + 1] == '/');
        }
      }
      assert Collapse(s) == Collapse(init) + [last];
      assert init + [last] == s;
    }
  }

  lemma CollapseIdempotent(s: string)
    ensures Collapse(Collapse(s)) == Collapse(s)
  {
    CollapseNoDoubleSlash(s);
    CollapseFixes(Collapse(s));
  }

  /** Text without '/' after a path survives collapsing unchanged. */
  lemma {:induction false} CollapseAppend(a: string, b: string)
    requires '/' !in b
    ensures Collapse(a + b) == Collapse(a) + b
    decreases |b|
  {
    if b != [] {
      var last := b[|b| - 1];
      assert last in b;
      assert '/' !in b[..|b| - 1] by {
        forall c | c in b[..|b| - 1]
          ensures c in b
        {
        }
      }
      assert b[..|b| - 1] + [last] == b;
      assert (a + b)[..|a + b| - 1] == a + b[..|b| - 1];
      assert (a + b)[|a + b| - 1] == last;
      CollapseAppend(a, b[..|b| - 1]);
      assert Collapse(a + b) == Collapse(a + b[..|b| - 1]) + [last];
      assert Collapse(a) + b[..|b| - 1] + [last] == Collapse(a) + b;
    } else {
      assert a + b == a && Collapse(a) + b == Collapse(a);
    }
  }

  /** The folder part of the path when a relative path is given (useFileUploader.ts:133-139). */
  function FolderBase(currentPath: string, relativePath: string): string
  {
    var basePath := if EndsWith(currentPath, "/") then currentPath else currentPath + "/";
    var noLeading := if StartsWith(relativePath, "/") then relativePath[1..] else relativePath;
    var clean := if EndsWith(noLeading, "/") then noLeading[..|noLeading| - 1] else noLeading;
    basePath + (if clean != "" then clean + "/" else "")
  }

  /** The path before slashes are collapsed; `relativePath` "" is the absent one. */
  function RawPath(currentPath: string, relativePath: string, name: string): string
  {
    if relativePath != "" then FolderBase(currentPath, relativePath) + name else JoinPath(currentPath, name)
  }

  /** The remote path of startFileUpload (useFileUploader.ts:130-144). */
  function RemotePath(currentPath: string, relativePath: string, name: string): string
  {
    Collapse(RawPath(currentPath, relativePath, name))
  }

  /** Before collapsing, the name follows a folder ending in '/'. */
  lemma RawPathSplit(currentPath: string, relativePath: string, name: string) returns (dir: string)
    ensures RawPath(currentPath, relativePath, name) == dir + name
    ensures dir != [] && dir[|dir| - 1] == '/'
  {
    if relativePath != "" {
      dir := FolderBase(currentPath, relativePath);
      if EndsWith(currentPath, "/") {
        assert currentPath[|currentPath| - 1] == '/';
      }
    } else {
      JoinPathMeaning(currentPath, name);
      dir := DropTrailingSlash(currentPath) + "/";
    }
  }

  /**
   * The remote path never holds "//", and a plain file name (no '/') ends
   * it, right after a '/': the file lands under the current directory, or
   * under the relative folder inside it.
   */
  lemma RemotePathShape(currentPath: string, relativePath: string, name: string)
    ensures NoDoubleSlash(RemotePath(currentPath, relativePath, name))
    ensures name != "" && '/' !in name ==> EndsWith(RemotePath(currentPath, relativePath, name), "/" + name)
  {
    CollapseNoDoubleSlash(RawPath(currentPath, relativePath, name));
    if name != "" && '/' !in name {
      var dir := RawPathSplit(currentPath, relativePath, name);
      CollapseAppend(dir, name);
      CollapseEnds(dir);
      var cd := Collapse(dir);
      var r := cd + name;
      assert r[|r| - |name| - 1..] == [cd[|cd| - 1]] + name;
    }
  }

  // ------------------------------------------------------------- state

  datatype UploadStatus = Pending | Uploading | Paused | Success | Error | Cancelled

  /** An entry of `uploads`; the file is its size, `error` the message shown. */
  datatype UploadItem = UploadItem(id: string, filename: string, size: nat, progress: int, status: UploadStatus, error: Option<string>)

  /** What the uploader sends; a chunk names the byte range its data was read from. */
  datatype OutMsg =
    | UploadStart(uploadId: string, remotePath: string, size: nat, relativePath: Option<string>)
    | UploadChunk(uploadId: string, chunkIndex: nat, start: nat, end: nat, isLast: bool)
    | UploadCancel(uploadId: string)

  /**
   * A `readAsDataURL` that one sendFileChunks call has started and not yet
   * heard back from: the slice of the `size`-byte file at `offset`, to be
   * sent as chunk `chunkIndex`.
   */
  datatype Reader = Reader(uploadId: string, size: nat, offset: nat, chunkIndex: nat)

  /** The uploader's state: the entries, the messages sent, the id counter and the reads in flight. */
  datatype Uploads = Uploads(items: map<string, UploadItem>, sent: seq<OutMsg>, counter: nat, reading: seq<Reader>)

  /** The n-th id generateUploadId hands out. */
  function UploadIdFor(n: nat): string
  {
    "upload-" + NatToString(n)
  }

  lemma UploadIdInjective(m: nat, n: nat)
    ensures UploadIdFor(m) == UploadIdFor(n) ==> m == n
  {
    if UploadIdFor(m) == UploadIdFor(n) {
      assert NatToString(m) == UploadIdFor(m)[7..] == UploadIdFor(n)[7..] == NatToString(n);
      NatToStringInjective(m, n);
    }
  }

  /**
   * Every entry sits under its own id, no id still to be drawn is taken,
   * and every read in flight is at the start of one of its file's chunks.
   */
  ghost predicate UploadsValid(s: Uploads)
  {
    && (forall k | k in s.items :: s.items[k].id == k)
    && (forall n: nat | n >= s.counter :: UploadIdFor(n) !in s.items)
    && (forall i | 0 <= i < |s.reading| :: ReaderValid(s.reading[i]))
  }

  // ------------------------------------------------------------ chunks

  const ChunkSize: nat := 65536

  function ChunkCount(size: nat): nat
  {
    (size + ChunkSize - 1) / ChunkSize
  }

  /** Chunk `i` of a file of `size` bytes, read at offset i·64 KiB. */
  function ChunkAt(id: string, size: nat, i: nat): OutMsg
  {
    UploadChunk(id, i, i * ChunkSize, if i * ChunkSize + ChunkSize <= size then i * ChunkSize + ChunkSize else size,
      i * ChunkSize + ChunkSize >= size)
  }

  /** The chunk messages of an upload from byte 0; a zero-byte file sends one empty last chunk. */
  function Chunks(id: string, size: nat): seq<OutMsg>
  {
    if size == 0 then [UploadChunk(id, 0, 0, 0, true)]
    else seq(ChunkCount(size), i requires 0 <= i => ChunkAt(id, size, i))
  }

  /** An index is below the chunk count exactly when its chunk starts inside the file. */
  lemma ChunkCountMeaning(size: nat, i: nat)
    ensures i < ChunkCount(size) <==> i * ChunkSize < size
  {
    var n := ChunkCount(size);
    var x := size + ChunkSize - 1;
    assert x == n * ChunkSize + x % ChunkSize && 0 <= x % ChunkSize < ChunkSize;
    if i < n {
      assert i * ChunkSize <= n * ChunkSize - ChunkSize;
    }
    if i * ChunkSize < size {
      assert i * ChunkSize < n * ChunkSize;
    }
  }

  /**
   * The chunks tile the file: numbered 0, 1, 2, … from offset 0, each
   * starting where the previous one ended, the last ending at the file's
   * size, none longer than 64 KiB and none empty unless the file is, and
   * only the last one flagged last.
   */
  lemma ChunksTile(id: string, size: nat)
    ensures var cs := Chunks(id, size);
      && |cs| >= 1
      && (forall i | 0 <= i < |cs| :: cs[i].UploadChunk? && cs[i].uploadId == id && cs[i].chunkIndex == i)
      && cs[0].start == 0 && cs[|cs| - 1].end == size
      && (forall i | 0 <= i < |cs| - 1 :: cs[i].end == cs[i + 1].start)
      && (forall i | 0 <= i < |cs| :: cs[i].start <= cs[i].end <= cs[i].start + ChunkSize)
      && (size > 0 ==> forall i | 0 <= i < |cs| :: cs[i].start < cs[i].end)
      && (forall i | 0 <= i < |cs| :: cs[i].isLast <==> i == |cs| - 1)
  {
    if size > 0 {
      var cs := Chunks(id, size);
      var n := ChunkCount(size);
      ChunkCountMeaning(size, 0);
      ChunkCountMeaning(size, n - 1);
      ChunkCountMeaning(size, n);
      forall i | 0 <= i < n
        ensures cs[i].isLast <==> i == n - 1
      {
        ChunkCountMeaning(size, i);
        ChunkCountMeaning(size, i + 1);
      }
      forall i | 0 <= i < n
        ensures cs[i].start < cs[i].end
      {
        ChunkCountMeaning(size, i);
      }
      forall i | 0 <= i < n - 1
        ensures cs[i].end == cs[i + 1].start
      {
        ChunkCountMeaning(size, i + 1);
      }
    }
  }

  /** A read in flight of a non-empty file, at the offset of a chunk that exists. */
  predicate ReaderValid(r: Reader)
  {
    r.size > 0 && r.offset == r.chunkIndex * ChunkSize && r.chunkIndex < ChunkCount(r.size)
  }

  // ------------------------------------------------------- transitions

  /** readNextChunk (useFileUploader.ts:97-104): a read starts only inside the file and while the upload is in progress. */
  function ReadNext(s: Uploads, r: Reader): Uploads
  {
    if r.offset < r.size && r.uploadId in s.items && s.items[r.uploadId].status == Uploading
    then s.(reading := s.reading + [r])
    else s
  }

  /**
   * sendFileChunks (useFileUploader.ts:36-118), from startByte 0: refused
   * unless connected and uploading; a zero-byte file sends its one empty last
   * chunk and shows 100%; any other file starts reading its first chunk.
   */
  function SendChunksStep(s: Uploads, uploadId: string, connected: bool): Uploads
  {
    if !connected || uploadId !in s.items || s.items[uploadId].status != Uploading then s
    else
      var item := s.items[uploadId];
      if item.size > 0 then ReadNext(s, Reader(uploadId, item.size, 0, 0))
      else s.(sent := s.sent + [UploadChunk(uploadId, 0, 0, 0, true)], items := s.items[uploadId := item.(progress := 100)])
  }

  /** The message shown when a chunk cannot be read. */
  const ReadFileErrorMessage := "fileManager.errors.readFileError"

  /** The reads in flight without the k-th, which has just finished. */
  function Without(rs: seq<Reader>, k: nat): (r: seq<Reader>)
    requires k < |rs|
    ensures |r| == |rs| - 1
    ensures forall i | 0 <= i < |r| :: r[i] == rs[if i < k then i else i + 1]
  {
    rs[..k] + rs[k + 1..]
  }

  /**
   * reader.onload (useFileUploader.ts:50-84) for the k-th read in flight:
   * before sending, the connection and the upload's status are checked again
   * and the reader stops if either has changed; a result that is not a data
   * URL marks the upload failed; otherwise the chunk is sent and, unless it
   * was the last, the next slice is read on the next tick. `slice` clamps
   * to the end of the file.
   */
  function LoadedStep(s: Uploads, k: nat, connected: bool, isDataUrl: bool): Uploads
    requires k < |s.reading|
  {
    var r := s.reading[k];
    var rest := s.(reading := Without(s.reading, k));
    if !connected || r.uploadId !in s.items || s.items[r.uploadId].status != Uploading then rest
    else if !isDataUrl then
      rest.(items := s.items[r.uploadId := s.items[r.uploadId].(status := Error, error := Some(ReadFileErrorMessage))])
    else
      var currentChunkSize := if r.offset + ChunkSize <= r.size then ChunkSize else if r.offset <= r.size then r.size - r.offset else 0;
      var isLast := r.offset + ChunkSize >= r.size;
      var s' := rest.(sent := s.sent + [UploadChunk(r.uploadId, r.chunkIndex, r.offset, r.offset + currentChunkSize, isLast)]);
      if isLast then s'
      else ReadNext(s', Reader(r.uploadId, r.size, r.offset + currentChunkSize, r.chunkIndex + 1))
  }

  /** reader.onerror (useFileUploader.ts:87-95): a present upload is marked failed, whatever its status. */
  function ReadErrorStep(s: Uploads, k: nat): Uploads
    requires k < |s.reading|
  {
    var r := s.reading[k];
    var rest := s.(reading := Without(s.reading, k));
    if r.uploadId in s.items
    then rest.(items := s.items[r.uploadId := s.items[r.uploadId].(status := Error, error := Some(ReadFileErrorMessage))])
    else rest
  }

  /** startFileUpload (useFileUploader.ts:121-164). */
  function StartStep(s: Uploads, connected: bool, currentPath: string, name: string, size: nat, relativePath: string): Uploads
  {
    if !connected then s
    else
      var id := UploadIdFor(s.counter);
      s.(items := s.items[id := UploadItem(id, name, size, 0, Pending, None)],
         sent := s.sent + [UploadStart(id, RemotePath(currentPath, relativePath, name), size,
                                       if relativePath == "" then None else Some(relativePath))],
         counter := s.counter + 1)
  }

  /** cancelUpload (useFileUploader.ts:166-183), up to its delayed removal. */
  function CancelStep(s: Uploads, uploadId: string, notifyBackend: bool, connected: bool): Uploads
  {
    if uploadId in s.items && s.items[uploadId].status in {Pending, Uploading, Paused} then
      s.(items := s.items[uploadId := s.items[uploadId].(status := Cancelled)],
         sent := s.sent + if notifyBackend && connected then [UploadCancel(uploadId)] else [])
    else s
  }

  /** The status an entry moves to on a message, when it has the one the handler expects. */
  function Move(s: Uploads, uploadId: string, from: UploadStatus, to: UploadStatus): Uploads
  {
    if uploadId != "" && uploadId in s.items && s.items[uploadId].status == from
    then s.(items := s.items[uploadId := s.items[uploadId].(status := to)])
    else s
  }

  /** onUploadReady (useFileUploader.ts:187-199). */
  function ReadyStep(s: Uploads, uploadId: string, connected: bool): Uploads
  {
    if uploadId != "" && uploadId in s.items && s.items[uploadId].status == Pending
    then SendChunksStep(Move(s, uploadId, Pending, Uploading), uploadId, connected)
    else s
  }

  /** onUploadPause (useFileUploader.ts:248-256). */
  function PauseStep(s: Uploads, uploadId: string): Uploads
  {
    Move(s, uploadId, Uploading, Paused)
  }

  /** onUploadResume (useFileUploader.ts:258-267): sendFileChunks from its default start. */
  function ResumeStep(s: Uploads, uploadId: string, connected: bool): Uploads
  {
    if uploadId != "" && uploadId in s.items && s.items[uploadId].status == Paused
    then SendChunksStep(Move(s, uploadId, Paused, Uploading), uploadId, connected)
    else s
  }

  /** onUploadSuccess (useFileUploader.ts:201-220): the entry is deleted at once. */
  function SuccessStep(s: Uploads, uploadId: string): Uploads
  {
    if uploadId != "" && uploadId in s.items then s.(items := s.items - {uploadId}) else s
  }

  /** The message shown when the error payload is not a string. */
  const UploadFailedMessage := "fileManager.errors.uploadFailed"

  /** onUploadError (useFileUploader.ts:222-246), up to its delayed removal. */
  function ErrorStep(s: Uploads, uploadId: string, payload: Option<string>): Uploads
  {
    if uploadId != "" && uploadId in s.items then
      var message := if payload.Some? then payload.value else UploadFailedMessage;
      s.(items := s.items[uploadId := s.items[uploadId].(status := Error, error := Some(message))])
    else s
  }

  /** onUploadCancelled (useFileUploader.ts:269-286): any present entry becomes cancelled. */
  function CancelledStep(s: Uploads, uploadId: string): Uploads
  {
    if uploadId != "" && uploadId in s.items then s.(items := s.items[uploadId := s.items[uploadId].(status := Cancelled)])
    else s
  }

  /** The delayed removals of useFileUploader.ts:177-181, 238-242 and 280-284: only an entry still in that status goes. */
  function ExpireStep(s: Uploads, uploadId: string, status: UploadStatus): Uploads
  {
    if uploadId in s.items && s.items[uploadId].status == status then s.(items := s.items - {uploadId}) else s
  }

  /**
   * `Math.min(100, Math.round(bytesWritten / totalSize * 100))` on exact
   * rationals, rounding halves up; the source divides and multiplies in
   * doubles, which can land an exact half just below it.
   */
  function Percent(bytesWritten: nat, totalSize: nat): int
  {
    if totalSize == 0 then 100
    else
      var rounded := (200 * bytesWritten + totalSize) / (2 * totalSize);
      if rounded < 100 then rounded else 100
  }

  /** onUploadProgress (useFileUploader.ts:289-310): applies only while uploading and only to a well-formed payload. */
  function ProgressStep(s: Uploads, uploadId: string, bytesWritten: Option<nat>, totalSize: Option<nat>): Uploads
  {
    if uploadId != "" && uploadId in s.items && s.items[uploadId].status == Uploading && bytesWritten.Some? && totalSize.Some?
       && !(bytesWritten.value == 0 && totalSize.value == 0)
    then s.(items := s.items[uploadId := s.items[uploadId].(progress := Percent(bytesWritten.value, totalSize.value))])
    else s
  }

  // ---------------------------------------------------------- properties

  /**
   * startFileUpload while disconnected does nothing; otherwise it adds one
   * entry, under an id no entry had, pending at progress 0, sends the start
   * message with the computed path, and leaves every other entry alone.
   */
  lemma StartAddsOnePending(s: Uploads, connected: bool, currentPath: string, name: string, size: nat, relativePath: string)
    requires UploadsValid(s)
    ensures var s' := StartStep(s, connected, currentPath, name, size, relativePath);
      && UploadsValid(s')
      && (!connected ==> s' == s)
      && (connected ==>
            var id := UploadIdFor(s.counter);
            && id !in s.items
            && s'.items.Keys == s.items.Keys + {id}
            && s'.items[id].status == Pending && s'.items[id].progress == 0 && s'.items[id].size == size
            && (forall k | k in s.items :: s'.items[k] == s.items[k])
            && s'.sent == s.sent + [UploadStart(id, RemotePath(currentPath, relativePath, name), size,
                                                if relativePath == "" then None else Some(relativePath))])
  {
    if connected {
      var s' := StartStep(s, connected, currentPath, name, size, relativePath);
      forall n: nat | n >= s'.counter
        ensures UploadIdFor(n) !in s'.items
      {
        UploadIdInjective(n, s.counter);
      }
    }
  }

  /**
   * The status machine: ready moves pending to uploading, pause uploading to
   * paused, resume paused to uploading, cancel any of pending, uploading or
   * paused to cancelled; a message for an entry in any other status leaves
   * it as it is, and no handler creates an entry.
   */
  lemma StatusTransitions(s: Uploads, uploadId: string, connected: bool, notifyBackend: bool)
    requires uploadId != "" && uploadId in s.items
    ensures var st := s.items[uploadId].status;
      && ReadyStep(s, uploadId, connected).items[uploadId].status == (if st == Pending then Uploading else st)
      && PauseStep(s, uploadId).items[uploadId].status == (if st == Uploading then Paused else st)
      && ResumeStep(s, uploadId, connected).items[uploadId].status == (if st == Paused then Uploading else st)
      && CancelStep(s, uploadId, notifyBackend, connected).items[uploadId].status == (if st in {Pending, Uploading, Paused} then Cancelled else st)
      && CancelledStep(s, uploadId).items[uploadId].status == Cancelled
    ensures ReadyStep(s, uploadId, connected).items.Keys == s.items.Keys
    ensures PauseStep(s, uploadId).items.Keys == s.items.Keys
    ensures ResumeStep(s, uploadId, connected).items.Keys == s.items.Keys
    ensures CancelStep(s, uploadId, notifyBackend, connected).items.Keys == s.items.Keys
  {
  }

  /** Handlers for an id with no entry change nothing at all. */
  lemma UnknownIdIgnored(s: Uploads, uploadId: string, connected: bool, notifyBackend: bool, payload: Option<string>)
    requires uploadId !in s.items
    ensures ReadyStep(s, uploadId, connected) == s && PauseStep(s, uploadId) == s && ResumeStep(s, uploadId, connected) == s
    ensures CancelStep(s, uploadId, notifyBackend, connected) == s && CancelledStep(s, uploadId) == s
    ensures SuccessStep(s, uploadId) == s && ErrorStep(s, uploadId, payload) == s
  {
  }

  /** Success removes the entry at once; an error keeps it, in status error, showing the payload text when there is one. */
  lemma SuccessAndError(s: Uploads, uploadId: string, payload: Option<string>)
    requires uploadId != "" && uploadId in s.items
    ensures SuccessStep(s, uploadId).items.Keys == s.items.Keys - {uploadId}
    ensures var e := ErrorStep(s, uploadId, payload).items[uploadId];
      && e.status == Error
      && (payload.Some? ==> e.error == payload)
      && e.progress == s.items[uploadId].progress
  {
  }

  /**
   * A ready upload, when connected, starts reading its file at byte 0 as
   * chunk 0; resuming a paused upload starts again at byte 0 too, not where
   * it stopped. A zero-byte file sends its one empty last chunk at once and
   * shows 100%. Disconnected, nothing is sent and nothing is read.
   */
  lemma ReadyAndResumeSendFromStart(s: Uploads, uploadId: string)
    requires uploadId != "" && uploadId in s.items
    ensures var item := s.items[uploadId];
      item.status == Pending || item.status == Paused ==>
        var s' := if item.status == Pending then ReadyStep(s, uploadId, true) else ResumeStep(s, uploadId, true);
        && s'.items[uploadId].status == Uploading
        && (item.size > 0 ==> s'.sent == s.sent && s'.reading == s.reading + [Reader(uploadId, item.size, 0, 0)])
        && (item.size == 0 ==> s'.sent == s.sent + Chunks(uploadId, 0) && s'.reading == s.reading && s'.items[uploadId].progress == 100)
    ensures ReadyStep(s, uploadId, false).sent == s.sent && ReadyStep(s, uploadId, false).reading == s.reading
    ensures ResumeStep(s, uploadId, false).sent == s.sent && ResumeStep(s, uploadId, false).reading == s.reading
  {
  }

  /**
   * One load of a read in flight sends at most one message, and that message
   * is the chunk of the tiling the read was for. It is sent exactly when the
   * connection is up and the upload is still in progress; then the reader
   * moves on to the following chunk if there is one and is done otherwise.
   */
  lemma ChunkLoadedSends(s: Uploads, k: nat, connected: bool)
    requires k < |s.reading| && ReaderValid(s.reading[k])
    ensures var r := s.reading[k];
      var s' := LoadedStep(s, k, connected, true);
      var go := connected && r.uploadId in s.items && s.items[r.uploadId].status == Uploading;
      && s'.items == s.items && s'.counter == s.counter
      && (!go ==> s'.sent == s.sent && s'.reading == Without(s.reading, k))
      && (go ==> s'.sent == s.sent + [Chunks(r.uploadId, r.size)[r.chunkIndex]])
      && (go && r.chunkIndex + 1 < ChunkCount(r.size) ==>
            s'.reading == Without(s.reading, k) + [Reader(r.uploadId, r.size, (r.chunkIndex + 1) * ChunkSize, r.chunkIndex + 1)])
      && (go && r.chunkIndex + 1 == ChunkCount(r.size) ==> s'.reading == Without(s.reading, k))
  {
    var r := s.reading[k];
    ChunkCountMeaning(r.size, r.chunkIndex);
    ChunkCountMeaning(r.size, r.chunkIndex + 1);
  }

  /**
   * A read that fails, or yields something other than a data URL while the
   * upload is in progress, marks the upload failed with the read-error
   * message and sends nothing.
   */
  lemma ReadFailureMarksError(s: Uploads, k: nat, connected: bool)
    requires k < |s.reading| && s.reading[k].uploadId in s.items
    ensures var id := s.reading[k].uploadId;
      && ReadErrorStep(s, k).sent == s.sent
      && ReadErrorStep(s, k).items[id] == s.items[id].(status := Error, error := Some(ReadFileErrorMessage))
      && (connected && s.items[id].status == Uploading ==>
            && LoadedStep(s, k, connected, false).sent == s.sent
            && LoadedStep(s, k, connected, false).items[id] == s.items[id].(status := Error, error := Some(ReadFileErrorMessage)))
  {
  }

  /** n loads in a row of the first read in flight, connected and each yielding a data URL. */
  function Pump(s: Uploads, n: nat): Uploads
    decreases n
  {
    if n == 0 || |s.reading| == 0 then s else Pump(LoadedStep(s, 0, true, true), n - 1)
  }

  /** With one reader in flight at chunk i and nothing else happening, n loads send chunks i to i+n-1 in order. */
  lemma {:induction false} PumpSendsInOrder(s: Uploads, uploadId: string, size: nat, i: nat, n: nat)
    requires uploadId in s.items && s.items[uploadId].status == Uploading
    requires size > 0 && i < ChunkCount(size) && i + n <= ChunkCount(size)
    requires s.reading == [Reader(uploadId, size, i * ChunkSize, i)]
    ensures var s' := Pump(s, n);
      && s'.items == s.items
      && s'.sent == s.sent + Chunks(uploadId, size)[i..i + n]
      && s'.reading == if i + n < ChunkCount(size) then [Reader(uploadId, size, (i + n) * ChunkSize, i + n)] else []
    decreases n
  {
    if n > 0 {
      ChunkCountMeaning(size, i);
      ChunkLoadedSends(s, 0, true);
      var s1 := LoadedStep(s, 0, true, true);
      var cs := Chunks(uploadId, size);
      assert Pump(s, n) == Pump(s1, n - 1);
      if i + 1 < ChunkCount(size) {
        assert s1.reading == [Reader(uploadId, size, (i + 1) * ChunkSize, i + 1)];
        PumpSendsInOrder(s1, uploadId, size, i + 1, n - 1);
        assert (i + 1) + (n - 1) == i + n;
        assert cs[i..i + n] == [cs[i]] + cs[i + 1..i + n];
      } else {
        assert n == 1 && s1.reading == [];
        assert Pump(s1, n - 1) == s1;
        assert cs[i..i + n] == [cs[i]];
      }
    }
  }

  /**
   * The chunks an upload sends form a prefix of its tiling. From a ready
   * message with no other read in flight, m loads later exactly the first m
   * chunks have been sent, in order, and after the last one the reader is
   * done. A pause or a lost connection after m chunks stops the upload
   * there: the next load sends nothing and ends the reader.
   */
  lemma ReadySendsPrefix(s: Uploads, uploadId: string, m: nat)
    requires uploadId != "" && uploadId in s.items && s.items[uploadId].status == Pending
    requires s.reading == [] && s.items[uploadId].size > 0
    requires m <= ChunkCount(s.items[uploadId].size)
    ensures var size := s.items[uploadId].size;
      var p := Pump(ReadyStep(s, uploadId, true), m);
      && p.sent == s.sent + Chunks(uploadId, size)[..m]
      && (m == ChunkCount(size) ==> p.sent == s.sent + Chunks(uploadId, size) && p.reading == [])
      && (m < ChunkCount(size) ==>
            && |p.reading| == 1
            && LoadedStep(PauseStep(p, uploadId), 0, true, true).sent == p.sent
            && LoadedStep(PauseStep(p, uploadId), 0, true, true).reading == []
            && LoadedStep(p, 0, false, true).sent == p.sent
            && LoadedStep(p, 0, false, true).reading == [])
  {
    var size := s.items[uploadId].size;
    ChunkCountMeaning(size, 0);
    var s1 := ReadyStep(s, uploadId, true);
    assert s1.reading == [Reader(uploadId, size, 0 * ChunkSize, 0)];
    PumpSendsInOrder(s1, uploadId, size, 0, m);
    assert Chunks(uploadId, size)[0..m] == Chunks(uploadId, size)[..m];
  }

  /** A step that only removes entries or edits them under their own ids, reading nothing new, keeps the invariant. */
  lemma SameIdsValid(s: Uploads, t: Uploads)
    requires UploadsValid(s) && t.counter == s.counter && t.reading == s.reading
    requires t.items.Keys <= s.items.Keys && forall k | k in t.items :: t.items[k].id == s.items[k].id
    ensures UploadsValid(t)
  {
  }

  /** Starting to send an upload keeps the invariant: its first read is at chunk 0 of a non-empty file. */
  lemma SendChunksKeepsValid(s: Uploads, uploadId: string, connected: bool)
    requires UploadsValid(s)
    ensures UploadsValid(SendChunksStep(s, uploadId, connected))
  {
    if connected && uploadId in s.items && s.items[uploadId].status == Uploading {
      var size := s.items[uploadId].size;
      if size > 0 {
        ChunkCountMeaning(size, 0);
        assert ReaderValid(Reader(uploadId, size, 0, 0));
      } else {
        SameIdsValid(s, SendChunksStep(s, uploadId, connected));
      }
    }
  }

  /** The reads that go on after a load or a read error are still at the start of a chunk. */
  lemma ReadsKeepValid(s: Uploads, k: nat, connected: bool, isDataUrl: bool)
    requires UploadsValid(s) && k < |s.reading|
    ensures UploadsValid(LoadedStep(s, k, connected, isDataUrl))
    ensures UploadsValid(ReadErrorStep(s, k))
  {
    ChunkLoadedSends(s, k, connected);
  }

  /**
   * Progress is set only while uploading and then lies in 0..100; below 100
   * it is 100·bytesWritten/totalSize rounded to the nearest integer, halves up.
   */
  lemma ProgressMeaning(s: Uploads, uploadId: string, bytesWritten: nat, totalSize: nat)
    requires uploadId != "" && uploadId in s.items
    ensures s.items[uploadId].status != Uploading ==> ProgressStep(s, uploadId, Some(bytesWritten), Some(totalSize)) == s
    ensures 0 <= Percent(bytesWritten, totalSize) <= 100
    ensures totalSize > 0 && Percent(bytesWritten, totalSize) < 100 ==>
      var p := Percent(bytesWritten, totalSize);
      200 * bytesWritten - totalSize < 2 * totalSize * p <= 200 * bytesWritten + totalSize
    ensures totalSize > 0 && bytesWritten >= totalSize ==> Percent(bytesWritten, totalSize) == 100
  {
    if totalSize > 0 {
      var x := 200 * bytesWritten + totalSize;
      var d := 2 * totalSize;
      var q := x / d;
      assert x == q * d + x % d && 0 <= x % d < d;
      if bytesWritten >= totalSize {
        assert x >= 201 * totalSize;
        assert q * d > x - d >= 199 * totalSize;
        assert q * totalSize > 99 * totalSize;
      }
    }
  }

  /** The delayed removal deletes an entry only if it is still in the status it was scheduled for. */
  lemma ExpireMeaning(s: Uploads, uploadId: string, status: UploadStatus)
    ensures uploadId in s.items && s.items[uploadId].status == status ==> ExpireStep(s, uploadId, status).items == s.items - {uploadId}
    ensures !(uploadId in s.items && s.items[uploadId].status == status) ==> ExpireStep(s, uploadId, status) == s
  {
  }

  // ------------------------------------------------------------- class

  /** The composable's `uploads` dictionary, what it has sent, the id generator and the chunk reads in flight. */
  class Uploader {
    var items: map<string, UploadItem>
    var sent: seq<OutMsg>
    var counter: nat
    var reading: seq<Reader>

    function Abs(): Uploads
      reads this
    {
      Uploads(items, sent, counter, reading)
    }

    constructor ()
      ensures Abs() == Uploads(map[], [], 0, []) && UploadsValid(Abs())
    {
      items := map[];
      sent := [];
      counter := 0;
      reading := [];
    }

    /** sendFileChunks (useFileUploader.ts:36-118), from startByte 0, up to its first read. */
    method SendFileChunks(uploadId: string, connected: bool)
      requires UploadsValid(Abs())
      modifies this`sent, this`items, this`reading
      ensures Abs() == SendChunksStep(old(Abs()), uploadId, connected)
      ensures UploadsValid(Abs())
    {
      SendChunksKeepsValid(Abs(), uploadId, connected);
      if !connected || uploadId !in items || items[uploadId].status != Uploading {
        return;
      }
      var size := items[uploadId].size;
      if size > 0 {
        ReadNextChunk(Reader(uploadId, size, 0, 0));
      } else {
        sent := sent + [UploadChunk(uploadId, 0, 0, 0, true)];
        items := items[uploadId := items[uploadId].(progress := 100)];
      }
    }

    /** readNextChunk (useFileUploader.ts:97-104). */
    method ReadNextChunk(r: Reader)
      modifies this`reading
      ensures Abs() == ReadNext(old(Abs()), r)
    {
      if r.offset < r.size && r.uploadId in items && items[r.uploadId].status == Uploading {
        reading := reading + [r];
      }
    }

    /** reader.onload (useFileUploader.ts:50-84) for the k-th read in flight. */
    method OnChunkLoaded(k: nat, connected: bool, isDataUrl: bool)
      requires k < |reading| && UploadsValid(Abs())
      modifies this`sent, this`items, this`reading
      ensures Abs() == LoadedStep(old(Abs()), k, connected, isDataUrl)
      ensures UploadsValid(Abs())
    {
      ReadsKeepValid(Abs(), k, connected, isDataUrl);
      var r := reading[k];
      reading := Without(reading, k);
      if !connected || r.uploadId !in items || items[r.uploadId].status != Uploading {
        return;
      }
      if !isDataUrl {
        items := items[r.uploadId := items[r.uploadId].(status := Error, error := Some(ReadFileErrorMessage))];
        return;
      }
      var currentChunkSize := if r.offset + ChunkSize <= r.size then ChunkSize else if r.offset <= r.size then r.size - r.offset else 0;
      var isLast := r.offset + ChunkSize >= r.size;
      sent := sent + [UploadChunk(r.uploadId, r.chunkIndex, r.offset, r.offset + currentChunkSize, isLast)];
      if !isLast {
        ReadNextChunk(Reader(r.uploadId, r.size, r.offset + currentChunkSize, r.chunkIndex + 1));
      }
    }

    /** reader.onerror (useFileUploader.ts:87-95) for the k-th read in flight. */
    method OnReadError(k: nat)
      requires k < |reading| && UploadsValid(Abs())
      modifies this`items, this`reading
      ensures Abs() == ReadErrorStep(old(Abs()), k)
      ensures UploadsValid(Abs())
    {
      ReadsKeepValid(Abs(), k, true, true);
      var r := reading[k];
      reading := Without(reading, k);
      if r.uploadId in items {
        items := items[r.uploadId := items[r.uploadId].(status := Error, error := Some(ReadFileErrorMessage))];
      }
    }

    method StartFileUpload(connected: bool, currentPath: string, name: string, size: nat, relativePath: string)
      requires UploadsValid(Abs())
      modifies this`items, this`sent, this`counter
      ensures Abs() == StartStep(old(Abs()), connected, currentPath, name, size, relativePath)
      ensures UploadsValid(Abs())
    {
      StartAddsOnePending(Abs(), connected, currentPath, name, size, relativePath);
      if !connected {
        return;
      }
      var uploadId := UploadIdFor(counter);
      counter := counter + 1;
      var finalRemotePath := RemotePath(currentPath, relativePath, name);
      items := items[uploadId := UploadItem(uploadId, name, size, 0, Pending, None)];
      sent := sent + [UploadStart(uploadId, finalRemotePath, size, if relativePath == "" then None else Some(relativePath))];
    }

    method CancelUpload(uploadId: string, notifyBackend: bool, connected: bool)
      requires UploadsValid(Abs())
      modifies this`items, this`sent
      ensures Abs() == CancelStep(old(Abs()), uploadId, notifyBackend, connected)
      ensures UploadsValid(Abs())
    {
      SameIdsValid(Abs(), CancelStep(Abs(), uploadId, notifyBackend, connected));
      if uploadId in items && items[uploadId].status in {Pending, Uploading, Paused} {
        items := items[uploadId := items[uploadId].(status := Cancelled)];
        if notifyBackend && connected {
          sent := sent + [UploadCancel(uploadId)];
        }
      }
    }

    method OnUploadReady(uploadId: string, connected: bool)
      requires UploadsValid(Abs())
      modifies this`items, this`sent, this`reading
      ensures Abs() == ReadyStep(old(Abs()), uploadId, connected)
      ensures UploadsValid(Abs())
    {

      if uploadId == "" {
        return;
      }
      if uploadId in items && items[uploadId].status == Pending {
        SameIdsValid(Abs(), Abs().(items := items[uploadId := items[uploadId].(status := Uploading)]));
        items := items[uploadId := items[uploadId].(status := Uploading)];
        SendFileChunks(uploadId, connected);
      }
    }

    method OnUploadSuccess(uploadId: string)
      requires UploadsValid(Abs())
      modifies this`items
      ensures Abs() == SuccessStep(old(Abs()), uploadId)
      ensures UploadsValid(Abs())
    {
      SameIdsValid(Abs(), SuccessStep(Abs(), uploadId));
      if uploadId == "" {
        return;
      }
      if uploadId in items {
        items := items - {uploadId};
      }
    }

    method OnUploadError(uploadId: string, payload: Option<string>)
      requires UploadsValid(Abs())
      modifies this`items
      ensures Abs() == ErrorStep(old(Abs()), uploadId, payload)
      ensures UploadsValid(Abs())
    {
      SameIdsValid(Abs(), ErrorStep(Abs(), uploadId, payload));
      if uploadId == "" {
        return;
      }
      if uploadId in items {
        var errorMessage := if payload.Some? then payload.value else UploadFailedMessage;
        items := items[uploadId := items[uploadId].(status := Error, error := Some(errorMessage))];
      }
    }

    method OnUploadPause(uploadId: string)
      requires UploadsValid(Abs())
      modifies this`items
      ensures Abs() == PauseStep(old(Abs()), uploadId)
      ensures UploadsValid(Abs())
    {
      SameIdsValid(Abs(), PauseStep(Abs(), uploadId));
      if uploadId == "" {
        return;
      }
      if uploadId in items && items[uploadId].status == Uploading {
        items := items[uploadId := items[uploadId].(status := Paused)];
      }
    }

    method OnUploadResume(uploadId: string, connected: bool)
      requires UploadsValid(Abs())
      modifies this`items, this`sent, this`reading
      ensures Abs() == ResumeStep(old(Abs()), uploadId, connected)
      ensures UploadsValid(Abs())
    {

      if uploadId == "" {
        return;
      }
      if uploadId in items && items[uploadId].status == Paused {
        SameIdsValid(Abs(), Abs().(items := items[uploadId := items[uploadId].(status := Uploading)]));
        items := items[uploadId := items[uploadId].(status := Uploading)];
        SendFileChunks(uploadId, connected);
      }
    }

    method OnUploadCancelled(uploadId: string)
      requires UploadsValid(Abs())
      modifies this`items
      ensures Abs() == CancelledStep(old(Abs()), uploadId)
      ensures UploadsValid(Abs())
    {
      SameIdsValid(Abs(), CancelledStep(Abs(), uploadId));
      if uploadId == "" {
        return;
      }
      if uploadId in items {
        items := items[uploadId := items[uploadId].(status := Cancelled)];
      }
    }

    method OnUploadProgress(uploadId: string, bytesWritten: Option<nat>, totalSize: Option<nat>)
      requires UploadsValid(Abs())
      modifies this`items
      ensures Abs() == ProgressStep(old(Abs()), uploadId, bytesWritten, totalSize)
      ensures UploadsValid(Abs())
    {
      SameIdsValid(Abs(), ProgressStep(Abs(), uploadId, bytesWritten, totalSize));
      if uploadId == "" {
        return;
      }
      if uploadId in items && items[uploadId].status == Uploading {
        if bytesWritten.Some? && totalSize.Some? && !(bytesWritten.value == 0 && totalSize.value == 0) {
          items := items[uploadId := items[uploadId].(progress := Percent(bytesWritten.value, totalSize.value))];
        }
      }
    }

    /** The timer callback of a delayed removal. */
    method Expire(uploadId: string, status: UploadStatus)
      requires UploadsValid(Abs())
      modifies this`items
      ensures Abs() == ExpireStep(old(Abs()), uploadId, status)
      ensures UploadsValid(Abs())
    {
      SameIdsValid(Abs(), ExpireStep(Abs(), uploadId, status));
      if uploadId in items && items[uploadId].status == status {
        items := items - {uploadId};
      }
    }
  }
}
