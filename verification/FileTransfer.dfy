/** Binary file transfers of the daemon client: the upload loop, the reassembly of downloads and what joins them. */
module FileTransfer {
  import opened Options

  newtype byte = x: int | 0 <= x < 256

  datatype Metadata = Metadata(mime: string, size: nat)

  datatype FileFrame =
    | FileBegin(requestId: string, metadata: Metadata)
    | FileChunk(requestId: string, payload: seq<byte>)
    | FileEnd(requestId: string)

  datatype PendingRead = PendingRead(path: string, maxBytes: Option<int>)
  datatype Transfer = Transfer(read: PendingRead, metadata: Metadata, chunks: seq<seq<byte>>)
  datatype FileRead = FileRead(bytes: seq<byte>, metadata: Metadata, path: string)

  /** The `file_explorer_response` a finished transfer is turned into. */
  datatype Reply = Reply(requestId: string, path: string, tooLarge: bool)

  /** What happens to the download side: a read starts, a read is over, a frame arrives. */
  datatype Event =
    | StartRead(requestId: string, read: PendingRead)
    | FinishRead(requestId: string, failed: bool)
    | OnFrame(frame: FileFrame)

  function Target(e: Event): string {
    match e
    case StartRead(id, _) => id
    case FinishRead(id, _) => id
    case OnFrame(frame) => frame.requestId
  }

  // ---------------------------------------------------------------------------------------------
  // Cutting bytes into chunks and joining them again

  function Joined(chunks: seq<seq<byte>>): seq<byte> {
    if chunks == [] then [] else chunks[0] + Joined(chunks[1..])
  }

  function Zeros(n: nat): (r: seq<byte>)
    ensures |r| == n && forall i | 0 <= i < n :: r[i] == 0
  {
    seq(n, _ => 0)
  }

  lemma {:induction false} JoinedConcat(a: seq<seq<byte>>, b: seq<seq<byte>>)
    ensures Joined(a + b) == Joined(a) + Joined(b)
  {
    if a == [] {
      assert a + b == b;
    } else {
      assert (a + b)[1..] == a[1..] + b;
      JoinedConcat(a[1..], b);
    }
  }

  lemma JoinedNext(chunks: seq<seq<byte>>, chunk: seq<byte>)
    ensures Joined(chunks + [chunk]) == Joined(chunks) + chunk
  {
    JoinedConcat(chunks, [chunk]);
    assert Joined([chunk]) == chunk + Joined([chunk][1..]);
  }

  lemma JoinedPrefix(chunks: seq<seq<byte>>, i: nat)
    requires i <= |chunks|
    ensures |Joined(chunks[..i])| <= |Joined(chunks)|
  {
    assert chunks[..i] + chunks[i..] == chunks;
    JoinedConcat(chunks[..i], chunks[i..]);
  }

  /** Fills a buffer of the declared size; `None` is the RangeError of writing past its end. */
  method ConcatByteChunks(chunks: seq<seq<byte>>, size: nat) returns (bytes: Option<array<byte>>)
    ensures bytes.Some? <==> |Joined(chunks)| <= size
    ensures bytes.Some? ==> fresh(bytes.value) && bytes.value[..] == Joined(chunks) + Zeros(size - |Joined(chunks)|)
  {
    var buffer := new byte[size](_ => 0);
    var offset := 0;
    for i := 0 to |chunks|
      invariant offset == |Joined(chunks[..i])| <= size
      invariant buffer[..offset] == Joined(chunks[..i])
      invariant forall j :: offset <= j < size ==> buffer[j] == 0
    {
      var chunk := chunks[i];
      assert chunks[..i + 1] == chunks[..i] + [chunk];
      JoinedNext(chunks[..i], chunk);
      JoinedPrefix(chunks, i + 1);
      if offset + |chunk| > size {
        return None;
      }
      forall j | 0 <= j < |chunk| {
        buffer[offset + j] := chunk[j];
      }
      offset := offset + |chunk|;
    }
    assert chunks[..|chunks|] == chunks;
    assert buffer[..] == buffer[..offset] + buffer[offset..];
    return Some(buffer);
  }

  /** Appends the frames of one upload to what is sent. */
  method UploadFile(requestId: string, mime: string, bytes: seq<byte>, chunkSize: nat) returns (frames: seq<FileFrame>)
    requires chunkSize >= 1 || bytes == []
    ensures IsTransfer(frames, requestId) && frames != [] && frames[0] == FileBegin(requestId, Metadata(mime, |bytes|))
    ensures Joined(Payloads(frames)) == bytes
    ensures forall k :: 0 <= k < |Payloads(frames)| ==> 1 <= |Payloads(frames)[k]| <= chunkSize
    ensures forall k :: 0 <= k < |Payloads(frames)| - 1 ==> |Payloads(frames)[k]| == chunkSize
  {
    frames := [FileBegin(requestId, Metadata(mime, |bytes|))];
    ghost var sent: seq<seq<byte>> := [];
    var offset := 0;
    hide Joined, Chunks, IsTransfer, Payloads;
    Joined0(requestId);
    while offset < |bytes|
      invariant frames == [FileBegin(requestId, Metadata(mime, |bytes|))] + Chunks(requestId, sent)
      invariant Joined(sent) == bytes[..if offset < |bytes| then offset else |bytes|]
      invariant forall k :: 0 <= k < |sent| ==> 1 <= |sent[k]| <= chunkSize
      invariant forall k :: 0 <= k < |sent| - 1 ==> |sent[k]| == chunkSize
      invariant sent != [] && offset <= |bytes| ==> |sent[|sent| - 1]| == chunkSize
    {
      var end := if offset + chunkSize < |bytes| then offset + chunkSize else |bytes|;
      var payload := bytes[offset..end];
      ChunksNext(requestId, sent, payload);
      JoinedNext(sent, payload);
      assert bytes[..end] == bytes[..offset] + payload;
      frames := frames + [FileChunk(requestId, payload)];
      sent := sent + [payload];
      offset := offset + chunkSize;
    }
    TransferOf(requestId, Metadata(mime, |bytes|), sent);
    frames := frames + [FileEnd(requestId)];
  }

  lemma Joined0(requestId: string)
    ensures Joined([]) == [] && Chunks(requestId, []) == []
  {
  }

  lemma ChunksNext(requestId: string, payloads: seq<seq<byte>>, payload: seq<byte>)
    ensures Chunks(requestId, payloads + [payload]) == Chunks(requestId, payloads) + [FileChunk(requestId, payload)]
  {
  }

  /** Begin, chunks and end make a transfer with just those payloads. */
  lemma TransferOf(requestId: string, metadata: Metadata, payloads: seq<seq<byte>>)
    ensures var frames := [FileBegin(requestId, metadata)] + Chunks(requestId, payloads) + [FileEnd(requestId)];
            IsTransfer(frames, requestId) && frames[0] == FileBegin(requestId, metadata) && Payloads(frames) == payloads
  {
  }

  function Chunks(requestId: string, payloads: seq<seq<byte>>): seq<FileFrame> {
    seq(|payloads|, i requires 0 <= i < |payloads| => FileChunk(requestId, payloads[i]))
  }

  /** One Begin, any chunks, one End, all under one request id. */
  predicate IsTransfer(frames: seq<FileFrame>, requestId: string) {
    && |frames| >= 2
    && frames[0].FileBegin? && frames[0].requestId == requestId
    && frames[|frames| - 1] == FileEnd(requestId)
    && forall k :: 1 <= k < |frames| - 1 ==> frames[k].FileChunk? && frames[k].requestId == requestId
  }

  function Payloads(frames: seq<FileFrame>): seq<seq<byte>>
  {
    seq(if |frames| >= 2 then |frames| - 2 else 0,
        i requires 0 <= i < |frames| - 2 => if frames[i + 1].FileChunk? then frames[i + 1].payload else [])
  }

  // ---------------------------------------------------------------------------------------------
  // The receiving side, one request id at a time

  /** Everything the client holds for one request id, with the replies it gave for it. */
  datatype Slot = Slot(
    pending: Option<PendingRead>, active: Option<Transfer>, completed: Option<FileRead>, replies: seq<Reply>)

  /** A budget of zero is no budget. */
  predicate OverBudget(t: Transfer) {
    t.read.maxBytes.Some? && t.read.maxBytes.value != 0 && t.metadata.size > t.read.maxBytes.value
  }

  predicate Overruns(t: Transfer) {
    |Joined(t.chunks)| > t.metadata.size
  }

  function Assembled(t: Transfer): seq<byte>
    requires !Overruns(t)
  {
    Joined(t.chunks) + Zeros(t.metadata.size - |Joined(t.chunks)|)
  }

  function React(s: Slot, frame: FileFrame): Slot {
    match frame
    case FileBegin(_, metadata) =>
      if s.pending.None? then s else s.(active := Some(Transfer(s.pending.value, metadata, [])))
    case FileChunk(_, payload) =>
      if s.active.None? || OverBudget(s.active.value) then s
      else s.(active := Some(s.active.value.(chunks := s.active.value.chunks + [payload])))
    case FileEnd(id) =>
      if s.active.None? then s
      else
        var t := s.active.value;
        if OverBudget(t) then s.(active := None, replies := s.replies + [Reply(id, t.read.path, true)])
        else if Overruns(t) then s
        else s.(active := None, completed := Some(FileRead(Assembled(t), t.metadata, t.read.path)),
                replies := s.replies + [Reply(id, t.read.path, false)])
  }

  function Next(s: Slot, e: Event): Slot {
    match e
    case StartRead(_, read) => s.(pending := Some(read))
    case FinishRead(_, failed) => s.(pending := None, active := None, completed := if failed then s.completed else None)
    case OnFrame(frame) => React(s, frame)
  }

  function Follow(s: Slot, run: seq<Event>): Slot
    decreases |run|
  {
    if run == [] then s else Follow(Next(s, run[0]), run[1..])
  }

  // ---------------------------------------------------------------------------------------------
  // The client's three maps

  datatype Reads = Reads(
    pending: map<string, PendingRead>, active: map<string, Transfer>, completed: map<string, FileRead>,
    replies: seq<Reply>)

  const NO_READS := Reads(map[], map[], map[], [])

  function Find<T>(m: map<string, T>, id: string): Option<T> {
    if id in m then Some(m[id]) else None
  }

  function RepliesTo(replies: seq<Reply>, id: string): seq<Reply> {
    if replies == [] then []
    else if replies[0].requestId == id then [replies[0]] + RepliesTo(replies[1..], id)
    else RepliesTo(replies[1..], id)
  }

  function At(r: Reads, id: string): Slot {
    Slot(Find(r.pending, id), Find(r.active, id), Find(r.completed, id), RepliesTo(r.replies, id))
  }

  function HandleFrame(r: Reads, frame: FileFrame): Reads {
    var id := frame.requestId;
    match frame
    case FileBegin(_, metadata) =>
      if id !in r.pending then r else r.(active := r.active[id := Transfer(r.pending[id], metadata, [])])
    case FileChunk(_, payload) =>
      if id !in r.active || OverBudget(r.active[id]) then r
      else r.(active := r.active[id := r.active[id].(chunks := r.active[id].chunks + [payload])])
    case FileEnd(_) =>
      if id !in r.active then r
      else
        var t := r.active[id];
        if OverBudget(t) then r.(active := r.active - {id}, replies := r.replies + [Reply(id, t.read.path, true)])
        else if Overruns(t) then r
        else r.(active := r.active - {id},
                completed := r.completed[id := FileRead(Assembled(t), t.metadata, t.read.path)],
                replies := r.replies + [Reply(id, t.read.path, false)])
  }

  function Step(r: Reads, e: Event): Reads {
    match e
    case StartRead(id, read) => r.(pending := r.pending[id := read])
    case FinishRead(id, failed) =>
      r.(pending := r.pending - {id}, active := r.active - {id},
         completed := if failed then r.completed else r.completed - {id})
    case OnFrame(frame) => HandleFrame(r, frame)
  }

  function Run(r: Reads, run: seq<Event>): Reads
    decreases |run|
  {
    if run == [] then r else Run(Step(r, run[0]), run[1..])
  }

  function About(run: seq<Event>, id: string): seq<Event> {
    if run == [] then []
    else if Target(run[0]) == id then [run[0]] + About(run[1..], id)
    else About(run[1..], id)
  }

  // ---------------------------------------------------------------------------------------------
  // Request ids do not disturb each other

  lemma {:induction false} RepliesToNext(replies: seq<Reply>, reply: Reply, id: string)
    ensures RepliesTo(replies + [reply], id) == RepliesTo(replies, id) + if reply.requestId == id then [reply] else []
  {
    if replies == [] {
      assert replies + [reply] == [reply] && [reply][1..] == [];
    } else {
      assert (replies + [reply])[1..] == replies[1..] + [reply];
      RepliesToNext(replies[1..], reply, id);
      assert [replies[0]] + (RepliesTo(replies[1..], id) + [reply])
             == [replies[0]] + RepliesTo(replies[1..], id) + [reply];
    }
  }

  lemma FinishedIsLocal(r: Reads, id: string, other: string)
    requires other in r.active
    ensures At(HandleFrame(r, FileEnd(other)), id) == if other == id then React(At(r, id), FileEnd(id)) else At(r, id)
  {
    hide RepliesTo;
    var t := r.active[other];
    RepliesToNext(r.replies, Reply(other, t.read.path, true), id);
    RepliesToNext(r.replies, Reply(other, t.read.path, false), id);
  }

  lemma StepIsLocal(r: Reads, e: Event, id: string)
    ensures At(Step(r, e), id) == if Target(e) == id then Next(At(r, id), e) else At(r, id)
  {
    hide RepliesTo;
    if e.OnFrame? && e.frame.FileEnd? && e.frame.requestId in r.active {
      FinishedIsLocal(r, id, e.frame.requestId);
    }
  }

  /** What a run leaves for one request id is what the steps about that id alone leave. */
  lemma {:induction false} RunIsLocal(r: Reads, run: seq<Event>, id: string)
    ensures At(Run(r, run), id) == Follow(At(r, id), About(run, id))
    decreases |run|
  {
    if run != [] {
      hide Step, Next, At;
      StepIsLocal(r, run[0], id);
      RunIsLocal(Step(r, run[0]), run[1..], id);
      if Target(run[0]) == id {
        assert About(run, id)[0] == run[0] && About(run, id)[1..] == About(run[1..], id);
      } else {
        assert About(run, id) == About(run[1..], id);
      }
    }
  }

  // ---------------------------------------------------------------------------------------------
  // Reassembly

  function Frames(frames: seq<FileFrame>): seq<Event> {
    seq(|frames|, i requires 0 <= i < |frames| => OnFrame(frames[i]))
  }

  lemma FollowSnoc(s: Slot, run: seq<Event>, e: Event)
    ensures Follow(s, run + [e]) == Next(Follow(s, run), e)
    decreases |run|
  {
    hide Next;
    if run == [] {
      assert run + [e] == [e];
      assert Follow(Next(s, e), [e][1..]) == Next(s, e);
    } else {
      assert (run + [e])[1..] == run[1..] + [e];
      FollowSnoc(Next(s, run[0]), run[1..], e);
    }
  }

  /** A slot with a transfer under way that holds `chunks`, or none of them when over budget. */
  function Collecting(s: Slot, metadata: Metadata, chunks: seq<seq<byte>>): Slot
    requires s.pending.Some?
  {
    var t := Transfer(s.pending.value, metadata, []);
    s.(active := Some(if OverBudget(t) then t else t.(chunks := chunks)))
  }

  lemma {:induction false} ChunksCollect(s: Slot, frames: seq<FileFrame>, id: string, n: nat)
    requires s.pending.Some? && IsTransfer(frames, id) && 1 <= n <= |frames| - 1
    ensures Follow(s, Frames(frames[..n])) == Collecting(s, frames[0].metadata, Payloads(frames)[..n - 1])
    decreases n
  {
    var before, last := frames[..n - 1], frames[n - 1];
    assert frames[..n] == before + [last];
    assert Frames(frames[..n]) == Frames(before) + [OnFrame(last)];
    FollowSnoc(s, Frames(before), OnFrame(last));
    if n == 1 {
      assert Frames(before) == [] && Follow(s, []) == s;
    } else {
      ChunksCollect(s, frames, id, n - 1);
      assert Payloads(frames)[..n - 1] == Payloads(frames)[..n - 2] + [last.payload];
    }
  }

  /** How a whole transfer ends, by budget and by the bytes sent against the size declared. */
  function Outcome(s: Slot, frames: seq<FileFrame>, id: string): Slot
    requires s.pending.Some? && IsTransfer(frames, id)
  {
    var read, metadata, sent := s.pending.value, frames[0].metadata, Joined(Payloads(frames));
    var t := Transfer(read, metadata, Payloads(frames));
    if OverBudget(t) then s.(active := None, replies := s.replies + [Reply(id, read.path, true)])
    else if |sent| > metadata.size then s.(active := Some(t))
    else s.(active := None, completed := Some(FileRead(sent + Zeros(metadata.size - |sent|), metadata, read.path)),
            replies := s.replies + [Reply(id, read.path, false)])
  }

  lemma TransferEnds(s: Slot, frames: seq<FileFrame>, id: string)
    requires s.pending.Some? && IsTransfer(frames, id)
    ensures Follow(s, Frames(frames)) == Outcome(s, frames, id)
  {
    var n := |frames| - 1;
    assert frames == frames[..n] + [FileEnd(id)];
    assert Frames(frames) == Frames(frames[..n]) + [OnFrame(FileEnd(id))];
    FollowSnoc(s, Frames(frames[..n]), OnFrame(FileEnd(id)));
    ChunksCollect(s, frames, id, n);
    assert Payloads(frames)[..n - 1] == Payloads(frames);
  }

  /** Whatever else happens in between, a transfer ends as its own frames say. */
  lemma AnyInterleaving(r: Reads, run: seq<Event>, frames: seq<FileFrame>, id: string)
    requires id in r.pending && IsTransfer(frames, id) && About(run, id) == Frames(frames)
    ensures At(Run(r, run), id) == Outcome(At(r, id), frames, id)
  {
    RunIsLocal(r, run, id);
    TransferEnds(At(r, id), frames, id);
  }

  /** A whole transfer is refused as too large iff a budget other than zero was set and the declared size exceeds it. */
  lemma RefusedForItsBudget(r: Reads, run: seq<Event>, frames: seq<FileFrame>, id: string)
    requires id in r.pending && IsTransfer(frames, id) && About(run, id) == Frames(frames)
    ensures var budget := r.pending[id].maxBytes;
            var before, after := RepliesTo(r.replies, id), RepliesTo(Run(r, run).replies, id);
            after == before + [Reply(id, r.pending[id].path, true)]
            <==> budget.Some? && budget.value != 0 && budget.value < frames[0].metadata.size
  {
    AnyInterleaving(r, run, frames, id);
    assert At(Run(r, run), id).replies == RepliesTo(Run(r, run).replies, id);
    var replies := RepliesTo(r.replies, id);
    var refused, delivered := Reply(id, r.pending[id].path, true), Reply(id, r.pending[id].path, false);
    assert (replies + [refused])[|replies|] != (replies + [delivered])[|replies|];
  }

  /** A file arrives as it was sent exactly if it is within budget and the declared size is its length. */
  lemma ArrivesAsSent(r: Reads, run: seq<Event>, frames: seq<FileFrame>, id: string)
    requires id in r.pending && id !in r.completed && IsTransfer(frames, id) && About(run, id) == Frames(frames)
    ensures var after, metadata, sent := Run(r, run), frames[0].metadata, Joined(Payloads(frames));
            (id in after.completed && after.completed[id].bytes == sent)
            <==> !OverBudget(Transfer(r.pending[id], metadata, [])) && |sent| == metadata.size
  {
    AnyInterleaving(r, run, frames, id);
    var after := Run(r, run);
    assert At(after, id).completed == Find(after.completed, id);
  }

  /** Reassembly inverts the upload loop, for every content, chunk size and interleaving. */
  method RoundTrip(r: Reads, id: string, mime: string, bytes: seq<byte>, chunkSize: nat)
    returns (frames: seq<FileFrame>)
    requires chunkSize >= 1 || bytes == []
    requires id in r.pending && !OverBudget(Transfer(r.pending[id], Metadata(mime, |bytes|), []))
    ensures forall run | About(run, id) == Frames(frames) ::
              && At(Run(r, run), id).completed == Some(FileRead(bytes, Metadata(mime, |bytes|), r.pending[id].path))
              && At(Run(r, run), id).active == None
              && At(Run(r, run), id).replies == At(r, id).replies + [Reply(id, r.pending[id].path, false)]
  {
    frames := UploadFile(id, mime, bytes, chunkSize);
    assert bytes + Zeros(0) == bytes;
    forall run | About(run, id) == Frames(frames)
      ensures At(Run(r, run), id) == Outcome(At(r, id), frames, id)
    {
      AnyInterleaving(r, run, frames, id);
    }
  }

  // ---------------------------------------------------------------------------------------------
  // What every run keeps

  /** Only reads under way have transfers, and a transfer over its budget holds no byte. */
  predicate Kept(r: Reads) {
    && r.active.Keys <= r.pending.Keys
    && forall id | id in r.active :: OverBudget(r.active[id]) ==> r.active[id].chunks == []
  }

  lemma {:induction false} RunKeeps(r: Reads, run: seq<Event>)
    requires Kept(r)
    ensures Kept(Run(r, run))
    decreases |run|
  {
    if run != [] {
      StepKeeps(r, run[0]);
      RunKeeps(Step(r, run[0]), run[1..]);
    }
  }

  lemma StepKeeps(r: Reads, e: Event)
    requires Kept(r)
    ensures Kept(Step(r, e))
  {
  }

  /** A read that starts is known by its id and budget; one that ends leaves nothing but, if it failed, a file that had
      arrived for it; and neither touches another read. */
  lemma {:induction false} ReadsComeAndGo(r: Reads, id: string, read: PendingRead, failed: bool, other: string)
    ensures var started, ended := Step(r, StartRead(id, read)), Step(r, FinishRead(id, failed));
            && At(started, id) == Slot(Some(read), At(r, id).active, At(r, id).completed, At(r, id).replies)
            && At(ended, id) == Slot(None, None, if failed then At(r, id).completed else None, At(r, id).replies)
            && (other != id ==> At(started, other) == At(r, other) == At(ended, other))
  {
    StepIsLocal(r, StartRead(id, read), other);
    StepIsLocal(r, FinishRead(id, failed), other);
  }

  /** Once a read is over, frames still arriving for it leave no trace. */
  lemma {:induction false} LateFramesAreIgnored(r: Reads, run: seq<Event>, id: string)
    requires Kept(r) && id !in r.pending
    requires forall k :: 0 <= k < |run| ==> run[k].OnFrame? || Target(run[k]) != id
    ensures At(Run(r, run), id) == At(r, id)
    decreases |run|
  {
    if run != [] {
      assert At(Step(r, run[0]), id) == At(r, id) by {
        StepIsLocal(r, run[0], id);
      }
      StepKeeps(r, run[0]);
      assert id !in Step(r, run[0]).pending by {
        assert At(Step(r, run[0]), id).pending == None;
      }
      LateFramesAreIgnored(Step(r, run[0]), run[1..], id);
    }
  }

  // ---------------------------------------------------------------------------------------------
  // The client's fields

  class BinaryFileReads {
    var pendingBinaryFileReads: map<string, PendingRead>
    var activeBinaryFileTransfers: map<string, Transfer>
    var completedBinaryFileReads: map<string, FileRead>
    var replies: seq<Reply>

    ghost function View(): Reads
      reads this
    {
      Reads(pendingBinaryFileReads, activeBinaryFileTransfers, completedBinaryFileReads, replies)
    }

    constructor ()
      ensures View() == NO_READS
    {
      pendingBinaryFileReads, activeBinaryFileTransfers, completedBinaryFileReads := map[], map[], map[];
      replies := [];
    }

    method BeginRead(requestId: string, read: PendingRead)
      modifies this
      ensures View() == Step(old(View()), StartRead(requestId, read))
    {
      pendingBinaryFileReads := pendingBinaryFileReads[requestId := read];
    }

    /** The answer to a read, taken once: afterwards nothing is held for it. */
    method EndRead(requestId: string, failed: bool) returns (file: Option<FileRead>)
      modifies this
      ensures View() == Step(old(View()), FinishRead(requestId, failed))
      ensures file == if failed then None else old(At(View(), requestId).completed)
    {
      file := None;
      if !failed {
        file := Find(completedBinaryFileReads, requestId);
        completedBinaryFileReads := completedBinaryFileReads - {requestId};
      }
      pendingBinaryFileReads := pendingBinaryFileReads - {requestId};
      activeBinaryFileTransfers := activeBinaryFileTransfers - {requestId};
    }

    /** `raised` is the RangeError of a transfer longer than its declared size. */
    method HandleFileTransferFrame(frame: FileFrame) returns (raised: bool)
      modifies this
      ensures View() == HandleFrame(old(View()), frame)
      ensures raised <==> frame.FileEnd? && frame.requestId in old(activeBinaryFileTransfers)
                          && var t := old(activeBinaryFileTransfers)[frame.requestId]; !OverBudget(t) && Overruns(t)
    {
      raised := false;
      var id := frame.requestId;
      if frame.FileBegin? {
        if id in pendingBinaryFileReads {
          var transfer := Transfer(pendingBinaryFileReads[id], frame.metadata, []);
          activeBinaryFileTransfers := activeBinaryFileTransfers[id := transfer];
        }
        return;
      }
      if id !in activeBinaryFileTransfers {
        return;
      }
      var transfer := activeBinaryFileTransfers[id];
      if frame.FileChunk? {
        if !OverBudget(transfer) {
          transfer := transfer.(chunks := transfer.chunks + [frame.payload]);
          activeBinaryFileTransfers := activeBinaryFileTransfers[id := transfer];
        }
        return;
      }
      if OverBudget(transfer) {
        activeBinaryFileTransfers := activeBinaryFileTransfers - {id};
        replies := replies + [Reply(id, transfer.read.path, true)];
        return;
      }
      var bytes := ConcatByteChunks(transfer.chunks, transfer.metadata.size);
      if bytes.None? {
        return true;
      }
      activeBinaryFileTransfers := activeBinaryFileTransfers - {id};
      var file := FileRead(bytes.value[..], transfer.metadata, transfer.read.path);
      completedBinaryFileReads := completedBinaryFileReads[id := file];
      replies := replies + [Reply(id, transfer.read.path, false)];
    }
  }
}
