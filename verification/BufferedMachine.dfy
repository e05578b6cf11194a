/** The buffered sink under concurrency: any number of threads that write records and
    call `flush`, on a stream that may fail for good at any byte. A record is appended
    in its parts, a buffer is written in chunks, cleared, and its locks are dropped one
    by one; what keeps records whole is the shard locks and the output lock. Lookup and
    snapshot of the shard registry are one step each, being done under its lock. */
module BufferedMachine {
  import opened Common
  import opened TextRecord

  /** One thread's buffer and the holder of its lock; `lines` is history: the whole
      lines appended since the buffer was last cleared. */
  datatype Shard = Shard(producer: nat, buffer: string, holder: Option<nat>, lines: seq<string>)

  /** A flush in progress: how many writes of every thread had returned when it began,
      the number of shards in its snapshot, the next of them, and the success so far. */
  datatype Flush = Flush(marks: seq<nat>, n: nat, j: nat, ok: bool)

  /** What follows `flush_shard`: the write returns, or the flush goes on. */
  datatype Then = Return | GoOn(f: Flush)

  datatype Pc =
    | Idle
    // write
    | Locate(e: Entry)
    | LockShard(e: Entry, k: nat)
    | Append(e: Entry, k: nat, next: nat)
    | Test(k: nat)
    // flush
    | Snapshot(marks: seq<nat>)
    | Visit(f: Flush)
    | Syncing(f: Flush)
    | Synced(f: Flush)
    | Flushed(marks: seq<nat>, healthy: bool, upTo: nat)
    // flush_shard and the release of the shard's lock
    | Check(k: nat, after: Then)
    | WantOut(k: nat, after: Then)
    | Output(k: nat, after: Then, done: nat, total: nat)
    | Cleared(k: nat, after: Then)
    | Unlock(k: nat, after: Then, ok: bool)

  /** A line that was written and cleared from its buffer, with its producer. */
  datatype Sent = Sent(producer: nat, line: string)

  datatype Sink = Sink(
    threshold: nat,
    device: Device,
    outHolder: Option<nat>,
    shards: seq<Shard>,
    threads: seq<Pc>,
    // history: the lines each thread has appended, its returned writes, the lines sent
    wrote: seq<seq<string>>,
    returned: seq<nat>,
    sent: seq<Sent>)

  function Start(threshold: nat, threads: nat, room: nat): Sink {
    Sink(threshold, Device("", false, room), None, [], seq(threads, i => Idle),
         seq(threads, i => []), seq(threads, i => 0), [])
  }

  /** What an idle thread calls next. */
  datatype Request = CallWrite(e: Entry) | CallFlush

  /** A step of thread i; `chunk` bounds what the stream takes at once, `breaks` lets
      the stream fail while it is flushed. */
  datatype Step = Step(i: nat, request: Request, chunk: nat, breaks: bool)

  function FindShard(shards: seq<Shard>, producer: nat): (k: nat)
    ensures k <= |shards| && (k < |shards| ==> shards[k].producer == producer)
    ensures forall j :: 0 <= j < k ==> shards[j].producer != producer
  {
    if |shards| == 0 || shards[0].producer == producer then 0 else 1 + FindShard(shards[1..], producer)
  }

  function Tag(i: nat, lines: seq<string>): (r: seq<Sent>)
    ensures |r| == |lines| && forall j :: 0 <= j < |lines| ==> r[j] == Sent(i, lines[j])
  {
    seq(|lines|, j requires 0 <= j < |lines| => Sent(i, lines[j]))
  }

  function SetPc(s: Sink, i: nat, pc: Pc): Sink
    requires i < |s.threads|
  {
    s.(threads := s.threads[i := pc])
  }

  function SetShard(s: Sink, k: nat, x: Shard): Sink
    requires k < |s.shards|
  {
    s.(shards := s.shards[k := x])
  }

  /** At most `n` characters of a text from a position on. */
  function Clip(text: string, from: nat, n: nat): string {
    text[Min(from, |text|)..Min(from + n, |text|)]
  }

  // --------------------------------------------------------------------- steps

  /** The shard a program counter works on, if any. */
  function ShardOf(pc: Pc): Option<nat> {
    match pc
    case LockShard(_, k) => Some(k)
    case Append(_, k, _) => Some(k)
    case Test(k) => Some(k)
    case Check(k, _) => Some(k)
    case WantOut(k, _) => Some(k)
    case Output(k, _, _, _) => Some(k)
    case Cleared(k, _) => Some(k)
    case Unlock(k, _, _) => Some(k)
    case _ => None
  }

  predicate Enabled(s: Sink, a: Step) {
    && a.i < |s.threads| && a.i < |s.wrote| && a.i < |s.returned|
    && var pc := s.threads[a.i];
       && (ShardOf(pc).Some? ==> ShardOf(pc).value < |s.shards|)
       && match pc
          case LockShard(_, k) => s.shards[k].holder == None
          case Visit(f) => if f.j < f.n then f.j < |s.shards| && s.shards[f.j].holder == None else s.outHolder == None
          case WantOut(_, _) => s.outHolder == None
          case _ => true
  }

  /** The next part of the record goes into the buffer. */
  function AppendPart(s: Sink, i: nat, e: Entry, k: nat, next: nat): Sink
    requires i < |s.threads| && i < |s.wrote| && k < |s.shards|
  {
    if next >= |Parts(e)| then SetPc(s, i, Test(k))
    else
      var x := s.shards[k];
      var y := x.(buffer := x.buffer + Parts(e)[next]);
      if next + 1 < |Parts(e)| then SetPc(SetShard(s, k, y), i, Append(e, k, next + 1))
      else
        SetPc(SetShard(s, k, y.(lines := x.lines + [Line(e)])), i, Test(k)).(
          wrote := s.wrote[i := s.wrote[i] + [Line(e)]])
  }

  /** The stream takes a further chunk of the buffer ... */
  function WriteChunk(s: Sink, i: nat, k: nat, after: Then, done: nat, total: nat, chunk: nat): Sink
    requires i < |s.threads| && k < |s.shards| && done < total
  {
    var n := Min(chunk, total - done);
    SetPc(s, i, Output(k, after, done + n, total)).(device := Accept(s.device, Clip(s.shards[k].buffer, done, n)))
  }

  /** ... and when all of it has been offered the buffer is cleared. */
  function ClearBuffer(s: Sink, i: nat, k: nat, after: Then): Sink
    requires i < |s.threads| && k < |s.shards|
  {
    var x := s.shards[k];
    SetPc(SetShard(s, k, x.(buffer := "", lines := [])), i, Cleared(k, after)).(
      sent := s.sent + Tag(x.producer, x.lines))
  }

  function Release(s: Sink, i: nat, k: nat, after: Then, ok: bool): Sink
    requires i < |s.threads| && i < |s.returned| && k < |s.shards|
  {
    var t := SetShard(s, k, s.shards[k].(holder := None));
    match after
    case Return => SetPc(t, i, Idle).(returned := s.returned[i := s.returned[i] + 1])
    case GoOn(f) => SetPc(t, i, Visit(f.(j := f.j + 1, ok := ok && f.ok)))
  }

  function Next(s: Sink, a: Step): Sink
    requires Enabled(s, a)
  {
    var i := a.i;
    match s.threads[i]
    case Idle =>
      SetPc(s, i, match a.request case CallWrite(e) => Locate(e) case CallFlush => Snapshot(s.returned))
    case Locate(e) =>
      var k := FindShard(s.shards, i);
      SetPc(if k < |s.shards| then s else s.(shards := s.shards + [Shard(i, "", None, [])]), i, LockShard(e, k))
    case LockShard(e, k) => SetPc(SetShard(s, k, s.shards[k].(holder := Some(i))), i, Append(e, k, 0))
    case Append(e, k, next) => AppendPart(s, i, e, k, next)
    case Test(k) =>
      SetPc(s, i, if |s.shards[k].buffer| < s.threshold then Unlock(k, Return, true) else Check(k, Return))
    case Check(k, after) =>
      SetPc(s, i, if s.shards[k].buffer == "" then Unlock(k, after, true) else WantOut(k, after))
    case WantOut(k, after) =>
      SetPc(s, i, Output(k, after, 0, |s.shards[k].buffer|)).(outHolder := Some(i))
    case Output(k, after, done, total) =>
      if done < total then WriteChunk(s, i, k, after, done, total, a.chunk) else ClearBuffer(s, i, k, after)
    case Cleared(k, after) => SetPc(s, i, Unlock(k, after, !s.device.failed)).(outHolder := None)
    case Unlock(k, after, ok) => Release(s, i, k, after, ok)
    case Snapshot(marks) => SetPc(s, i, Visit(Flush(marks, |s.shards|, 0, true)))
    case Visit(f) =>
      if f.j < f.n then SetPc(SetShard(s, f.j, s.shards[f.j].(holder := Some(i))), i, Check(f.j, GoOn(f)))
      else SetPc(s, i, Syncing(f)).(outHolder := Some(i))
    case Syncing(f) => SetPc(s, i, Synced(f)).(device := Break(s.device, a.breaks))
    case Synced(f) => SetPc(s, i, Flushed(f.marks, !s.device.failed && f.ok, |s.sent|)).(outHolder := None)
    case Flushed(_, _, _) => SetPc(s, i, Idle)
  }

  ghost predicate Leads(s: Sink, acts: seq<Step>, t: Sink)
    decreases |acts|
  {
    if |acts| == 0 then s == t else Enabled(s, acts[0]) && Leads(Next(s, acts[0]), acts[1..], t)
  }

  // ----------------------------------------------------------------- invariant

  predicate HoldsShard(pc: Pc, k: nat) { ShardOf(pc) == Some(k) && !pc.LockShard? }

  predicate HoldsOut(pc: Pc) { pc.Output? || pc.Cleared? || pc.Syncing? || pc.Synced? }

  /** A lock is held by exactly the thread that is inside its critical section. */
  ghost predicate LocksOk(s: Sink) {
    && (forall i, k | 0 <= i < |s.threads| && 0 <= k < |s.shards| ::
          HoldsShard(s.threads[i], k) <==> s.shards[k].holder == Some(i))
    && (forall i | 0 <= i < |s.threads| :: HoldsOut(s.threads[i]) <==> s.outHolder == Some(i))
  }

  /** One shard per producer. */
  ghost predicate ShardsOk(s: Sink) {
    && (forall j, k :: 0 <= j < k < |s.shards| ==> s.shards[j].producer != s.shards[k].producer)
    && forall k :: 0 <= k < |s.shards| ==> s.shards[k].producer < |s.threads|
  }

  /** The part of a record that a thread has appended so far to shard k. */
  function PartOf(pc: Pc, k: nat): string {
    if pc.Append? && pc.k == k && pc.next <= |Parts(pc.e)| then Flatten(Parts(pc.e)[..pc.next]) else ""
  }

  function Partial(s: Sink, k: nat): string
    requires k < |s.shards|
  {
    var h := s.shards[k].holder;
    if h.Some? && h.value < |s.threads| then PartOf(s.threads[h.value], k) else ""
  }

  /** A buffer is whole lines and at most the start of the record being appended by
      the holder of its lock; unlocked it is below the threshold. */
  ghost predicate BufferOk(s: Sink, k: nat)
    requires k < |s.shards|
  {
    && s.shards[k].buffer == Flatten(s.shards[k].lines) + Partial(s, k)
    && (forall l | l in s.shards[k].lines :: l != "")
    && (s.shards[k].holder == None ==> |s.shards[k].buffer| < s.threshold)
  }

  ghost predicate BuffersOk(s: Sink) {
    forall k: nat :: k < |s.shards| ==> BufferOk(s, k)
  }

  /** The lines of one producer, in order. */
  function Of(sent: seq<Sent>, i: nat): seq<string> {
    if |sent| == 0 then []
    else Of(sent[..|sent| - 1], i) +
         if sent[|sent| - 1].producer == i then [sent[|sent| - 1].line] else []
  }

  function Lines(sent: seq<Sent>): (r: seq<string>)
    ensures |r| == |sent| && forall j :: 0 <= j < |sent| ==> r[j] == sent[j].line
  {
    seq(|sent|, j requires 0 <= j < |sent| => sent[j].line)
  }

  function Held(shards: seq<Shard>, i: nat): seq<string> {
    var k := FindShard(shards, i);
    if k < |shards| then shards[k].lines else []
  }

  /** The lines cleared from a thread's buffer, followed by those in it, are all it wrote. */
  ghost predicate HistoryOk(s: Sink) {
    && |s.wrote| == |s.returned| == |s.threads|
    && (forall i: nat :: i < |s.wrote| ==> Of(s.sent, i) + Held(s.shards, i) == s.wrote[i])
    && (forall i: nat :: i < |s.wrote| ==> s.returned[i] <= |s.wrote[i]|)
    && (forall i: nat :: i < |s.wrote| && s.returned[i] > 0 ==> FindShard(s.shards, i) < |s.shards|)
  }

  /** What a thread has offered to the stream of the buffer it is writing. */
  function OfferOf(pc: Pc, shards: seq<Shard>): string {
    if pc.Output? && pc.k < |shards| then Clip(shards[pc.k].buffer, 0, pc.done) else ""
  }

  function InFlight(s: Sink): string {
    if s.outHolder.Some? && s.outHolder.value < |s.threads| then OfferOf(s.threads[s.outHolder.value], s.shards)
    else ""
  }

  /** All that was ever offered to the stream: whole lines, and then at most the start
      of the buffer that the holder of the output lock is writing. */
  function Offered(s: Sink): string { Flatten(Lines(s.sent)) + InFlight(s) }

  ghost predicate StreamOk(s: Sink) {
    && s.device.bytes <= Offered(s)
    && (!s.device.failed ==> s.device.bytes == Offered(s))
  }

  ghost predicate MarksMet(s: Sink, marks: seq<nat>, j: nat, n: nat) {
    && |marks| == |s.wrote|
    && forall i: nat :: i < |marks| ==>
         && (FindShard(s.shards, i) < j ==> marks[i] <= |Of(s.sent, i)|)
         && (FindShard(s.shards, i) >= n ==> marks[i] == 0)
         && marks[i] <= |s.wrote[i]|
  }

  /** A flush that reports health: all lines sent up to its end are on the stream,
      among them every record whose write had returned when it began. */
  ghost predicate Delivered(s: Sink, marks: seq<nat>, healthy: bool, upTo: nat) {
    && upTo <= |s.sent| && |marks| == |s.wrote|
    && (forall i: nat :: i < |marks| ==> marks[i] <= |Of(s.sent[..upTo], i)|)
    && (healthy ==> Flatten(Lines(s.sent[..upTo])) <= s.device.bytes)
  }

  ghost predicate FlushOk(s: Sink, f: Flush, j: nat) {
    j <= f.n <= |s.shards| && MarksMet(s, f.marks, j, f.n)
  }

  /** Inside `flush_shard` on shard k, which is emptied or not yet. */
  ghost predicate AfterOk(s: Sink, i: nat, k: nat, after: Then, emptied: bool)
    requires i < |s.wrote| && i < |s.returned| && k < |s.shards|
  {
    match after
    case Return => s.shards[k].producer == i && s.returned[i] < |s.wrote[i]|
    case GoOn(f) => f.j == k < f.n && FlushOk(s, f, if emptied then k + 1 else k)
  }

  ghost predicate ThreadOk(s: Sink, i: nat)
    requires i < |s.threads| && i < |s.wrote| && i < |s.returned|
  {
    var pc := s.threads[i];
    && (ShardOf(pc).Some? ==> ShardOf(pc).value < |s.shards|)
    && match pc
       case LockShard(_, k) => s.shards[k].producer == i
       case Append(e, k, next) => s.shards[k].producer == i && next < |Parts(e)|
       case Test(k) => s.shards[k].producer == i && s.returned[i] < |s.wrote[i]|
       case Snapshot(marks) => MarksMet(s, marks, 0, |s.shards|)
       case Visit(f) => FlushOk(s, f, f.j)
       case Syncing(f) => f.j == f.n && FlushOk(s, f, f.n)
       case Synced(f) => f.j == f.n && FlushOk(s, f, f.n)
       case Flushed(marks, healthy, upTo) => Delivered(s, marks, healthy, upTo)
       case Check(k, after) => AfterOk(s, i, k, after, false)
       case WantOut(k, after) => AfterOk(s, i, k, after, false)
       case Output(k, after, done, total) =>
         AfterOk(s, i, k, after, false) && done <= total == |s.shards[k].buffer|
       case Cleared(k, after) => AfterOk(s, i, k, after, true) && s.shards[k].buffer == ""
       case Unlock(k, after, _) => AfterOk(s, i, k, after, true) && |s.shards[k].buffer| < s.threshold
       case _ => true
  }

  ghost predicate ThreadsOk(s: Sink)
    requires |s.wrote| == |s.returned| == |s.threads|
  {
    forall i: nat :: i < |s.threads| ==> ThreadOk(s, i)
  }

  ghost predicate Inv(s: Sink) {
    && s.threshold > 0
    && LocksOk(s) && ShardsOk(s) && BuffersOk(s) && HistoryOk(s) && StreamOk(s) && ThreadsOk(s)
  }

  lemma StartInv(threshold: nat, threads: nat, room: nat)
    requires threshold > 0
    ensures Inv(Start(threshold, threads, room))
  {
  }
}
