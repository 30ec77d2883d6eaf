/** The discardable response writer of internal/proxy/fallback.go.

    A dispatch attempt writes through a `PreludeBuffer`.  Until the attempt seals
    its prelude and then writes a body byte, everything stays in the buffer and can
    be thrown away; the first body write after the seal commits, and from then on
    every call passes through to the client.

    `Sink` is the whole observable state as a value, and `Step` is one call on it.
    The classes at the end update that state in place; each of their methods is
    proved to do exactly one `Step`.  What a script of calls shows the client is
    stated independently, by `ClientEvents`, which knows nothing of the machine. */
module PreludeBuffer {

  newtype byte = x: int | 0 <= x < 256

  type Bytes = seq<byte>
  type Headers = map<string, seq<string>>

  // What reaches the client connection, in order.
  datatype Event =
    | Status(code: int)
    | Body(data: Bytes)
    | Flushed

  // One call an attempt makes on the buffer.  The two flags of `Write` are the
  // fate of the (up to two) body writes that call makes on the client connection:
  // the buffered prelude, and the data itself.  A refused write delivers nothing.
  datatype Op =
    | Write(data: Bytes, preludeAccepted: bool, accepted: bool)
    | WriteHeader(status: int)
    | Flush
    | Seal
    | SetHeader(key: string, values: seq<string>)
    | DelHeader(name: string)

  type Script = seq<Op>

  // ---------------------------------------------------------------- state ----

  datatype Sink = Sink(
    headers: Headers,        // the live header map of the client writer
    trace: seq<Event>,       // what has reached the client
    snapshot: Headers,       // the headers as they were when the buffer was built
    status: int,             // 0 means "none buffered"
    body: Bytes,
    sealed: bool,
    committed: bool,
    canFlush: bool)          // whether the client writer is an http.Flusher

  function Deliver(accepted: bool, data: Bytes): seq<Event> {
    if accepted then [Body(data)] else []
  }

  function StatusLine(status: int): seq<Event> {
    if status != 0 then [Status(status)] else []
  }

  function FlushMark(canFlush: bool): seq<Event> {
    if canFlush then [Flushed] else []
  }

  // commit(): the buffered status and prelude go out.  A refused prelude ends the
  // commit early, with the buffer already committed.
  function Commit(s: Sink, preludeAccepted: bool): Sink
    requires !s.committed
  {
    var head := s.trace + StatusLine(s.status);
    if s.body != [] && !preludeAccepted then
      s.(committed := true, trace := head)
    else
      s.(committed := true, body := [],
         trace := head + (if s.body != [] then [Body(s.body)] else []) + FlushMark(s.canFlush))
  }

  function Step(s: Sink, op: Op): Sink {
    match op
    case Write(data, preludeAccepted, accepted) =>
      if s.committed then s.(trace := s.trace + Deliver(accepted, data))
      else if s.sealed then
        var c := Commit(s, preludeAccepted);
        if s.body != [] && !preludeAccepted then c
        else c.(trace := c.trace + Deliver(accepted, data))
      else s.(body := s.body + data)
    case WriteHeader(status) =>
      if s.committed then s.(trace := s.trace + [Status(status)]) else s.(status := status)
    case Flush =>
      if s.committed then s.(trace := s.trace + FlushMark(s.canFlush)) else s
    case Seal => s.(sealed := true)
    case SetHeader(key, values) => s.(headers := s.headers[key := values])
    case DelHeader(name) => s.(headers := s.headers - {name})
  }

  function Execute(s: Sink, script: Script): Sink
    decreases |script|
  {
    if script == [] then s else Execute(Step(s, script[0]), script[1..])
  }

  function Discard(s: Sink): Sink {
    if s.committed then s
    else s.(status := 0, body := [], sealed := false, headers := s.snapshot)
  }

  // Nothing buffered and nothing sent: the state an attempt may start from.
  predicate Ready(s: Sink) {
    s.status == 0 && s.body == [] && !s.sealed && !s.committed
  }

  // ------------------------------------------- what a script shows a client --

  // Position i is where the script commits: a body write with a seal before it.
  predicate CommitsAt(script: Script, i: int) {
    && 0 <= i < |script|
    && script[i].Write?
    && exists j | 0 <= j < i :: script[j].Seal?
  }

  function CommitPoint(script: Script, from: nat): (c: nat)
    requires from <= |script|
    ensures from <= c <= |script|
    ensures c < |script| ==> CommitsAt(script, c)
    ensures forall i | from <= i < c :: !CommitsAt(script, i)
    decreases |script| - from
  {
    if from == |script| || CommitsAt(script, from) then from else CommitPoint(script, from + 1)
  }

  predicate Commits(script: Script) {
    exists i | 0 <= i < |script| :: CommitsAt(script, i)
  }

  function BodyOf(script: Script): Bytes {
    if script == [] then []
    else (if script[0].Write? then script[0].data else []) + BodyOf(script[1..])
  }

  function LastStatus(script: Script): int {
    if script == [] then 0
    else if script[|script| - 1].WriteHeader? then script[|script| - 1].status
    else LastStatus(script[..|script| - 1])
  }

  // The calls of a script as the client sees them once nothing is buffered.
  function PassThrough(script: Script, canFlush: bool): seq<Event> {
    if script == [] then []
    else
      (match script[0]
       case Write(data, _, accepted) => if accepted then [Body(data)] else []
       case WriteHeader(status) => [Status(status)]
       case Flush => if canFlush then [Flushed] else []
       case _ => []) + PassThrough(script[1..], canFlush)
  }

  // The first things a committing attempt shows: the last status set before the
  // commit point, the body written before it, a flush, and the write that commits.
  function Opening(status: int, prelude: Bytes, op: Op, canFlush: bool): seq<Event>
    requires op.Write?
  {
    var head := if status == 0 then [] else [Status(status)];
    var flush := if canFlush then [Flushed] else [];
    var body := if op.accepted then [Body(op.data)] else [];
    if prelude == [] then head + flush + body
    else if op.preludeAccepted then head + [Body(prelude)] + flush + body
    else head
  }

  // What the client sees of a whole attempt: nothing unless it commits; otherwise
  // its opening, and then the remaining calls as they are made.
  function ClientEvents(script: Script, canFlush: bool): seq<Event> {
    var c := CommitPoint(script, 0);
    if c == |script| then []
    else
      Opening(LastStatus(script[..c]), BodyOf(script[..c]), script[c], canFlush)
      + PassThrough(script[c + 1..], canFlush)
  }

  // The header map after a script's own header calls.
  function ApplyHeaders(h: Headers, script: Script): Headers
    decreases |script|
  {
    if script == [] then h
    else
      ApplyHeaders(match script[0]
                   case SetHeader(key, values) => h[key := values]
                   case DelHeader(name) => h - {name}
                   case _ => h,
                   script[1..])
  }

  function BytesSeen(events: seq<Event>): Bytes {
    if events == [] then []
    else (if events[0].Body? then events[0].data else []) + BytesSeen(events[1..])
  }

  predicate AllAccepted(script: Script) {
    forall op | op in script && op.Write? :: op.preludeAccepted && op.accepted
  }

  // --------------------------------------------------------------- lemmas ----

  lemma {:induction false} ExecuteConcat(s: Sink, a: Script, b: Script)
    ensures Execute(s, a + b) == Execute(Execute(s, a), b)
    decreases |a|
  {
    if a == [] {
      assert a + b == b;
    } else {
      assert (a + b)[1..] == a[1..] + b;
      ExecuteConcat(Step(s, a[0]), a[1..], b);
    }
  }

  // Headers are written straight through, whatever the buffer does with the rest.
  lemma {:induction false} ExecuteHeaders(s: Sink, script: Script)
    ensures Execute(s, script).headers == ApplyHeaders(s.headers, script)
    ensures Execute(s, script).snapshot == s.snapshot
    ensures Execute(s, script).canFlush == s.canFlush
    decreases |script|
  {
    if script != [] {
      ExecuteHeaders(Step(s, script[0]), script[1..]);
    }
  }

  lemma {:induction false} ExecuteCommitted(s: Sink, script: Script)
    requires s.committed
    ensures Execute(s, script).committed
    ensures Execute(s, script).trace == s.trace + PassThrough(script, s.canFlush)
    decreases |script|
  {
    if script != [] {
      ExecuteCommitted(Step(s, script[0]), script[1..]);
    }
  }

  lemma {:induction false} BodyOfConcat(a: Script, b: Script)
    ensures BodyOf(a + b) == BodyOf(a) + BodyOf(b)
    decreases |a|
  {
    if a == [] {
      assert a + b == b;
    } else {
      assert (a + b)[1..] == a[1..] + b;
      BodyOfConcat(a[1..], b);
    }
  }

  lemma PrefixCommits(script: Script, n: nat, i: int)
    requires n <= |script|
    ensures CommitsAt(script[..n], i) <==> i < n && CommitsAt(script, i)
  {
    if i < n && CommitsAt(script, i) {
      var j :| 0 <= j < i && script[j].Seal?;
      assert script[..n][j].Seal?;
    }
  }

  // As long as a script does not commit, everything it does stays in the buffer.
  lemma {:induction false} ExecuteBuffered(s: Sink, script: Script)
    requires Ready(s)
    requires !Commits(script)
    ensures var e := Execute(s, script);
            && !e.committed
            && e.trace == s.trace
            && e.body == BodyOf(script)
            && e.status == LastStatus(script)
            && (e.sealed <==> exists j | 0 <= j < |script| :: script[j].Seal?)
    decreases |script|
  {
    if script != [] {
      var n := |script| - 1;
      var front, last := script[..n], script[n];
      assert script == front + [last];
      forall i ensures !CommitsAt(front, i) { PrefixCommits(script, n, i); }
      ExecuteBuffered(s, front);
      ExecuteConcat(s, front, [last]);
      BodyOfConcat(front, [last]);
      var mid := Execute(s, front);
      assert Execute(s, script) == Step(mid, last);
      assert BodyOf([last]) == if last.Write? then last.data else [];
      if last.Write? && mid.sealed {
        assert CommitsAt(script, n);
      }
    }
  }

  lemma CommittingWrite(s: Sink, op: Op)
    requires op.Write? && s.sealed && !s.committed
    ensures Step(s, op).committed && Step(s, op).canFlush == s.canFlush
    ensures Step(s, op).trace == s.trace + Opening(s.status, s.body, op, s.canFlush)
  {
    var t, h, f, d := s.trace, StatusLine(s.status), FlushMark(s.canFlush), Deliver(op.accepted, op.data);
    assert Opening(s.status, s.body, op, s.canFlush)
        == if s.body == [] then h + f + d else if op.preludeAccepted then h + [Body(s.body)] + f + d else h;
    hide Deliver, StatusLine, FlushMark, Opening;
    if s.body == [] {
      assert t + h + [] + f + d == t + (h + f + d);
    } else if op.preludeAccepted {
      assert t + h + [Body(s.body)] + f + d == t + (h + [Body(s.body)] + f + d);
    }
  }

  /** The buffer machine shows the client exactly `ClientEvents`: nothing at all
      unless the script commits, and then its last pre-commit status, its prelude
      and its later calls, in order. */
  lemma ExecuteShows(s: Sink, script: Script)
    requires Ready(s)
    ensures Execute(s, script).trace == s.trace + ClientEvents(script, s.canFlush)
    ensures Execute(s, script).committed <==> Commits(script)
  {
    var c := CommitPoint(script, 0);
    if c == |script| {
      ExecuteBuffered(s, script);
    } else {
      ExecuteCommits(s, script, c);
      assert CommitsAt(script, c);
    }
  }

  lemma ExecuteSplit(s: Sink, script: Script, c: nat)
    requires c < |script|
    ensures Execute(s, script) == Execute(Step(Execute(s, script[..c]), script[c]), script[c + 1..])
  {
    assert script == script[..c] + script[c..];
    ExecuteConcat(s, script[..c], script[c..]);
    assert script[c..][1..] == script[c + 1..];
  }

  lemma PrefixBuffered(s: Sink, script: Script, c: nat)
    requires Ready(s)
    requires CommitsAt(script, c) && forall i | 0 <= i < c :: !CommitsAt(script, i)
    ensures var mid := Execute(s, script[..c]);
            && !mid.committed && mid.sealed
            && mid.trace == s.trace && mid.canFlush == s.canFlush
            && mid.body == BodyOf(script[..c]) && mid.status == LastStatus(script[..c])
  {
    var pre := script[..c];
    forall i ensures !CommitsAt(pre, i) { PrefixCommits(script, c, i); }
    ExecuteBuffered(s, pre);
    ExecuteHeaders(s, pre);
    var j :| 0 <= j < c && script[j].Seal?;
    assert pre[j].Seal?;
  }

  lemma {:induction false} ExecuteCommits(s: Sink, script: Script, c: nat)
    requires Ready(s)
    requires CommitsAt(script, c) && forall i | 0 <= i < c :: !CommitsAt(script, i)
    ensures Execute(s, script).committed
    ensures Execute(s, script).trace
         == s.trace + (Opening(LastStatus(script[..c]), BodyOf(script[..c]), script[c], s.canFlush)
                       + PassThrough(script[c + 1..], s.canFlush))
  {
    PrefixBuffered(s, script, c);
    ExecuteSplit(s, script, c);
    var mid := Execute(s, script[..c]);
    CommittingWrite(mid, script[c]);
    var after := Step(mid, script[c]);
    ExecuteCommitted(after, script[c + 1..]);
    var o, r := Opening(mid.status, mid.body, script[c], s.canFlush), PassThrough(script[c + 1..], s.canFlush);
    assert Execute(s, script).trace == (s.trace + o) + r;
    assert (s.trace + o) + r == s.trace + (o + r);
  }

  lemma {:induction false} BytesSeenConcat(a: seq<Event>, b: seq<Event>)
    ensures BytesSeen(a + b) == BytesSeen(a) + BytesSeen(b)
    decreases |a|
  {
    if a == [] {
      assert a + b == b;
    } else {
      assert (a + b)[1..] == a[1..] + b;
      BytesSeenConcat(a[1..], b);
    }
  }

  lemma {:induction false} PassThroughBytes(script: Script, canFlush: bool)
    requires AllAccepted(script)
    ensures BytesSeen(PassThrough(script, canFlush)) == BodyOf(script)
    decreases |script|
  {
    if script != [] {
      PassThroughBytes(script[1..], canFlush);
      assert script[0] in script;
      var all, rest := PassThrough(script, canFlush), PassThrough(script[1..], canFlush);
      var here := all[..|all| - |rest|];
      assert all == here + rest;
      BytesSeenConcat(here, rest);
      assert BytesSeen(here) == if script[0].Write? then script[0].data else [];
    }
  }

  lemma BytesSeenOne(e: Event)
    ensures BytesSeen([e]) == if e.Body? then e.data else []
  {
  }

  lemma {:induction false} OpeningBytes(status: int, prelude: Bytes, op: Op, canFlush: bool)
    requires op.Write? && op.preludeAccepted && op.accepted
    ensures BytesSeen(Opening(status, prelude, op, canFlush)) == prelude + op.data
  {
    var a := StatusLine(status);
    var b := if prelude == [] then [] else [Body(prelude)];
    var c := FlushMark(canFlush);
    var d := [Body(op.data)];
    BytesSeenOne(Status(status));
    BytesSeenOne(Body(prelude));
    BytesSeenOne(Flushed);
    BytesSeenOne(Body(op.data));
    BytesSeenConcat(a, b);
    BytesSeenConcat(a + b, c);
    BytesSeenConcat(a + b + c, d);
    assert Opening(status, prelude, op, canFlush) == a + b + c + d;
  }

  lemma BodySplit(script: Script, c: nat)
    requires c < |script| && script[c].Write?
    ensures BodyOf(script) == BodyOf(script[..c]) + (script[c].data + BodyOf(script[c + 1..]))
  {
    assert script == script[..c] + script[c..];
    BodyOfConcat(script[..c], script[c..]);
    assert script[c..][1..] == script[c + 1..];
  }

  lemma SeenSum(a: seq<Event>, b: seq<Event>, x: Bytes, y: Bytes)
    requires BytesSeen(a) == x && BytesSeen(b) == y
    ensures BytesSeen(a + b) == x + y
  {
    BytesSeenConcat(a, b);
  }

  lemma {:induction false} CommittedBytes(script: Script, c: nat, canFlush: bool)
    requires AllAccepted(script)
    requires c < |script| && script[c].Write?
    ensures BytesSeen(Opening(LastStatus(script[..c]), BodyOf(script[..c]), script[c], canFlush)
                      + PassThrough(script[c + 1..], canFlush))
         == BodyOf(script)
  {
    var op, post := script[c], script[c + 1..];
    var status, prelude := LastStatus(script[..c]), BodyOf(script[..c]);
    assert BytesSeen(Opening(status, prelude, op, canFlush)) == prelude + op.data by {
      assert op in script;
      OpeningBytes(status, prelude, op, canFlush);
    }
    assert BytesSeen(PassThrough(post, canFlush)) == BodyOf(post) by {
      forall x | x in post && x.Write? ensures x.preludeAccepted && x.accepted { assert x in script; }
      PassThroughBytes(post, canFlush);
    }
    SeenSum(Opening(status, prelude, op, canFlush), PassThrough(post, canFlush), prelude + op.data, BodyOf(post));
    BodySplit(script, c);
    assert (prelude + op.data) + BodyOf(post) == prelude + (op.data + BodyOf(post));
  }

  /** With a client that accepts its writes, the bytes it sees of a committing
      script are every byte the script wrote, prelude first, in order; a script that
      does not commit shows none. */
  lemma {:induction false} ClientBytes(script: Script, canFlush: bool)
    requires AllAccepted(script)
    ensures BytesSeen(ClientEvents(script, canFlush)) == if Commits(script) then BodyOf(script) else []
  {
    hide Opening, PassThrough, BytesSeen, BodyOf, LastStatus, AllAccepted;
    var c := CommitPoint(script, 0);
    if c < |script| {
      CommittedBytes(script, c, canFlush);
      assert CommitsAt(script, c);
    } else {
      NothingSeen();
    }
  }

  lemma NothingSeen()
    ensures BytesSeen([]) == []
  { }

  lemma DiscardReady(s: Sink)
    requires !s.committed
    ensures Ready(Discard(s)) && Discard(s).trace == s.trace && Discard(s).headers == s.snapshot
    ensures Discard(Discard(s)) == Discard(s)
  {
  }

  // -------------------------------------------------------------- classes ----

  // The client connection: an http.ResponseWriter with a live header map.
  class ResponseWriter {
    const canFlush: bool
    var headers: Headers
    var trace: seq<Event>

    constructor (headers: Headers, canFlush: bool)
      ensures this.headers == headers && this.canFlush == canFlush && trace == []
    {
      this.headers, this.canFlush, trace := headers, canFlush, [];
    }

    method Write(data: Bytes, accepted: bool)
      modifies this
      ensures headers == old(headers) && trace == old(trace) + Deliver(accepted, data)
    {
      if accepted {
        trace := trace + [Body(data)];
      }
    }

    method WriteHeader(status: int)
      modifies this
      ensures headers == old(headers) && trace == old(trace) + [Status(status)]
    {
      trace := trace + [Status(status)];
    }

    method Flush()
      modifies this
      ensures headers == old(headers) && trace == old(trace) + FlushMark(canFlush)
    {
      if canFlush {
        trace := trace + [Flushed];
      }
    }
  }

  class Buffer {
    const inner: ResponseWriter
    const initialHeaders: Headers
    var bufStatus: int
    var bufBody: Bytes
    var sealed: bool
    var committed: bool

    ghost function View(): Sink
      reads this, inner
    {
      Sink(inner.headers, inner.trace, initialHeaders, bufStatus, bufBody, sealed, committed, inner.canFlush)
    }

    constructor (w: ResponseWriter)
      ensures inner == w
      ensures View() == Sink(w.headers, w.trace, w.headers, 0, [], false, false, w.canFlush)
    {
      inner, initialHeaders := w, w.headers;
      bufStatus, bufBody, sealed, committed := 0, [], false, false;
    }

    method Write(data: Bytes, preludeAccepted: bool, accepted: bool)
      modifies this, inner
      ensures View() == Step(old(View()), Op.Write(data, preludeAccepted, accepted))
    {
      if committed {
        inner.Write(data, accepted);
      } else if sealed {
        var ok := CommitPrelude(preludeAccepted);
        if ok {
          inner.Write(data, accepted);
        }
      } else {
        bufBody := bufBody + data;
      }
    }

    method WriteHeader(status: int)
      modifies this, inner
      ensures View() == Step(old(View()), Op.WriteHeader(status))
    {
      if committed {
        inner.WriteHeader(status);
        return;
      }
      bufStatus := status;
    }

    method Flush()
      modifies inner
      ensures View() == Step(old(View()), Op.Flush)
    {
      if committed {
        inner.Flush();
      }
    }

    method Seal()
      modifies this
      ensures View() == Step(old(View()), Op.Seal)
    {
      sealed := true;
    }

    method DiscardBuffered()
      modifies this, inner
      ensures View() == Discard(old(View()))
    {
      if committed {
        return;
      }
      bufStatus, bufBody, sealed := 0, [], false;
      inner.headers := initialHeaders;
    }

    method CommitPrelude(preludeAccepted: bool) returns (ok: bool)
      requires !committed
      modifies this, inner
      ensures View() == Commit(old(View()), preludeAccepted)
      ensures ok <==> old(bufBody) == [] || preludeAccepted
    {
      committed := true;
      if bufStatus != 0 {
        inner.WriteHeader(bufStatus);
      }
      if |bufBody| > 0 {
        inner.Write(bufBody, preludeAccepted);
        if !preludeAccepted {
          return false;
        }
      }
      bufBody := [];
      inner.Flush();
      return true;
    }

    // Runs one call of an attempt.
    method Perform(op: Op)
      modifies this, inner
      ensures View() == Step(old(View()), op)
    {
      match op
      case Write(data, preludeAccepted, accepted) => Write(data, preludeAccepted, accepted);
      case WriteHeader(status) => WriteHeader(status);
      case Flush => Flush();
      case Seal => Seal();
      case SetHeader(key, values) => inner.headers := inner.headers[key := values];
      case DelHeader(name) => inner.headers := inner.headers - {name};
    }

    // Runs the calls of a whole attempt, in order.
    method Run(script: Script)
      modifies this, inner
      ensures View() == Execute(old(View()), script)
    {
      var i := 0;
      while i < |script|
        invariant 0 <= i <= |script|
        invariant Execute(View(), script[i..]) == Execute(old(View()), script)
      {
        assert script[i..][0] == script[i] && script[i..][1..] == script[i + 1..];
        Perform(script[i]);
        i := i + 1;
      }
    }
  }
}
