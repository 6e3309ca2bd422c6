/**
 A session as an object: the fields its coroutines share, and one method for
 each stretch of code that runs without suspending. The ghost `state` is the
 protocol endpoint the session is; `Valid` ties the fields to it, and every
 method moves it by the step the method takes.
 */
module SessionObject {
  import opened Words
  import opened StringHash
  import opened Framing
  import opened RateLimit
  import RequestGate
  import opened AsyncOps
  import opened Protocol

  /** What the reader does after its switch: read on, answer with an error, start a handler, hand a result over, or give up. */
  datatype Action = ReadOn | ReplyError(thenClose: bool) | SpawnHandler | HandOver(result: Result) | GiveUp

  class Session {
    const config: Config
    const manager: AsyncManager
    const requestBucket: TokenBucket
    var queue: seq<Frame>
    var strand: seq<Frame>
    var queueClosed: bool
    var isClosed: bool
    var streamClosed: bool
    ghost var state: Endpoint

    ghost predicate Valid()
      reads this, manager, manager.made.Values
    {
      && manager.Valid() && state.ops == manager.View()
      && state.config == config && state.queue == queue && state.strand == strand && state.sweeping == {}
      && isClosed == queueClosed == streamClosed
      && state.teardown == if isClosed then StreamShut else Open
    }

    constructor (config: Config, burst: real, rate: real)
      ensures Valid() && state == Fresh(config) && requestBucket.View() == Unused(burst, rate)
      ensures fresh(manager) && fresh(requestBucket)
    {
      this.config := config;
      manager := new AsyncManager();
      requestBucket := new TokenBucket(burst, rate);
      queue, strand := [], [];
      queueClosed, isClosed, streamClosed := false, false, false;
      state := Fresh(config);
    }

    /** try_send on the write queue: refused when it is closed or full. */
    method TrySend(f: Frame) returns (ok: bool)
      requires Valid()
      modifies this`queue
      ensures ok == CanPush(state)
      ensures queue == if ok then old(queue) + [f] else old(queue)
    {
      if queueClosed || |queue| >= QUEUE_CAPACITY {
        return false;
      }
      queue := queue + [f];
      return true;
    }

    /** call(): registers the operation. */
    method BeginCall(name: Name, request: Bytes) returns (token: Token, channel: ResultChannel)
      requires Valid() && CanCall(state, CallerStep.BeginCall(name, request))
      modifies this`state, manager
      ensures Valid() && state == DoCall(old(state), CallerStep.BeginCall(name, request))
      ensures token == old(state).ops.next && fresh(channel)
    {
      token, channel := manager.CreateOperation();
      state := DoCall(state, CallerStep.BeginCall(name, request));
    }

    /** call(): builds the header and queues it; false is the exception of a closed queue. */
    method QueueRequest(token: Token, name: Name, request: Bytes) returns (ok: bool)
      requires Valid() && CanCall(state, CallerStep.QueueRequest(token))
      requires state.calls[token].name == name && state.calls[token].request == request
      modifies this`queue, this`state
      ensures Valid() && state == DoCall(old(state), CallerStep.QueueRequest(token))
      ensures ok == QueueOpen(old(state))
    {
      var callId := CallId(name, config.signed);
      ok := TrySend(Frame(Request, callId, token, request));
      state := DoCall(state, CallerStep.QueueRequest(token));
    }

    method TryPing() returns (ok: bool)
      requires Valid()
      modifies this`queue, this`state
      ensures Valid() && state == DoAct(old(state), AppStep.TryPing) && ok == CanPush(old(state))
    {
      ok := TrySend(Frame(Ping, 0, 0, []));
      state := DoAct(state, AppStep.TryPing);
    }

    method TryNotify(name: Name, payload: Bytes) returns (ok: bool)
      requires Valid() && |payload| < TWO64
      modifies this`queue, this`state
      ensures Valid() && state == DoAct(old(state), AppStep.Notify(CallId(name, config.signed), payload))
      ensures ok == CanPush(old(state))
    {
      var callId := CallId(name, config.signed);
      ok := TrySend(Frame(Notification, callId, 0, payload));
      state := DoAct(state, AppStep.Notify(callId, payload));
    }

    /** msg_writer: takes the next item for the stream. */
    method WriteNext() returns (item: Frame)
      requires Valid() && CanWrite(state, WriteFrame)
      modifies this`queue, this`state
      ensures Valid() && state == DoWrite(old(state), WriteFrame)
      ensures state.wire == old(state).wire + [item]
    {
      item := queue[0];
      queue := queue[1..];
      state := DoWrite(state, WriteFrame);
    }

    /** dispatch_request: the size gate, the rate gate, then a handler. */
    method DispatchRequest(f: Frame, now: real) returns (next: Action)
      requires Valid() && state.reader.Idle? && f.kind.Request?
      modifies this`state, requestBucket
      ensures Valid() && state == Digest(old(state), f, next.SpawnHandler?)
      ensures next == if |f.body| > config.limit then ReplyError(true)
                      else if Allows(Refill(old(requestBucket.View()), now), 1.0) then SpawnHandler
                      else ReplyError(false)
      ensures requestBucket.View() == if |f.body| > config.limit then old(requestBucket.View())
                                      else Spend(Refill(old(requestBucket.View()), now), 1.0)
    {
      hide Refill, Spend, Allows;
      if |f.body| > config.limit {
        next := ReplyError(true);
      } else {
        var allowed := requestBucket.TryTake(now);
        next := if allowed then SpawnHandler else ReplyError(false);
      }
      state := Digest(state, f, next.SpawnHandler?);
    }

    /** handle_response and handle_error: take the operation, if it is still there. */
    method HandleReply(f: Frame) returns (next: Action)
      requires Valid() && state.reader.Idle? && IsReply(f)
      modifies this`state, manager`channels
      ensures Valid() && state == Digest(old(state), f, false)
      ensures next == if Resolves(old(state), f) then HandOver(ResultOf(f)) else ReadOn
    {
      var channel := manager.TakeOperation(f.token);
      if channel.None? {
        next := ReadOn;
      } else {
        next := HandOver(if f.kind.Response? then Ok(f.body) else Err);
      }
      assert manager.View() == if Resolves(state, f) then Detach(state.ops, f.token) else state.ops;
      hide AsyncManager.View;
      state := Digest(state, f, false);
    }

    /** A ping: the pong is dropped when there is no room for it. */
    method HandlePing(f: Frame)
      requires Valid() && state.reader.Idle? && f.kind.Ping?
      modifies this`queue, this`state
      ensures Valid() && state == Digest(old(state), f, false)
    {
      var _ := TrySend(Frame(Pong, 0, 0, []));
      state := Digest(state, f, false);
    }

    /** A notification goes to its strand; a nop or a pong has done its work by arriving. */
    method HandleOther(f: Frame)
      requires Valid() && state.reader.Idle? && (f.kind.Notification? || f.kind.Nop? || f.kind.Pong?)
      modifies this`strand, this`state
      ensures Valid() && state == Digest(old(state), f, false)
      ensures strand == if f.kind.Notification? then old(strand) + [f] else old(strand)
    {
      if f.kind.Notification? {
        strand := strand + [f];
      }
      state := Digest(state, f, false);
    }

    /** The notification strand runs the oldest notification posted to it. */
    method ApplyNotification() returns (f: Frame)
      requires Valid() && strand != []
      modifies this`strand, this`state
      ensures Valid() && state == DoResume(old(state), ReaderStep.ApplyNotification)
      ensures old(strand) == [f] + strand && state.applied == old(state).applied + [f]
    {
      f := strand[0];
      strand := strand[1..];
      state := DoResume(state, ReaderStep.ApplyNotification);
    }

    /** An oversized response, notification or error: the session is closed and the body never read. */
    method RejectOversized()
      requires Valid() && state.reader.Idle?
      modifies this`isClosed, this`queueClosed, this`streamClosed, this`state, manager`channels, manager.made.Values
      ensures Valid() && state == ClosedIfOpen(Mark(old(state).(reader := Gone)))
    {
      state := state.(reader := Gone);
      Close();
    }

    /** msg_reader's switch, on a frame within bounds or a request. */
    method HandleTaken(f: Frame, now: real) returns (next: Action)
      requires Valid() && state.reader.Idle? && Takes(state, f)
      modifies this`queue, this`strand, this`state, manager`channels, requestBucket
      ensures Valid() && state == Digest(old(state), f, next.SpawnHandler?)
      ensures next.SpawnHandler? <==> RequestGate.Opens(config.limit, old(requestBucket.View()), f, now)
      ensures requestBucket.View() == RequestGate.Passed(config.limit, old(requestBucket.View()), f, now)
      ensures next.ReplyError? <==> f.kind.Request? && !next.SpawnHandler?
      ensures next.HandOver? <==> Resolves(old(state), f)
      ensures !next.GiveUp?
    {
      hide Session.Valid, Digest, Refill, Allows, Spend;
      match f.kind {
        case Ping =>
          HandlePing(f);
          next := ReadOn;
        case Request =>
          next := DispatchRequest(f, now);
        case Response =>
          next := HandleReply(f);
        case Error =>
          next := HandleReply(f);
        case _ =>
          HandleOther(f);
          next := ReadOn;
      }
    }

    /** One turn of msg_reader, whatever the frame. */
    method HandleFrame(f: Frame, now: real) returns (next: Action)
      requires Valid() && state.reader.Idle?
      modifies this, manager`channels, manager.made.Values, requestBucket
      ensures Valid()
      ensures state == if Takes(old(state), f) then Digest(old(state), f, next.SpawnHandler?)
                       else ClosedIfOpen(Mark(old(state).(reader := Gone)))
      ensures next.SpawnHandler? <==> RequestGate.Opens(config.limit, old(requestBucket.View()), f, now)
      ensures requestBucket.View() == RequestGate.Passed(config.limit, old(requestBucket.View()), f, now)
      ensures next.ReplyError? <==> f.kind.Request? && !next.SpawnHandler?
      ensures next.HandOver? <==> Takes(old(state), f) && Resolves(old(state), f)
      ensures next.GiveUp? <==> !Takes(old(state), f)
    {
      assert state.config == config;
      hide Session.Valid, Digest, Refill, Allows, Spend, Mark, ClosedIfOpen;
      if !Bodiless(f.kind) && !f.kind.Request? && |f.body| > config.limit {
        RejectOversized();
        next := GiveUp;
      } else {
        next := HandleTaken(f, now);
      }
    }

    /** respond(error) by the reader; marking the session closed is left to Close(). */
    method QueueError(callId: Word, token: Word) returns (ok: bool)
      requires Valid() && state.reader.Answering? && state.reader.at < |state.got| && (CanPush(state) || !QueueOpen(state))
      requires callId == state.got[state.reader.at].callId && token == state.got[state.reader.at].token
      modifies this`queue, this`state
      ensures Valid() && ok == CanPush(old(state))
      ensures ok ==> state == DoResume(old(state), AnswerError).(teardown := Open)
      ensures !ok ==> state == DoResume(old(state), AnswerErrorFails) && isClosed
    {
      hide AsyncManager.View, AsyncManager.Valid;
      ok := TrySend(Frame(Error, callId, token, []));
      if ok {
        state := DoResume(state, AnswerError).(teardown := Open);
      } else {
        state := DoResume(state, AnswerErrorFails);
      }
    }

    /** The reader's own error reply, once there is room or the queue is closed; a refused oversized request ends the session. */
    method AnswerWithError(callId: Word, token: Word, thenClose: bool)
      requires Valid() && state.reader.Answering? && state.reader.at < |state.got| && (CanPush(state) || !QueueOpen(state))
      requires callId == state.got[state.reader.at].callId && token == state.got[state.reader.at].token
      requires thenClose == state.reader.thenClose
      modifies this`queue, this`isClosed, this`queueClosed, this`streamClosed, this`state, manager`channels, manager.made.Values
      ensures Valid()
      ensures state == if !CanPush(old(state)) then DoResume(old(state), AnswerErrorFails)
                       else if thenClose then Closed(DoResume(old(state), AnswerError))
                       else DoResume(old(state), AnswerError)
    {
      ghost var before := state;
      var ok := QueueError(callId, token);
      if !ok {
        return;
      }
      AnswerMarks(before);
      hide AsyncManager.View, AsyncManager.Valid, DoResume, DetachAll, ShutAll;
      if thenClose {
        Close();
      }
    }

    /**
     The end of a handler: its reply, or its error if it has none or the reply
     could not be queued; a failing error reply is ignored.
     */
    method Respond(ghost k: nat, request: Frame, output: Option<Bytes>)
      requires Valid() && k < |state.runs| && request == state.runs[k].request && output == state.runs[k].output
      requires state.runs[k].phase == if output.Some? then Replying else Refusing
      requires CanPush(state) || !QueueOpen(state)
      modifies this`queue, this`state
      ensures Valid() && state == Responded(old(state), k)
    {
      hide AsyncManager.View, AsyncManager.Valid;
      ghost var start := state;
      var sendError := output.None?;
      if output.Some? {
        var ok := TrySend(Frame(Response, request.callId, request.token, output.value));
        state := DoHandle(state, k, if ok then SendReply else SendReplyFails);
        sendError := !ok;
      }
      if sendError {
        assert state.queue == queue && CanPush(state) == CanPush(start);
        var ok := TrySend(Frame(Error, request.callId, request.token, []));
        state := DoHandle(state, k, if ok then SendRefusal else SendRefusalFails);
      }
    }

    /** close(): idempotent; the write queue, then the pending calls, then the stream. */
    method Close()
      requires Valid()
      modifies this`isClosed, this`queueClosed, this`streamClosed, this`state, manager`channels, manager.made.Values
      ensures Valid() && isClosed
      ensures state == ClosedIfOpen(old(state))
    {
      if isClosed {
        return;
      }
      hide ShutAll, DetachAll;
      isClosed, queueClosed := true, true;
      assert manager.View() == state.ops;
      manager.CancelAllOperations();
      hide AsyncManager.View;
      streamClosed, state := true, Closed(state);
    }
  }

  /** What the end of a handler does to an endpoint whose queue has room or is closed. */
  function Responded(e: Endpoint, k: nat): Endpoint
    requires k < |e.runs| && e.runs[k].phase == (if e.runs[k].output.Some? then Replying else Refusing)
    requires CanPush(e) || !QueueOpen(e)
  {
    if CanPush(e) then DoHandle(e, k, if e.runs[k].output.Some? then SendReply else SendRefusal)
    else if e.runs[k].output.Some? then DoHandle(DoHandle(e, k, SendReplyFails), k, SendRefusalFails)
    else DoHandle(e, k, SendRefusalFails)
  }

  /** An endpoint after close() has run to its end. */
  function Closed(e: Endpoint): Endpoint {
    e.(teardown := StreamShut, ops := ShutAll(DetachAll(e.ops), e.ops.pending), swept := e.swept + e.ops.pending,
       sweptAt := e.ops.next)
  }

  /** Only an oversized request marks the session closed. */
  lemma AnswerMarks(e: Endpoint)
    requires e.teardown.Open? && CanResume(e, AnswerError)
    ensures DoResume(e, AnswerError).teardown == if e.reader.thenClose then Marked else Open
  {
  }

  function ClosedIfOpen(e: Endpoint): Endpoint {
    if e.teardown.Open? || e.teardown.Marked? then Closed(e) else e
  }

  // ----- close() as protocol steps -----

  /** The closer's steps one after another, channel by channel. */
  ghost predicate ClosesTo(e: Endpoint, steps: seq<CloserStep>, e': Endpoint)
    decreases |steps|
  {
    if steps == [] then e' == e
    else CanClose(e, steps[0]) && ClosesTo(DoClose(e, steps[0]), steps[1..], e')
  }

  lemma {:induction false} SweepOut(e: Endpoint) returns (steps: seq<CloserStep>)
    requires e.teardown.Swept? && forall t :: t in e.sweeping ==> t in e.ops.channels
    ensures ClosesTo(e, steps, e.(teardown := StreamShut, ops := ShutAll(e.ops, e.sweeping), sweeping := {}))
    decreases |e.sweeping|
  {
    if e.sweeping == {} {
      steps := [ShutStream];
      assert ShutAll(e.ops, {}).channels == e.ops.channels;
      assert ClosesTo(DoClose(e, ShutStream), [], DoClose(e, ShutStream));
    } else {
      var t :| t in e.sweeping;
      var next := DoClose(e, CloseChannel(t));
      var rest := SweepOut(next);
      steps := [CloseChannel(t)] + rest;
      assert steps[1..] == rest;
      assert ShutAll(next.ops, next.sweeping).channels == ShutAll(e.ops, e.sweeping).channels;
    }
  }

  /** What Close() does in one go is what the interleaved steps of the protocol do. */
  lemma CloseIsSteps(e: Endpoint) returns (steps: seq<CloserStep>)
    requires QueueOpen(e) && e.sweeping == {} && forall t :: t in e.ops.pending ==> t in e.ops.channels
    ensures ClosesTo(Mark(e), steps, Closed(e))
  {
    var shut := DoClose(Mark(e), ShutQueue);
    var taken := DoClose(shut, Sweep);
    var rest := SweepOut(taken);
    var end := taken.(teardown := StreamShut, ops := ShutAll(taken.ops, taken.sweeping), sweeping := {});
    assert end == Closed(e);
    assert ([Sweep] + rest)[1..] == rest;
    assert ClosesTo(shut, [Sweep] + rest, end);
    steps := [ShutQueue] + ([Sweep] + rest);
    assert steps[1..] == [Sweep] + rest;
  }
}
