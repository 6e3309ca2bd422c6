/**
 What every step keeps of the frames: outgoing requests are the calls' own,
 every reply answers one request read earlier and no request is answered twice,
 notifications keep their order, and what one side has queued is what the other
 has read, plus what is on the wire, plus what is still queued.
 */
module Traffic {
  import opened Words
  import opened StringHash
  import opened Framing
  import opened AsyncOps
  import opened Protocol

  // ----- outgoing frames -----

  ghost predicate IsRequestOf(config: Config, calls: map<Token, Call>, f: Frame) {
    && f.token in calls && calls[f.token].phase != Registered
    && f == RequestFrame(config, f.token, calls[f.token])
  }

  /** Every request sent is one of the calls' own, sent once. */
  ghost predicate Outgoing(config: Config, sent: seq<Frame>, calls: map<Token, Call>) {
    && (forall i :: 0 <= i < |sent| ==> WellFormed(sent[i]))
    && (forall i :: 0 <= i < |sent| && sent[i].kind.Request? ==> IsRequestOf(config, calls, sent[i]))
    && (forall i, j :: 0 <= i < j < |sent| && sent[i].kind.Request? && sent[j].kind.Request? ==> sent[i].token != sent[j].token)
    && (forall t :: t in calls ==> |calls[t].request| < TWO64)
  }

  lemma OutgoingPush(config: Config, sent: seq<Frame>, calls: map<Token, Call>, f: Frame)
    requires Outgoing(config, sent, calls) && !f.kind.Request? && WellFormed(f)
    ensures Outgoing(config, sent + [f], calls)
  {
    hide RequestFrame;
  }

  lemma OutgoingRequest(config: Config, sent: seq<Frame>, calls: map<Token, Call>, t: Token)
    requires Outgoing(config, sent, calls) && t in calls && calls[t].phase == Registered && t < TWO64
    ensures Outgoing(config, sent + [RequestFrame(config, t, calls[t])], calls[t := calls[t].(phase := Awaiting)])
  {
    hide CallId;
    assert forall i :: 0 <= i < |sent| && sent[i].kind.Request? ==> sent[i].token != t;
  }

  lemma OutgoingPhase(config: Config, sent: seq<Frame>, calls: map<Token, Call>, t: Token, phase: CallPhase)
    requires Outgoing(config, sent, calls) && t in calls && phase != Registered
    ensures Outgoing(config, sent, calls[t := calls[t].(phase := phase)])
  {
    hide CallId;
  }

  lemma OutgoingBegin(config: Config, sent: seq<Frame>, calls: map<Token, Call>, t: Token, name: Name, request: Bytes)
    requires Outgoing(config, sent, calls) && t !in calls && |request| < TWO64
    ensures Outgoing(config, sent, calls[t := Call(name, request, Registered)])
  {
    hide CallId;
  }

  // ----- handler runs -----

  predicate RunOk(got: seq<Frame>, run: HandlerRun) {
    && run.at < |got| && got[run.at] == run.request && run.request.kind.Request?
    && (run.output.Some? ==> |run.output.value| < TWO64)
    && (run.phase.Replying? ==> run.output.Some?)
  }

  /** Each run serves its own request frame, in the order they were read; a request answered by the reader has none. */
  ghost predicate Served(got: seq<Frame>, runs: seq<HandlerRun>, reader: Reader) {
    && (forall k :: 0 <= k < |runs| ==> RunOk(got, runs[k]))
    && (forall k, m :: 0 <= k < m < |runs| ==> runs[k].at < runs[m].at)
    && (reader.Answering? ==>
          && reader.at < |got| && got[reader.at].kind.Request?
          && forall k :: 0 <= k < |runs| ==> runs[k].at != reader.at)
  }

  lemma ServedReader(got: seq<Frame>, runs: seq<HandlerRun>, reader: Reader, reader': Reader)
    requires Served(got, runs, reader) && !reader'.Answering?
    ensures Served(got, runs, reader')
  {
  }

  lemma ServedRun(got: seq<Frame>, runs: seq<HandlerRun>, reader: Reader, k: nat, run: HandlerRun)
    requires Served(got, runs, reader) && k < |runs| && RunOk(got, run) && run.at == runs[k].at
    ensures Served(got, runs[k := run], reader)
  {
  }

  /** A frame read: nothing, a new run, or the reader answering, each at the new position. */
  lemma ServedRead(got: seq<Frame>, runs: seq<HandlerRun>, f: Frame, runs': seq<HandlerRun>, reader': Reader)
    requires Served(got, runs, Idle)
    requires || (runs' == runs && !reader'.Answering?)
             || (f.kind.Request? && runs' == runs + [HandlerRun(|got|, f, None, Running)] && reader'.Idle?)
             || (f.kind.Request? && runs' == runs && reader'.Answering? && reader'.at == |got|)
    ensures Served(got + [f], runs', reader')
  {
    forall k | 0 <= k < |runs| ensures RunOk(got + [f], runs[k]) && runs[k].at < |got| {
      assert RunOk(got, runs[k]);
    }
  }

  // ----- replies -----

  /** The reply at position j of `sent` answers the request its origin names, with the output of the run it names. */
  predicate OriginOk(f: Frame, got: seq<Frame>, runs: seq<HandlerRun>, o: Origin) {
    && o.at < |got| && got[o.at].kind.Request?
    && f.callId == got[o.at].callId && f.token == got[o.at].token
    && (f.kind.Response? ==> o.run.Some?)
    && (o.run.Some? ==> o.run.value < |runs| && runs[o.run.value].at == o.at &&
                        runs[o.run.value].phase.Finished? && runs[o.run.value].output == Some(f.body))
  }

  /** Every reply has an origin, and no two share a request; runs still to reply have none yet. */
  ghost predicate Answered(sent: seq<Frame>, got: seq<Frame>, runs: seq<HandlerRun>, origin: map<nat, Origin>, reader: Reader) {
    && (forall j :: j in origin <==> 0 <= j < |sent| && IsReply(sent[j]))
    && (forall j :: j in origin && j < |sent| ==> OriginOk(sent[j], got, runs, origin[j]))
    && (forall i, j :: i in origin && j in origin && i != j ==> origin[i].at != origin[j].at)
    && (forall k, j :: 0 <= k < |runs| && !runs[k].phase.Finished? && j in origin ==> origin[j].at != runs[k].at)
    && (reader.Answering? ==> forall j :: j in origin ==> origin[j].at != reader.at)
  }

  lemma AnsweredPush(sent: seq<Frame>, got: seq<Frame>, runs: seq<HandlerRun>, origin: map<nat, Origin>, reader: Reader, f: Frame)
    requires Answered(sent, got, runs, origin, reader) && !IsReply(f)
    ensures Answered(sent + [f], got, runs, origin, reader)
  {
    hide OriginOk;
  }

  lemma AnsweredReader(sent: seq<Frame>, got: seq<Frame>, runs: seq<HandlerRun>, origin: map<nat, Origin>, reader: Reader, reader': Reader)
    requires Answered(sent, got, runs, origin, reader) && !reader'.Answering?
    ensures Answered(sent, got, runs, origin, reader')
  {
    hide OriginOk;
  }

  /** A run that has not finished moves on; no reply refers to it yet. */
  lemma AnsweredRun(sent: seq<Frame>, got: seq<Frame>, runs: seq<HandlerRun>, origin: map<nat, Origin>, reader: Reader, k: nat, run: HandlerRun)
    requires Answered(sent, got, runs, origin, reader) && Served(got, runs, reader)
    requires k < |runs| && !runs[k].phase.Finished? && run.at == runs[k].at
    ensures Answered(sent, got, runs[k := run], origin, reader)
  {
    forall j | j in origin && j < |sent| ensures OriginOk(sent[j], got, runs[k := run], origin[j]) {
      assert OriginOk(sent[j], got, runs, origin[j]);
    }
  }

  /** A finished run's reply is queued. */
  lemma AnsweredReply(sent: seq<Frame>, got: seq<Frame>, runs: seq<HandlerRun>, origin: map<nat, Origin>, reader: Reader, f: Frame, o: Origin)
    requires Answered(sent, got, runs, origin, reader) && IsReply(f) && OriginOk(f, got, runs, o)
    requires forall j :: j in origin ==> origin[j].at != o.at
    requires forall k :: 0 <= k < |runs| && !runs[k].phase.Finished? ==> runs[k].at != o.at
    requires reader.Answering? ==> reader.at != o.at
    ensures Answered(sent + [f], got, runs, origin[|sent| := o], reader)
  {
    hide OriginOk;
  }

  lemma AnsweredRead(sent: seq<Frame>, got: seq<Frame>, runs: seq<HandlerRun>, origin: map<nat, Origin>, f: Frame, runs': seq<HandlerRun>, reader': Reader)
    requires Answered(sent, got, runs, origin, Idle)
    requires runs' == runs || runs' == runs + [HandlerRun(|got|, f, None, Running)]
    requires reader'.Answering? ==> reader'.at == |got|
    ensures Answered(sent, got + [f], runs', origin, reader')
  {
    forall j | j in origin && j < |sent| ensures OriginOk(sent[j], got + [f], runs', origin[j]) && origin[j].at < |got| {
      assert OriginOk(sent[j], got, runs, origin[j]);
    }
  }

  // ----- notifications -----

  function Notifications(fs: seq<Frame>): seq<Frame> {
    if fs == [] then []
    else
      var last := fs[|fs| - 1];
      Notifications(fs[..|fs| - 1]) + if last.kind.Notification? then [last] else []
  }

  function Accepted(attempts: seq<(Frame, bool)>): seq<Frame> {
    if attempts == [] then []
    else
      var last := attempts[|attempts| - 1];
      Accepted(attempts[..|attempts| - 1]) + if last.1 then [last.0] else []
  }

  lemma NotificationsPush(fs: seq<Frame>, f: Frame)
    ensures Notifications(fs + [f]) == Notifications(fs) + if f.kind.Notification? then [f] else []
  {
    assert (fs + [f])[..|fs|] == fs;
  }

  lemma AcceptedPush(attempts: seq<(Frame, bool)>, f: Frame, ok: bool)
    ensures Accepted(attempts + [(f, ok)]) == Accepted(attempts) + if ok then [f] else []
  {
    assert (attempts + [(f, ok)])[..|attempts|] == attempts;
  }

  lemma {:induction false} NotificationsAppend(fs: seq<Frame>, gs: seq<Frame>)
    ensures Notifications(fs + gs) == Notifications(fs) + Notifications(gs)
  {
    if gs == [] {
      assert fs + gs == fs;
    } else {
      var init, last := gs[..|gs| - 1], gs[|gs| - 1];
      assert fs + gs == (fs + init) + [last];
      NotificationsPush(fs + init, last);
      NotificationsAppend(fs, init);
    }
  }

  /** The strand and what was applied are the notifications read; what the queue accepted are the attempts it granted. */
  ghost predicate Notified(e: Endpoint) {
    && e.applied + e.strand == Notifications(e.got)
    && Notifications(e.sent) == Accepted(e.attempts)
  }
}
