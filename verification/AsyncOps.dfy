/**
 Pending operations: a token and a capacity-1 result channel per call, and a map
 from the tokens still awaited to their channels.
 */
module AsyncOps {
  import opened Words

  type Token = nat

  datatype Result = Ok(body: Bytes) | Err

  /** A result channel: what has been sent and not received, and whether it was closed. */
  datatype Channel = Channel(buffer: seq<Result>, closed: bool)

  const Empty := Channel([], false)

  /** `channels` are all the channels ever handed out; `pending` the tokens still in the manager's map. */
  datatype Ops = Ops(next: Token, pending: set<Token>, channels: map<Token, Channel>)

  const NoOps := Ops(1, {}, map[])

  function Create(o: Ops): Ops {
    Ops(o.next + 1, o.pending + {o.next}, o.channels[o.next := Empty])
  }

  function Detach(o: Ops, t: Token): Ops {
    o.(pending := o.pending - {t})
  }

  function Deliver(o: Ops, t: Token, r: Result): Ops
    requires t in o.channels
  {
    o.(channels := o.channels[t := o.channels[t].(buffer := o.channels[t].buffer + [r])])
  }

  function DetachAll(o: Ops): Ops {
    o.(pending := {})
  }

  function Shut(o: Ops, t: Token): Ops
    requires t in o.channels
  {
    o.(channels := o.channels[t := o.channels[t].(closed := true)])
  }

  /** Every channel in a set of tokens closed. */
  function ShutAll(o: Ops, ts: set<Token>): Ops {
    o.(channels := map t | t in o.channels :: if t in ts then o.channels[t].(closed := true) else o.channels[t])
  }

  class ResultChannel {
    var buffer: seq<Result>
    var closed: bool

    constructor ()
      ensures View() == Empty
    {
      buffer, closed := [], false;
    }

    ghost function View(): Channel
      reads this
    {
      Channel(buffer, closed)
    }
  }

  method CloseChannels(channels: map<Token, ResultChannel>)
    modifies channels.Values
    ensures forall t :: t in channels ==> channels[t].closed && channels[t].buffer == old(channels[t].buffer)
  {
    var left := channels.Keys;
    while left != {}
      invariant left <= channels.Keys
      invariant forall t :: t in channels ==> channels[t].buffer == old(channels[t].buffer)
      invariant forall t :: t in channels && t !in left ==> channels[t].closed
    {
      var t :| t in left;
      channels[t].closed := true;
      left := left - {t};
    }
  }

  class AsyncManager {
    var nextToken: Token
    var channels: map<Token, ResultChannel>
    /** Every channel handed out, by token; callers keep theirs after it leaves the map. */
    ghost var made: map<Token, ResultChannel>

    ghost predicate Valid()
      reads this
    {
      && (forall t :: t in channels ==> t in made && channels[t] == made[t])
      && (forall t :: t in made ==> t < nextToken)
      && (forall t, u :: t in made && u in made && t != u ==> made[t] != made[u])
    }

    ghost function View(): Ops
      reads this, made.Values
    {
      Ops(nextToken, channels.Keys, map t | t in made :: made[t].View())
    }

    constructor ()
      ensures Valid() && View() == NoOps
    {
      nextToken, channels, made := 1, map[], map[];
    }

    method CreateOperation() returns (token: Token, channel: ResultChannel)
      requires Valid()
      modifies this
      ensures Valid() && View() == Create(old(View()))
      ensures token == old(nextToken) && fresh(channel) && made == old(made)[token := channel]
    {
      token := nextToken;
      nextToken := nextToken + 1;
      channel := new ResultChannel();
      channels := channels[token := channel];
      made := made[token := channel];
      assert View().channels == old(View()).channels[token := Empty];
    }

    /** The locked part of complete_operation: whoever gets the channel owns the token. */
    method TakeOperation(token: Token) returns (channel: Option<ResultChannel>)
      requires Valid()
      modifies this`channels
      ensures Valid() && View() == Detach(old(View()), token)
      ensures channel == if token in old(View()).pending then Some(made[token]) else None
    {
      if token !in channels {
        return None;
      }
      channel := Some(channels[token]);
      channels := channels - {token};
    }

    method CompleteOperation(token: Token, result: Result) returns (found: bool)
      requires Valid()
      modifies this`channels, made.Values
      ensures Valid() && found == (token in old(View()).pending)
      ensures View() == if found then Deliver(Detach(old(View()), token), token, result) else old(View())
    {
      ghost var before := View();
      var channel := TakeOperation(token);
      if channel.None? {
        return false;
      }
      channel.value.buffer := channel.value.buffer + [result];
      assert View().channels == Deliver(Detach(before, token), token, result).channels;
      return true;
    }

    /** Takes the whole map under the lock, then closes the channels one by one. */
    method CancelAllOperations()
      requires Valid()
      modifies this`channels, made.Values
      ensures Valid() && View() == ShutAll(DetachAll(old(View())), old(View()).pending)
    {
      var copy := channels;
      channels := map[];
      CloseChannels(copy);
      assert View().channels == ShutAll(DetachAll(old(View())), copy.Keys).channels;
    }
  }
}
