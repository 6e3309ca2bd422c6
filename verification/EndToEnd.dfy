/** A remote call from end to end: codec, name, table, handler and protocol together. */
module EndToEnd {
  import opened Words
  import opened StringHash
  import opened Framing
  import opened Protocol
  import Archive
  import Dispatch
  import Guarantees

  /**
   The peer's handlers reply what its dispatch table gives for the request's call
   id and body, each run with the identity its session had at the time.
   */
  ghost predicate RepliesFromTable(e: Endpoint, table: Dispatch.Table, auth: Option<Dispatch.Callback>, ctx: nat -> Dispatch.Context) {
    forall k :: 0 <= k < |e.runs| && e.runs[k].output.Some? ==>
      Dispatch.Serve(table, auth, e.runs[k].request.callId, e.runs[k].request.body, ctx(k)) == Dispatch.Replied(e.runs[k].output.value)
  }

  lemma SameCallId(name: Name, caller: bool, callee: bool)
    requires caller == callee || Ascii(name)
    ensures CallId(name, caller) == CallId(name, callee)
  {
    hide Hash;
    if caller != callee {
      AsciiNamesPortable(name);
    }
  }

  /**
   A call that returned ran the handler attached last under its name, on its own
   request bytes, with the gate open for it, and returned what that handler gave.
   */
  lemma CallRunsAttachedHandler(
    s: System, side: Side, t: nat, entries: seq<Dispatch.Entry>, i: nat, auth: Option<Dispatch.Callback>, ctx: nat -> Dispatch.Context)
    returns (k: nat)
    requires Reachable(s) && t in s.Mine(side).calls && s.Mine(side).calls[t].phase.Returned?
    requires i < |entries| && entries[i].name == s.Mine(side).calls[t].name
    requires forall j :: i < j < |entries| ==> entries[j].name != entries[i].name
    requires Dispatch.DistinctHashes(entries, s.Peer(side).config.signed)
    requires s.Mine(side).config.signed == s.Peer(side).config.signed || Ascii(entries[i].name)
    requires RepliesFromTable(s.Peer(side), Dispatch.TableOf(entries, s.Peer(side).config.signed), auth, ctx)
    ensures k < |s.Peer(side).runs| && s.Peer(side).runs[k].request.token == t
    ensures auth.Some? && !entries[i].vis.Public? ==>
              var v := auth.value(ctx(k), entries[i].name); v.allow && (entries[i].vis.Admin? ==> v.isAdmin)
    ensures entries[i].run(s.Mine(side).calls[t].request) == Some(s.Mine(side).calls[t].phase.body)
  {
    hide Reachable, CallId, Dispatch.TableOf, Dispatch.DistinctHashes;
    var mine, peer := s.Mine(side), s.Peer(side);
    k := Guarantees.Correlation(s, side, t);
    SameCallId(entries[i].name, mine.config.signed, peer.config.signed);
    Dispatch.ServesByName(entries, peer.config.signed, i, auth, mine.calls[t].request, ctx(k));
  }

  /**
   A typed call: when the handler decodes its arguments, applies a function and
   encodes the result, a call made with encoded arguments that returned at all
   returned bytes that decode to the function of those arguments, whatever the
   byte order of either side.
   */
  lemma InvokeReturnsFunctionOfArguments(
    s: System, side: Side, t: nat, entries: seq<Dispatch.Entry>, i: nat, auth: Option<Dispatch.Callback>, ctx: nat -> Dispatch.Context,
    argType: Archive.Type, resultType: Archive.Type, args: Archive.Value, f: Archive.Value -> Archive.Value,
    callerLittle: bool, calleeLittle: bool)
    requires Reachable(s) && t in s.Mine(side).calls && s.Mine(side).calls[t].phase.Returned?
    requires i < |entries| && entries[i].name == s.Mine(side).calls[t].name
    requires forall j :: i < j < |entries| ==> entries[j].name != entries[i].name
    requires Dispatch.DistinctHashes(entries, s.Peer(side).config.signed)
    requires s.Mine(side).config.signed == s.Peer(side).config.signed || Ascii(entries[i].name)
    requires RepliesFromTable(s.Peer(side), Dispatch.TableOf(entries, s.Peer(side).config.signed), auth, ctx)
    requires Archive.HasType(args, argType) && Archive.Solid(argType)
    requires Archive.HasType(f(args), resultType) && Archive.Solid(resultType)
    requires s.Mine(side).calls[t].request == Archive.Encode(args, argType, callerLittle)
    requires forall request, v ::
      Archive.Decode(argType, request) == Some(v) && Archive.HasType(f(v), resultType) ==>
        entries[i].run(request) == Some(Archive.Encode(f(v), resultType, calleeLittle))
    ensures Archive.Decode(resultType, s.Mine(side).calls[t].phase.body) == Some(f(args))
  {
    hide Reachable, Archive.Decode, Archive.Encode, Archive.HasType, Archive.Solid, Dispatch.TableOf, Dispatch.DistinctHashes, RepliesFromTable;
    var _ := CallRunsAttachedHandler(s, side, t, entries, i, auth, ctx);
    Archive.RoundTrip(args, argType, callerLittle);
    Archive.RoundTrip(f(args), resultType, calleeLittle);
  }
}
