/**
 The dispatch table, keyed by the call id of a method's name, and the gate in front
 of every request.
 */
module Dispatch {
  import opened Words
  import opened StringHash

  datatype Visibility = Public | Authenticated | Admin
  datatype Verdict = Verdict(allow: bool, isAdmin: bool)
  datatype Context = Context(peer: string, role: int)
  type Callback = (Context, Name) -> Verdict

  /** A handler gives a reply body, or None when it throws. */
  datatype Entry = Entry(name: Name, vis: Visibility, isAsync: bool, run: Bytes -> Option<Bytes>)

  type Table = map<Word, Entry>

  datatype Outcome = NotFound | Denied | WrongPath | Threw | Replied(body: Bytes)

  predicate Passes(e: Entry, auth: Option<Callback>, ctx: Context) {
    || e.vis.Public?
    || auth.None?
    || (var v := auth.value(ctx, e.name); v.allow && (e.vis.Admin? ==> v.isAdmin))
  }

  function Run(e: Entry, request: Bytes): Outcome {
    match e.run(request) case None => Threw case Some(body) => Replied(body)
  }

  class Dispatcher {
    var table: Table
    var auth: Option<Callback>
    const signed: bool

    constructor (signed: bool)
      ensures table == map[] && auth == None && this.signed == signed
    {
      table, auth, this.signed := map[], None, signed;
    }

    method Attach(entry: Entry)
      modifies this`table
      ensures table == old(table)[CallId(entry.name, signed) := entry]
    {
      var key := CallId(entry.name, signed);
      table := table[key := entry];
    }

    method SetAuthCallback(callback: Callback)
      modifies this`auth
      ensures auth == Some(callback)
    {
      auth := Some(callback);
    }

    /** enforce_auth: false when the call is denied. */
    method EnforceAuth(entry: Entry, ctx: Context) returns (ok: bool)
      ensures ok == Passes(entry, auth, ctx)
      ensures entry.vis.Public? || auth.None? ==> ok
      ensures auth.Some? && !entry.vis.Public? ==>
                var v := auth.value(ctx, entry.name);
                ok <==> v.allow && (entry.vis.Admin? ==> v.isAdmin)
    {
      if entry.vis.Public? {
        return true;
      }
      if auth.None? {
        return true;
      }
      var verdict := auth.value(ctx, entry.name);
      if !verdict.allow {
        return false;
      }
      if entry.vis.Admin? && !verdict.isAdmin {
        return false;
      }
      return true;
    }

    method IsAsync(key: Word) returns (b: bool)
      ensures b <==> key in table && table[key].isAsync
    {
      b := key in table && table[key].isAsync;
    }

    /** The overload taking a context; an asynchronous entry refuses it. */
    method DispatchSync(key: Word, request: Bytes, ctx: Context) returns (out: Outcome)
      ensures out == if key in table && Passes(table[key], auth, ctx) && table[key].isAsync then WrongPath
                     else Serve(table, auth, key, request, ctx)
    {
      if key !in table {
        return NotFound;
      }
      var entry := table[key];
      var ok := EnforceAuth(entry, ctx);
      if !ok {
        return Denied;
      }
      if entry.isAsync {
        return WrongPath;
      }
      return Run(entry, request);
    }

    method DispatchAsync(key: Word, request: Bytes, ctx: Context) returns (out: Outcome)
      ensures out == Serve(table, auth, key, request, ctx)
    {
      if key !in table {
        return NotFound;
      }
      var entry := table[key];
      var ok := EnforceAuth(entry, ctx);
      if !ok {
        return Denied;
      }
      return Run(entry, request);
    }

    /** What a request frame goes through: the asynchronous path exactly for asynchronous entries. */
    method DispatchRequest(key: Word, request: Bytes, ctx: Context) returns (out: Outcome)
      ensures out == Serve(table, auth, key, request, ctx)
      ensures out == NotFound <==> key !in table
      ensures out == Denied <==>
              (key in table && auth.Some? && !table[key].vis.Public?
               && (!auth.value(ctx, table[key].name).allow
                   || (table[key].vis.Admin? && !auth.value(ctx, table[key].name).isAdmin)))
      ensures out != NotFound && out != Denied ==>
                out == match table[key].run(request) case None => Threw case Some(body) => Replied(body)
    {
      GateDecides(table, auth, key, request, ctx);
      var async := IsAsync(key);
      if async {
        out := DispatchAsync(key, request, ctx);
      } else {
        out := DispatchSync(key, request, ctx);
      }
    }
  }

  function Serve(table: Table, auth: Option<Callback>, key: Word, request: Bytes, ctx: Context): Outcome {
    if key !in table then NotFound
    else if !Passes(table[key], auth, ctx) then Denied
    else Run(table[key], request)
  }

  /** Who is let through to the handler, spelled out, and what comes of it. */
  lemma GateDecides(table: Table, auth: Option<Callback>, key: Word, request: Bytes, ctx: Context)
    ensures var out := Serve(table, auth, key, request, ctx);
            && (key !in table <==> out == NotFound)
            && (key in table ==>
                  var e := table[key];
                  // a public method, or any method before a callback is installed
                  && (e.vis.Public? || auth.None? ==> out != Denied)
                  && (auth.Some? && !e.vis.Public? ==>
                        var v := auth.value(ctx, e.name);
                        && (!v.allow ==> out == Denied)
                        && (e.vis.Admin? && !v.isAdmin ==> out == Denied)
                        && (e.vis.Admin? && v.allow && v.isAdmin ==> out != Denied)
                        && (e.vis.Authenticated? && v.allow ==> out != Denied))
                  && (out != Denied ==> out == match e.run(request) case None => Threw case Some(body) => Replied(body)))
  {
  }

  // ----- a history of attaches -----

  /** The table after a sequence of attaches. */
  function TableOf(entries: seq<Entry>, signed: bool): Table {
    if entries == [] then map[]
    else
      var last := entries[|entries| - 1];
      TableOf(entries[..|entries| - 1], signed)[CallId(last.name, signed) := last]
  }

  /** Each key holds the last entry attached under any name with that hash. */
  lemma {:induction false} TableHoldsLast(entries: seq<Entry>, signed: bool, i: nat)
    requires i < |entries|
    requires forall j :: i < j < |entries| ==> CallId(entries[j].name, signed) != CallId(entries[i].name, signed)
    ensures CallId(entries[i].name, signed) in TableOf(entries, signed)
    ensures TableOf(entries, signed)[CallId(entries[i].name, signed)] == entries[i]
  {
    hide CallId;
    var n := |entries| - 1;
    if i < n {
      assert entries[..n][i] == entries[i];
      TableHoldsLast(entries[..n], signed, i);
      assert CallId(entries[n].name, signed) != CallId(entries[i].name, signed);
    }
  }

  lemma {:induction false} UnattachedKey(entries: seq<Entry>, signed: bool, key: Word)
    requires forall i :: 0 <= i < |entries| ==> CallId(entries[i].name, signed) != key
    ensures key !in TableOf(entries, signed)
  {
    if entries != [] {
      UnattachedKey(entries[..|entries| - 1], signed, key);
    }
  }

  /**
   The entry attached last under a name is the one its hash reaches, exactly
   when no other name with the same hash was attached after it.
   */
  lemma {:induction false} ReachesLatestIff(entries: seq<Entry>, signed: bool, i: nat)
    requires i < |entries|
    requires forall j :: i < j < |entries| ==> entries[j].name != entries[i].name
    ensures var key := CallId(entries[i].name, signed);
            (key in TableOf(entries, signed) && TableOf(entries, signed)[key] == entries[i])
            <==> forall j :: i < j < |entries| ==> CallId(entries[j].name, signed) != key
  {
    var key := CallId(entries[i].name, signed);
    if forall j :: i < j < |entries| ==> CallId(entries[j].name, signed) != key {
      TableHoldsLast(entries, signed, i);
    } else {
      var j := LastWithKey(entries, signed, key);
      TableHoldsLast(entries, signed, j);
    }
  }

  lemma {:induction false} LastWithKey(entries: seq<Entry>, signed: bool, key: Word) returns (j: nat)
    requires exists i :: 0 <= i < |entries| && CallId(entries[i].name, signed) == key
    ensures j < |entries| && CallId(entries[j].name, signed) == key
    ensures forall k :: j < k < |entries| ==> CallId(entries[k].name, signed) != key
  {
    hide CallId;
    var n := |entries| - 1;
    if CallId(entries[n].name, signed) == key {
      j := n;
    } else {
      var i :| 0 <= i < |entries| && CallId(entries[i].name, signed) == key;
      assert entries[..n][i] == entries[i];
      j := LastWithKey(entries[..n], signed, key);
      assert forall k :: j < k < n ==> entries[..n][k] == entries[k];
    }
  }

  ghost predicate DistinctHashes(entries: seq<Entry>, signed: bool) {
    forall i, j :: 0 <= i < |entries| && 0 <= j < |entries| && entries[i].name != entries[j].name ==>
      CallId(entries[i].name, signed) != CallId(entries[j].name, signed)
  }

  /**
   Over names with distinct hashes a request for a name runs the handler attached
   last under it, and runs it exactly when the method is public, no callback is
   installed, or the callback allows the call and grants admin where required.
   */
  lemma {:induction false} ServesByName(entries: seq<Entry>, signed: bool, i: nat, auth: Option<Callback>, request: Bytes, ctx: Context)
    requires DistinctHashes(entries, signed) && i < |entries|
    requires forall j :: i < j < |entries| ==> entries[j].name != entries[i].name
    ensures Serve(TableOf(entries, signed), auth, CallId(entries[i].name, signed), request, ctx) ==
            if entries[i].vis.Public? || auth.None?
               || (auth.value(ctx, entries[i].name).allow && (entries[i].vis.Admin? ==> auth.value(ctx, entries[i].name).isAdmin))
            then match entries[i].run(request) case None => Threw case Some(body) => Replied(body)
            else Denied
  {
    ReachesLatestIff(entries, signed, i);
  }

  lemma {:induction false} UnknownNameNotFound(entries: seq<Entry>, signed: bool, name: Name, auth: Option<Callback>, request: Bytes, ctx: Context)
    requires forall i :: 0 <= i < |entries| ==> CallId(entries[i].name, signed) != CallId(name, signed)
    ensures Serve(TableOf(entries, signed), auth, CallId(name, signed), request, ctx) == NotFound
  {
    UnattachedKey(entries, signed, CallId(name, signed));
  }

  /** Attaching a name one character away leaves an entry in place. */
  lemma {:induction false} NearMissKeepsEntry(entries: seq<Entry>, signed: bool, i: nat, before: Name, c: bv8, d: bv8, after: Name, other: Entry)
    requires i < |entries| && entries[i].name == before + [c] + after
    requires c != d && other.name == before + [d] + after
    requires forall j :: i < j < |entries| ==> CallId(entries[j].name, signed) != CallId(entries[i].name, signed)
    ensures var key := CallId(entries[i].name, signed);
            key in TableOf(entries + [other], signed) && TableOf(entries + [other], signed)[key] == entries[i]
  {
    NearMissNamesDiffer(before, c, d, after, signed);
    CallIdDistinguishes(entries[i].name, other.name, signed);
    TableHoldsLast(entries + [other], signed, i);
  }
}
