/** Request and response matching of `PiClient` (packages/client/src/client.ts): `#request`,
    `#handleMessage`, `#rejectPendingRequests`, `dispose` and the reaction to a lost connection. */
module Requests {

  /** `Prompt` is set apart because only its result may carry a live speech job. */
  datatype Command = Prompt | Other(name: string)

  datatype Outcome = Resolved(command: Command) | ServerError | CommandMismatch | EncodeError | Disconnected | Disposed

  datatype Response = Refused | Result(command: Command, liveSpeech: bool)

  /** What code of the application may call, also from inside a listener. */
  datatype Call = Request(command: Command, encodes: bool, transportThrows: bool) | Disconnect | Dispose

  /** One run of the client: a call, a handshake, or a response whose listeners make `calls`. */
  datatype Op = Called(call: Call) | Connected | Responded(id: nat, response: Response, calls: seq<Call>)

  class Client {
    var connected: bool
    var disposed: bool
    var requestSequence: nat
    var pendingRequests: map<nat, Command>
    /** The commands issued, the outcomes of their promises, and the promises that nobody will ever settle. */
    ghost var issued: map<nat, Command>
    ghost var settled: map<nat, Outcome>
    ghost var abandoned: set<nat>

    /** Every issued request is pending, settled or abandoned, and only one of them; a resolved one
        names its own command. */
    ghost predicate Matched()
      reads this
    {
      && (forall id :: id in issued <==> 0 < id <= requestSequence)
      && pendingRequests.Keys !! settled.Keys !! abandoned
      && pendingRequests.Keys + settled.Keys + abandoned == issued.Keys
      && (forall id :: id in pendingRequests ==> pendingRequests[id] == issued[id])
      && (forall id :: id in settled && settled[id].Resolved? ==> settled[id].command == issued[id])
    }

    /** Moreover nothing is pending without a connection. */
    ghost predicate Valid()
      reads this
    {
      Matched() && (!connected ==> pendingRequests == map[]) && (disposed ==> !connected)
    }

    /** What no run may undo. */
    twostate predicate Grows()
      reads this
    {
      && old(requestSequence) <= requestSequence && (old(disposed) ==> disposed)
      && (forall id :: id in old(issued) ==> id in issued && issued[id] == old(issued)[id])
      && (forall id :: id in old(settled) ==> id in settled && settled[id] == old(settled)[id])
      && (forall id :: id in pendingRequests && id in old(issued) ==> id in old(pendingRequests))
      && old(abandoned) <= abandoned
    }

    constructor ()
      ensures Valid() && issued == map[] && abandoned == {}
    {
      connected, disposed, requestSequence, pendingRequests := false, false, 0, map[];
      issued, settled, abandoned := map[], map[], {};
    }

    /** Every request that was pending has been rejected with `outcome`, and no other was settled. */
    twostate predicate Rejected(outcome: Outcome)
      reads this
    {
      && pendingRequests == map[]
      && settled.Keys == old(settled).Keys + old(pendingRequests).Keys
      && (forall id :: id in old(settled) ==> settled[id] == old(settled)[id])
      && (forall id :: id in old(pendingRequests) && id !in old(settled) ==> settled[id] == outcome)
    }

    /** What a call of the application does: a request is refused, or sent, or rejected at once; the connection is
        closed; or the client is disposed of, once. */
    twostate predicate Done(call: Call)
      reads this
    {
      match call
      case Request(command, encodes, transportThrows) =>
        if !old(connected) then unchanged(this)
        else
          var id := old(requestSequence) + 1;
          && requestSequence == id && issued == old(issued)[id := command] && disposed == old(disposed)
          && if !encodes then
               connected && pendingRequests == old(pendingRequests) && settled == old(settled)[id := EncodeError]
             else if transportThrows then
               && !connected && pendingRequests == map[]
               && settled.Keys == old(settled).Keys + old(pendingRequests).Keys + {id}
               && forall k :: k in settled ==> settled[k] == if k in old(settled) then old(settled)[k] else Disconnected
             else connected && pendingRequests == old(pendingRequests)[id := command] && settled == old(settled)
      case Disconnect =>
        && !connected && issued == old(issued) && disposed == old(disposed) && requestSequence == old(requestSequence)
        && Rejected(Disconnected)
      case Dispose =>
        if old(disposed) then unchanged(this)
        else
          && disposed && !connected && issued == old(issued) && requestSequence == old(requestSequence)
          && Rejected(Disposed)
    }

    /** Settling a promise is allowed once only. */
    ghost method Settle(id: nat, outcome: Outcome)
      requires id !in settled
      modifies this`settled
      ensures settled == old(settled)[id := outcome]
    {
      settled := settled[id := outcome];
    }

    method RejectPendingRequests(outcome: Outcome)
      requires Matched() && !outcome.Resolved?
      modifies this`pendingRequests, this`settled
      ensures Matched() && Grows() && Rejected(outcome)
    {
      var rejected := pendingRequests;
      pendingRequests := map[];
      ghost var before := settled;
      while rejected != map[]
        invariant pendingRequests == map[]
        invariant rejected.Keys <= old(pendingRequests).Keys && rejected.Keys !! settled.Keys
        invariant rejected.Keys + settled.Keys == old(pendingRequests).Keys + before.Keys
        invariant forall id :: id in before ==> id in settled && settled[id] == before[id]
        invariant forall id :: id in settled && id !in before ==> settled[id] == outcome
        decreases rejected.Keys
      {
        var id :| id in rejected;
        rejected := rejected - {id};
        Settle(id, outcome);
      }
      assert rejected.Keys == {};
      assert settled.Keys == old(pendingRequests).Keys + before.Keys && pendingRequests.Keys == {};
    }

    method LoseConnection()
      requires Matched()
      modifies this`connected, this`pendingRequests, this`settled
      ensures Valid() && Grows() && !connected && Rejected(Disconnected)
    {
      connected := false;
      RejectPendingRequests(Disconnected);
    }

    /** `#takePendingRequest`. Until it is settled, the request taken belongs to nobody. */
    method TakePendingRequest(id: nat) returns (own: Command)
      requires Valid() && id in pendingRequests
      modifies this`pendingRequests, this`abandoned
      ensures Valid() && id in issued && own == issued[id] == old(pendingRequests)[id]
      ensures pendingRequests == old(pendingRequests) - {id} && abandoned == old(abandoned) + {id}
      ensures id !in old(abandoned) && id !in settled
    {
      own := pendingRequests[id];
      pendingRequests := pendingRequests - {id};
      abandoned := abandoned + {id};
    }

    /** Settles the request that was taken. */
    method SettleTaken(id: nat, outcome: Outcome)
      requires Valid() && id in abandoned && id in issued && (outcome.Resolved? ==> outcome.command == issued[id])
      modifies this`settled, this`abandoned
      ensures Valid() && id !in old(settled) && settled == old(settled)[id := outcome]
      ensures abandoned == old(abandoned) - {id}
    {
      abandoned := abandoned - {id};
      Settle(id, outcome);
    }

    method Register(command: Command) returns (id: nat)
      requires Valid() && connected
      modifies this`requestSequence, this`issued, this`pendingRequests
      ensures Valid() && id == requestSequence == old(requestSequence) + 1
      ensures id !in old(issued) && id !in old(pendingRequests) && id !in settled
      ensures issued == old(issued)[id := command] && pendingRequests == old(pendingRequests)[id := command]
    {
      requestSequence := requestSequence + 1;
      id := requestSequence;
      issued := issued[id := command];
      pendingRequests := pendingRequests[id := command];
    }

    /** The frame of a request that is pending is encoded and sent. */
    method SendFrame(id: nat, encodes: bool, transportThrows: bool)
      requires Valid() && connected && id in pendingRequests
      modifies this`connected, this`pendingRequests, this`settled, this`abandoned
      ensures Valid() && Grows() && abandoned == old(abandoned) && id !in old(settled)
      ensures if !encodes then
          connected && pendingRequests == old(pendingRequests) - {id} && settled == old(settled)[id := EncodeError]
        else if transportThrows then !connected && Rejected(Disconnected)
        else unchanged(this)
    {
      if !encodes {
        var _ := TakePendingRequest(id);
        SettleTaken(id, EncodeError);
      } else if transportThrows {
        LoseConnection();
      }
    }

    /** `#request`; a call that is refused at once gets no id. */
    method SendRequest(command: Command, encodes: bool, transportThrows: bool) returns (id: nat)
      requires Valid()
      modifies this
      ensures Valid() && Grows() && disposed == old(disposed) && abandoned == old(abandoned)
      ensures Done(Request(command, encodes, transportThrows))
      ensures id == if old(connected) then old(requestSequence) + 1 else 0
    {
      if disposed || !connected { return 0; }
      id := Register(command);
      hide Matched;
      SendFrame(id, encodes, transportThrows);
      assert !encodes ==> pendingRequests == old(pendingRequests);
    }

    method DisposeClient()
      requires Valid()
      modifies this
      ensures Valid() && Grows() && abandoned == old(abandoned) && Done(Dispose)
    {
      if disposed { return; }
      disposed := true;
      RejectPendingRequests(Disposed);
      LoseConnection();
    }

    method Perform(call: Call)
      requires Valid()
      modifies this
      ensures Valid() && Grows() && abandoned == old(abandoned) && Done(call)
      ensures disposed <==> old(disposed) || call.Dispose?
      ensures forall id :: id in issued && id !in old(issued) ==> id !in abandoned
    {
      match call {
        case Request(command, encodes, transportThrows) => var _ := SendRequest(command, encodes, transportThrows);
        case Disconnect => LoseConnection();
        case Dispose => DisposeClient();
      }
    }

    /** The application code run by the listeners of one notification. */
    method RunListeners(calls: seq<Call>)
      requires Valid()
      modifies this
      ensures Valid() && Grows() && abandoned == old(abandoned)
      ensures disposed <==> old(disposed) || Dispose in calls
      ensures calls == [] ==> unchanged(this)
      ensures forall id :: id in issued && id !in old(issued) ==> id !in abandoned
    {
      for i := 0 to |calls|
        invariant Valid() && Grows() && abandoned == old(abandoned)
        invariant disposed <==> old(disposed) || Dispose in calls[..i]
        invariant calls == [] ==> unchanged(this)
      {
        Perform(calls[i]);
        assert calls[..i + 1] == calls[..i] + [calls[i]];
      }
      assert calls[..|calls|] == calls;
    }

    /** The end of `#handleMessage` for a result that names the command of its request: the result is
        applied, which runs listeners, a live speech job is registered, which throws on a disposed
        client, and the promise is resolved. */
    method AcceptResult(id: nat, own: Command, liveSpeech: bool, calls: seq<Call>)
      requires Valid() && connected && id in abandoned && id in issued && issued[id] == own
      modifies this
      ensures Valid() && (id in abandoned ==> disposed)
      ensures id in abandoned <==> own.Prompt? && liveSpeech && Dispose in calls
      ensures id in settled <==> id !in abandoned
      ensures id in settled ==> settled[id] == Resolved(own)
      ensures abandoned == old(abandoned) || abandoned == old(abandoned) - {id}
      ensures old(requestSequence) <= requestSequence
      ensures calls == [] ==>
        connected && issued == old(issued) && pendingRequests == old(pendingRequests)
      ensures forall o :: o in old(issued) ==> o in issued && issued[o] == old(issued)[o]
      ensures forall o :: o in old(settled) ==> o in settled && settled[o] == old(settled)[o]
      ensures forall o :: o in pendingRequests && o in old(issued) ==> o in old(pendingRequests)
    {
      assert !disposed && id !in settled;
      RunListeners(calls);
      if own.Prompt? && liveSpeech && disposed { return; }
      SettleTaken(id, Resolved(own));
    }

    /** What a response does: one that nobody waits for ends the connection; a refusal settles its request; so does a
        result of another command, which ends the connection too; and one of the right command resolves it, unless
        it is abandoned. */
    twostate predicate Answered(id: nat, response: Response, calls: seq<Call>)
      reads this
    {
      if id !in old(pendingRequests) then
        && !connected && abandoned == old(abandoned) && disposed == old(disposed) && issued == old(issued)
        && Rejected(Disconnected)
      else
        var own := old(pendingRequests)[id];
        && (id in settled <==> id !in abandoned)
        && (response.Refused? ==>
              && id !in abandoned && settled == old(settled)[id := ServerError] && connected
              && pendingRequests == old(pendingRequests) - {id} && issued == old(issued))
        && (response.Result? && response.command != own ==>
              && id !in abandoned && settled[id] == CommandMismatch && !connected && issued == old(issued)
              && pendingRequests == map[]
              && forall k :: k in old(pendingRequests) && k != id ==> k in settled && settled[k] == Disconnected)
        && (response.Result? && response.command == own ==>
              && (id in abandoned <==> own.Prompt? && response.liveSpeech && Dispose in calls)
              && (id in settled ==> settled[id] == Resolved(own))
              && (calls == [] ==>
                    connected && issued == old(issued) && pendingRequests == old(pendingRequests) - {id}))
    }

    /** `#handleMessage` for a response. Its request is settled, by this response, unless the response
        carries a live speech job and a listener of the result disposed the client: then the promise of
        the request is abandoned. */
    method HandleResponse(id: nat, response: Response, calls: seq<Call>)
      requires Valid() && connected
      modifies this
      ensures Valid() && Grows()
      ensures Answered(id, response, calls)
      ensures abandoned <= old(abandoned) + {id} && (abandoned != old(abandoned) ==> disposed)
    {
      if id !in pendingRequests {
        LoseConnection();
        return;
      }
      var own := TakePendingRequest(id);
      if response.Refused? {
        SettleTaken(id, ServerError);
      } else if response.command != own {
        SettleTaken(id, CommandMismatch);
        LoseConnection();
      } else {
        AcceptResult(id, own, response.liveSpeech, calls);
      }
    }

    /** Any run whatever: each request is settled at most once, and exactly once unless it is pending or
        abandoned. At most one is ever abandoned: a prompt whose result carried a live speech job while a
        listener disposed the client. */
    method Run(ops: seq<Op>)
      requires Valid()
      modifies this
      ensures Valid() && Grows()
      ensures forall id :: id in abandoned - old(abandoned) ==> exists i :: 0 <= i < |ops| && Abandons(ops[i], id)
      ensures forall a, b :: a in abandoned - old(abandoned) && b in abandoned - old(abandoned) ==> a == b
      ensures abandoned != old(abandoned) ==> disposed
    {
      for i := 0 to |ops|
        invariant Valid() && Grows()
        invariant forall id :: id in abandoned - old(abandoned) ==> exists k :: 0 <= k < i && Abandons(ops[k], id)
        invariant forall a, b :: a in abandoned - old(abandoned) && b in abandoned - old(abandoned) ==> a == b
        invariant abandoned != old(abandoned) ==> disposed
      {
        PerformOp(ops[i]);
      }
    }

    method PerformOp(op: Op)
      requires Valid()
      modifies this
      ensures Valid() && Grows()
      ensures match op
              case Called(call) => Done(call)
              case Connected =>
                && connected == !disposed && disposed == old(disposed) && issued == old(issued)
                && pendingRequests == old(pendingRequests) && settled == old(settled)
              case Responded(id, response, calls) =>
                if old(connected) then Answered(id, response, calls) else unchanged(this)
      ensures forall id :: id in abandoned - old(abandoned) ==> Abandons(op, id)
      ensures abandoned != old(abandoned) ==> disposed && !old(disposed)
    {
      match op {
        case Called(call) => Perform(call);
        case Connected => if !disposed { connected := true; }
        case Responded(id, response, calls) => if connected { HandleResponse(id, response, calls); }
      }
    }
  }

  /** The response that leaves its request unsettled. */
  predicate Abandons(op: Op, id: nat) {
    op.Responded? && op.id == id && op.response == Result(Prompt, true) && Dispose in op.calls
  }
}
