/** internal/listener: a Listener subscribes to the chain, keeps only the
    transactions whose amount reaches the configured minimum and whose program
    is one of the configured targets, and hands each kept transaction to the
    registered handler. Start guards against a second concurrent start with
    the `subscribed` flag. */
module Listener {
  import opened Base
  import Solana

  /** config.ListenerConfig. */
  datatype ListenerConfig = ListenerConfig(minTransactionAmount: real, targetPrograms: seq<string>)

  /** The Transaction a handler receives. */
  datatype Transaction = Transaction(
    signature: string,
    amount: real,
    program: string,
    data: seq<Byte>,
    accounts: seq<string>)

  /** A registered TransactionHandler; a Go func value has no structure
      beyond its identity. */
  datatype Handler = Handler(name: string)

  /** One call of a handler, with the transaction it was passed. */
  datatype Invocation = Invocation(handler: Handler, tx: Transaction)

  /** A chain transaction as it reaches processTransaction, together with the
      amount and program identifier that decoding extracts from it. */
  datatype Delivery = Delivery(tx: Solana.Transaction, amount: real, program: string)

  /** The amount is at least the minimum and the program is a target. */
  predicate Passes(config: ListenerConfig, d: Delivery) {
    d.amount >= config.minTransactionAmount && d.program in config.targetPrograms
  }

  /** `tx.Signatures[0]` is evaluated only for a transaction that passes both
      checks; there an empty signature list would panic. */
  predicate Dispatchable(config: ListenerConfig, d: Delivery) {
    Passes(config, d) ==> |d.tx.signatures| > 0
  }

  /** The Transaction that processTransaction builds for a delivery that passes. */
  function Normalize(d: Delivery): (t: Transaction)
    requires |d.tx.signatures| > 0
  {
    Transaction(d.tx.signatures[0], d.amount, d.program, [], [])
  }

  /** The handler calls one delivery causes: one call when it passes and a
      handler is set, none otherwise. */
  function Dispatch(config: ListenerConfig, handler: Option<Handler>, d: Delivery): (calls: seq<Invocation>)
    requires Dispatchable(config, d)
  {
    if Passes(config, d) && handler.Some? then [Invocation(handler.value, Normalize(d))] else []
  }

  predicate AllDispatchable(config: ListenerConfig, ds: seq<Delivery>) {
    forall k :: 0 <= k < |ds| ==> Dispatchable(config, ds[k])
  }

  /** The handler calls a stream of deliveries causes, in delivery order. */
  function DispatchAll(config: ListenerConfig, handler: Option<Handler>, ds: seq<Delivery>): (calls: seq<Invocation>)
    requires AllDispatchable(config, ds)
    ensures |calls| <= |ds|
  {
    if ds == [] then [] else Dispatch(config, handler, ds[0]) + DispatchAll(config, handler, ds[1..])
  }

  /** A stream split in two dispatches as its halves do, one after the other. */
  lemma {:induction false} DispatchAllAppend(config: ListenerConfig, handler: Option<Handler>, a: seq<Delivery>, b: seq<Delivery>)
    requires AllDispatchable(config, a) && AllDispatchable(config, b)
    ensures AllDispatchable(config, a + b)
    ensures DispatchAll(config, handler, a + b) == DispatchAll(config, handler, a) + DispatchAll(config, handler, b)
  {
    assert AllDispatchable(config, a + b) by {
      forall k | 0 <= k < |a + b| ensures Dispatchable(config, (a + b)[k]) {
        if k < |a| { assert (a + b)[k] == a[k]; } else { assert (a + b)[k] == b[k - |a|]; }
      }
    }
    if a != [] {
      assert (a + b)[0] == a[0];
      assert (a + b)[1..] == a[1..] + b;
      DispatchAllAppend(config, handler, a[1..], b);
    } else {
      assert a + b == b;
    }
  }

  lemma PrefixDispatchable(config: ListenerConfig, ds: seq<Delivery>, i: nat)
    requires AllDispatchable(config, ds) && i < |ds|
    ensures AllDispatchable(config, ds[..i]) && AllDispatchable(config, [ds[i]])
  {
    assert forall k :: 0 <= k < i ==> ds[..i][k] == ds[k];
  }

  /** The loop of processTransaction over TargetPrograms: `targetFound` is
      set and the loop left at the first target equal to the program. */
  method ContainsProgram(targets: seq<string>, program: string) returns (targetFound: bool)
    ensures targetFound <==> program in targets
  {
    targetFound := false;
    var i := 0;
    while i < |targets|
      invariant 0 <= i <= |targets|
      invariant !targetFound && program !in targets[..i]
    {
      if program == targets[i] {
        targetFound := true;
        break;
      }
      i := i + 1;
    }
    assert targets[..i] == targets || targetFound;
  }

  class Listener {
    const config: ListenerConfig
    const client: Solana.Client
    var handler: Option<Handler>
    var subscribed: bool
    /** Every handler call made so far, oldest first (the callback's side
        effect, visible to nobody else in the program). */
    ghost var calls: seq<Invocation>

    constructor (config: ListenerConfig, client: Solana.Client)
      ensures this.config == config && this.client == client
      ensures handler == None && !subscribed && calls == []
    {
      this.config := config;
      this.client := client;
      handler := None;
      subscribed := false;
      calls := [];
    }

    /** Replaces the handler; nothing else changes. */
    method SetTransactionHandler(h: Option<Handler>)
      modifies this`handler
      ensures handler == h
      ensures subscribed == old(subscribed) && calls == old(calls)
    {
      handler := h;
    }

    /** processTransaction: drops a delivery below the minimum amount or for a
        program that is not a target; otherwise builds the Transaction and
        calls the handler with it, if one is set. */
    method ProcessTransaction(d: Delivery)
      requires Dispatchable(config, d)
      modifies this`calls
      ensures calls == old(calls) + Dispatch(config, handler, d)
    {
      var amount, program := d.amount, d.program;
      if amount < config.minTransactionAmount {
        return;
      }
      var targetFound := ContainsProgram(config.targetPrograms, program);
      if !targetFound {
        return;
      }
      var transaction := Transaction(d.tx.signatures[0], amount, program, [], []);
      var h := handler;
      if h.Some? {
        calls := calls + [Invocation(h.value, transaction)];
      }
    }

    /** The subscription's callback run on each delivered transaction, in
        delivery order. */
    method ProcessAll(deliveries: seq<Delivery>)
      requires AllDispatchable(config, deliveries)
      modifies this`calls
      ensures calls == old(calls) + DispatchAll(config, handler, deliveries)
    {
      for i := 0 to |deliveries|
        invariant calls == old(calls) + DispatchAll(config, handler, deliveries[..i])
      {
        var d := deliveries[i];
        PrefixDispatchable(config, deliveries, i);
        DispatchAllAppend(config, handler, deliveries[..i], [d]);
        assert deliveries[..i + 1] == deliveries[..i] + [d];
        ProcessTransaction(d);
      }
      assert deliveries[..|deliveries|] == deliveries;
    }

    /** Start, run sequentially. The subscription's outcome and the outcome of
        unsubscribing are parameters, and `deliveries` are the transactions
        the subscription delivers, in order, before the context is cancelled.
        Only a full cycle that unsubscribes cleanly clears `subscribed`. */
    method Start(subscribeError: Option<string>, deliveries: seq<Delivery>, unsubscribeError: Option<string>)
      returns (err: Option<string>)
      requires AllDispatchable(config, deliveries)
      modifies this`subscribed, this`calls
      ensures old(subscribed) ==> err == Some("listener already started") && subscribed && calls == old(calls)
      ensures !old(subscribed) && subscribeError.Some? ==>
        err == Some("failed to subscribe to transactions: " + subscribeError.value)
        && subscribed && calls == old(calls)
      ensures !old(subscribed) && subscribeError.None? ==>
        calls == old(calls) + DispatchAll(config, handler, deliveries)
        && (unsubscribeError.Some? ==> err == Some("failed to unsubscribe: " + unsubscribeError.value) && subscribed)
        && (unsubscribeError.None? ==> err == None && !subscribed)
    {
      if subscribed {
        return Some("listener already started");
      }
      subscribed := true;

      if subscribeError.Some? {
        return Some("failed to subscribe to transactions: " + subscribeError.value);
      }

      ProcessAll(deliveries);

      if unsubscribeError.Some? {
        return Some("failed to unsubscribe: " + unsubscribeError.value);
      }

      subscribed := false;
      return None;
    }
  }

  /** NewListener: fails without a client; otherwise a listener with no
      handler that is not yet subscribed. */
  method NewListener(config: ListenerConfig, client: Option<Solana.Client>) returns (r: Result<Listener, string>)
    ensures r.Failure? <==> client.None?
    ensures r.Failure? ==> r.error == "solana client is required"
    ensures r.Success? ==>
      fresh(r.value) && r.value.config == config && r.value.client == client.value
      && r.value.handler == None && !r.value.subscribed && r.value.calls == []
  {
    if client.None? {
      return Failure("solana client is required");
    }
    var l := new Listener(config, client.value);
    return Success(l);
  }

  // ---------------------------------------------------------------------
  // What the filter guarantees

  /** A delivery below the minimum amount never reaches a handler. */
  lemma BelowMinimumNeverDispatched(config: ListenerConfig, handler: Option<Handler>, d: Delivery)
    requires d.amount < config.minTransactionAmount
    ensures Dispatch(config, handler, d) == []
  {
  }

  /** An amount equal to the minimum passes the amount check. */
  lemma MinimumAmountPasses(config: ListenerConfig, h: Handler, d: Delivery)
    requires d.amount == config.minTransactionAmount && d.program in config.targetPrograms
    requires |d.tx.signatures| > 0
    ensures Dispatch(config, Some(h), d) == [Invocation(h, Normalize(d))]
  {
  }

  /** A program outside the targets never reaches a handler; with no targets nothing does. */
  lemma UntargetedNeverDispatched(config: ListenerConfig, handler: Option<Handler>, d: Delivery)
    requires d.program !in config.targetPrograms || config.targetPrograms == []
    ensures Dispatch(config, handler, d) == []
  {
  }

  /** A passing delivery calls a set handler exactly once, with the extracted
      amount and program and the first signature; without a handler nothing is called. */
  lemma PassingDispatchedOnce(config: ListenerConfig, handler: Option<Handler>, d: Delivery)
    requires Passes(config, d) && |d.tx.signatures| > 0
    ensures handler.None? ==> Dispatch(config, handler, d) == []
    ensures handler.Some? ==> |Dispatch(config, handler, d)| == 1
    ensures handler.Some? ==>
      var call := Dispatch(config, handler, d)[0];
      call.handler == handler.value && call.tx.signature == d.tx.signatures[0]
      && call.tx.amount == d.amount && call.tx.program == d.program
  {
  }

  /** Over a whole stream, every handler call is to the registered handler and
      carries a transaction that passed both checks. */
  lemma {:induction false} DispatchAllFiltered(config: ListenerConfig, handler: Option<Handler>, ds: seq<Delivery>)
    requires AllDispatchable(config, ds)
    ensures handler.None? ==> DispatchAll(config, handler, ds) == []
    ensures forall c :: c in DispatchAll(config, handler, ds) ==>
      Some(c.handler) == handler
      && c.tx.amount >= config.minTransactionAmount && c.tx.program in config.targetPrograms
  {
    if ds != [] {
      DispatchAllFiltered(config, handler, ds[1..]);
    }
  }

  /** With the values processTransaction hard-codes for decoding (amount 0.0,
      program ""), a delivery is dispatched only if the minimum is not positive
      and the empty program is a target. */
  lemma HardCodedDecodingPasses(config: ListenerConfig, tx: Solana.Transaction)
    ensures Passes(config, Delivery(tx, 0.0, "")) <==>
      config.minTransactionAmount <= 0.0 && "" in config.targetPrograms
  {
  }

  // ---------------------------------------------------------------------
  // The Start state machine, seen by a caller

  /** A full cycle that unsubscribes cleanly leaves the listener startable again. */
  method RestartAfterCleanShutdown(l: Listener, ds: seq<Delivery>) returns (first: Option<string>, second: Option<string>)
    requires !l.subscribed && AllDispatchable(l.config, ds)
    modifies l
    ensures first == None && second == None && !l.subscribed
  {
    first := l.Start(None, ds, None);
    second := l.Start(None, [], None);
  }

  /** After a failed subscription or a failed unsubscribe the flag stays set,
      so every later Start is rejected. */
  method FailedCycleBlocksRestart(l: Listener, failure: string, failSubscribe: bool) returns (first: Option<string>, second: Option<string>)
    requires !l.subscribed
    modifies l
    ensures first.Some? && l.subscribed
    ensures second == Some("listener already started")
  {
    if failSubscribe {
      first := l.Start(Some(failure), [], None);
    } else {
      first := l.Start(None, [], Some(failure));
    }
    second := l.Start(None, [], None);
  }
}
