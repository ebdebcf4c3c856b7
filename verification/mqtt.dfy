/**
 * The MQTT transport the integration talks to, as seen by the player: it
 * subscribes a handler (recorded as its role) to a topic and hands back a
 * handle, unsubscribes a handle when its disposer is called, and publishes.
 * Every call is recorded in `log`; `live` holds the subscriptions that are
 * still active.
 */
module Mqtt {
  import opened Payload
  import opened TopicMaps

  datatype Call =
    | Subscribe(topic: Json, role: Role, handle: nat)
    | Unsubscribe(handle: nat)
    | Publish(topic: Json, payload: Json, retain: bool)

  class Transport {
    var log: seq<Call>
    var live: map<nat, Binding>
    var nextHandle: nat
    /** Whether publishing succeeds; async_publish raises when it does not. */
    var connected: bool

    ghost predicate Valid()
      reads this
    {
      forall h :: h in live ==> h < nextHandle
    }

    constructor (connected: bool)
      ensures Valid()
      ensures log == [] && live == map[] && nextHandle == 0 && this.connected == connected
    {
      log := [];
      live := map[];
      nextHandle := 0;
      this.connected := connected;
    }

    /** async_subscribe: a fresh handle bound to (topic, role). */
    method Subscribe(topic: Json, role: Role) returns (h: nat)
      requires Valid()
      modifies this
      ensures Valid()
      ensures h == old(nextHandle) && nextHandle == h + 1 && h !in old(live)
      ensures live == old(live)[h := Binding(topic, role)]
      ensures log == old(log) + [Call.Subscribe(topic, role, h)]
      ensures connected == old(connected)
    {
      h := nextHandle;
      nextHandle := nextHandle + 1;
      live := live[h := Binding(topic, role)];
      log := log + [Call.Subscribe(topic, role, h)];
    }

    /** Calling the disposer that async_subscribe returned. */
    method Unsubscribe(h: nat)
      requires Valid()
      modifies this
      ensures Valid()
      ensures live == old(live) - {h} && nextHandle == old(nextHandle)
      ensures log == old(log) + [Call.Unsubscribe(h)]
      ensures connected == old(connected)
    {
      live := live - {h};
      log := log + [Call.Unsubscribe(h)];
    }

    /** async_publish: recorded as attempted; `ok` is false when it raises. */
    method Publish(topic: Json, payload: Json, retain: bool) returns (ok: bool)
      requires Valid()
      modifies this
      ensures Valid()
      ensures ok == connected
      ensures log == old(log) + [Call.Publish(topic, payload, retain)]
      ensures live == old(live) && nextHandle == old(nextHandle) && connected == old(connected)
    {
      ok := connected;
      log := log + [Call.Publish(topic, payload, retain)];
    }
  }

  /** The handles held in a list of disposers. */
  function Handles(hs: seq<nat>): set<nat> {
    set h | h in hs
  }

  /** The calls made by disposing the handles `hs` in order. */
  function DisposeCalls(hs: seq<nat>): (r: seq<Call>)
    ensures |r| == |hs|
    ensures forall i :: 0 <= i < |hs| ==> r[i] == Unsubscribe(hs[i])
  {
    if hs == [] then [] else DisposeCalls(hs[..|hs| - 1]) + [Unsubscribe(hs[|hs| - 1])]
  }

  /** The calls made by subscribing the bindings `bs`, which returned the handles `hs`. */
  function SubscribeCalls(bs: seq<Binding>, hs: seq<nat>): (r: seq<Call>)
    requires |bs| == |hs|
    ensures |r| == |bs|
    ensures forall i :: 0 <= i < |bs| ==> r[i] == Subscribe(bs[i].topic, bs[i].role, hs[i])
  {
    if bs == [] then []
    else SubscribeCalls(bs[..|bs| - 1], hs[..|hs| - 1]) + [Subscribe(bs[|bs| - 1].topic, bs[|bs| - 1].role, hs[|hs| - 1])]
  }

  /** Subscribing one more binding appends one call. */
  lemma SubscribeCallsStep(bs: seq<Binding>, hs: seq<nat>, b: Binding, h: nat)
    requires |bs| == |hs|
    ensures SubscribeCalls(bs + [b], hs + [h]) == SubscribeCalls(bs, hs) + [Subscribe(b.topic, b.role, h)]
  {
    assert (bs + [b])[..|bs|] == bs;
    assert (hs + [h])[..|hs|] == hs;
  }

  predicate Distinct(hs: seq<nat>) {
    forall i, j :: 0 <= i < j < |hs| ==> hs[i] != hs[j]
  }

  /** Disposing a list of distinct handles unsubscribes each of them exactly once. */
  lemma {:induction false} DisposeEachOnce(hs: seq<nat>, h: nat)
    requires Distinct(hs)
    ensures multiset(DisposeCalls(hs))[Unsubscribe(h)] == if h in hs then 1 else 0
  {
    if hs != [] {
      var init := hs[..|hs| - 1];
      assert hs == init + [hs[|hs| - 1]];
      DisposeEachOnce(init, h);
      assert h in hs <==> h in init || h == hs[|hs| - 1];
      assert h == hs[|hs| - 1] ==> h !in init;
    }
  }

  /**
   * The calls of a rebind, disposal of `olds` followed by the new
   * subscriptions: every old handle is unsubscribed exactly once, and every
   * unsubscription comes before every subscription.
   */
  lemma RebindOrder(olds: seq<nat>, bs: seq<Binding>, news: seq<nat>)
    requires |bs| == |news|
    requires Distinct(olds)
    ensures var calls := DisposeCalls(olds) + SubscribeCalls(bs, news);
      && (forall h :: h in olds ==> multiset(calls)[Unsubscribe(h)] == 1)
      && (forall i, j :: 0 <= i < j < |calls| && calls[j].Unsubscribe? ==> calls[i].Unsubscribe?)
  {
    var calls := DisposeCalls(olds) + SubscribeCalls(bs, news);
    forall h | h in olds ensures multiset(calls)[Unsubscribe(h)] == 1 {
      DisposeEachOnce(olds, h);
      assert Unsubscribe(h) !in SubscribeCalls(bs, news);
    }
  }

  /**
   * Starting from `live0`, `log0` and handle `n0`, the transport, now at
   * `live`, `log` and `next`, has subscribed exactly the bindings `bs` and
   * returned the handles `hs`.
   */
  ghost predicate SubscribedState(live0: map<nat, Binding>, log0: seq<Call>, n0: nat, bs: seq<Binding>, hs: seq<nat>,
                                  live: map<nat, Binding>, log: seq<Call>, next: nat)
  {
    && |hs| == |bs| && next == n0 + |hs|
    && (forall j :: 0 <= j < |hs| ==> hs[j] == n0 + j)
    && (forall j :: 0 <= j < |hs| ==> hs[j] in live && live[hs[j]] == bs[j])
    && (forall h :: h in live <==> h in live0 || n0 <= h < next)
    && (forall h :: h in live0 ==> live[h] == live0[h])
    && log == log0 + SubscribeCalls(bs, hs)
  }

  ghost predicate Subscribed(transport: Transport, live0: map<nat, Binding>, log0: seq<Call>, n0: nat, bs: seq<Binding>, hs: seq<nat>)
    reads transport
  {
    transport.Valid() && SubscribedState(live0, log0, n0, bs, hs, transport.live, transport.log, transport.nextHandle)
  }

  /**
   * The handles `hs` are strictly increasing (so distinct), and each is live
   * in `live`, bound to the binding at the same position of `bs`.
   */
  ghost predicate LiveFor(bs: seq<Binding>, hs: seq<nat>, live: map<nat, Binding>) {
    && |hs| == |bs|
    && (forall i, j :: 0 <= i < j < |hs| ==> hs[i] < hs[j])
    && (forall i :: 0 <= i < |hs| ==> hs[i] in live && live[hs[i]] == bs[i])
  }

  /**
   * The calls of a rebind, from log `log0` to `log`: every old handle of
   * `olds` was disposed exactly once, all disposals precede the first new
   * subscription, and then `gen` was subscribed under the handles `news`.
   */
  ghost predicate RebindCalls(gen: seq<Binding>, olds: seq<nat>, log0: seq<Call>, news: seq<nat>, log: seq<Call>)
  {
    && |news| == |gen|
    && var calls := DisposeCalls(olds) + SubscribeCalls(gen, news);
    && log == log0 + calls
    && (forall h :: h in olds ==> multiset(calls)[Unsubscribe(h)] == 1)
    && (forall i, j :: 0 <= i < j < |calls| && calls[j].Unsubscribe? ==> calls[i].Unsubscribe?)
  }

  /**
   * The live subscriptions after a rebind, from `live0` with next handle `n0`
   * to `live`: no old handle of `olds` is live; each binding of `gen` is live
   * under its own handle of `news`, each never handed out before and in
   * increasing order; subscriptions that were not the player's are untouched.
   */
  ghost predicate RebindLive(gen: seq<Binding>, olds: seq<nat>, live0: map<nat, Binding>, n0: nat,
                             news: seq<nat>, live: map<nat, Binding>)
  {
    && LiveFor(gen, news, live)
    && (forall h :: h in olds ==> h !in live)
    && (forall h :: h in news ==> n0 <= h)
    && (forall h :: h in live && h !in news ==> h in live0 && h !in olds && live[h] == live0[h])
    && (forall h :: h in live0 && h !in olds ==> h in live)
  }

  /** Disposing `olds` and then subscribing `gen` makes the calls of a rebind. */
  lemma RebindCallsHold(gen: seq<Binding>, olds: seq<nat>, log0: seq<Call>, news: seq<nat>, log: seq<Call>)
    requires Distinct(olds) && |news| == |gen|
    requires log == log0 + DisposeCalls(olds) + SubscribeCalls(gen, news)
    ensures RebindCalls(gen, olds, log0, news, log)
  {
    RebindOrder(olds, gen, news);
    AppendAssociative(log0, DisposeCalls(olds), SubscribeCalls(gen, news));
  }

  /**
   * Regrouping a concatenation. Stated apart because asserting it inline,
   * beside RebindOrder's quantified facts, makes that proof unstable.
   */
  lemma AppendAssociative<T>(a: seq<T>, b: seq<T>, c: seq<T>)
    ensures a + b + c == a + (b + c)
  {
  }

  /** Disposing `olds` and then subscribing `gen`, as SubscribeAll does, is a rebind. */
  lemma RebindHolds(gen: seq<Binding>, olds: seq<nat>, log0: seq<Call>, live0: map<nat, Binding>, n0: nat,
                    news: seq<nat>, log: seq<Call>, live: map<nat, Binding>, next: nat)
    requires Distinct(olds)
    requires forall h :: h in olds ==> h < n0
    requires SubscribedState(live0 - Handles(olds), log0 + DisposeCalls(olds), n0, gen, news, live, log, next)
    ensures RebindCalls(gen, olds, log0, news, log)
    ensures RebindLive(gen, olds, live0, n0, news, live)
  {
    RebindCallsHold(gen, olds, log0, news, log);
    RebindLiveHolds(gen, olds, live0, n0, news, live);
  }

  /** Disposing `olds` and then subscribing `gen` leaves the live map of a rebind. */
  lemma RebindLiveHolds(gen: seq<Binding>, olds: seq<nat>, live0: map<nat, Binding>, n0: nat,
                        news: seq<nat>, live: map<nat, Binding>)
    requires forall h :: h in olds ==> h < n0
    requires |news| == |gen|
    requires forall j :: 0 <= j < |news| ==> news[j] == n0 + j
    requires forall j :: 0 <= j < |news| ==> news[j] in live && live[news[j]] == gen[j]
    requires forall h :: h in live <==> h in live0 - Handles(olds) || n0 <= h < n0 + |news|
    requires forall h :: h in live0 - Handles(olds) ==> live[h] == (live0 - Handles(olds))[h]
    ensures RebindLive(gen, olds, live0, n0, news, live)
  {
    forall h | h in olds ensures h !in live {
      assert h !in live0 - Handles(olds);
    }
    forall h | n0 <= h < n0 + |news| ensures h in news {
      assert news[h - n0] == h;
    }
  }

  /** Subscribing one more binding under the next handle `h` extends the state. */
  lemma SubscribedStep(live0: map<nat, Binding>, log0: seq<Call>, n0: nat, bs: seq<Binding>, hs: seq<nat>,
                       live: map<nat, Binding>, log: seq<Call>, b: Binding, h: nat,
                       live': map<nat, Binding>, log': seq<Call>)
    requires forall k :: k in live0 ==> k < n0
    requires SubscribedState(live0, log0, n0, bs, hs, live, log, h)
    requires live' == live[h := b] && log' == log + [Subscribe(b.topic, b.role, h)]
    ensures SubscribedState(live0, log0, n0, bs + [b], hs + [h], live', log', h + 1)
  {
    var hs', bs' := hs + [h], bs + [b];
    forall j | 0 <= j < |hs'|
      ensures hs'[j] == n0 + j && hs'[j] in live' && live'[hs'[j]] == bs'[j]
    {
      if j < |hs| {
        assert hs'[j] == hs[j] && bs'[j] == bs[j];
      }
    }
    forall k | k in live0
      ensures live'[k] == live0[k]
    {
      assert k != h;
    }
    assert forall k :: k in live' <==> k in live0 || n0 <= k < h + 1;
    SubscribeCallsStep(bs, hs, b, h);
    assert log' == log0 + SubscribeCalls(bs', hs');
  }

  /**
   * Starting from `live0` and `log0`, the transport, now at `live` and `log`,
   * has had the first `i` handles of `hs` disposed, in order.
   */
  ghost predicate DisposedState(live0: map<nat, Binding>, log0: seq<Call>, hs: seq<nat>, i: nat,
                                live: map<nat, Binding>, log: seq<Call>)
  {
    i <= |hs| && live == live0 - Handles(hs[..i]) && log == log0 + DisposeCalls(hs[..i])
  }

  /** Disposing the next handle extends the state. */
  lemma DisposedStep(live0: map<nat, Binding>, log0: seq<Call>, hs: seq<nat>, i: nat,
                     live: map<nat, Binding>, log: seq<Call>, live': map<nat, Binding>, log': seq<Call>)
    requires i < |hs| && DisposedState(live0, log0, hs, i, live, log)
    requires live' == live - {hs[i]} && log' == log + [Unsubscribe(hs[i])]
    ensures DisposedState(live0, log0, hs, i + 1, live', log')
  {
    assert hs[..i + 1] == hs[..i] + [hs[i]];
    assert Handles(hs[..i + 1]) == Handles(hs[..i]) + {hs[i]};
  }
}
