/** Topics, outbound messages and the effects of the lifecycle handler `_update_settopbox_state`. */
module Lifecycle {

  /** The reported `state`: the UNKNOWN, ONLINE_STANDBY and ONLINE_RUNNING constants, or any other string. */
  datatype BoxState = Unknown | Standby | Running | OtherState(raw: string)

  /** A message on the household-wide status topic: its `source` and `state`. */
  datatype StateEnvelope = StateEnvelope(source: string, state: BoxState)

  /** Who this box is, and the topics built from that. */
  datatype Identity = Identity(household: string, boxId: string, clientId: string)
  {
    function BoxTopic(): string { household + "/" + boxId }
    function BoxStatusTopic(): string { BoxTopic() + "/status" }
    function ClientTopic(): string { household + "/" + clientId }
    function ClientStatusTopic(): string { ClientTopic() + "/status" }
    function HouseholdStatusTopic(): string { household + "/+/status" }

    /** The topics subscribed to when a box is first heard from, in order. */
    function BootstrapTopics(): seq<string> { [ClientTopic(), BoxTopic(), BoxStatusTopic()] }
  }

  /** The messages the box publishes, field for field as the source writes them. */
  datatype Message =
    | Presence(source: string, state: string, deviceType: string)
    | StateRequest(id: string, msgType: string, source: string)
    | KeyEvent(msgType: string, w3cKey: string, eventType: string)
    | PushToTv(id: string, msgType: string, clientId: string, friendlyDeviceName: string,
               sourceType: string, channelId: string, relativePosition: int, speed: int)

  /** One call into the broker client. */
  datatype Effect = Subscribe(topic: string) | Publish(topic: string, msg: Message)

  /** `_request_settop_box_state` with correlation id `id`. */
  function StateRequestEffect(ident: Identity, id: string): Effect
  {
    Publish(ident.BoxTopic(), StateRequest(id, "CPE.getUiStatus", ident.clientId))
  }

  /** The topics subscribed to, in order. */
  function SubscribedTopics(effects: seq<Effect>): seq<string>
  {
    if effects == [] then []
    else (if effects[0].Subscribe? then [effects[0].topic] else []) + SubscribedTopics(effects[1..])
  }

  /** The correlation ids of the state requests published, in order. */
  function RequestIds(effects: seq<Effect>): seq<string>
  {
    if effects == [] then []
    else (if effects[0].Publish? && effects[0].msg.StateRequest? then [effects[0].msg.id] else [])
         + RequestIds(effects[1..])
  }

  lemma {:induction false} SubscribedTopicsAppend(a: seq<Effect>, b: seq<Effect>)
    ensures SubscribedTopics(a + b) == SubscribedTopics(a) + SubscribedTopics(b)
    decreases |a|
  {
    if a == [] {
      assert a + b == b;
    } else {
      assert (a + b)[0] == a[0] && (a + b)[1..] == a[1..] + b;
      SubscribedTopicsAppend(a[1..], b);
    }
  }

  lemma {:induction false} RequestIdsAppend(a: seq<Effect>, b: seq<Effect>)
    ensures RequestIds(a + b) == RequestIds(a) + RequestIds(b)
    decreases |a|
  {
    if a == [] {
      assert a + b == b;
    } else {
      assert (a + b)[0] == a[0] && (a + b)[1..] == a[1..] + b;
      RequestIdsAppend(a[1..], b);
    }
  }

  /** The effects of the bootstrap: a state request, then the three subscriptions. */
  function BootstrapEffects(ident: Identity, id: string): seq<Effect>
  {
    [StateRequestEffect(ident, id), Subscribe(ident.ClientTopic()),
     Subscribe(ident.BoxTopic()), Subscribe(ident.BoxStatusTopic())]
  }

  lemma BootstrapProjections(ident: Identity, id: string)
    ensures SubscribedTopics(BootstrapEffects(ident, id)) == ident.BootstrapTopics()
    ensures RequestIds(BootstrapEffects(ident, id)) == [id]
  {
    var s := BootstrapEffects(ident, id);
    assert s[4..] == [];
    assert s[3..][1..] == s[4..];
    assert s[2..][1..] == s[3..];
    assert s[1..][1..] == s[2..];
    assert SubscribedTopics(s[3..]) == [ident.BoxStatusTopic()] && RequestIds(s[3..]) == [];
    assert SubscribedTopics(s[2..]) == [ident.BoxTopic(), ident.BoxStatusTopic()] && RequestIds(s[2..]) == [];
    assert SubscribedTopics(s[1..]) == ident.BootstrapTopics() && RequestIds(s[1..]) == [];
  }

  /** The effects of one matching message in `_update_settopbox_state`, given the stored state and
      the reported one; `firstId` and `secondId` are the ids of its two possible state requests. */
  function LifecycleEffects(ident: Identity, stored: BoxState, reported: BoxState,
                            firstId: string, secondId: string): (r: seq<Effect>)
    // bootstrap: subscriptions happen exactly while the stored state is UNKNOWN
    ensures SubscribedTopics(r) == if stored == Unknown then ident.BootstrapTopics() else []
    // one request for the bootstrap, one more for any state other than standby
    ensures RequestIds(r) == (if stored == Unknown then [firstId] else []) + (if reported == Standby then [] else [secondId])
    // the bootstrap comes first, in its own order: the request, then the subscriptions
    ensures stored == Unknown ==> |r| >= 4 && r[..4] == BootstrapEffects(ident, firstId)
    // and the refresh request, when there is one, comes last
    ensures reported != Standby ==> |r| > 0 && r[|r| - 1] == StateRequestEffect(ident, secondId)
    // every publish is a state request on the box's own topic
    ensures forall i :: 0 <= i < |r| && r[i].Publish? ==>
      r[i].topic == ident.BoxTopic() && r[i].msg.StateRequest? && r[i].msg.msgType == "CPE.getUiStatus"
      && r[i].msg.source == ident.clientId
  {
    var bootstrap := if stored == Unknown then BootstrapEffects(ident, firstId) else [];
    var refresh := if reported == Standby then [] else [StateRequestEffect(ident, secondId)];
    BootstrapProjections(ident, firstId);
    SubscribedTopicsAppend(bootstrap, refresh);
    RequestIdsAppend(bootstrap, refresh);
    assert stored == Unknown ==> (bootstrap + refresh)[..4] == bootstrap;
    bootstrap + refresh
  }

  /** One delivery on the household status topic, with the ids its state requests would use. */
  datatype Step = Step(envelope: StateEnvelope, firstId: string, secondId: string)

  /** The stored state after a sequence of deliveries. */
  function StateAfter(ident: Identity, stored: BoxState, steps: seq<Step>): BoxState
    decreases |steps|
  {
    if steps == [] then stored
    else if steps[0].envelope.source != ident.boxId then StateAfter(ident, stored, steps[1..])
    else StateAfter(ident, steps[0].envelope.state, steps[1..])
  }

  /** The effects of a sequence of deliveries, starting from stored state `stored`. */
  function Run(ident: Identity, stored: BoxState, steps: seq<Step>): seq<Effect>
    decreases |steps|
  {
    if steps == [] then []
    else if steps[0].envelope.source != ident.boxId then Run(ident, stored, steps[1..])
    else LifecycleEffects(ident, stored, steps[0].envelope.state, steps[0].firstId, steps[0].secondId)
         + Run(ident, steps[0].envelope.state, steps[1..])
  }

  /** Some delivery in `steps` is addressed to this box. */
  predicate Seen(ident: Identity, steps: seq<Step>)
  {
    exists i :: 0 <= i < |steps| && steps[i].envelope.source == ident.boxId
  }

  /** The number of deliveries addressed to this box. */
  function Matching(ident: Identity, steps: seq<Step>): nat
  {
    if steps == [] then 0
    else (if steps[0].envelope.source == ident.boxId then 1 else 0) + Matching(ident, steps[1..])
  }

  /** Unless the box itself reports UNKNOWN, the bootstrap subscriptions are made once, on the first
      message for this box, and only if the stored state was still UNKNOWN. */
  lemma {:induction false} BootstrapAtMostOnce(ident: Identity, stored: BoxState, steps: seq<Step>)
    requires forall i :: 0 <= i < |steps| && steps[i].envelope.source == ident.boxId ==> steps[i].envelope.state != Unknown
    ensures SubscribedTopics(Run(ident, stored, steps)) ==
            if stored == Unknown && Seen(ident, steps) then ident.BootstrapTopics() else []
    decreases |steps|
  {
    if steps == [] {
      assert !Seen(ident, steps);
    } else if steps[0].envelope.source != ident.boxId {
      BootstrapAtMostOnce(ident, stored, steps[1..]);
      assert Seen(ident, steps) == Seen(ident, steps[1..]) by {
        if Seen(ident, steps) {
          var i :| 0 <= i < |steps| && steps[i].envelope.source == ident.boxId;
          assert steps[1..][i - 1] == steps[i];
        }
        if Seen(ident, steps[1..]) {
          var i :| 0 <= i < |steps[1..]| && steps[1..][i].envelope.source == ident.boxId;
          assert steps[i + 1] == steps[1..][i];
        }
      }
    } else {
      var head := LifecycleEffects(ident, stored, steps[0].envelope.state, steps[0].firstId, steps[0].secondId);
      BootstrapAtMostOnce(ident, steps[0].envelope.state, steps[1..]);
      SubscribedTopicsAppend(head, Run(ident, steps[0].envelope.state, steps[1..]));
      assert Seen(ident, steps) by { assert steps[0].envelope.source == ident.boxId; }
    }
  }

  /** `n` copies of `s`, one after the other. */
  function Repeat(s: seq<string>, n: nat): seq<string>
  {
    if n == 0 then [] else s + Repeat(s, n - 1)
  }

  /** A box that keeps reporting UNKNOWN is bootstrapped again on every one of its messages. */
  lemma {:induction false} BootstrapRepeatsWhileUnknown(ident: Identity, steps: seq<Step>)
    requires forall i :: 0 <= i < |steps| && steps[i].envelope.source == ident.boxId ==> steps[i].envelope.state == Unknown
    ensures SubscribedTopics(Run(ident, Unknown, steps)) == Repeat(ident.BootstrapTopics(), Matching(ident, steps))
    ensures StateAfter(ident, Unknown, steps) == Unknown
    decreases |steps|
  {
    if steps != [] {
      BootstrapRepeatsWhileUnknown(ident, steps[1..]);
      if steps[0].envelope.source == ident.boxId {
        var head := LifecycleEffects(ident, Unknown, Unknown, steps[0].firstId, steps[0].secondId);
        SubscribedTopicsAppend(head, Run(ident, Unknown, steps[1..]));
      }
    }
  }
}
