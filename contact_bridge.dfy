/**
 * The contact event bridge: the four listeners attached to each shape and the
 * entity events they trigger when the solver reports a contact.
 */
module ContactBridge {
  import opened Common
  import opened Components
  import opened TextSplit
  import opened Entities

  datatype ContactKind = Begin | End | PreSolve | Progress

  /**
   * One listener registered with `shape.addEventListener(kind, ...)`: the closure
   * captures the owning entity's id and its contact trigger, if any.
   */
  datatype ContactHandler = ContactHandler(kind: ContactKind, owner: EntityId, trigger: Option<ContactTrigger>)

  /** The listeners `createContactListener` registers, in registration order. */
  function ContactListenerSet(owner: EntityId, trigger: Option<ContactTrigger>): (hs: seq<ContactHandler>)
    ensures |hs| == 4
    ensures hs[0].kind == Begin && hs[1].kind == End && hs[2].kind == PreSolve && hs[3].kind == Progress
    ensures forall i :: 0 <= i < |hs| ==> hs[i].owner == owner && hs[i].trigger == trigger
  {
    [ContactHandler(Begin, owner, trigger), ContactHandler(End, owner, trigger),
     ContactHandler(PreSolve, owner, trigger), ContactHandler(Progress, owner, trigger)]
  }

  /** The other entity's id as read from `shape.body.userData`. */
  function UserDataParam(userData: Option<EntityId>): Param
  {
    match userData
    case None => Undefined
    case Some(id) => Ref(id)
  }

  function Tokens(parts: seq<string>): (ps: seq<Param>)
    ensures |ps| == |parts|
    ensures forall i :: 0 <= i < |ps| ==> ps[i] == Token(parts[i])
  {
    seq(|parts|, i requires 0 <= i < |parts| => Token(parts[i]))
  }

  /** The texts of a list of token parameters (the inverse of Tokens). */
  function TokenTexts(ps: seq<Param>): (parts: seq<string>)
    requires forall i :: 0 <= i < |ps| ==> ps[i].Token?
    ensures |parts| == |ps|
    ensures Tokens(parts) == ps
  {
    seq(|ps|, i requires 0 <= i < |ps| => ps[i].text)
  }

  /**
   * The event `triggerContactEntityEvent` triggers: on the owning entity, with the
   * other entity's id followed by the extra parameters.
   */
  function ContactEvent(eventId: string, owner: EntityId, other: Option<EntityId>, params: seq<Param>): (e: Event)
    ensures e.entityId == owner && e.eventId == eventId
    ensures |e.params| == 1 + |params| && e.params[0] == UserDataParam(other) && e.params[1..] == params
  {
    Event(owner, eventId, [UserDataParam(other)] + params)
  }

  /** The generic event name of each contact kind. */
  function GenericEventId(kind: ContactKind): string
  {
    match kind
    case Begin => "onBeginContact"
    case End => "onEndContact"
    case PreSolve => "preSolve"
    case Progress => "progress"
  }

  /** The events one listener triggers when the solver calls it with `(arbiter, otherShape)`. */
  function ContactEvents(h: ContactHandler, arbiter: Arbiter, other: Option<EntityId>): (es: seq<Event>)
    ensures 1 <= |es| <= 2
    ensures forall i :: 0 <= i < |es| ==> es[i].entityId == h.owner && |es[i].params| >= 1 && es[i].params[0] == UserDataParam(other)
    ensures es[0].eventId == GenericEventId(h.kind)
    ensures h.kind == PreSolve ==> es[0].params == [UserDataParam(other), ArbiterArg(arbiter)]
    ensures h.kind != PreSolve ==> es[0].params == [UserDataParam(other)]
    ensures |es| == 2 <==> h.kind == Begin && h.trigger.Some?
    ensures |es| == 2 ==> es[1].eventId == h.trigger.value.eventId && |es[1].params| >= 1
                          && es[1].params[1..] == Tokens(Split(h.trigger.value.parameters, ','))
  {
    match h.kind
    case Begin =>
      [ContactEvent(GenericEventId(Begin), h.owner, other, [])]
      + (match h.trigger
         case None => []
         case Some(t) => [ContactEvent(t.eventId, h.owner, other, Tokens(Split(t.parameters, ',')))])
    case End => [ContactEvent(GenericEventId(End), h.owner, other, [])]
    case PreSolve => [ContactEvent(GenericEventId(PreSolve), h.owner, other, [ArbiterArg(arbiter)])]
    case Progress => [ContactEvent(GenericEventId(Progress), h.owner, other, [])]
  }

  /** Contact notification is one-sided: no event of a listener targets the other entity. */
  lemma AsymmetricContactNotification(h: ContactHandler, arbiter: Arbiter, other: EntityId)
    requires other != h.owner
    ensures forall e :: e in ContactEvents(h, arbiter, Some(other)) ==> e.entityId != other
  {
  }

  /**
   * The trigger event's parameters after the other entity's id are exactly the
   * comma-separated tokens of the configured parameter string: joining them back
   * gives that string, and none contains a comma.
   */
  lemma TriggerParametersRoundTrip(h: ContactHandler, arbiter: Arbiter, other: Option<EntityId>)
    requires h.kind == Begin && h.trigger.Some?
    ensures var es := ContactEvents(h, arbiter, other);
            |es| == 2
            && (forall i :: 1 <= i < |es[1].params| ==> es[1].params[i].Token? && ',' !in es[1].params[i].text)
            && Join(TokenTexts(es[1].params[1..]), ',') == h.trigger.value.parameters
  {
    var es := ContactEvents(h, arbiter, other);
    var parts := Split(h.trigger.value.parameters, ',');
    assert es[1].params[1..] == Tokens(parts);
    var ps := es[1].params[1..];
    assert forall i :: 0 <= i < |ps| ==> ps[i] == Token(parts[i]);
    assert TokenTexts(ps) == parts;
    JoinSplit(h.trigger.value.parameters, ',');
  }

  /** `triggerContactEntityEvent`: triggers one event on the owning entity. */
  method TriggerContactEntityEvent(em: EntityManager, eventId: string, owner: EntityId, other: Option<EntityId>, params: seq<Param>)
    modifies em`events
    ensures em.events == old(em.events) + [ContactEvent(eventId, owner, other, params)]
  {
    em.TriggerEvent(owner, eventId, [UserDataParam(other)] + params);
  }

  /** The solver calling listener `h` with `(arbiter, otherShape)`. */
  method OnContact(em: EntityManager, h: ContactHandler, arbiter: Arbiter, other: Option<EntityId>)
    modifies em`events
    ensures em.events == old(em.events) + ContactEvents(h, arbiter, other)
  {
    match h.kind {
      case Begin =>
        TriggerContactEntityEvent(em, GenericEventId(Begin), h.owner, other, []);
        if h.trigger.Some? {
          var t := h.trigger.value;
          TriggerContactEntityEvent(em, t.eventId, h.owner, other, Tokens(Split(t.parameters, ',')));
        }
      case End =>
        TriggerContactEntityEvent(em, GenericEventId(End), h.owner, other, []);
      case PreSolve =>
        TriggerContactEntityEvent(em, GenericEventId(PreSolve), h.owner, other, [ArbiterArg(arbiter)]);
      case Progress =>
        TriggerContactEntityEvent(em, GenericEventId(Progress), h.owner, other, []);
    }
  }

  /** One call the solver makes of a registered listener, with its `(arbiter, otherShape)`. */
  datatype ContactCall = ContactCall(handler: ContactHandler, arbiter: Arbiter, other: Option<EntityId>)

  /** The events a sequence of listener calls triggers, in call order. */
  function ContactLog(calls: seq<ContactCall>): seq<Event>
    decreases |calls|
  {
    if calls == [] then []
    else
      var c := calls[|calls| - 1];
      ContactLog(calls[..|calls| - 1]) + ContactEvents(c.handler, c.arbiter, c.other)
  }

  /** Every event of a sequence of listener calls targets the owner of one of the called listeners. */
  lemma {:induction false} ContactLogTargetsOwners(calls: seq<ContactCall>)
    ensures forall i :: 0 <= i < |ContactLog(calls)| ==>
              exists k :: 0 <= k < |calls| && ContactLog(calls)[i].entityId == calls[k].handler.owner
    decreases |calls|
  {
    if calls != [] {
      var front := calls[..|calls| - 1];
      var c := calls[|calls| - 1];
      ContactLogTargetsOwners(front);
      var log := ContactLog(calls);
      var es := ContactEvents(c.handler, c.arbiter, c.other);
      assert log == ContactLog(front) + es;
      forall i | 0 <= i < |ContactLog(calls)|
        ensures exists k :: 0 <= k < |calls| && ContactLog(calls)[i].entityId == calls[k].handler.owner
      {
        if i < |ContactLog(front)| {
          assert log[i] == ContactLog(front)[i];
          var k :| 0 <= k < |front| && ContactLog(front)[i].entityId == front[k].handler.owner;
          assert calls[k] == front[k];
          assert 0 <= k < |calls| && ContactLog(calls)[i].entityId == calls[k].handler.owner;
        } else {
          var n := i - |ContactLog(front)|;
          assert log[i] == es[n];
          assert es[n].entityId == c.handler.owner;
          assert calls[|calls| - 1] == c;
          assert ContactLog(calls)[i].entityId == calls[|calls| - 1].handler.owner;
        }
      }
    } else {
      assert ContactLog(calls) == [];
    }
  }

  /** The solver calling the listeners of `calls` one after another. */
  method DispatchContacts(em: EntityManager, calls: seq<ContactCall>)
    modifies em`events
    ensures em.events == old(em.events) + ContactLog(calls)
  {
    var i := 0;
    while i < |calls|
      invariant 0 <= i <= |calls|
      invariant em.events == old(em.events) + ContactLog(calls[..i])
    {
      assert calls[..i + 1][..i] == calls[..i];
      OnContact(em, calls[i].handler, calls[i].arbiter, calls[i].other);
      i := i + 1;
    }
    assert calls[..i] == calls;
  }

  /**
   * `[entityIdB].concat(params)` as JavaScript evaluates it: an array argument is
   * spread, but an omitted (`undefined`) argument is appended as one more element.
   */
  function ConcatAsWritten(head: Param, params: Option<seq<Param>>): (r: seq<Param>)
    ensures |r| >= 1 && r[0] == head
    ensures params.None? ==> |r| == 2 && r[1] == Undefined
    ensures params.Some? ==> r[1..] == params.value
  {
    match params
    case None => [head, Undefined]
    case Some(ps) => [head] + ps
  }

  /** `triggerContactEntityEvent` exactly as written, where callers may omit `params`. */
  function ContactEventAsWritten(eventId: string, owner: EntityId, other: Option<EntityId>, params: Option<seq<Param>>): (e: Event)
    ensures e.entityId == owner && e.eventId == eventId
    ensures params.None? ==> e.params == [UserDataParam(other), Undefined]
  {
    Event(owner, eventId, ConcatAsWritten(UserDataParam(other), params))
  }

  /**
   * The begin, end and progress listeners omit `params`, so as written their generic
   * event carries a trailing `undefined` that the corrected ContactEvent does not.
   */
  lemma OmittedParamsBecomeUndefined(h: ContactHandler, arbiter: Arbiter, other: Option<EntityId>)
    requires h.kind != PreSolve
    ensures ContactEventAsWritten(GenericEventId(h.kind), h.owner, other, None).params
            == ContactEvents(h, arbiter, other)[0].params + [Undefined]
    ensures ContactEventAsWritten(GenericEventId(h.kind), h.owner, other, None) != ContactEvents(h, arbiter, other)[0]
  {
  }
}
