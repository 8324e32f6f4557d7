/**
 * The observable side effects of activation and deactivation, in the order
 * they happen: calls into the profile, calls into the I/O controller, and
 * runs of the registered "active profile changed" callbacks.
 */
module Events {
  import opened Common

  datatype Event =
    | ActivateCalled(profile: Guid, observed: Option<Guid>)
      // Profile.Activate(context), called while `observed` was the active profile's Guid
    | SubscribeCalled(profile: Guid)                      // Profile.SubscribeDeviceLists()
    | UnsubscribeCalled(profile: Guid)                    // Profile.UnsubscribeDeviceLists()
    | ProfileStateSet(profile: Guid, active: bool)        // IOController.SetProfileState
    | CallbackRan(callback: CallbackId, observed: Option<Guid>)
      // a callback ran while `observed` was the active profile's Guid

  /** One run of every callback, in registration order, each seeing `observed` as active. */
  function CallbackEvents(callbacks: seq<CallbackId>, observed: Option<Guid>): seq<Event>
  {
    if callbacks == [] then []
    else [CallbackRan(callbacks[0], observed)] + CallbackEvents(callbacks[1..], observed)
  }

  /** The callbacks run in a trace, in order. */
  function Fired(t: seq<Event>): seq<CallbackId>
  {
    if t == [] then []
    else (if t[0].CallbackRan? then [t[0].callback] else []) + Fired(t[1..])
  }

  /** The calls into the profile and the I/O controller in a trace, in order. */
  function Calls(t: seq<Event>): seq<Event>
  {
    if t == [] then []
    else (if t[0].CallbackRan? then [] else [t[0]]) + Calls(t[1..])
  }

  /** What deactivating `profile` emits: unsubscribe, mark inactive, run every callback. */
  function DeactivationEvents(profile: Guid, observed: Option<Guid>, callbacks: seq<CallbackId>): seq<Event>
  {
    [UnsubscribeCalled(profile), ProfileStateSet(profile, false)] + CallbackEvents(callbacks, observed)
  }

  /**
   * What activating `profile` emits when it is not already active, `previous`
   * being the Guid of the profile active before and `activated` the outcome of
   * Profile.Activate.
   */
  function ActivationEvents(profile: Guid, previous: Option<Guid>, activated: bool,
                            callbacks: seq<CallbackId>): seq<Event>
  {
    [ActivateCalled(profile, Some(profile))] +
    if !activated then []
    else
      [SubscribeCalled(profile), ProfileStateSet(profile, true)]
      + (match previous
         case None => []
         case Some(p) => DeactivationEvents(p, Some(profile), callbacks))
      + CallbackEvents(callbacks, Some(profile))
  }

  /** The callbacks run in two traces back to back are those of the first, then those of the second. */
  lemma {:induction false} FiredDistributes(a: seq<Event>, b: seq<Event>)
    ensures Fired(a + b) == Fired(a) + Fired(b)
  {
    if a == [] {
      assert a + b == b;
    } else {
      var head := if a[0].CallbackRan? then [a[0].callback] else [];
      assert (a + b)[0] == a[0];
      assert (a + b)[1..] == a[1..] + b;
      assert Fired(a + b) == head + Fired(a[1..] + b);
      FiredDistributes(a[1..], b);
      assert Fired(a) == head + Fired(a[1..]);
    }
  }

  /** The calls made in two traces back to back are those of the first, then those of the second. */
  lemma {:induction false} CallsDistribute(a: seq<Event>, b: seq<Event>)
    ensures Calls(a + b) == Calls(a) + Calls(b)
  {
    if a == [] {
      assert a + b == b;
    } else {
      var head := if a[0].CallbackRan? then [] else [a[0]];
      assert (a + b)[0] == a[0];
      assert (a + b)[1..] == a[1..] + b;
      assert Calls(a + b) == head + Calls(a[1..] + b);
      CallsDistribute(a[1..], b);
      assert Calls(a) == head + Calls(a[1..]);
    }
  }

  /** Both projections of a trace distribute over concatenation. */
  lemma ProjectionsDistribute(a: seq<Event>, b: seq<Event>)
    ensures Fired(a + b) == Fired(a) + Fired(b)
    ensures Calls(a + b) == Calls(a) + Calls(b)
  {
    FiredDistributes(a, b);
    CallsDistribute(a, b);
  }

  /** Running two lists of callbacks back to back is running their concatenation. */
  lemma {:induction false} CallbackEventsSplit(a: seq<CallbackId>, b: seq<CallbackId>, observed: Option<Guid>)
    ensures CallbackEvents(a + b, observed) == CallbackEvents(a, observed) + CallbackEvents(b, observed)
  {
    if a == [] {
      assert a + b == b;
    } else {
      assert (a + b)[0] == a[0];
      assert (a + b)[1..] == a[1..] + b;
      CallbackEventsSplit(a[1..], b, observed);
    }
  }

  /**
   * A callback loop runs exactly the registered callbacks in registration
   * order, calls nothing else, and every run sees the same active profile.
   */
  lemma {:induction false} CallbackLoopRunsEachOnce(callbacks: seq<CallbackId>, observed: Option<Guid>)
    ensures Fired(CallbackEvents(callbacks, observed)) == callbacks
    ensures Calls(CallbackEvents(callbacks, observed)) == []
    ensures forall e :: e in CallbackEvents(callbacks, observed) ==> e.CallbackRan? && e.observed == observed
  {
    if callbacks != [] {
      var rest := CallbackEvents(callbacks[1..], observed);
      CallbackLoopRunsEachOnce(callbacks[1..], observed);
      ProjectionsDistribute([CallbackRan(callbacks[0], observed)], rest);
      assert callbacks == [callbacks[0]] + callbacks[1..];
    }
  }

  /**
   * Deactivation runs every callback exactly once, and its only calls are
   * the unsubscribe of that profile followed by marking it inactive.
   */
  lemma DeactivationRunsCallbacksOnce(profile: Guid, observed: Option<Guid>, callbacks: seq<CallbackId>)
    ensures Fired(DeactivationEvents(profile, observed, callbacks)) == callbacks
    ensures Calls(DeactivationEvents(profile, observed, callbacks))
            == [UnsubscribeCalled(profile), ProfileStateSet(profile, false)]
  {
    var head := [UnsubscribeCalled(profile), ProfileStateSet(profile, false)];
    ProjectionsDistribute(head, CallbackEvents(callbacks, observed));
    CallbackLoopRunsEachOnce(callbacks, observed);
    assert Fired(head) == [] by { assert head[1..] == [ProfileStateSet(profile, false)]; }
    assert Calls(head) == head by { assert head[1..] == [ProfileStateSet(profile, false)]; }
  }

  /**
   * Callback counts of one activation: none when Profile.Activate fails,
   * each callback once (in registration order) when nothing was active
   * before, and each callback twice when another profile was active: once
   * from deactivating it and once from the activation loop.
   */
  lemma ActivationRunsCallbacks(profile: Guid, previous: Option<Guid>, activated: bool,
                                callbacks: seq<CallbackId>)
    ensures Fired(ActivationEvents(profile, previous, activated, callbacks))
            == if !activated then []
               else if previous.Some? then callbacks + callbacks
               else callbacks
  {
    var t := ActivationEvents(profile, previous, activated, callbacks);
    assert Fired([ActivateCalled(profile, Some(profile))]) == [];
    if activated {
      var head := [SubscribeCalled(profile), ProfileStateSet(profile, true)];
      var middle := match previous
                    case None => []
                    case Some(p) => DeactivationEvents(p, Some(profile), callbacks);
      var tail := CallbackEvents(callbacks, Some(profile));
      assert t == [ActivateCalled(profile, Some(profile))] + (head + middle + tail);
      ProjectionsDistribute([ActivateCalled(profile, Some(profile))], head + middle + tail);
      ProjectionsDistribute(head + middle, tail);
      ProjectionsDistribute(head, middle);
      assert Fired(head) == [] by { assert head[1..] == [ProfileStateSet(profile, true)]; }
      CallbackLoopRunsEachOnce(callbacks, Some(profile));
      if previous.Some? {
        DeactivationRunsCallbacksOnce(previous.value, Some(profile), callbacks);
      }
      assert Fired(middle) == if previous.Some? then callbacks else [];
      assert Fired(tail) == callbacks;
    } else {
      assert t == [ActivateCalled(profile, Some(profile))];
    }
  }

  /**
   * Calls made by one activation: only Profile.Activate when it fails (the
   * previous profile is neither unsubscribed nor marked inactive); on
   * success the new profile is subscribed and marked active BEFORE the
   * previous one, if any, is unsubscribed and marked inactive.
   */
  lemma ActivationCalls(profile: Guid, previous: Option<Guid>, activated: bool,
                        callbacks: seq<CallbackId>)
    ensures Calls(ActivationEvents(profile, previous, activated, callbacks))
            == if !activated then [ActivateCalled(profile, Some(profile))]
               else [ActivateCalled(profile, Some(profile)), SubscribeCalled(profile), ProfileStateSet(profile, true)]
                    + if previous.Some?
                      then [UnsubscribeCalled(previous.value), ProfileStateSet(previous.value, false)]
                      else []
  {
    var t := ActivationEvents(profile, previous, activated, callbacks);
    var first := [ActivateCalled(profile, Some(profile))];
    assert Calls(first) == first;
    if activated {
      var head := [SubscribeCalled(profile), ProfileStateSet(profile, true)];
      var middle := match previous
                    case None => []
                    case Some(p) => DeactivationEvents(p, Some(profile), callbacks);
      var tail := CallbackEvents(callbacks, Some(profile));
      assert t == first + (head + middle + tail);
      ProjectionsDistribute(first, head + middle + tail);
      ProjectionsDistribute(head + middle, tail);
      ProjectionsDistribute(head, middle);
      assert Calls(head) == head by { assert head[1..] == [ProfileStateSet(profile, true)]; }
      CallbackLoopRunsEachOnce(callbacks, Some(profile));
      if previous.Some? {
        DeactivationRunsCallbacksOnce(previous.value, Some(profile), callbacks);
      }
      assert Calls(middle) == if previous.Some?
                              then [UnsubscribeCalled(previous.value), ProfileStateSet(previous.value, false)]
                              else [];
      assert Calls(tail) == [];
    } else {
      assert t == first;
    }
  }

  /**
   * Profile.Activate is called with the new profile already installed in the
   * active slot, whether it then succeeds or fails; and every callback run
   * during a successful activation sees the new profile as active.
   */
  lemma ActivationSeesNewProfile(profile: Guid, previous: Option<Guid>, activated: bool,
                                 callbacks: seq<CallbackId>)
    ensures ActivationEvents(profile, previous, activated, callbacks)[0]
            == ActivateCalled(profile, Some(profile))
    ensures forall e :: e in ActivationEvents(profile, previous, activated, callbacks) && e.ActivateCalled?
                        ==> e.observed == Some(profile)
    ensures activated ==>
              forall e :: e in ActivationEvents(profile, previous, activated, callbacks) && e.CallbackRan?
                          ==> e.observed == Some(profile)
  {
    CallbackLoopRunsEachOnce(callbacks, Some(profile));
  }
}
