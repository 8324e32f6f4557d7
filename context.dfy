/**
 * The UCR context: the registry of profiles and device groups, the single
 * active-profile slot with its set-then-roll-back activation, the dirty flag
 * and the list of "active profile changed" callbacks.
 *
 * Calls into collaborators whose code is not part of this model
 * (Profile.Activate, Profile.SubscribeDeviceLists,
 * Profile.UnsubscribeDeviceLists, DeviceGroup.RemoveDevice) take their
 * outcome as a parameter. The calls to Profile.Activate,
 * SubscribeDeviceLists, UnsubscribeDeviceLists,
 * IOController.SetProfileState and the callbacks are appended to the ghost
 * `trace`; DeviceGroup.RemoveDevice and Profile.CreateProfile are not traced.
 */
module Context {
  import opened Common
  import opened DeviceGroups
  import opened Events

  /** A profile as the context sees it: its identity and its title. */
  datatype Profile = Profile(guid: Guid, title: string)

  class UcrContext {
    // Persisted state
    var profiles: seq<Profile>
    var keyboardGroups: seq<DeviceGroup>
    var miceGroups: seq<DeviceGroup>
    var joystickGroups: seq<DeviceGroup>
    var genericDeviceGroups: seq<DeviceGroup>

    // Runtime state
    var isNotSaved: bool
    var activeProfile: Option<Profile>
    var activeProfileCallbacks: seq<CallbackId>

    /** Calls made to the profile, the I/O controller and the callbacks, oldest first. */
    ghost var trace: seq<Event>

    constructor ()
      ensures profiles == [] && !isNotSaved && activeProfile == None
      ensures keyboardGroups == [] && miceGroups == [] && joystickGroups == [] && genericDeviceGroups == []
      ensures activeProfileCallbacks == [] && trace == []
    {
      isNotSaved := false;
      profiles := [];
      keyboardGroups, miceGroups, joystickGroups, genericDeviceGroups := [], [], [], [];
      activeProfile := None;
      activeProfileCallbacks := [];
      trace := [];
    }

    /** The Guid of the active profile, if any. */
    function ActiveGuid(): Option<Guid>
      reads this
    {
      if activeProfile.Some? then Some(activeProfile.value.guid) else None
    }

    /** The active profile has Guid `guid`. */
    predicate IsActive(guid: Guid)
      reads this
    {
      activeProfile.Some? && activeProfile.value.guid == guid
    }

    // ---------------------------------------------------------------- Profile

    /** Appends a new profile; `newGuid` is the Guid Profile.CreateProfile draws. */
    method AddProfile(title: string, newGuid: Guid) returns (ok: bool)
      modifies this`profiles, this`isNotSaved
      ensures ok
      ensures profiles == old(profiles) + [Profile(newGuid, title)]
      ensures isNotSaved
    {
      profiles := profiles + [Profile(newGuid, title)];
      isNotSaved := true;
      ok := true;
    }

    /**
     * Makes `profile` the active one. `activateResult`, `subscribeResult` and
     * `unsubscribeResult` are what Profile.Activate, the new profile's
     * SubscribeDeviceLists and the previous profile's UnsubscribeDeviceLists
     * return; the last two do not influence the outcome.
     */
    method ActivateProfile(profile: Profile, activateResult: bool, subscribeResult: bool,
                           unsubscribeResult: bool) returns (success: bool)
      modifies this`activeProfile, this`trace
      // Already active (by Guid): nothing happens.
      ensures old(IsActive(profile.guid)) ==>
                success && activeProfile == old(activeProfile) && trace == old(trace)
      // Otherwise the outcome is that of Profile.Activate; on failure the previous
      // profile is restored, on success the new one is installed.
      ensures !old(IsActive(profile.guid)) ==>
                success == activateResult &&
                activeProfile == (if activateResult then Some(profile) else old(activeProfile)) &&
                trace == old(trace) + ActivationEvents(profile.guid, old(ActiveGuid()), activateResult,
                                                       activeProfileCallbacks)
    {
      success := true;
      if IsActive(profile.guid) {
        return;
      }
      var lastActiveProfile := activeProfile;
      activeProfile := Some(profile);
      trace := trace + [ActivateCalled(profile.guid, ActiveGuid())];
      success := success && activateResult;
      if success {
        // The result of SubscribeDeviceLists is not looked at.
        trace := trace + [SubscribeCalled(profile.guid)];
        trace := trace + [ProfileStateSet(profile.guid, true)];
        var deactivated := DeactivateProfile(lastActiveProfile, unsubscribeResult);
        RunCallbacks();
      } else {
        // Activation failed, the old profile is still active.
        activeProfile := lastActiveProfile;
      }
    }

    /**
     * Deactivates `profile`. `unsubscribeResult` is what its
     * UnsubscribeDeviceLists returns. The active slot is cleared only when
     * `profile` is the active one, yet the unsubscribe, the I/O controller
     * call and the callbacks happen whichever profile is passed.
     */
    method DeactivateProfile(profile: Option<Profile>, unsubscribeResult: bool) returns (success: bool)
      modifies this`activeProfile, this`trace
      ensures old(activeProfile).None? || profile.None? ==>
                success && activeProfile == old(activeProfile) && trace == old(trace)
      ensures old(activeProfile).Some? && profile.Some? ==>
                success == unsubscribeResult &&
                activeProfile == (if old(IsActive(profile.value.guid)) then None else old(activeProfile)) &&
                trace == old(trace) + DeactivationEvents(profile.value.guid, ActiveGuid(), activeProfileCallbacks)
    {
      if activeProfile.None? || profile.None? {
        return true;
      }
      if activeProfile.value.guid == profile.value.guid {
        activeProfile := None;
      }
      success := unsubscribeResult;
      trace := trace + [UnsubscribeCalled(profile.value.guid), ProfileStateSet(profile.value.guid, false)];
      RunCallbacks();
    }

    /** Runs every registered callback once, in registration order. */
    method RunCallbacks()
      modifies this`trace
      ensures trace == old(trace) + CallbackEvents(activeProfileCallbacks, ActiveGuid())
    {
      for i := 0 to |activeProfileCallbacks|
        invariant trace == old(trace) + CallbackEvents(activeProfileCallbacks[..i], ActiveGuid())
      {
        CallbackEventsSplit(activeProfileCallbacks[..i], [activeProfileCallbacks[i]], ActiveGuid());
        assert activeProfileCallbacks[..i + 1] == activeProfileCallbacks[..i] + [activeProfileCallbacks[i]];
        trace := trace + [CallbackRan(activeProfileCallbacks[i], ActiveGuid())];
      }
      assert activeProfileCallbacks[..|activeProfileCallbacks|] == activeProfileCallbacks;
    }

    /** Registers a callback to run whenever the active profile changes. */
    method SetActiveProfileCallback(callback: CallbackId)
      modifies this`activeProfileCallbacks
      ensures activeProfileCallbacks == old(activeProfileCallbacks) + [callback]
    {
      activeProfileCallbacks := activeProfileCallbacks + [callback];
    }

    // ------------------------------------------------------------ DeviceGroup

    /** The list of groups kept for `kind`. */
    function GetDeviceGroupList(kind: DeviceType): (r: seq<DeviceGroup>)
      reads this
      ensures kind == Joystick ==> r == joystickGroups
      ensures kind == Keyboard ==> r == keyboardGroups
      ensures kind == Mouse ==> r == miceGroups
      ensures kind == Generic ==> r == genericDeviceGroups
    {
      match kind
      case Joystick => joystickGroups
      case Keyboard => keyboardGroups
      case Mouse => miceGroups
      case Generic => genericDeviceGroups
    }

    /**
     * Every list field other than the one kept for `kind` has its value from
     * before the call. Stated field by field, so that callers can read
     * `miceGroups` or `joystickGroups` directly.
     */
    twostate predicate OtherListsUnchanged(kind: DeviceType)
      reads this
    {
      && (kind != Joystick ==> joystickGroups == old(joystickGroups))
      && (kind != Keyboard ==> keyboardGroups == old(keyboardGroups))
      && (kind != Mouse ==> miceGroups == old(miceGroups))
      && (kind != Generic ==> genericDeviceGroups == old(genericDeviceGroups))
    }

    /**
     * Replaces the list kept for `kind`; the other three lists stay as they
     * are. This stands for the in-place `Add`, `Remove` and element updates
     * the context performs on the list `GetDeviceGroupList` returns.
     */
    method SetDeviceGroupList(kind: DeviceType, groups: seq<DeviceGroup>)
      modifies this`keyboardGroups, this`miceGroups, this`joystickGroups, this`genericDeviceGroups
      ensures GetDeviceGroupList(kind) == groups
      ensures forall k :: k != kind ==> GetDeviceGroupList(k) == old(GetDeviceGroupList(k))
      ensures OtherListsUnchanged(kind)
    {
      match kind
      case Joystick => joystickGroups := groups;
      case Keyboard => keyboardGroups := groups;
      case Mouse => miceGroups := groups;
      case Generic => genericDeviceGroups := groups;
    }

    /** The first group of `kind` with Guid `guid`, or None. */
    function GetDeviceGroup(kind: DeviceType, guid: Guid): (r: Option<DeviceGroup>)
      reads this
      ensures r.Some? ==> r.value.guid == guid &&
                          exists i :: 0 <= i < |GetDeviceGroupList(kind)| && GetDeviceGroupList(kind)[i] == r.value &&
                                      forall j :: 0 <= j < i ==> GetDeviceGroupList(kind)[j].guid != guid
      ensures r.None? <==> forall g :: g in GetDeviceGroupList(kind) ==> g.guid != guid
    {
      var groups := GetDeviceGroupList(kind);
      var i := FirstIndexOf(groups, guid);
      if i.Some? then Some(groups[i.value]) else None
    }

    /** Appends a new empty group of `kind`; `newGuid` is the Guid the new group draws. */
    method AddDeviceGroup(title: string, kind: DeviceType, newGuid: Guid) returns (r: Guid)
      modifies this`keyboardGroups, this`miceGroups, this`joystickGroups, this`genericDeviceGroups,
               this`isNotSaved
      ensures r == newGuid
      ensures GetDeviceGroupList(kind) == old(GetDeviceGroupList(kind)) + [DeviceGroup(newGuid, title, [])]
      ensures forall k :: k != kind ==> GetDeviceGroupList(k) == old(GetDeviceGroupList(k))
      ensures OtherListsUnchanged(kind)
      ensures isNotSaved
      // When the drawn Guid is new to that list, looking it up finds the new group.
      ensures old(GetDeviceGroup(kind, newGuid)).None? ==>
                GetDeviceGroup(kind, r) == Some(DeviceGroup(newGuid, title, []))
      ensures old(GetDeviceGroup(kind, newGuid)).None? && old(DistinctGuids(GetDeviceGroupList(kind))) ==>
                DistinctGuids(GetDeviceGroupList(kind))
    {
      var deviceGroup := DeviceGroup(newGuid, title, []);
      ghost var before := GetDeviceGroupList(kind);
      SetDeviceGroupList(kind, GetDeviceGroupList(kind) + [deviceGroup]);
      isNotSaved := true;
      r := deviceGroup.guid;
      if FirstIndexOf(before, newGuid).None? {
        LookupAfterAppend(before, deviceGroup);
      }
    }

    /** Removes the first group of `kind` with Guid `guid`; false, and no change, when there is none. */
    method RemoveDeviceGroup(guid: Guid, kind: DeviceType) returns (removed: bool)
      modifies this`keyboardGroups, this`miceGroups, this`joystickGroups, this`genericDeviceGroups,
               this`isNotSaved
      ensures removed <==> old(GetDeviceGroup(kind, guid)).Some?
      ensures !removed ==> GetDeviceGroupList(kind) == old(GetDeviceGroupList(kind)) &&
                           isNotSaved == old(isNotSaved)
      ensures removed ==> isNotSaved &&
                          GetDeviceGroupList(kind) == RemoveAt(old(GetDeviceGroupList(kind)),
                                                               old(FirstIndexOf(GetDeviceGroupList(kind), guid)).value)
      ensures forall k :: k != kind ==> GetDeviceGroupList(k) == old(GetDeviceGroupList(k))
      ensures OtherListsUnchanged(kind)
      // In a list whose Guids are distinct the removed Guid is then gone.
      ensures removed && old(DistinctGuids(GetDeviceGroupList(kind))) ==>
                GetDeviceGroup(kind, guid).None? && DistinctGuids(GetDeviceGroupList(kind))
    {
      var deviceGroups := GetDeviceGroupList(kind);
      var found := FirstIndexOf(deviceGroups, guid);
      assert GetDeviceGroup(kind, guid).Some? <==> found.Some?;
      if found.None? {
        return false;
      }
      if DistinctGuids(deviceGroups) {
        RemovedGroupIsGone(deviceGroups, guid);
      }
      var remaining := RemoveAt(deviceGroups, found.value);
      SetDeviceGroupList(kind, remaining);
      assert GetDeviceGroupList(kind) == remaining;
      isNotSaved := true;
      removed := true;
    }

    /** Renames the first group of `kind` with Guid `guid`, which must exist. */
    method RenameDeviceGroup(guid: Guid, kind: DeviceType, title: string) returns (ok: bool)
      requires GetDeviceGroup(kind, guid).Some?
      modifies this`keyboardGroups, this`miceGroups, this`joystickGroups, this`genericDeviceGroups,
               this`isNotSaved
      ensures ok && isNotSaved
      ensures var i := old(FirstIndexOf(GetDeviceGroupList(kind), guid)).value;
              GetDeviceGroupList(kind) == old(GetDeviceGroupList(kind))[i := old(GetDeviceGroupList(kind))[i].(title := title)]
      ensures forall k :: k != kind ==> GetDeviceGroupList(k) == old(GetDeviceGroupList(k))
      ensures OtherListsUnchanged(kind)
      ensures GetDeviceGroup(kind, guid) == Some(old(GetDeviceGroup(kind, guid)).value.(title := title))
    {
      var deviceGroups := GetDeviceGroupList(kind);
      var i := FirstIndexOf(deviceGroups, guid).value;
      var renamed := deviceGroups[i].(title := title);
      LookupAfterUpdate(deviceGroups, guid, renamed);
      SetDeviceGroupList(kind, deviceGroups[i := renamed]);
      isNotSaved := true;
      ok := true;
    }

    /** Appends `device` to the first group of `kind` with Guid `guid`, which must exist. */
    method AddDeviceToDeviceGroup(device: Device, kind: DeviceType, guid: Guid)
      requires GetDeviceGroup(kind, guid).Some?
      modifies this`keyboardGroups, this`miceGroups, this`joystickGroups, this`genericDeviceGroups,
               this`isNotSaved
      ensures isNotSaved
      ensures var i := old(FirstIndexOf(GetDeviceGroupList(kind), guid)).value;
              GetDeviceGroupList(kind) ==
                old(GetDeviceGroupList(kind))[i := old(GetDeviceGroupList(kind))[i].(devices := old(GetDeviceGroupList(kind))[i].devices + [device])]
      ensures forall k :: k != kind ==> GetDeviceGroupList(k) == old(GetDeviceGroupList(k))
      ensures OtherListsUnchanged(kind)
      ensures GetDeviceGroup(kind, guid).Some? &&
              GetDeviceGroup(kind, guid).value.devices == old(GetDeviceGroup(kind, guid)).value.devices + [device]
    {
      var deviceGroups := GetDeviceGroupList(kind);
      var i := FirstIndexOf(deviceGroups, guid).value;
      var extended := deviceGroups[i].(devices := deviceGroups[i].devices + [device]);
      LookupAfterUpdate(deviceGroups, guid, extended);
      SetDeviceGroupList(kind, deviceGroups[i := extended]);
      isNotSaved := true;
    }

    /**
     * Removes `device` from the first group of `kind` with Guid `guid`, which
     * must exist. `removeDevice` is DeviceGroup.RemoveDevice: given the
     * group's devices and the device's Guid, the devices it keeps.
     */
    method RemoveDeviceFromDeviceGroup(device: Device, kind: DeviceType, guid: Guid,
                                       removeDevice: (seq<Device>, Guid) -> seq<Device>)
      requires GetDeviceGroup(kind, guid).Some?
      modifies this`keyboardGroups, this`miceGroups, this`joystickGroups, this`genericDeviceGroups,
               this`isNotSaved
      ensures isNotSaved
      ensures var i := old(FirstIndexOf(GetDeviceGroupList(kind), guid)).value;
              var g := old(GetDeviceGroupList(kind))[i];
              GetDeviceGroupList(kind) == old(GetDeviceGroupList(kind))[i := g.(devices := removeDevice(g.devices, device.guid))]
      ensures forall k :: k != kind ==> GetDeviceGroupList(k) == old(GetDeviceGroupList(k))
      ensures OtherListsUnchanged(kind)
      ensures GetDeviceGroup(kind, guid).Some? &&
              GetDeviceGroup(kind, guid).value.title == old(GetDeviceGroup(kind, guid)).value.title
    {
      var deviceGroups := GetDeviceGroupList(kind);
      var i := FirstIndexOf(deviceGroups, guid).value;
      var shrunk := deviceGroups[i].(devices := removeDevice(deviceGroups[i].devices, device.guid));
      LookupAfterUpdate(deviceGroups, guid, shrunk);
      SetDeviceGroupList(kind, deviceGroups[i := shrunk]);
      isNotSaved := true;
    }

    // ------------------------------------------------------------ Persistence

    /** Marks the context as having unsaved changes. */
    method ContextChanged()
      modifies this`isNotSaved
      ensures isNotSaved
    {
      isNotSaved := true;
    }
  }

  /**
   * Activating the same profile twice in a row: when the first call succeeds
   * the second one also succeeds and changes nothing, whatever its
   * collaborators would have answered.
   */
  method ActivateTwice(ctx: UcrContext, profile: Profile,
                       activate1: bool, subscribe1: bool, unsubscribe1: bool,
                       activate2: bool, subscribe2: bool, unsubscribe2: bool)
    returns (first: bool, second: bool)
    modifies ctx`activeProfile, ctx`trace
    ensures first ==> second && ctx.IsActive(profile.guid)
    ensures first ==>
              ctx.trace == old(ctx.trace) +
                           (if old(ctx.IsActive(profile.guid)) then []
                            else ActivationEvents(profile.guid, old(ctx.ActiveGuid()), true,
                                                  ctx.activeProfileCallbacks))
  {
    first := ctx.ActivateProfile(profile, activate1, subscribe1, unsubscribe1);
    second := ctx.ActivateProfile(profile, activate2, subscribe2, unsubscribe2);
  }
}
