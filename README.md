# UCR context: profile activation and device-group registry

A Dafny model of `UCRContext`, the aggregate root of UCR (Universal Control
Remapper). The context holds:

- the user's profiles;
- four lists of device groups, one per device kind (joystick, keyboard, mouse,
  generic), chosen by `GetDeviceGroupList`;
- a dirty flag `IsNotSaved`;
- one optional active profile;
- a list of callbacks that run when the active profile changes.

The model is one class, `Context.UcrContext`, whose fields are the source's
fields. Lists become `seq` fields that the methods reassign. Every method
names the fields it changes in a field-level `modifies` clause, so each one
visibly leaves the other fields alone.

Collaborators whose code is not part of this model are handled as follows:

- `Profile.Activate`, `Profile.SubscribeDeviceLists` and
  `Profile.UnsubscribeDeviceLists` become boolean parameters that carry their
  result.
- `DeviceGroup.RemoveDevice` becomes a function parameter.
- The Guids that `Profile.CreateProfile` and `new DeviceGroup` draw become
  parameters.
- Each call to `Profile.Activate`, `SubscribeDeviceLists`,
  `UnsubscribeDeviceLists`, `IOController.SetProfileState` and to a callback
  is appended to a ghost `trace` of `Events.Event`s. `DeviceGroup.RemoveDevice`
  and `Profile.CreateProfile` are not traced. A call to `Profile.Activate` and
  a callback run each record the active profile's Guid at that moment, which
  is what that code would see if it polled the context.

The module `Events` gives, as functions, the exact sequence of events that
activation (`ActivationEvents`) and deactivation (`DeactivationEvents`)
produce. It also gives two projections of a trace: the callbacks run
(`Fired`) and the calls made to the profile and the I/O controller (`Calls`).
Lemmas there prove what those sequences mean:

- `Profile.Activate` runs with the new profile already in the active slot,
  whether it succeeds or fails.
- A failed activation calls nothing but `Profile.Activate`.
- A switch runs every callback twice, in registration order.
- During a switch the new profile is marked active before the old one is
  unsubscribed.

`ActivateProfile` and `DeactivateProfile` are proved to append exactly those
sequences. Module `DeviceGroups` holds the Guid lookup (first match, as LINQ's
`First`/`FirstOrDefault`) and list removal. It also holds lemmas that connect
lookup with add, remove and in-place update.

Behaviour of the code that the model keeps on purpose:

- Renaming a missing group, adding a device to one, or removing a device from
  one dereferences null or makes `First` throw. It does not report a "not
  found" result, so the model makes the group's existence a precondition.
- `RenameDeviceGroup` always returns true.
- Callbacks run in a plain loop with no per-callback failure isolation.
- `DeactivateProfile` unsubscribes the profile it is given, records
  `SetProfileState(guid, false)` and runs every callback even when that
  profile is not the active one. The asymmetry is kept.

## Model

| member | source | states |
|---|---|---|
| `DeviceGroups.FirstIndexOf` | UCR.Core/UCRContext.cs:112-115 | The result is the index of the FIRST group with the given Guid. It is None exactly when no group has that Guid. |
| `DeviceGroups.RemoveAt` | UCR.Core/UCRContext.cs:128 | Removing one element keeps the elements before it and shifts the ones after it down by one. The result is one shorter and has the input's multiset minus that element. |
| `DeviceGroups.RemovedGroupIsGone` | UCR.Core/UCRContext.cs:125-131 | In a list with distinct Guids, removing the group that the lookup found leaves no group with that Guid. Guids stay distinct. |
| `DeviceGroups.LookupAfterUpdate` | UCR.Core/UCRContext.cs:133-145 | Replacing the found group by one with the same Guid (renamed, or with a device added) leaves the lookup at the same index, so a later lookup returns the updated group. |
| `DeviceGroups.LookupAfterAppend` | UCR.Core/UCRContext.cs:117-123 | When an appended group's Guid is new to the list, the lookup finds it at the end, and distinct Guids stay distinct. |
| `Events.CallbackLoopRunsEachOnce` | UCR.Core/UCRContext.cs:101-104 | A callback loop runs each registered callback once, in registration order. It makes no other call, and every run sees the same active profile. |
| `Events.DeactivationRunsCallbacksOnce` | UCR.Core/UCRContext.cs:98-104 | Deactivation runs every callback exactly once. Its only calls are the profile's unsubscribe, then `SetProfileState(guid, false)`. |
| `Events.ActivationRunsCallbacks` | UCR.Core/UCRContext.cs:74-83 | Callback runs per activation: none if `Profile.Activate` fails; each callback once if nothing was active; each twice, in order, if another profile was active (once from its deactivation, once from the activation loop). |
| `Events.ActivationCalls` | UCR.Core/UCRContext.cs:72-90 | A failed activation calls only `Profile.Activate`: nothing is unsubscribed and no profile state is set. A successful one subscribes and marks the new profile active, THEN unsubscribes the previous one and marks it inactive. |
| `Events.ActivationSeesNewProfile` | UCR.Core/UCRContext.cs:72-83 | `Profile.Activate` is called while the new profile is already installed as active, whether it then succeeds or fails (the optimistic set before the call). Every callback run during a successful activation, including those run by deactivating the previous profile, also sees the new profile as active. |
| `Context.UcrContext.constructor` | UCR.Core/UCRContext.cs:34-50 | A new context has no profiles, groups, callbacks or active profile, and is not dirty. |
| `Context.UcrContext.AddProfile` | UCR.Core/UCRContext.cs:55-60 | Appends exactly one profile, sets the dirty flag and returns true. |
| `Context.UcrContext.ActivateProfile` | UCR.Core/UCRContext.cs:68-91 | If the Guid is already active, it returns true and changes nothing (no trace entry). Otherwise it installs the profile before calling `Profile.Activate` (the trace records that the call saw the new profile active) and returns what that call returned. On success the profile is installed; on failure the previous profile is restored. The trace grows by exactly `ActivationEvents`. The subscribe and unsubscribe results do not affect the outcome. |
| `Context.UcrContext.DeactivateProfile` | UCR.Core/UCRContext.cs:93-106 | With no active profile or a null argument: returns true and changes nothing. Otherwise the active slot is cleared only when the Guids match. The trace grows by `DeactivationEvents` for the given profile either way, and the result is the unsubscribe result. |
| `Context.UcrContext.RunCallbacks` | UCR.Core/UCRContext.cs:101-104 | The loop appends one run per registered callback, in registration order, each seeing the current active profile. |
| `Context.UcrContext.SetActiveProfileCallback` | UCR.Core/UCRContext.cs:172-175 | Appends the callback to the list. The dirty flag is not touched. |
| `Context.UcrContext.GetDeviceGroupList` | UCR.Core/UCRContext.cs:153-168 | Each kind selects its own list: joystick, keyboard, mouse and generic groups. |
| `Context.UcrContext.SetDeviceGroupList` | UCR.Core/UCRContext.cs:153-168 | Stands for the in-place `Add`, `Remove` and element updates made through the list reference `GetDeviceGroupList(kind)` returns: that list changes and the other three stay as they were, stated both through `GetDeviceGroupList` and field by field (`OtherListsUnchanged`), which every registry method also ensures. |
| `Context.UcrContext.GetDeviceGroup` | UCR.Core/UCRContext.cs:112-115 | Returns the FIRST group of that kind's list with the Guid (no earlier group has it), or None exactly when the list has no such group. |
| `Context.UcrContext.AddDeviceGroup` | UCR.Core/UCRContext.cs:117-123 | Appends one empty group to the kind's list only, sets the dirty flag and returns the new Guid. When that Guid was new, looking it up returns the new group and distinct Guids are kept. |
| `Context.UcrContext.RemoveDeviceGroup` | UCR.Core/UCRContext.cs:125-131 | Returns true iff a group with the Guid existed. If none did, nothing changes, the dirty flag included. If one did, exactly the first match is removed and the flag is set. The other lists never change. With distinct Guids the Guid is afterwards absent. |
| `Context.UcrContext.RenameDeviceGroup` | UCR.Core/UCRContext.cs:133-139 | For an existing Guid, sets only the first match's title, sets the dirty flag and returns true. A later lookup returns the renamed group. |
| `Context.UcrContext.AddDeviceToDeviceGroup` | UCR.Core/UCRContext.cs:141-145 | For an existing Guid, appends the device to the first match's devices and sets the dirty flag. A later lookup shows the extended device list. |
| `Context.UcrContext.RemoveDeviceFromDeviceGroup` | UCR.Core/UCRContext.cs:147-151 | For an existing Guid, replaces the first match's devices by what `RemoveDevice` keeps and sets the dirty flag. The group stays findable by its Guid, with its title unchanged. |
| `Context.UcrContext.ContextChanged` | UCR.Core/UCRContext.cs:180-183 | Sets the dirty flag. |
| `Context.ActivateTwice` | UCR.Core/UCRContext.cs:70-71 | Activating the same profile twice: if the first call succeeds, the second succeeds too and adds nothing to the trace. |

## Left out

- Persistence: `SaveContext`, `Load`, `PostLoad` and `GetXmlSerializer` are file I/O and reflection-driven XML serialisation. `SaveContext` would also clear `IsNotSaved`.
- `GetGlobalProfile` is a private, unused lookup by title.
- `ButtonToAxis` (`UCR/Models/Plugins/Remapper/ButtonToAxis.cs`) is not part of this model. It forwards the raw input value to `WriteOutput` through base-class code that is not shown, and it does no quantisation.
- The internals of `Profile.Activate`, `SubscribeDeviceLists`, `UnsubscribeDeviceLists`, `PostLoad`, `DeviceGroup.FindDeviceGroup` and `DeviceGroup.RemoveDevice` are not part of this model. Their results are parameters.
- The model assumes `FindDeviceGroup` returns the first group with the Guid, or null. That is what `GetDeviceGroup` does.
- The model assumes `new DeviceGroup(Title)` starts with an empty device list.
- The model assumes `DeviceGroup.RemoveDevice` changes only the group's `Devices`, never its Guid or title.
- The model assumes `Profile.CreateProfile`, `Profile.Activate`, `Profile.SubscribeDeviceLists`, `Profile.UnsubscribeDeviceLists`, `IOController.SetProfileState` and the callbacks do not change the context and do not throw. A profile is built with the context, so its methods could reach it. For example, if `UnsubscribeDeviceLists` threw during `DeactivateProfile`, the active slot would already be cleared with no `SetProfileState` call and no callbacks run; the model does not show that outcome.
- The model assumes `Profile.CreateProfile(context, title)` yields a profile carrying the given title and a newly drawn Guid.
- `IOController` is an external device backend. Its `SetProfileState` calls appear only as trace entries.
- The `IOController` field itself is not modelled.
- Aliasing is not modelled. Profiles and device groups are values, so an in-place rename is not seen through references held elsewhere.
- `ActivateProfile` with a null profile throws in the source. The model's profile parameter cannot be null.
- A `DeviceType` value outside the four kinds throws `ArgumentOutOfRangeException`. The model's closed `DeviceType` has no such value.
- Guid generation is random, so the new Guid is a parameter. The model does not assume it is unique; the lookup results above are stated under that condition.
- Concurrency and event-delivery threading are out of scope. The code shown is sequential.
