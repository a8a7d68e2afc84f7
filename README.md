# OpenMW inventory equip logic and sound registry, modelled in Dafny

This project models three small pieces of the OpenMW engine and proves what their code and documentation promise.

- **Inventory window** (`MWGui::InventoryWindow`, module `InventoryWindow`). Dropping a dragged item on the avatar equips it.
  The item goes into the first free candidate slot before the last one, and otherwise replaces the occupant of the last candidate slot.
  An item dragged in from another container is split: the source keeps the original count minus the dragged count, and a new inventory entry holds the dragged count.
  Unequipping clears the first slot that holds the item.
  The equipped items are listed in slot order.
  The filter buttons select a filter and leave only the pressed button selected.
  The inventory store is abstracted as a list of item references and an array of `Slots` equipment slots.
  Each slot is empty (the store's `end()` iterator) or holds the index of an item.
- **Sound instance** (`MWSound::Sound`, module `Sound`). A class whose constructor sets every field and whose three setters each change one field.
  The play type is the flags masked with `Play_TypeMask`.
  The heard volume is the instance volume times the base volume.
- **Sound manager registries** (`MWSound::SoundManager`, module `SoundManager`). A class holding the manager's containers as `seq` and `map` fields:
  - the append-only buffer list and the name-to-buffer map;
  - the unused-buffer list in front-newest order;
  - the active sounds of each object;
  - the single say sound of each actor, with its voice loudness data.

  Its methods state the disciplines documented in the header.
  The audio backend is outside the model. A sound the backend started comes in as a handle (`Option<SoundHandle>`, `None` when it could not start). Its answer to `isPlaying()` comes in as the set of handles it reports as playing. A say sound's `getTimeOffset()` comes in as a number.

Constants declared outside the modelled files:
- `InventoryWindow.SLOTS` is `MWWorld::InventoryStore::Slots`, taken as 19.
- `Sound.PLAY_TYPE_MASK` is `MWBase::SoundManager::Play_TypeMask`, taken as bits 4 to 8 (`0x1F0`).

No proof depends on either value.

Floats (volumes, positions, distances, times) are modelled as `real`, positions as a `Vec3` of reals.

The header documents the stop operations only as stopping a sound or an actor's speech. This model chooses to have them remove the registry entries at once.

## Model

| member | source | states |
|---|---|---|
| `InventoryWindow.ChosenCandidate` | apps/openmw/mwgui/inventorywindow.cpp:199-216 | the chosen candidate position is in range; every candidate before it is occupied; when it is not the last candidate its slot is empty. So the item goes to the first free slot before the last candidate, or to the last candidate when all earlier ones are occupied |
| `InventoryWindow.InventoryWindow.EquipInFirstFreeSlot` | apps/openmw/mwgui/inventorywindow.cpp:199-216 | exactly one slot changes, the one at the chosen candidate, and it now holds the item; with no candidates nothing changes |
| `InventoryWindow.IndexOf` | apps/openmw/mwgui/inventorywindow.cpp:186-195 | the result is the first position holding the item, or the end when the item is absent; it is before the end exactly when the item is in the store |
| `InventoryWindow.InventoryWindow.FindInStore` | apps/openmw/mwgui/inventorywindow.cpp:186-197 | the iterator search returns the first position of the dragged item, and is before the end exactly when the item is in the store |
| `InventoryWindow.InventoryStore.Add` | apps/openmw/mwgui/inventorywindow.cpp:182 | a fresh copy of the item, with its id and count, is appended; earlier items and all slots are unchanged |
| `InventoryWindow.InventoryStore.Equip` | apps/openmw/mwgui/inventorywindow.cpp:204-215 | the given slot gets the given iterator and no other slot changes |
| `InventoryWindow.InventoryWindow.OnAvatarClicked` | apps/openmw/mwgui/inventorywindow.cpp:144-226 | without a drag nothing changes; an item with no equipment slots is not equipped and no slot changes (that its store entries and count also stay the same is an assumption about the foreign use action, see "## Left out"); an item from another container leaves the source with the original count minus the dragged count, a new entry with the dragged count (the total is kept), and that entry equipped in the chosen slot; an item from the inventory must be in the store and its first position is equipped in the chosen slot; afterwards no drag is in progress |
| `InventoryWindow.OccupiedSlots` | apps/openmw/mwgui/inventorywindow.cpp:234-241 | the occupied slot numbers, strictly increasing, each occupied, and every occupied slot among them; at most one per slot |
| `InventoryWindow.EquippedItemsInSlotOrder` | apps/openmw/mwgui/inventorywindow.cpp:234-241 | the equipped-items list has one entry per occupied slot, at most one per slot, and its j-th entry is the occupant of the j-th occupied slot in increasing slot order |
| `InventoryWindow.InventoryWindow.GetEquippedItems` | apps/openmw/mwgui/inventorywindow.cpp:228-244 | the result is the list of occupants of the occupied slots in slot order, with at most `Slots` entries |
| `InventoryWindow.FirstHolder` | apps/openmw/mwgui/inventorywindow.cpp:250-258 | the result is the first slot holding the item, or the number of slots when no slot holds it |
| `InventoryWindow.InventoryWindow.UnequipItem` | apps/openmw/mwgui/inventorywindow.cpp:246-259 | the first slot holding the item becomes empty and every other slot is unchanged; when no slot holds it nothing changes |
| `InventoryWindow.InventoryWindow.OnFilterChanged` | apps/openmw/mwgui/inventorywindow.cpp:117-137 | the filter is the one of the pressed button, and exactly the pressed button is selected |
| `InventoryWindow.InventoryWindow.constructor` | apps/openmw/mwgui/inventorywindow.cpp:91 | only the All button starts selected |
| `Sound.PlayTypeOf` | apps/openmw/mwsound/sound.hpp:33-34 | the play type has no bit outside the type mask, agrees with the flags on every bit inside it, and together with the flags' non-type bits rebuilds the flags |
| `Sound.PlayTypeIgnoresModeBits` | apps/openmw/mwsound/sound.hpp:33-34 | setting bits outside the type mask (play-mode bits) does not change the play type |
| `Sound.Sound.GetPlayType` | apps/openmw/mwsound/sound.hpp:33-34 | the instance's play type has no bit outside the mask and is the type part of its flags |
| `Sound.Sound.constructor` | apps/openmw/mwsound/sound.hpp:37-46 | position, volume, base volume, pitch, minimum and maximum distance and flags are stored as given; the fade-out time is 0 |
| `Sound.Sound.SetPosition` | apps/openmw/mwsound/sound.hpp:29 | only the position changes; the play type and the heard volume stay |
| `Sound.Sound.SetVolume` | apps/openmw/mwsound/sound.hpp:30 | only the instance volume changes; the base volume and play type stay, and the heard volume becomes the new volume times the base volume |
| `Sound.Sound.SetFadeout` | apps/openmw/mwsound/sound.hpp:31 | only the fade-out time changes, to the given duration; the play type stays |
| `SoundManager.SoundManager.constructor` | apps/openmw/mwsound/soundmanagerimp.hpp:118 | all registries start empty |
| `SoundManager.SoundManager.LookupSound` | apps/openmw/mwsound/soundmanagerimp.hpp:96 | a buffer is found exactly when the name is registered, and then it is a valid buffer index |
| `SoundManager.SoundManager.InsertSound` | apps/openmw/mwsound/soundmanagerimp.hpp:54-64 | the new buffer is appended at the back and every existing buffer is unchanged; afterwards looking up the id finds the new buffer, and the lookup of every other id is unchanged |
| `SoundManager.SoundManager.MarkUnused` | apps/openmw/mwsound/soundmanagerimp.hpp:69-71 | a newly unused buffer goes to the front of the unused list; the oldest unused buffer at the back stays the same |
| `SoundManager.Without` | apps/openmw/mwsound/soundmanagerimp.hpp:69-71 | removing a buffer from the unused list keeps exactly the other buffers, as a subsequence of the old list (so in their old order), and a list without repeats stays without repeats |
| `SoundManager.SoundManager.MarkUsed` | apps/openmw/mwsound/soundmanagerimp.hpp:69-71 | a buffer used again leaves the unused list; the new list is the old one without that buffer, a subsequence of it, so the others keep their front-newest order |
| `SoundManager.SoundManager.Say` | apps/openmw/mwsound/soundmanagerimp.hpp:140-142 | the voice file's loudness data is loaded once; a started sound becomes the actor's single say entry, replacing any earlier one, and the actor is then not done speaking; a sound that did not start changes no say entry |
| `SoundManager.SoundManager.SayWithoutActor` | apps/openmw/mwsound/soundmanagerimp.hpp:144-146 | as `Say` for the empty Ptr: the voice file's loudness data is loaded once and other files' data is kept; a started sound becomes the say entry of the empty Ptr, which is then not done speaking; a sound that did not start changes no say entry |
| `SoundManager.SoundManager.StopSay` | apps/openmw/mwsound/soundmanagerimp.hpp:151-152 | the actor's say entry is removed, and other actors' entries are kept; afterwards the actor is done speaking (`SayDone`, the definition of sayDone at lines 148-149: no say entry whose sound the backend reports as playing), whatever the backend reports |
| `SoundManager.LoudnessAt` | apps/openmw/mwsound/soundmanagerimp.hpp:154-157 | the loudness at any time is on the scale [0,1], and is 0 before the start or with no loudness data |
| `SoundManager.SoundManager.GetSaySoundLoudness` | apps/openmw/mwsound/soundmanagerimp.hpp:154-157 | the loudness is in [0,1], and is 0 when the actor is not saying anything or its voice file has no loudness data |
| `SoundManager.SoundManager.PlaySound` | apps/openmw/mwsound/soundmanagerimp.hpp:162-164 | requires the offset in [0,1]; a started sound of a known id is appended to the sounds of the empty Ptr; otherwise nothing changes and the result is empty |
| `SoundManager.SoundManager.PlaySound3D` | apps/openmw/mwsound/soundmanagerimp.hpp:166-170 | requires the offset in [0,1]; a started sound of a known id is appended to the object's active sounds and is then playing on it; otherwise nothing changes and the result is empty |
| `SoundManager.SoundManager.GetSoundPlaying` | apps/openmw/mwsound/soundmanagerimp.hpp:197-198 | true exactly when one of the object's entries plays the id's buffer and the backend reports that sound as playing |
| `SoundManager.WithoutBuffer` | apps/openmw/mwsound/soundmanagerimp.hpp:179-180 | the filtered list keeps exactly the entries that do not play the buffer, each as many times as it occurs in the object's list, as a subsequence of that list (so in their old order) |
| `SoundManager.RemoveBufferEntries` | apps/openmw/mwsound/soundmanagerimp.hpp:179-180 | the model's removal loop over an object's entries yields exactly the filtered list, the entries not playing the buffer, in order |
| `SoundManager.SoundManager.StopSound3D` | apps/openmw/mwsound/soundmanagerimp.hpp:179-180 | only the object's entries for the id's buffer are removed; every other object's entries are unchanged; afterwards the sound is not playing on the object |
| `SoundManager.SoundManager.StopSound3DAll` | apps/openmw/mwsound/soundmanagerimp.hpp:182-183 | every active sound of the object is removed; afterwards no sound id is playing on it |

## Left out

- Widget construction, captions, button sizing, pane layout and resizing (inventorywindow.cpp:34-94, 106-115): presentation code of the GUI toolkit.
- `openInventory`, `onPinToggled`, `Update` and `notifyContentChanged` (inventorywindow.cpp:96-104, 139-142, 272-281): window-manager and redraw plumbing.
- Encumbrance bar (inventorywindow.cpp:261-270): float display formatting only.
- The use path for items that cannot be equipped (inventorywindow.cpp:152-169): `Class::use`, `Action::execute` and the book and scroll windows are foreign calls whose effects are not part of this model. The model assumes the use action leaves the store's items and the item's count unchanged. An action that consumes the item would change its count, and the model does not capture that. Only "no slot changes" on this path follows from the code itself.
- Destroying the dragged widget, `setDragDrop` and `drawItems` (inventorywindow.cpp:220-224): GUI calls.
- `Class::getEquipmentSlots` is a foreign call: its slot list is a parameter, and its second (`bool`) component is unused by the code.
- ContainerStore::add and InventoryStore::equip are not part of this model. `add` is modelled as appending a copy, without merging into an existing stack. `equip` is modelled as a plain slot assignment, without the store's own checks.
- InventoryWindow.InventoryWindow.OnAvatarClicked: on the use path (no equipment slots) the unchanged store items and item count rest on the assumption above about the foreign use action.
- InventoryWindow.InventoryWindow.OnAvatarClicked: item counts are unbounded integers, so 32-bit overflow of `origCount - draggedCount` is not modelled.
- InventoryWindow.InventoryWindow.OnAvatarClicked: the total count is kept only because `add` is modelled as never merging into an existing stack. If `add` merged, the `setCount(draggedCount)` on the returned iterator (inventorywindow.cpp:183) would overwrite the merged stack's count, and the total would not be kept.
- InventoryWindow.InventoryWindow.OnAvatarClicked: the `assert(it != invStore.end())` at inventorywindow.cpp:197 becomes a precondition (inventory.dfy:322-323): an item dragged from the inventory itself must be in the store. The model does not say what happens when it is not.
- InventoryWindow.InventoryWindow.constructor: the initial filter is a parameter, because ContainerBase's constructor is not part of this model.
- The pure-virtual `stop`, `isPlaying`, `getTimeOffset` and `update` of `Sound` (sound.hpp:10, 26-28): they are implemented by the audio backend, which is not part of this model.
- The buffer cache bounds and eviction (`mBufferCacheMin`, `mBufferCacheMax`, `mBufferCacheSize`), `loadSound`, and buffer use counts: only declarations are shown. The unused list is modelled only through the two list disciplines `MarkUnused` and `MarkUsed`.
- `loadVoice` decoding, `Sound_Output`, `Sound_Decoder`, the VFS and `getDecoder` (soundmanagerimp.hpp:16-31, 99-101, 114): audio backend, decoding and file I/O. The decoded loudness data is a parameter of `Say`, and its samples are assumed to lie in [0,1].
- SoundManager.SoundManager.GetSaySoundLoudness: the [0,1] bound rests on the assumption that the decoded loudness samples already lie in [0,1]: `Say` requires it and the class invariant keeps it. "Not saying anything" is read as "has no say entry". A say sound that has finished but whose entry is still registered gets the loudness of its data at the given time offset, not 0.
- The stop operations (`stopSay`, `stopSound3D`): the header says only that they stop the speech or the sound. That they remove the registry entries at once is the model's own choice, because the implementation is not part of this model.
- Music: `stopMusic`, `streamMusic`, `streamMusicFull`, `startRandomTitle`, `isMusicPlaying`, `playPlaylist`, `mMusicFiles`, `mLastPlayedMusic`, `mCurrentPlaylist`. Only declarations are shown.
- `playTrack`, `playSound3D` at a fixed position, `stopSound(cell)`, `stopSound(soundId)`, `fadeOutSound3D`, `pauseSounds`, `resumeSounds` (with `mPausedSoundTypes`), `update`, `updateSounds`, `updateRegionSound`, `updateSound`, `setListenerPosDir`, `updatePtr`, `clear`, `processChangedSettings` and `volumeFromType`: only declarations are shown, so their behaviour would be invention.
- Listener position, direction and up vector, the underwater state and sound, distance attenuation and category volumes: float numerics of the update pass.
- SoundManager.SoundManager.PlaySound3D: the volume, pitch, play type and play mode go to the backend and are not modelled. An id with no registered buffer is not loaded through `loadSound`; the model then registers nothing and returns an empty handle.
- SoundManager.SoundManager.PlaySound: same as PlaySound3D. The sound is registered under the empty Ptr.
- SoundManager.SoundManager.GetSoundPlaying: the backend's `isPlaying()` is a parameter, the set of handles it reports as playing.
- SoundManager.LoudnessAt: `Sound_Loudness` (loudness.hpp) is not part of this model. Sampling takes the sample covering the time and gives 0 outside the data; clamping to the last sample, if `Sound_Loudness` does that, is not modelled.
- SoundManager.SoundManager.InsertSound: how the buffer's volume and distance range are computed from the ESM::Sound record is not shown. The finished buffer is a parameter.
- The `Environment` singleton (`MWBase::Environment::get()`): global plumbing. The store, the drag state and the backend are passed in instead.
