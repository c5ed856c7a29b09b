# SpaceXLaunchBot data store, in Dafny

A model of `DataStore`, the bot's persistent store. It holds three fields:

- the registry of subscribed channels: a map from channel id to `SubscriptionOptions` (notification type, launch mentions);
- a flag saying whether the launch notification for the current schedule has been sent;
- the schedule embed dictionary sent last.

The store is opened on a file. If the file exists, the three fields are loaded from it; otherwise they start empty, `false` and empty. Every call that can change state rewrites the whole triple to the file. An add of a channel that is already present writes nothing, and neither does a remove of an absent channel.

`storage.dfy` holds one module, `Storage`:

- `DataStore<N, V>` is a class with the three fields, plus `file`, which stands for what the file at the store's path holds (`None` while there is no file). It also has a ghost counter `saves`. `N` is the notification-type enumeration, which is defined outside the store. `V` is the type of the embed dictionary's values, which the store never inspects.
- `Valid()` is the object invariant `Load(file) == State()`: reopening the file gives the state in memory.
- Each mutating method states its new state outright. It also ties that state to `Step`, a pure function over `Mutation` values, and ties its save to `Saves`.
- `Run` and `FileAfter` fold `Step` over a sequence of calls. Lemmas about them state what holds after any sequence of calls.
- `AddedAndNotRemoved` is an independent reference definition of "the ids added and not yet removed", written as quantifiers over the call sequence rather than as a fold.

## Model

| member | source | states |
|---|---|---|
| `Storage.DataStore.constructor` | spacexlaunchbot/storage.py:31-48 | the state is what the file holds; with no file it is an empty registry, flag false and an empty embed; nothing has been saved and the invariant holds |
| `Storage.DataStore.Save` | spacexlaunchbot/storage.py:50-59 | the file now holds exactly the current triple, one more save happened, and only the file and the counter change |
| `Storage.DataStore.GetNotificationTaskVars` | spacexlaunchbot/storage.py:61-65 | returns the current flag and embed, changes nothing and does not save |
| `Storage.DataStore.SetNotificationTaskVars` | spacexlaunchbot/storage.py:67-76 | the flag and embed become the arguments, the registry is untouched, exactly one save writes the new triple |
| `Storage.DataStore.AddSubbedChannel` | spacexlaunchbot/storage.py:78-95 | returns true exactly when the id was absent; then the registry gains exactly that id with the given options and one save writes the new triple; otherwise the registry, the existing options, the file and the save count are unchanged |
| `Storage.DataStore.GetSubbedChannels` | spacexlaunchbot/storage.py:97-98 | returns the current registry, changes nothing and does not save |
| `Storage.DataStore.RemoveSubbedChannel` | spacexlaunchbot/storage.py:100-105 | returns true exactly when the id was present; then exactly that key is removed and one save writes the new triple; otherwise nothing changes and nothing is saved |
| `Storage.DataStore.SubbedChannelsCount` | spacexlaunchbot/storage.py:107-109 | returns the number of keys in the registry, changing nothing |
| `Storage.IdempotentSubscribe` | spacexlaunchbot/storage.py:89-95 | a second add of the same id does not save, leaves the state as the first add left it, and keeps the options the first add stored |
| `Storage.SavesOnChange` | spacexlaunchbot/storage.py:67-105 | every call that changes the state saves; an add or remove saves exactly when it changes the state |
| `Storage.RunKeysAreLive` | spacexlaunchbot/storage.py:89-105 | after any sequence of calls, an id is subscribed exactly when it was added (or present at the start) and not removed since |
| `Storage.CountIsLive` | spacexlaunchbot/storage.py:89-109 | after any sequence of calls, the registry's size equals the number of ids added and not yet removed |
| `Storage.RemoveSucceedsIffLive` | spacexlaunchbot/storage.py:100-105 | from a fresh store, a remove returns true exactly when the id was added and not removed since, and false otherwise |
| `Storage.OptionsKeptUntilRemoved` | spacexlaunchbot/storage.py:89-95 | a subscribed channel keeps its options through any calls that do not remove it |
| `Storage.ReopenAfterRun` | spacexlaunchbot/storage.py:31-59 | after any sequence of calls, opening a store on the resulting file gives back the state those calls left in memory |
| `Storage.Reopen` | spacexlaunchbot/storage.py:31-59 | a new store opened on a valid store's file has the same state |
| `Storage.ExampleSession` | spacexlaunchbot/storage.py:61-109 | on a fresh store: add 100 gives true, a second add gives false and keeps the first options, remove gives true then false, the count is 0, and set then get of the task variables returns what was set |

## Left out

- File I/O and pickling: the file is modelled as the field `file`, an `Option` of the three-field image. Opening, reading and writing the path and the pickle encoding are not modelled.
- Load errors other than a missing file: a corrupt or unreadable file raises an exception in the source. The constructor models only the found / not-found split.
- Write errors: a failed `open` or `pickle.dump` inside `save` raises after the in-memory fields have changed. `Save` always succeeds here, so memory and file cannot diverge in the model.
- Reflective load: `self.__dict__.update` merges the loaded keys by name. The model assigns the three fields from the loaded image. A file that holds only some of the keys, or extra keys, is not modelled.
- Deep copies: the getters and `set_notification_task_vars` copy mutable values so that callers cannot alias internal state. Dafny maps and datatypes are immutable values, so no aliasing can arise and there is nothing to copy.
- Logging: the log calls in the constructor have no effect on state.
- `NotificationType` is defined in `spacexlaunchbot/notifications.py`, which is not part of this model. It is the type parameter `N`.
- The file path: the store keeps it only to find the file. The model passes the file's contents to the constructor instead.
- `SetNotificationTaskVars` always saves, even when the new values equal the old ones. So "a call that changes nothing does not save" is stated only for adds and removes (`SavesOnChange`), as the source behaves.
