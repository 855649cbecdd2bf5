# jellyfin_ha core, modelled in Dafny

A model of the core of the Jellyfin integration for Home Assistant (`jellyfin_ha`).
The integration keeps a shadow of the Jellyfin server's playback sessions as
Home Assistant media players. Its core is small and sequential:

- **`JellyfinClientManager.update_device_list`** folds each pushed session list into the
  device cache. The cache is keyed `"DeviceId.Client"`.
  - Unseen foreign sessions are added.
  - Known ones are refreshed, after `update_check` has decided whether to report them.
  - Devices missing from the push are switched off.
  - New-device, update and stale callbacks are handed to the event loop under precise conditions.
- **The callback registries and their dispatchers.**
- **`expo`** is the reconnect backoff generator.
- **`clean_none_dict_values`** is the worklist traversal that strips `None` values from nested dicts.
- **`login`'s URL normalisation** splits the address with `PATH_REGEX`, then fills in a default scheme and port.
- **`JellyfinDevice`** holds a raw session and an active flag. Its play state and accessors are derived from those two.
- **The media browser** consists of the type tables and `library_items`, which builds one level of the browse tree.

Modules, one per component:

| file | module | models |
|---|---|---|
| values.dfy | `PyValues` | decoded JSON values and the Python operations applied to them: `v[key]` with KeyError/TypeError, truthiness, `str()` |
| backoff.dfy | `Backoff` | `expo`: a closed form, and the generator's loop as a method proved against the closed form |
| clean_none.dfy | `CleanNone` | `clean_none_dict_values`: the intended result `Clean`, and the source's worklist loop over a queue of paths, proved to compute it |
| server_url.dfy | `ServerUrl` | the trailing-slash strip, a deterministic matcher for `PATH_REGEX`, the defaults and the join |
| device.dfy | `Device` | the `JellyfinDevice` class (fields `session`, `isActive`) and its properties as functions of those fields |
| client_manager.dfy | `ClientManager` | `update_check`, `update_device_list` as a function (`UpdateSpec`), and the `JellyfinClientManager` class whose methods are proved against it |
| media_browser.dfy | `MediaBrowser` | the three type tables, the browse as a function (`Browse`), and the `BrowseMedia` objects `library_items` fills |

Python exceptions are modelled as values (`Result`, `PyError`). An operation that
raises in the source returns the same exception kind in the model, at the same
point in the sequence of reads.

The server's I/O is passed in:
- the session list pushed by the server;
- `get_item` / `get_items`, as the functions `fetchItem` / `fetchItems`;
- the artwork calls, recorded as request values (`ArtworkRequest`, `Thumbnail.Artwork`).

The event loop's `call_soon` becomes an append to the manager's `scheduled` queue.

`JellyfinDevice` is defined twice in the repository: once in device.py and once
again in __init__.py:145-400. It is modelled once, from device.py.

The Home Assistant media constants (`MEDIA_CLASS_*`, `MEDIA_TYPE_*` of
`homeassistant.components.media_player.const`) are not part of this model's
sources. Their published string values are used (for example `"directory"`,
`"tvshow"`, `"tv_show"`).

A browse makes a single `get_items` call. The code does no pagination, and the model follows the code.

## Model

| member | source | states |
|---|---|---|
| PyValues.Get | device.py:35-38 | `v[key]` finds an entry exactly when `v` is a dict holding `key`, with that entry; it is not subscriptable exactly when `v` is not a dict; a dict without the key is the KeyError case |
| PyValues.Index | device.py:217 | `v[key]` outside any handler: the entry exactly when `v` is a dict holding `key`; otherwise KeyError for a dict and TypeError for any other value |
| PyValues.Truthy | device.py:197 | Python truthiness: None, False, 0, "" and empty lists and dicts are false, everything else true (a predicate, used by the contracts that read flags) |
| PyValues.Render | __init__.py:587 | `str()` of a str is the str itself; every other value gives a non-empty text |
| Backoff.ExpoPrefix | __init__.py:425-433 | the first `count` values the generator loop yields are, position by position, `ExpoAt(max, i)`: 2^i while 2^i is below the cap, the cap afterwards |
| Backoff.ExpoAt | __init__.py:425-433 | the i-th wait is 2^i or the cap, never more than 2^i and never more than the cap |
| Backoff.UncappedDoubles | __init__.py:429-431 | without a cap the sequence starts at 1 and each value doubles the previous one |
| Backoff.ExpoMonotone | __init__.py:425-433 | the sequence never decreases |
| Backoff.ExpoCapped | __init__.py:429-433 | with cap m no value exceeds m, and once m is yielded every later value is m |
| Backoff.ExpoStep | __init__.py:428-433 | below the cap the next value is the double, or the cap if the double reaches it |
| Backoff.ExpoReachesCap | __init__.py:428-433 | every cap m is reached, at the latest at position m |
| Backoff.ReconnectWaits | __init__.py:540 | the reconnect loop's `expo(100)` waits 1, 2, 4, ..., 64 seconds, then 100 forever |
| CleanNone.Clean | __init__.py:436-474 | the intended result: strings and non-iterables come back unchanged, dicts stay dicts, lists keep their length |
| CleanNone.CleanNoneDictValues | __init__.py:436-474 | the worklist loop (pop the last queued dict or list, drop a dict's None keys, queue its dict and list values) returns exactly `Clean(obj)` |
| CleanNone.ScanDict | __init__.py:448-465 | the pass over a dict's items collects exactly its None-valued keys and queues one path per dict or list value, each once |
| CleanNone.ScanList | __init__.py:467-472 | the pass over a list queues one path per dict or list element, each once, and skips None, strings and scalars |
| CleanNone.DropAtPreservesClean | __init__.py:462-465 | popping the None keys of one reachable dict does not change the cleaned value |
| CleanNone.CleanIsNoneFree | __init__.py:436-474 | after cleaning no reachable dict holds a None value |
| CleanNone.CleanFixesExactlyNoneFree | __init__.py:436-474 | cleaning leaves a value unchanged exactly when no reachable dict holds None |
| CleanNone.CleanIdempotent | __init__.py:436-474 | cleaning twice is cleaning once |
| CleanNone.CleanKeepsEntries | __init__.py:452-465 | every entry that is not a None dict value stays at the same path, cleaned, and no new path appears |
| ServerUrl.Protocol | __init__.py:49 | the `(https?://)?` group is a prefix of the input |
| ServerUrl.PortEnd | __init__.py:49 | the `(:[0-9]+)?` group, when present, is ':' followed by at least one digit |
| ServerUrl.PathEnd | __init__.py:49 | the `(/.*)?` group, when present, is '/' followed by characters other than a newline |
| ServerUrl.MatchUrl | __init__.py:49 | a match takes the longest scheme prefix the input starts with, and always a non-empty host |
| ServerUrl.Join | __init__.py:520 | the joined text starts with the protocol and is as long as the four groups together |
| ServerUrl.MatchSound | __init__.py:49 | every match has well-formed groups whose join is the input, or the input without one final newline |
| ServerUrl.MatchComplete | __init__.py:49 | well-formed groups are recovered exactly by matching their join |
| ServerUrl.NormalizeFails | __init__.py:501-504 | normalisation raises AttributeError exactly when the address without its trailing '/' does not match |
| ServerUrl.StripSlash | __init__.py:501-502 | exactly one trailing '/' is removed when there is one; any other address is unchanged |
| ServerUrl.WithDefaults | __init__.py:506-518 | host and path unchanged; a given protocol or port is kept; no protocol becomes http; no port becomes :8096 under http and :443 under https |
| ServerUrl.Normalize | __init__.py:499-520 | a failure is AttributeError; every normalised address starts with "http://" or "https://" |
| ServerUrl.DefaultsWellFormed | __init__.py:506-518 | filling in the default scheme and port keeps the groups well-formed |
| ServerUrl.NormalizeOf | __init__.py:499-520 | an address whose stripped form is the join of known groups normalises to the join of those groups with defaults filled in |
| ServerUrl.NormalizeParts | __init__.py:499-520 | a normalised address parses again with the same host and path, always a scheme (http when none was given) and always a port (the given one, else :8096 for http and :443 for https) |
| ServerUrl.NormalizeIdempotent | __init__.py:499-520 | normalising a normalised address changes nothing, unless the result ends in '/' |
| ServerUrl.DoubleSlashNotIdempotent | __init__.py:501-502 | only one trailing '/' is stripped: "http://h:1//" becomes "http://h:1/", which becomes "http://h:1" |
| ServerUrl.DefaultHttpExample | __init__.py:501-515 | a bare host, with or without a final '/', becomes "http://host:8096" |
| ServerUrl.DefaultHttpsExample | __init__.py:517-518 | an https address without a port gets ":443" |
| ServerUrl.ExplicitPortExample | __init__.py:501-520 | an explicit port and a path are kept; only the final '/' goes |
| Device.PlayState.Name | const.py:12-15 | each state has its own string: Off is "Off", Idle "Idle", Paused "Paused", Playing "Playing", and no two states share one |
| Device.IsPausedFlag | device.py:197 | `session['PlayState']['IsPaused']` succeeds exactly when both keys exist, with the flag's truthiness; otherwise TypeError for a non-dict PlayState, else KeyError |
| Device.SessionState | device.py:192-204 | Off iff inactive; Idle iff active without NowPlayingItem; Paused / Playing iff active with NowPlayingItem and IsPaused true / false; the exception exactly when that read raises |
| Device.IsNowPlaying | device.py:206-212 | `is_nowplaying` as a function of the two fields; what it means is proved in `Device.NowPlayingIffPausedOrPlaying` |
| Device.NowPlayingIffPausedOrPlaying | device.py:206-212 | `is_nowplaying` is true exactly for Paused and Playing, false exactly for Idle and Off, and raises exactly when `state` does |
| Device.InactiveIsOff | device.py:195-204 | an inactive device is Off and plays nothing, whatever its session |
| Device.SessionField | device.py:32-70 | a one-level accessor gives the session's value when the key exists, None otherwise |
| Device.NowPlayingLookup | device.py:72-146 | `session['NowPlayingItem'][key]`: the value, None when either key is absent, TypeError when the item is not a dict |
| Device.NowPlayingField | device.py:72-146 | a two-level accessor gives the item's value, None for a caught KeyError, and raises exactly when the lookup raises TypeError |
| Device.ArtistOf | device.py:116-122 | a list of several artists gives its first, a shorter list itself; a str or dict behaves as Python's `len` and `[0]` make it; a value without `len` raises TypeError |
| Device.MediaArtist | device.py:112-122 | None when there is no Artists value; TypeError exactly when the lookup raises it or the artists have no `len`; no other exception |
| Device.MediaArtistOfList | device.py:112-122 | with a list of artists, `media_artist` is the first artist when there are several and the whole list otherwise |
| Device.MediaArtistMissing | device.py:112-122 | without NowPlayingItem or without Artists, `media_artist` is None |
| Device.ImageType | device.py:152-161 | "Thumb" exactly when the playing item's ImageTags dict has Thumb; "Primary" exactly when it has Primary but no Thumb; TypeError exactly when the item or its ImageTags is not a dict; no tag otherwise |
| Device.MediaImage | device.py:148-165 | no image when nothing is playing; an exception when `is_nowplaying` raises; a request only while playing, for the tag `ImageType` chose, the item's `media_id` and width 500 |
| Device.NoImageWhenNotPlaying | device.py:148-151 | no image unless something is playing |
| Device.ImageTagChoice | device.py:151-163 | while playing: TypeError when the item is not a dict; no image without ImageTags; TypeError when ImageTags is not a dict; otherwise Thumb wins over Primary, Primary is used without Thumb, neither gives no image, and the request carries the item's Id |
| Device.PlaystateParams | device.py:222-225 | a "Seek" sends exactly `SeekPositionTicks = pos * 10^7` and `static = 'true'`; any other command sends no params |
| Device.JellyfinDevice.constructor | device.py:13-17 | a new device is active and holds the given session |
| Device.JellyfinDevice.UpdateData | device.py:19-21 | replaces the session and leaves the active flag |
| Device.JellyfinDevice.SetActive | device.py:23-25 | sets the active flag and leaves the session |
| Device.JellyfinDevice.SessionRaw | device.py:27-30 | the session as stored, unchanged |
| Device.JellyfinDevice.SessionId | device.py:32-38 | the session's Id, or None without one |
| Device.JellyfinDevice.UniqueId | device.py:40-46 | the session's DeviceId, or None without one |
| Device.JellyfinDevice.Name | device.py:48-54 | the session's DeviceName, or None without one |
| Device.JellyfinDevice.Client | device.py:56-62 | the session's Client, or None without one |
| Device.JellyfinDevice.UserName | device.py:64-70 | the session's UserName, or None without one |
| Device.JellyfinDevice.MediaTitle | device.py:72-78 | the playing item's Name; None without a playing item or without the key; TypeError when the item is not a dict |
| Device.JellyfinDevice.MediaSeason | device.py:80-86 | the same for ParentIndexNumber |
| Device.JellyfinDevice.MediaSeriesTitle | device.py:88-94 | the same for SeriesName |
| Device.JellyfinDevice.MediaEpisode | device.py:96-102 | the same for IndexNumber |
| Device.JellyfinDevice.MediaAlbumName | device.py:104-110 | the same for Album |
| Device.JellyfinDevice.MediaArtistOf | device.py:112-122 | `media_artist` of the held session, as `Device.MediaArtist` states it |
| Device.JellyfinDevice.MediaAlbumArtist | device.py:124-130 | the same as `MediaTitle` for AlbumArtist |
| Device.JellyfinDevice.MediaId | device.py:132-138 | the same for Id |
| Device.JellyfinDevice.MediaType | device.py:140-146 | the same for Type |
| Device.JellyfinDevice.MediaImageUrl | device.py:148-165 | `media_image_url` of the held fields, as `Device.MediaImage` and `Device.ImageTagChoice` state it |
| Device.JellyfinDevice.State | device.py:192-204 | `state` of the held fields, as `Device.SessionState` states it |
| Device.JellyfinDevice.NowPlaying | device.py:206-212 | `is_nowplaying` of the held fields, as `Device.NowPlayingIffPausedOrPlaying` states it |
| Device.JellyfinDevice.SupportsRemoteControl | device.py:214-217 | the session's SupportsRemoteControl, and KeyError without it (there is no handler) |
| Device.JellyfinDevice.SetPlaystate | device.py:219-227 | the request carries the device's session id, the command and its params |
| Device.TransportCommands | device.py:229-251 | play, pause, stop, next and previous send their command names with no params; seek sends the position in ticks |
| Device.JellyfinDevice.MediaPlay | device.py:229-231 | sends "Unpause" with no params for the device's session, as `Device.TransportCommands` proves |
| Device.JellyfinDevice.MediaPause | device.py:233-235 | sends "Pause" with no params for the device's session, as `Device.TransportCommands` proves |
| Device.JellyfinDevice.MediaStop | device.py:237-239 | sends "Stop" with no params for the device's session, as `Device.TransportCommands` proves |
| Device.JellyfinDevice.MediaNext | device.py:241-243 | sends "NextTrack" with no params for the device's session, as `Device.TransportCommands` proves |
| Device.JellyfinDevice.MediaPrevious | device.py:245-247 | sends "PreviousTrack" with no params for the device's session, as `Device.TransportCommands` proves |
| Device.JellyfinDevice.MediaSeek | device.py:249-251 | sends "Seek" with the position in ticks for the device's session, as `Device.TransportCommands` proves |
| ClientManager.Broadcast | __init__.py:752-767 | one call per registered callback, in registration order, all with the same message |
| ClientManager.UpdateCalls | __init__.py:781-787 | the calls are update calls for the key, and callback c is called for key exactly when the pair (c, key) is registered |
| ClientManager.UpdateCallsConcat | __init__.py:783-787 | calls follow registration order: the calls for `a + b` are those for `a`, then those for `b` |
| ClientManager.UpdateCallsSingle | __init__.py:783-787 | one registration gives one call when its device matches and none otherwise |
| ClientManager.RemoveFirst | __init__.py:774-777 | `list.remove`: absent pairs change nothing; otherwise exactly one occurrence is removed (multiset difference) |
| ClientManager.RemoveFirstSplits | __init__.py:777 | the occurrence removed is the first; everything before and after it stays in order |
| ClientManager.RemoveUndoesAdd | __init__.py:769-777 | removing a registration just added, and not present before, restores the registry |
| ClientManager.ThemeFlag | __init__.py:647-668 | a session counts as theme media exactly when its NowPlayingItem dict has a truthy IsThemeMedia; TypeError exactly when NowPlayingItem is not a dict |
| ClientManager.UpdateCheck | __init__.py:638-677 | the exception, if any, is KeyError or TypeError; an update is reported only when neither session is theme media |
| ClientManager.UpdateCheckFails | __init__.py:646-668 | `update_check` raises exactly when one of its four readings raises |
| ClientManager.ThemeMediaSuppresses | __init__.py:670-671 | theme media on either side never reports an update |
| ClientManager.UpdateCheckRule | __init__.py:672-677 | without theme media: a Playing state on either side reports; otherwise it reports exactly when the state changes |
| ClientManager.ReturningIdleDeviceReports | __init__.py:672-675 | a device that was Off and comes back Idle reports the change |
| ClientManager.DeviceName | __init__.py:587 | the key of a session with string DeviceId d and Client c is "d.c" |
| ClientManager.LogProbe | __init__.py:589-594 | the debug read raises (TypeError) exactly when NowPlayingItem is present but not a dict |
| ClientManager.Step | __init__.py:586-598 | a session that does not raise is a dict with DeviceId and Client |
| ClientManager.Visit | __init__.py:596-620 | the key is always recorded as seen; the integration's own session changes nothing else; an exception comes only from refreshing a known foreign device, and is KeyError or TypeError |
| ClientManager.RefreshCalls | __init__.py:607-620 | the refresh only appends calls: new-device calls only when the device was inactive, and update calls for the key only when `update_check` said so; nothing when it was active and unchanged |
| ClientManager.ScanSessions | __init__.py:585-620 | a loop that raised nothing has seen one key per session; an exception is never AttributeError |
| ClientManager.StepFacts | __init__.py:596-620 | one session never removes a key. It adds only a foreign session's key and touches only its own key. It records the key as seen, leaves the session's device active and never schedules a stale callback |
| ClientManager.ErrorSticks | __init__.py:585-636 | once a session raises, the later sessions are not processed |
| ClientManager.ScanGrows | __init__.py:585-620 | raise or not, the session loop keeps every key and only appends calls, none of them stale |
| ClientManager.ScanAddsOnlyForeign | __init__.py:597-603 | every key the session loop adds is the key of a session whose DeviceId is not the client id |
| ClientManager.ScanKeeps | __init__.py:585-620 | after a session loop that raised nothing, the seen list is the sessions' keys in order, every foreign session's device is cached and active, and every other device is unchanged |
| ClientManager.MarkStaleSnoc | __init__.py:623-629 | the stale loop over `keys + [k]` is the loop over `keys` followed by the pass for k |
| ClientManager.MarkStale | __init__.py:623-629 | the stale loop keeps the cache's keys, its order, the seen and new lists, and only appends calls |
| ClientManager.MarkStaleFacts | __init__.py:623-629 | the stale loop only switches off devices no session produced and changes nothing else; every call it appends, update and stale alike, is for a key that was cached, active and unseen |
| ClientManager.UpdateSpec | __init__.py:577-579 | with no session list, nothing changes and nothing is scheduled |
| ClientManager.KeysNeverRemoved | __init__.py:573-636 | entries are never removed from the cache, whether or not an exception is raised |
| ClientManager.OnlyForeignAdded | __init__.py:597-604 | sessions with the integration's own client id are never added |
| ClientManager.ForeignSessionsActive | __init__.py:596-615 | after a call that raised nothing, every foreign session's key is cached and active |
| ClientManager.AbsentDevicesInactive | __init__.py:623-629 | after a call that raised nothing, a cached device whose key no session produced is inactive |
| ClientManager.OrderCoversKeys | __init__.py:602 | the cache's insertion order lists exactly its keys |
| ClientManager.StaleOnlyForPreviouslyActive | __init__.py:623-629 | stale callbacks are scheduled only for devices that were cached and active before the call |
| ClientManager.JellyfinClientManager.constructor | __init__.py:416-422 | no session list, an empty cache, empty registries |
| ClientManager.JellyfinClientManager.AddNewDevicesCallback | __init__.py:747-750 | appends the callback to its registry; nothing else changes |
| ClientManager.JellyfinClientManager.AddStaleDevicesCallback | __init__.py:758-761 | appends the callback to its registry; nothing else changes |
| ClientManager.JellyfinClientManager.AddUpdateCallback | __init__.py:769-772 | appends the pair to its registry; nothing else changes |
| ClientManager.JellyfinClientManager.RemoveUpdateCallback | __init__.py:774-779 | the registry becomes `RemoveFirst` of the old one; nothing else changes |
| ClientManager.JellyfinClientManager.DoNewDevicesCallback | __init__.py:752-756 | the loop schedules `Broadcast` of the new-devices registry; nothing else changes |
| ClientManager.JellyfinClientManager.DoStaleDevicesCallback | __init__.py:763-767 | the loop schedules `Broadcast` of the stale registry; nothing else changes |
| ClientManager.JellyfinClientManager.DoUpdateCallback | __init__.py:781-787 | the loop schedules exactly `UpdateCalls` for the key; nothing else changes |
| ClientManager.JellyfinClientManager.AddDevice | __init__.py:601-602 | a fresh active device with the session is stored under a new key, appended to the insertion order |
| ClientManager.JellyfinClientManager.RefreshDevice | __init__.py:614-615 | only the device at the key changes: new session, active |
| ClientManager.JellyfinClientManager.Deactivate | __init__.py:626-627 | only the device at the key changes: inactive |
| ClientManager.JellyfinClientManager.RefreshSession | __init__.py:604-620 | the refresh branch performs `update_check`, the update and the callbacks, with the effect `Visit` gives; on an exception nothing has changed |
| ClientManager.JellyfinClientManager.ProcessSession | __init__.py:586-620 | one pass of the session loop has exactly the effect of `Step` on the cache, the seen and new lists and the scheduled calls |
| ClientManager.JellyfinClientManager.MarkOne | __init__.py:624-629 | one pass of the stale loop has exactly the effect of `MarkStale` for that key |
| ClientManager.JellyfinClientManager.ScanAll | __init__.py:582-620 | the session loop has exactly the effect of `ScanSessions`, stopping at its exception |
| ClientManager.JellyfinClientManager.MarkAll | __init__.py:622-629 | the stale loop over the cache keys in insertion order has exactly the effect of `MarkStale` |
| ClientManager.JellyfinClientManager.UpdateDeviceList | __init__.py:573-636 | the cache, its order, the scheduled calls and the exception are exactly those of `UpdateSpec` |
| MediaBrowser.TableLookup | media_browser.py:76 | `switcher[type]`: found exactly for a str key of the table; otherwise TypeError for an unhashable key, KeyError for any other |
| MediaBrowser.Type2Mediatype | media_browser.py:60-76 | defined exactly for the twelve Jellyfin types; the directory type exactly for BoxSet, Folder, CollectionFolder and Playlist |
| MediaBrowser.Type2Mediaclass | media_browser.py:78-93 | defined exactly for the twelve Jellyfin types; the directory class exactly for those four and Music |
| MediaBrowser.IsPlayable | media_browser.py:95-110 | false exactly for Music, Folder and CollectionFolder, true for the other Jellyfin types, an exception otherwise |
| MediaBrowser.TablesAgree | media_browser.py:60-110 | the three tables know the same types, and a directory media type is a directory class too |
| MediaBrowser.BrowseQuery | media_browser.py:119-151 | no query exactly for a root browse; any query names the requested id |
| MediaBrowser.Header | media_browser.py:122-161 | only a container header can raise; the header has no children and plain fields; off the root it carries the requested id and its artwork; it is expandable exactly for a root or container browse |
| MediaBrowser.ChildNode | media_browser.py:166-187 | a child needs a dict item with Id, Name and IsFolder; it has the item's id, name and artwork, is expandable exactly when IsFolder is truthy, and has no children |
| MediaBrowser.Children | media_browser.py:164-187 | the children succeed exactly when every item's child does, one per item, in order |
| MediaBrowser.ChildrenFirstError | media_browser.py:164-187 | a failed listing raises the exception of the first item that raises |
| MediaBrowser.ChildrenErrorSticks | media_browser.py:164-187 | once an item raises, the later items change nothing |
| MediaBrowser.QueryKinds | media_browser.py:119-151 | a root browse sends no query, a container browse queries by ParentId, any other browse by Id |
| MediaBrowser.RootNode | media_browser.py:122-131 | a root browse is the directory "Media Library" with id and type "library", not playable, expandable, no thumbnail |
| MediaBrowser.ContainerHeader | media_browser.py:132-147 | a container header is built exactly when the parent item has a Name and a known Type, with title and play flag from the parent and class and type from the content type |
| MediaBrowser.ContainerChildren | media_browser.py:164-187 | a root or container browse lists one child per item, in order. Each child is expandable exactly when its IsFolder is true. Its id and name come from the item, its class, type and play flag from the tables, and it has its artwork and no children |
| MediaBrowser.LeafUsesFirstItem | media_browser.py:148-161 | a leaf browse with no item is the placeholder directory node; otherwise it depends only on the first item, takes its name, id, type, class and play flag, and is not expandable; a leaf follows the assignments without the trailing commas |
| MediaBrowser.LeafUpdate | media_browser.py:188-195 | as written: the leaf gets the item's name, a 1-tuple id and a 1-tuple play flag, is not expandable, and keeps its thumbnail and children |
| MediaBrowser.LeafUpdateIntended | media_browser.py:188-195 | without the trailing commas: the leaf gets the item's name, its id and a plain play flag, is not expandable, and keeps its thumbnail and children |
| MediaBrowser.Fill | media_browser.py:163-195 | a listing succeeds exactly when every child does and sets the header's children to them; a leaf browse with no item is the header; a leaf update keeps the children; a leaf follows the assignments without the trailing commas |
| MediaBrowser.BrowseItems | media_browser.py:112-197 | a root or container browse has one child per item; any other browse has none; a leaf follows the assignments without the trailing commas |
| MediaBrowser.Browse | media_browser.py:112-197 | a root or container browse has one child per item that its query returns; a leaf follows the assignments without the trailing commas |
| MediaBrowser.ChildTypeBrowsable | media_browser.py:132 | a child's media type lists children when browsed exactly when the item is not a movie, an episode or a track |
| MediaBrowser.LeafFlagAlwaysTrue | media_browser.py:188-195 | as written, a leaf from a "Folder" item has a truthy 1-tuple play flag and a 1-tuple id; the corrected browse gives false and the id |
| MediaBrowser.LeafIntendedPlayability | media_browser.py:188-195 | without the trailing commas a leaf is playable exactly when its item's type is, carries the item's id, and agrees with the as-written update otherwise |
| MediaBrowser.BrowseMedia.constructor | media_browser.py:123-131 | the node holds the given fields and no children |
| MediaBrowser.NewChild | media_browser.py:167-187 | a fresh childless node whose value is `ChildNode(item)`, or that function's exception |
| MediaBrowser.NewHeader | media_browser.py:122-161 | a fresh childless node whose value is `Header`, or its exception |
| MediaBrowser.AssignLeaf | media_browser.py:189-194 | the leaf assignments leave the node's fields as `LeafUpdateIntended` gives, or raise its exception; a leaf follows the assignments without the trailing commas |
| MediaBrowser.AppendChild | media_browser.py:166-187 | appending one item's child keeps the node's children equal to `Children` of the items so far |
| MediaBrowser.VisitItem | media_browser.py:164-195 | one pass of the loop either appends the item's child or updates the leaf and stops, keeping the loop's progress; a leaf follows the assignments without the trailing commas |
| MediaBrowser.FillNode | media_browser.py:163-195 | the loop leaves the node equal to `Fill` of the header and the items, or raises its exception; a leaf follows the assignments without the trailing commas |
| MediaBrowser.LibraryItems | media_browser.py:112-197 | sends `BrowseQuery`, and returns a fresh one-level node whose value is `Browse`, or raises its exception; a leaf follows the assignments without the trailing commas |

## Left out

- I/O and the vendor client are not modelled:
  - authentication and connection (`client_factory`, `connect_to_address`, `login`'s server calls, `authenticate`; __init__.py:476-530);
  - `start` / `stop` and the event handler (__init__.py:532-571);
  - the reconnect loop's `time.sleep` and re-login.
  - Only the URL string transformation of `login` and the `expo` sequence are modelled.
- The Sessions event handler (__init__.py:552-554, 565) is not modelled. It stores the cleaned session list; the model takes `_sessions` as given.
- Home Assistant setup, services, dispatcher, config entries, logging and `autolog` are host-framework plumbing, and are not modelled.
- The manager's other members (`info`, `trigger_scan`, `get_server_url`, `get_auth_token`, the REST helpers; __init__.py:679-740) are not modelled.
- `call_soon` is an append to `scheduled`. When the callbacks later run is asynchronous and outside the model.
- `media_position`, `media_runtime` and `media_percent_played` (device.py:167-190) use float division and are not modelled.
- Device.PlaystateParams: the position is an integer number of seconds, so the truncation of `int(pos * 10000000)` for a float position is not modelled.
- Device.MediaImage: the artwork URL is built by the vendor client. The model returns the request (`ArtworkRequest(media_id, tag, 500)`) instead of the URL.
- `set_playstate` is modelled as the request it sends (`PlaystateRequest`). The awaited server call is not modelled.
- `get_item`, `get_items` and `get_artwork_url` are parameters of the browse model (`fetchItem`, `fetchItems`, `Thumbnail.Artwork`).
- `BrowseMedia` has more fields in Home Assistant than `library_items` sets. Only the fields it assigns are modelled, and only the one level of nodes it builds (`BrowseMedia.Valid`).
- `UnknownMediaType` (media_browser.py:57-58) is declared but never raised.
- The module-level tables `PLAYABLE_MEDIA_TYPES`, `CONTAINER_TYPES_SPECIFIC_MEDIA_CLASS` and `CHILD_TYPE_MEDIA_CLASS` (media_browser.py:29-53) are defined but never read, and are not modelled.
- `_sessions` is a list in the model. A pushed value of another iterable kind (a dict, a str) is not modelled.
- CleanNone.CleanNoneDictValues models mutation of a value, not of objects in place:
  - it works on a JSON tree, and each visited dict is replaced at its path;
  - aliasing (one dict reachable twice) cannot occur in decoded JSON and is not modelled;
  - a dict's keys are scanned in an arbitrary order rather than insertion order, which does not change the result;
  - tuples, sets, bytes and immutable mappings do not occur in decoded JSON and are not modelled.
- MediaBrowser.Fill: a leaf browse follows the leaf assignments without the trailing commas of media_browser.py:190,194 (see "## Findings"), so its id and play flag are plain values. The as-written 1-tuples are modelled only in `MediaBrowser.LeafUpdate` and `MediaBrowser.LeafFlagAlwaysTrue`.
- MediaBrowser.BrowseItems: a leaf browse follows the leaf assignments without the trailing commas of media_browser.py:190,194 (see "## Findings"), so its id and play flag are plain values. The as-written 1-tuples are modelled only in `MediaBrowser.LeafUpdate` and `MediaBrowser.LeafFlagAlwaysTrue`.
- MediaBrowser.Browse: a leaf browse follows the leaf assignments without the trailing commas of media_browser.py:190,194 (see "## Findings"), so its id and play flag are plain values. The as-written 1-tuples are modelled only in `MediaBrowser.LeafUpdate` and `MediaBrowser.LeafFlagAlwaysTrue`.
- MediaBrowser.LeafUsesFirstItem: a leaf browse follows the leaf assignments without the trailing commas of media_browser.py:190,194 (see "## Findings"), so its id and play flag are plain values. The as-written 1-tuples are modelled only in `MediaBrowser.LeafUpdate` and `MediaBrowser.LeafFlagAlwaysTrue`.
- MediaBrowser.AssignLeaf: a leaf browse follows the leaf assignments without the trailing commas of media_browser.py:190,194 (see "## Findings"), so its id and play flag are plain values. The as-written 1-tuples are modelled only in `MediaBrowser.LeafUpdate` and `MediaBrowser.LeafFlagAlwaysTrue`.
- MediaBrowser.VisitItem: a leaf browse follows the leaf assignments without the trailing commas of media_browser.py:190,194 (see "## Findings"), so its id and play flag are plain values. The as-written 1-tuples are modelled only in `MediaBrowser.LeafUpdate` and `MediaBrowser.LeafFlagAlwaysTrue`.
- MediaBrowser.FillNode: a leaf browse follows the leaf assignments without the trailing commas of media_browser.py:190,194 (see "## Findings"), so its id and play flag are plain values. The as-written 1-tuples are modelled only in `MediaBrowser.LeafUpdate` and `MediaBrowser.LeafFlagAlwaysTrue`.
- MediaBrowser.LibraryItems: a leaf browse follows the leaf assignments without the trailing commas of media_browser.py:190,194 (see "## Findings"), so its id and play flag are plain values. The as-written 1-tuples are modelled only in `MediaBrowser.LeafUpdate` and `MediaBrowser.LeafFlagAlwaysTrue`.
- PyValues.Render: `str()` of a dict or list `DeviceId` or `Client` gives a fixed placeholder rather than Python's repr. Floats are not part of the JSON model.

## Findings

| source | as written | input that shows it | evidently intended | confidence | as-written member | corrected member |
|---|---|---|---|---|---|---|
| media_browser.py:190,194 | the leaf branch ends the assignments of `media_content_id` and `can_play` with a comma, so both become 1-tuples and `can_play` is always truthy | a browse with `media_content_type` "movie" whose `get_items` answer is one item `{"Name": n, "Id": i, "Type": "Folder"}` | `media_content_id` is the item's id and `can_play` is `IsPlayable(item["Type"])`, here False | not executed; high | MediaBrowser.LeafFlagAlwaysTrue | MediaBrowser.LeafIntendedPlayability |
