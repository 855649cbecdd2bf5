/** `JellyfinClientManager` (__init__.py): the device cache that every pushed
    session list is folded into, the rule that decides when a device update is
    reported, and the three callback registries with their dispatchers.

    The event loop's `call_soon` is modelled by appending the call to the
    `scheduled` queue; each queued call records which registry it came from. */
module ClientManager {
  import opened PyValues
  import opened Device

  /** A callback registered by a Home Assistant entity, known by its identity. */
  type Callback = nat

  /** The argument a callback is scheduled with: `0` for the new-devices
      callbacks, the device key for the update and stale callbacks. */
  datatype Message = Zero | DeviceKey(key: string)

  datatype Kind = NewDevices | Stale | Update

  /** One `call_soon(callback, msg)`. */
  datatype Call = Call(kind: Kind, callback: Callback, message: Message)

  // ---------------------------------------------------------------------
  // Callback dispatch

  /** The calls `_do_new_devices_callback` / `_do_stale_devices_callback`
      schedule: every registered callback, in registration order. */
  function Broadcast(kind: Kind, callbacks: seq<Callback>, msg: Message): (r: seq<Call>)
    ensures |r| == |callbacks|
    ensures forall i :: 0 <= i < |r| ==> r[i] == Call(kind, callbacks[i], msg)
  {
    if callbacks == [] then []
    else Broadcast(kind, callbacks[..|callbacks| - 1], msg) + [Call(kind, callbacks[|callbacks| - 1], msg)]
  }

  /** The calls `_do_update_callback(key)` schedules: the callbacks of the
      `[callback, device]` pairs whose device is `key`, in registration order. */
  function UpdateCalls(pairs: seq<(Callback, string)>, key: string): (r: seq<Call>)
    ensures |r| <= |pairs|
    ensures forall i :: 0 <= i < |r| ==> r[i].kind == Update && r[i].message == DeviceKey(key)
    ensures forall c: Callback :: Call(Update, c, DeviceKey(key)) in r <==> (c, key) in pairs
  {
    if pairs == [] then []
    else
      var last := pairs[|pairs| - 1];
      var front := UpdateCalls(pairs[..|pairs| - 1], key);
      assert forall c: Callback :: (c, key) in pairs <==> (c, key) in pairs[..|pairs| - 1] || (c, key) == last;
      if last.1 == key then front + [Call(Update, last.0, DeviceKey(key))] else front
  }

  /** Registration order is kept: the calls for a concatenation of
      registrations are the calls for each part, one after the other. */
  lemma {:induction false} UpdateCallsConcat(a: seq<(Callback, string)>, b: seq<(Callback, string)>, key: string)
    ensures UpdateCalls(a + b, key) == UpdateCalls(a, key) + UpdateCalls(b, key)
    decreases |b|
  {
    if b == [] {
      assert a + b == a;
    } else {
      assert (a + b)[..|a + b| - 1] == a + b[..|b| - 1];
      UpdateCallsConcat(a, b[..|b| - 1], key);
    }
  }

  /** A single registration produces one call when its device matches and none otherwise. */
  lemma UpdateCallsSingle(c: Callback, device: string, key: string)
    ensures UpdateCalls([(c, device)], key) == if device == key then [Call(Update, c, DeviceKey(key))] else []
  {
    assert [(c, device)][..0] == [];
  }

  /** `list.remove(x)`: the list without the first occurrence of x. */
  function RemoveFirst<T(==)>(xs: seq<T>, x: T): (r: seq<T>)
    ensures x !in xs ==> r == xs
    ensures x in xs ==> |r| == |xs| - 1
    ensures multiset(r) == multiset(xs) - multiset{x}
  {
    if xs == [] then []
    else
      assert xs == [xs[0]] + xs[1..];
      if xs[0] == x then xs[1..] else [xs[0]] + RemoveFirst(xs[1..], x)
  }

  /** The index of the first occurrence of x. */
  function FirstIndex<T(==)>(xs: seq<T>, x: T): (i: nat)
    requires x in xs
    ensures i < |xs| && xs[i] == x && x !in xs[..i]
  {
    if xs[0] == x then 0
    else
      var j := FirstIndex(xs[1..], x);
      assert xs[..j + 1] == [xs[0]] + xs[1..][..j];
      j + 1
  }

  /** The element removed is the first occurrence: everything before it and
      everything after it stays in place. */
  lemma {:induction false} RemoveFirstSplits<T>(xs: seq<T>, x: T)
    requires x in xs
    ensures RemoveFirst(xs, x) == xs[..FirstIndex(xs, x)] + xs[FirstIndex(xs, x) + 1..]
  {
    if xs[0] == x {
      assert xs[..0] == [];
    } else {
      var j := FirstIndex(xs[1..], x);
      assert FirstIndex(xs, x) == j + 1;
      assert RemoveFirst(xs, x) == [xs[0]] + RemoveFirst(xs[1..], x);
      RemoveFirstSplits(xs[1..], x);
      SplitAfterHead(xs, j);
    }
  }

  /** Cutting the tail of xs at j is cutting xs at j + 1. */
  lemma SplitAfterHead<T>(xs: seq<T>, j: nat)
    requires j + 1 < |xs|
    ensures [xs[0]] + (xs[1..][..j] + xs[1..][j + 1..]) == xs[..j + 1] + xs[j + 2..]
  {
    assert xs[..j + 1] == [xs[0]] + xs[1..][..j];
    assert xs[j + 2..] == xs[1..][j + 1..];
  }

  /** Removing a registration that was just added, and not present before,
      restores the registry. */
  lemma {:induction false} RemoveUndoesAdd<T>(xs: seq<T>, x: T)
    requires x !in xs
    ensures RemoveFirst(xs + [x], x) == xs
    decreases |xs|
  {
    if xs == [] {
    } else {
      assert (xs + [x])[1..] == xs[1..] + [x];
      RemoveUndoesAdd(xs[1..], x);
      assert xs == [xs[0]] + xs[1..];
    }
  }

  // ---------------------------------------------------------------------
  // update_check

  /** `IsThemeMedia` of a session's NowPlayingItem, False when either key is
      absent; a TypeError (an item that is not a dict) is not caught. */
  function ThemeFlag(session: map<string, Json>): (r: Result<Json>)
    ensures r.Err? <==> NowPlayingItem in session && !session[NowPlayingItem].Object?
    ensures r.Ok? && Truthy(r.value) <==>
              NowPlayingItem in session && session[NowPlayingItem].Object?
              && "IsThemeMedia" in session[NowPlayingItem].fields
              && Truthy(session[NowPlayingItem].fields["IsThemeMedia"])
  {
    if NowPlayingItem in session then
      var theme :- NowPlayingLookup(session, "IsThemeMedia");
      Ok(if theme.Some? then theme.value else Bool(false))
    else Ok(Bool(false))
  }

  /** `update_check(existing, incoming)`: whether the update callbacks of a device
      must fire when session `incoming` (`new`) replaces the device's current session. The
      new session is judged as an active device's would be. The four readings
      happen in the order of the source, so the first failing one raises. */
  function UpdateCheck(existing: DeviceView, incoming: map<string, Json>): (r: Result<bool>)
    ensures r.Err? ==> r.error != AttributeError
    ensures r == Ok(true) ==>
              && ThemeFlag(existing.session).Ok? && !Truthy(ThemeFlag(existing.session).value)
              && ThemeFlag(incoming).Ok? && !Truthy(ThemeFlag(incoming).value)
  {
    var oldState :- SessionState(existing.session, existing.active);
    var oldTheme :- ThemeFlag(existing.session);
    var newState :- SessionState(incoming, true);
    var newTheme :- ThemeFlag(incoming);
    Ok(if Truthy(oldTheme) || Truthy(newTheme) then false
       else if oldState == Playing || newState == Playing then true
       else oldState != newState)
  }

  /** The check fails exactly when one of the four readings fails. */
  lemma UpdateCheckFails(existing: DeviceView, incoming: map<string, Json>)
    ensures UpdateCheck(existing, incoming).Err? <==>
              SessionState(existing.session, existing.active).Err? || ThemeFlag(existing.session).Err?
              || SessionState(incoming, true).Err? || ThemeFlag(incoming).Err?
  {
  }

  /** Theme media never reports an update. */
  lemma ThemeMediaSuppresses(existing: DeviceView, incoming: map<string, Json>)
    requires UpdateCheck(existing, incoming).Ok?
    requires (ThemeFlag(existing.session).Ok? && Truthy(ThemeFlag(existing.session).value))
             || (ThemeFlag(incoming).Ok? && Truthy(ThemeFlag(incoming).value))
    ensures UpdateCheck(existing, incoming) == Ok(false)
  {
  }

  /** Without theme media, a Playing state on either side always reports;
      otherwise an update is reported exactly when the state changes. */
  lemma UpdateCheckRule(existing: DeviceView, incoming: map<string, Json>,
                        oldState: PlayState, newState: PlayState)
    requires SessionState(existing.session, existing.active) == Ok(oldState)
    requires SessionState(incoming, true) == Ok(newState)
    requires ThemeFlag(existing.session).Ok? && !Truthy(ThemeFlag(existing.session).value)
    requires ThemeFlag(incoming).Ok? && !Truthy(ThemeFlag(incoming).value)
    ensures oldState == Playing || newState == Playing ==> UpdateCheck(existing, incoming) == Ok(true)
    ensures oldState != Playing && newState != Playing ==>
              UpdateCheck(existing, incoming) == Ok(oldState != newState)
  {
  }

  /** A device that was Off (inactive) and comes back idle reports the change. */
  lemma ReturningIdleDeviceReports(existing: DeviceView, incoming: map<string, Json>)
    requires !existing.active
    requires NowPlayingItem !in existing.session && NowPlayingItem !in incoming
    ensures UpdateCheck(existing, incoming) == Ok(true)
  {
  }

  // ---------------------------------------------------------------------
  // update_device_list, as a function of the cache before the call

  /** The three registries the dispatchers read. */
  datatype Registry = Registry(newDevices: seq<Callback>, stale: seq<Callback>, update: seq<(Callback, string)>)

  /** The key `'{}.{}'.format(device['DeviceId'], device['Client'])`. */
  function DeviceName(deviceId: Json, client: Json): (r: string)
    ensures deviceId.Str? && client.Str? ==> r == deviceId.s + "." + client.s
  {
    Render(deviceId) + "." + Render(client)
  }

  /** The Python variables of `update_device_list` during its loops: the cache
      (`_devices` in insertion order), `active_devices`, the keys of
      `new_devices`, and the calls scheduled so far. */
  datatype Scan = Scan(devices: map<string, DeviceView>, order: seq<string>,
                       active: seq<string>, added: seq<string>, calls: seq<Call>)

  /** A scan, and the exception that stopped it, if any. */
  datatype Outcome = Outcome(scan: Scan, err: Option<PyError>)

  /** The debug-log line that reads `NowPlayingItem.Type` and
      `NowPlayingItem.IsThemeMedia` under `except KeyError`. It reads nothing
      else; a NowPlayingItem that is not a dict raises TypeError through it. */
  function LogProbe(device: map<string, Json>): (r: Result<bool>)
    ensures r.Err? <==> NowPlayingItem in device && !device[NowPlayingItem].Object?
  {
    var itemType :- NowPlayingLookup(device, "Type");
    // The second read runs only when the item is a dict, so it cannot raise TypeError.
    Ok(itemType.Some?)
  }

  /** The body of the session loop for one session: read its key, then visit it. */
  function Step(clientId: string, reg: Registry, st: Scan, device: Json): (r: Result<Scan>)
    ensures r.Ok? ==> device.Object? && "DeviceId" in device.fields && "Client" in device.fields
    ensures r.Err? ==> r.error != AttributeError
  {
    var deviceId :- Index(device, "DeviceId");
    var client :- Index(device, "Client");
    var _ :- LogProbe(device.fields);
    Visit(clientId, reg, st, device.fields, deviceId, DeviceName(deviceId, client))
  }

  /** The three branches for a session `session` with key `name`: a foreign
      session with a new key adds a device, a foreign session with a known key
      refreshes it, and the integration's own session is only recorded as seen. */
  function Visit(clientId: string, reg: Registry, st: Scan, session: map<string, Json>,
                 deviceId: Json, name: string): (r: Result<Scan>)
    ensures r.Ok? ==> r.value.active == st.active + [name]
    ensures deviceId == Str(clientId) ==> r == Ok(st.(active := st.active + [name]))
    ensures r.Err? ==> name in st.devices && deviceId != Str(clientId) && r.error != AttributeError
  {
    var seen := st.(active := st.active + [name]);
    if name !in st.devices && deviceId != Str(clientId) then
      Ok(seen.(devices := st.devices[name := DeviceView(session, true)], order := st.order + [name],
               added := st.added + [name]))
    else if deviceId != Str(clientId) then
      var doUpdate :- UpdateCheck(st.devices[name], session);
      Ok(seen.(devices := st.devices[name := DeviceView(session, true)],
               calls := RefreshCalls(reg, st.devices[name].active, doUpdate, name, st.calls)))
    else
      Ok(seen)
  }

  /** The calls a refresh schedules: the new-devices callbacks when the device
      was inactive, then its update callbacks when `update_check` said so. */
  function RefreshCalls(reg: Registry, wasActive: bool, doUpdate: bool, name: string, calls: seq<Call>): (r: seq<Call>)
    ensures calls <= r
    ensures wasActive && !doUpdate ==> r == calls
    ensures forall i :: |calls| <= i < |r| ==>
              (r[i].kind == NewDevices && !wasActive)
              || (r[i].kind == Update && doUpdate && r[i].message == DeviceKey(name))
  {
    var calls1 := if !wasActive then calls + Broadcast(NewDevices, reg.newDevices, Zero) else calls;
    if doUpdate then calls1 + UpdateCalls(reg.update, name) else calls1
  }

  /** The session loop over `sessions`, stopping at the first exception. */
  function ScanSessions(clientId: string, reg: Registry, st: Scan, sessions: seq<Json>): (r: Outcome)
    ensures r.err.None? ==> |r.scan.active| == |st.active| + |sessions|
    ensures r.err.Some? ==> r.err.value != AttributeError
    decreases |sessions|
  {
    if sessions == [] then Outcome(st, None)
    else
      var o := ScanSessions(clientId, reg, st, sessions[..|sessions| - 1]);
      if o.err.Some? then o
      else match Step(clientId, reg, o.scan, sessions[|sessions| - 1])
        case Ok(next) => Outcome(next, None)
        case Err(e) => Outcome(o.scan, Some(e))
  }

  /** The stale loop over the keys `keys` of the cache: a device whose key no
      session produced and that is still active is marked inactive, and its
      update and stale callbacks are scheduled. */
  function MarkStale(reg: Registry, st: Scan, keys: seq<string>): (r: Scan)
    ensures r.devices.Keys == st.devices.Keys && r.order == st.order
    ensures r.active == st.active && r.added == st.added
    ensures st.calls <= r.calls
    decreases |keys|
  {
    if keys == [] then st
    else
      var s := MarkStale(reg, st, keys[..|keys| - 1]);
      var k := keys[|keys| - 1];
      if k !in s.active && k in s.devices && s.devices[k].active then
        s.(devices := s.devices[k := s.devices[k].(active := false)],
           calls := s.calls + UpdateCalls(reg.update, k) + Broadcast(Stale, reg.stale, DeviceKey(k)))
      else s
  }

  /** The stale loop over `keys + [k]` is the loop over `keys` followed by the pass for k. */
  lemma MarkStaleSnoc(reg: Registry, st: Scan, keys: seq<string>, k: string)
    ensures MarkStale(reg, st, keys + [k]) == MarkStale(reg, MarkStale(reg, st, keys), [k])
  {
    assert (keys + [k])[..|keys|] == keys;
    assert [k][..0] == [];
  }

  /** `update_device_list()` on the cache `devices` (keys in `order`) with the
      calls `calls` already scheduled. */
  function UpdateSpec(clientId: string, reg: Registry, devices: map<string, DeviceView>, order: seq<string>,
                      calls: seq<Call>, sessions: Option<seq<Json>>): (r: Outcome)
    ensures sessions.None? ==> r.scan.devices == devices && r.scan.order == order && r.scan.calls == calls
                               && r.err.None?
  {
    var start := Scan(devices, order, [], [], calls);
    if sessions.None? then Outcome(start, None)
    else
      var o := ScanSessions(clientId, reg, start, sessions.value);
      if o.err.Some? then o
      else
        var s := MarkStale(reg, o.scan, o.scan.order);
        Outcome(s.(calls := if s.added != [] then s.calls + Broadcast(NewDevices, reg.newDevices, Zero) else s.calls), None)
  }

  // ---------------------------------------------------------------------
  // Properties of the session loop

  /** Once an exception stops the loop, the later sessions change nothing. */
  lemma {:induction false} ErrorSticks(clientId: string, reg: Registry, st: Scan, sessions: seq<Json>, j: nat)
    requires j <= |sessions|
    requires ScanSessions(clientId, reg, st, sessions[..j]).err.Some?
    ensures ScanSessions(clientId, reg, st, sessions) == ScanSessions(clientId, reg, st, sessions[..j])
    decreases |sessions|
  {
    if j < |sessions| {
      assert sessions[..|sessions| - 1][..j] == sessions[..j];
      ErrorSticks(clientId, reg, st, sessions[..|sessions| - 1], j);
    } else {
      assert sessions[..j] == sessions;
    }
  }

  /** The key of a well-formed session. */
  function SessionKey(s: Json): string
    requires s.Object? && "DeviceId" in s.fields && "Client" in s.fields
  {
    DeviceName(s.fields["DeviceId"], s.fields["Client"])
  }

  /** A session that is not the integration's own: it may add or refresh a device. */
  predicate Foreign(clientId: string, s: Json) {
    s.Object? && "DeviceId" in s.fields && "Client" in s.fields && s.fields["DeviceId"] != Str(clientId)
  }

  predicate WellFormedSession(s: Json) {
    s.Object? && "DeviceId" in s.fields && "Client" in s.fields
  }

  /** How one step of the session loop relates the scan before it, `st`, to the scan after it, `n`. */
  ghost predicate StepPost(clientId: string, st: Scan, device: Json, n: Scan) {
    && WellFormedSession(device)
    && st.devices.Keys <= n.devices.Keys
    && n.active == st.active + [SessionKey(device)]
    && st.calls <= n.calls
    && (forall i :: |st.calls| <= i < |n.calls| ==> n.calls[i].kind != Stale)
    && (forall k :: k in n.devices && k != SessionKey(device) ==> k in st.devices && n.devices[k] == st.devices[k])
    && (SessionKey(device) in n.devices && SessionKey(device) !in st.devices ==> Foreign(clientId, device))
    && (Foreign(clientId, device) ==> SessionKey(device) in n.devices && n.devices[SessionKey(device)].active)
    && (!Foreign(clientId, device) ==> n.devices == st.devices)
    && n.order == st.order + (if SessionKey(device) in st.devices || !Foreign(clientId, device) then [] else [SessionKey(device)])
    && n.added == st.added + (if SessionKey(device) in st.devices || !Foreign(clientId, device) then [] else [SessionKey(device)])
  }

  /** What one step keeps and what it changes: it never removes a key, adds
      only the key of a foreign session, touches only the session's key,
      records that key as seen and never schedules a stale callback. */
  lemma StepFacts(clientId: string, reg: Registry, st: Scan, device: Json)
    requires Step(clientId, reg, st, device).Ok?
    ensures StepPost(clientId, st, device, Step(clientId, reg, st, device).value)
  {
  }

  /** The facts the loop keeps, for a prefix of the sessions that raised nothing. */
  predicate ScanInvariant(clientId: string, start: Scan, sessions: seq<Json>, s: Scan) {
    && (forall i :: 0 <= i < |sessions| ==> WellFormedSession(sessions[i]))
    && |s.active| == |sessions|
    && (forall i :: 0 <= i < |sessions| ==> s.active[i] == SessionKey(sessions[i]))
    && (forall i :: 0 <= i < |sessions| && Foreign(clientId, sessions[i]) ==>
          SessionKey(sessions[i]) in s.devices && s.devices[SessionKey(sessions[i])].active)
    && (forall k :: k in s.devices && k !in start.devices ==> k in s.active)
    && (forall k :: k in s.devices && k !in s.active ==> k in start.devices && s.devices[k] == start.devices[k])
  }

  /** How the session loop relates the scan it starts from to the scan `s` it
      reaches: no key is lost and calls are only appended, none of them stale. */
  ghost predicate Grows(start: Scan, s: Scan) {
    && start.devices.Keys <= s.devices.Keys
    && start.calls <= s.calls
    && (forall i :: |start.calls| <= i < |s.calls| ==> s.calls[i].kind != Stale)
  }

  /** Every key of `s` that `start` lacks is the key of a foreign session. */
  ghost predicate AddsOnlyForeign(clientId: string, start: Scan, sessions: seq<Json>, s: Scan) {
    forall k :: k in s.devices && k !in start.devices ==>
      exists i :: 0 <= i < |sessions| && Foreign(clientId, sessions[i]) && SessionKey(sessions[i]) == k
  }

  /** Whatever the sessions, and whether or not one raises, the loop keeps
      every key and only appends calls, none of them stale callbacks. */
  lemma {:induction false} ScanGrows(clientId: string, reg: Registry, start: Scan, sessions: seq<Json>)
    ensures Grows(start, ScanSessions(clientId, reg, start, sessions).scan)
    decreases |sessions|
  {
    if sessions != [] {
      var front := sessions[..|sessions| - 1];
      var last := sessions[|sessions| - 1];
      ScanGrows(clientId, reg, start, front);
      var o := ScanSessions(clientId, reg, start, front);
      if o.err.None? && Step(clientId, reg, o.scan, last).Ok? {
        StepFacts(clientId, reg, o.scan, last);
        var n := Step(clientId, reg, o.scan, last).value;
        assert start.calls == n.calls[..|start.calls|] by {
          assert o.scan.calls == n.calls[..|o.scan.calls|];
        }
        forall i | |start.calls| <= i < |n.calls| ensures n.calls[i].kind != Stale {
          if i < |o.scan.calls| {
            assert n.calls[i] == o.scan.calls[i];
          }
        }
      }
    }
  }

  /** Whatever the sessions, the loop adds only keys of foreign sessions. */
  lemma {:induction false} ScanAddsOnlyForeign(clientId: string, reg: Registry, start: Scan, sessions: seq<Json>)
    ensures AddsOnlyForeign(clientId, start, sessions, ScanSessions(clientId, reg, start, sessions).scan)
    decreases |sessions|
  {
    if sessions != [] {
      var front := sessions[..|sessions| - 1];
      var last := sessions[|sessions| - 1];
      assert sessions == front + [last];
      ScanAddsOnlyForeign(clientId, reg, start, front);
      var o := ScanSessions(clientId, reg, start, front);
      if o.err.None? && Step(clientId, reg, o.scan, last).Ok? {
        StepFacts(clientId, reg, o.scan, last);
        AddsOnlyForeignStep(clientId, start, front, last, o.scan, Step(clientId, reg, o.scan, last).value);
      } else {
        AddsOnlyForeignPrefix(clientId, start, front, last, o.scan);
      }
    }
  }

  /** A step adds at most the key of its own session, and only when that
      session is foreign. */
  lemma AddsOnlyForeignStep(clientId: string, start: Scan, front: seq<Json>, last: Json, o: Scan, n: Scan)
    requires AddsOnlyForeign(clientId, start, front, o)
    requires StepPost(clientId, o, last, n)
    ensures AddsOnlyForeign(clientId, start, front + [last], n)
  {
    var sessions := front + [last];
    forall k | k in n.devices && k !in start.devices
      ensures exists i :: 0 <= i < |sessions| && Foreign(clientId, sessions[i]) && SessionKey(sessions[i]) == k
    {
      if k in o.devices {
        var i :| 0 <= i < |front| && Foreign(clientId, front[i]) && SessionKey(front[i]) == k;
        assert sessions[i] == front[i];
      } else {
        assert sessions[|front|] == last;
      }
    }
  }

  /** A session that changes nothing keeps the property. */
  lemma AddsOnlyForeignPrefix(clientId: string, start: Scan, front: seq<Json>, last: Json, o: Scan)
    requires AddsOnlyForeign(clientId, start, front, o)
    ensures AddsOnlyForeign(clientId, start, front + [last], o)
  {
    var sessions := front + [last];
    forall k | k in o.devices && k !in start.devices
      ensures exists i :: 0 <= i < |sessions| && Foreign(clientId, sessions[i]) && SessionKey(sessions[i]) == k
    {
      var i :| 0 <= i < |front| && Foreign(clientId, front[i]) && SessionKey(front[i]) == k;
      assert sessions[i] == front[i];
    }
  }

  /** The loop invariant holds for every prefix that raised nothing. */
  lemma {:induction false} ScanKeeps(clientId: string, reg: Registry, start: Scan, sessions: seq<Json>)
    requires start.active == []
    ensures ScanSessions(clientId, reg, start, sessions).err.None? ==>
              ScanInvariant(clientId, start, sessions, ScanSessions(clientId, reg, start, sessions).scan)
    decreases |sessions|
  {
    if sessions != [] {
      var front := sessions[..|sessions| - 1];
      var last := sessions[|sessions| - 1];
      ScanKeeps(clientId, reg, start, front);
      var o := ScanSessions(clientId, reg, start, front);
      if o.err.None? && Step(clientId, reg, o.scan, last).Ok? {
        var n := Step(clientId, reg, o.scan, last).value;
        StepKeepsInvariant(clientId, reg, start, front, o.scan, last);
        assert front + [last] == sessions;
        assert ScanSessions(clientId, reg, start, sessions) == Outcome(n, None);
      }
    }
  }

  lemma StepKeepsInvariant(clientId: string, reg: Registry, start: Scan, front: seq<Json>, s: Scan, last: Json)
    requires ScanInvariant(clientId, start, front, s)
    requires Step(clientId, reg, s, last).Ok?
    ensures ScanInvariant(clientId, start, front + [last], Step(clientId, reg, s, last).value)
  {
    StepFacts(clientId, reg, s, last);
    var n := Step(clientId, reg, s, last).value;
    var ss := front + [last];
    forall i | 0 <= i < |ss| && Foreign(clientId, ss[i])
      ensures SessionKey(ss[i]) in n.devices && n.devices[SessionKey(ss[i])].active
    {
      if i < |front| {
        assert ss[i] == front[i];
      }
    }
    forall i | 0 <= i < |ss|
      ensures WellFormedSession(ss[i]) && n.active[i] == SessionKey(ss[i])
    {
      if i < |front| {
        assert ss[i] == front[i];
      }
    }
  }

  // ---------------------------------------------------------------------
  // Properties of the stale loop

  /** How the stale loop over `keys` relates the scan it starts from to the scan `s` it reaches. */
  ghost predicate StalePost(st: Scan, keys: seq<string>, s: Scan) {
    && s.devices.Keys == st.devices.Keys && s.order == st.order && s.active == st.active && s.added == st.added
    && (forall k :: k in s.devices && k in st.active ==> s.devices[k] == st.devices[k])
    && (forall k :: k in s.devices ==> s.devices[k].session == st.devices[k].session)
    && (forall k :: k in s.devices && s.devices[k].active ==> st.devices[k].active)
    && (forall k :: k in keys && k in s.devices && k !in st.active ==> !s.devices[k].active)
    && (forall k :: k in s.devices && k !in keys ==> s.devices[k] == st.devices[k])
    && st.calls <= s.calls
    && (forall i :: |st.calls| <= i < |s.calls| ==>
          (s.calls[i].kind == Update || s.calls[i].kind == Stale)
          && s.calls[i].message.DeviceKey? && s.calls[i].message.key in st.devices
          && st.devices[s.calls[i].message.key].active && s.calls[i].message.key !in st.active)
  }

  /** The stale loop changes only the active flags of keys no session
      produced, only switching them off, and is the only source of stale
      callbacks, each for a key that was active when the loop began. */
  lemma {:induction false} MarkStaleFacts(reg: Registry, st: Scan, keys: seq<string>)
    ensures StalePost(st, keys, MarkStale(reg, st, keys))
    decreases |keys|
  {
    if keys != [] {
      var front := keys[..|keys| - 1];
      MarkStaleFacts(reg, st, front);
      var s := MarkStale(reg, st, front);
      var k := keys[|keys| - 1];
      forall x | x in keys ensures x in front || x == k {
        var i :| 0 <= i < |keys| && keys[i] == x;
        if i < |keys| - 1 { assert front[i] == x; }
      }
      if k !in s.active && k in s.devices && s.devices[k].active {
        var n := MarkStale(reg, st, keys);
        var added := UpdateCalls(reg.update, k) + Broadcast(Stale, reg.stale, DeviceKey(k));
        assert n.calls == s.calls + added;
        forall i | |st.calls| <= i < |n.calls|
          ensures (n.calls[i].kind == Update || n.calls[i].kind == Stale)
                  && n.calls[i].message.DeviceKey? && n.calls[i].message.key in st.devices
                  && st.devices[n.calls[i].message.key].active && n.calls[i].message.key !in st.active
        {
          if i >= |s.calls| {
            var j := i - |s.calls|;
            assert n.calls[i] == added[j];
            if j < |UpdateCalls(reg.update, k)| {
              assert added[j] == UpdateCalls(reg.update, k)[j];
            } else {
              assert added[j] == Broadcast(Stale, reg.stale, DeviceKey(k))[j - |UpdateCalls(reg.update, k)|];
            }
          } else {
            assert n.calls[i] == s.calls[i];
          }
        }
      }
    }
  }

  // ---------------------------------------------------------------------
  // Properties of update_device_list

  /** Cache entries are never removed, and the calls already scheduled stay
      scheduled, whether or not an exception is raised. */
  lemma KeysNeverRemoved(clientId: string, reg: Registry, devices: map<string, DeviceView>, order: seq<string>,
                         calls: seq<Call>, sessions: Option<seq<Json>>)
    ensures devices.Keys <= UpdateSpec(clientId, reg, devices, order, calls, sessions).scan.devices.Keys
  {
    if sessions.Some? {
      var start := Scan(devices, order, [], [], calls);
      ScanGrows(clientId, reg, start, sessions.value);
      var o := ScanSessions(clientId, reg, start, sessions.value);
      MarkStaleFacts(reg, o.scan, o.scan.order);
    }
  }

  /** A key the call adds belongs to a session whose DeviceId is not the
      integration's own client id: the integration's own sessions are never added. */
  lemma OnlyForeignAdded(clientId: string, reg: Registry, devices: map<string, DeviceView>, order: seq<string>,
                         calls: seq<Call>, sessions: seq<Json>, k: string)
    requires k in UpdateSpec(clientId, reg, devices, order, calls, Some(sessions)).scan.devices
    requires k !in devices
    ensures exists i :: 0 <= i < |sessions| && Foreign(clientId, sessions[i]) && SessionKey(sessions[i]) == k
  {
    var start := Scan(devices, order, [], [], calls);
    ScanAddsOnlyForeign(clientId, reg, start, sessions);
    var o := ScanSessions(clientId, reg, start, sessions);
    MarkStaleFacts(reg, o.scan, o.scan.order);
  }

  /** After a call that raised nothing, every foreign session's device is in
      the cache and active. */
  lemma ForeignSessionsActive(clientId: string, reg: Registry, devices: map<string, DeviceView>, order: seq<string>,
                              calls: seq<Call>, sessions: seq<Json>, i: nat)
    requires UpdateSpec(clientId, reg, devices, order, calls, Some(sessions)).err.None?
    requires i < |sessions| && Foreign(clientId, sessions[i])
    ensures var r := UpdateSpec(clientId, reg, devices, order, calls, Some(sessions)).scan;
      SessionKey(sessions[i]) in r.devices && r.devices[SessionKey(sessions[i])].active
  {
    var start := Scan(devices, order, [], [], calls);
    ScanKeeps(clientId, reg, start, sessions);
    var o := ScanSessions(clientId, reg, start, sessions);
    MarkStaleFacts(reg, o.scan, o.scan.order);
    assert o.scan.active[i] == SessionKey(sessions[i]);
  }

  /** After a call that raised nothing, a cached device that no session
      produced is inactive. */
  lemma AbsentDevicesInactive(clientId: string, reg: Registry, devices: map<string, DeviceView>, order: seq<string>,
                              calls: seq<Call>, sessions: seq<Json>, k: string)
    requires forall x :: x in devices <==> x in order
    requires UpdateSpec(clientId, reg, devices, order, calls, Some(sessions)).err.None?
    requires k in UpdateSpec(clientId, reg, devices, order, calls, Some(sessions)).scan.devices
    requires forall i :: 0 <= i < |sessions| && WellFormedSession(sessions[i]) ==> SessionKey(sessions[i]) != k
    ensures !UpdateSpec(clientId, reg, devices, order, calls, Some(sessions)).scan.devices[k].active
  {
    var start := Scan(devices, order, [], [], calls);
    var o := ScanSessions(clientId, reg, start, sessions);
    var s := MarkStale(reg, o.scan, o.scan.order);
    assert UpdateSpec(clientId, reg, devices, order, calls, Some(sessions)).scan.devices == s.devices;
    MarkStaleFacts(reg, o.scan, o.scan.order);
    assert k in o.scan.order by {
      OrderCoversKeys(clientId, reg, start, sessions);
    }
    assert k !in o.scan.active by {
      ScanKeeps(clientId, reg, start, sessions);
      forall i | 0 <= i < |o.scan.active| ensures o.scan.active[i] != k {
        assert WellFormedSession(sessions[i]);
      }
    }
  }

  /** The cache's keys are exactly those its insertion order lists. */
  ghost predicate KeysListed(s: Scan) {
    forall x :: x in s.devices <==> x in s.order
  }

  /** The cache's keys are listed in its insertion order, before and after each step. */
  lemma {:induction false} OrderCoversKeys(clientId: string, reg: Registry, start: Scan, sessions: seq<Json>)
    requires KeysListed(start)
    ensures KeysListed(ScanSessions(clientId, reg, start, sessions).scan)
    decreases |sessions|
  {
    if sessions != [] {
      var front := sessions[..|sessions| - 1];
      OrderCoversKeys(clientId, reg, start, front);
      var o := ScanSessions(clientId, reg, start, front);
      var last := sessions[|sessions| - 1];
      if o.err.None? && Step(clientId, reg, o.scan, last).Ok? {
        StepFacts(clientId, reg, o.scan, last);
        var n := Step(clientId, reg, o.scan, last).value;
        var key := SessionKey(last);
        forall x | x in n.devices ensures x in n.order {
          if x != key {
            assert x in o.scan.devices;
          } else if key in o.scan.devices {
            assert x in o.scan.order;
          } else {
            assert Foreign(clientId, last);
            assert n.order == o.scan.order + [x];
          }
        }
        forall x | x in n.order ensures x in n.devices {
          if x in o.scan.order {
            assert x in o.scan.devices;
          } else {
            assert x == key;
          }
        }
      }
    }
  }

  /** Every stale callback among the calls `after` adds to `calls` is for a
      device of `devices` that is active there. */
  ghost predicate StaleCallsFor(devices: map<string, DeviceView>, calls: seq<Call>, after: seq<Call>) {
    && calls <= after
    && forall i :: |calls| <= i < |after| ==> after[i].kind == Stale ==>
         after[i].message.DeviceKey? && after[i].message.key in devices && devices[after[i].message.key].active
  }

  /** Stale callbacks are scheduled only for devices that were in the cache
      and active before the call, and that no session produced. */
  lemma StaleOnlyForPreviouslyActive(clientId: string, reg: Registry, devices: map<string, DeviceView>,
                                     order: seq<string>, calls: seq<Call>, sessions: seq<Json>)
    ensures StaleCallsFor(devices, calls, UpdateSpec(clientId, reg, devices, order, calls, Some(sessions)).scan.calls)
  {
    var start := Scan(devices, order, [], [], calls);
    ScanGrows(clientId, reg, start, sessions);
    ScanKeeps(clientId, reg, start, sessions);
    var o := ScanSessions(clientId, reg, start, sessions);
    if o.err.None? {
      var s := MarkStale(reg, o.scan, o.scan.order);
      MarkStaleFacts(reg, o.scan, o.scan.order);
      var r := UpdateSpec(clientId, reg, devices, order, calls, Some(sessions)).scan;
      assert calls == r.calls[..|calls|] by {
        assert o.scan.calls == s.calls[..|o.scan.calls|];
        assert s.calls == r.calls[..|s.calls|];
      }
      forall i | |calls| <= i < |r.calls|
        ensures r.calls[i].kind == Stale ==>
                r.calls[i].message.DeviceKey? && r.calls[i].message.key in devices
                && devices[r.calls[i].message.key].active
      {
        if i < |s.calls| {
          assert r.calls[i] == s.calls[i];
          if i < |o.scan.calls| {
            assert s.calls[i] == o.scan.calls[i];
          }
        } else {
          assert r.calls[i] == Broadcast(NewDevices, reg.newDevices, Zero)[i - |s.calls|];
        }
      }
    }
  }

  // ---------------------------------------------------------------------
  // The manager object

  /** The current cache entries of `devices` as values. */
  function ViewOf(devices: map<string, JellyfinDevice>): (r: map<string, DeviceView>)
    reads devices.Values
    ensures r.Keys == devices.Keys
    ensures forall k :: k in devices ==> r[k] == devices[k].View()
  {
    map k | k in devices :: devices[k].View()
  }

  /** Storing a device under a key changes the view at that key only. */
  lemma ViewOfPut(devices: map<string, JellyfinDevice>, name: string, d: JellyfinDevice)
    ensures ViewOf(devices[name := d]) == ViewOf(devices)[name := d.View()]
  {
  }

  predicate NoDuplicates(xs: seq<string>) {
    forall i, j :: 0 <= i < j < |xs| ==> xs[i] != xs[j]
  }

  /** The device cache lists each key once in `order`, and no two keys share a device object. */
  ghost predicate CacheValid(devices: map<string, JellyfinDevice>, order: seq<string>) {
    && (forall k :: k in devices <==> k in order)
    && NoDuplicates(order)
    && (forall k1, k2 :: k1 in devices && k2 in devices && k1 != k2 ==> devices[k1] != devices[k2])
  }

  /** Storing a new device object under a new key keeps the cache well formed. */
  lemma CacheValidPut(devices: map<string, JellyfinDevice>, order: seq<string>, name: string, d: JellyfinDevice)
    requires CacheValid(devices, order) && name !in devices && d !in devices.Values
    ensures CacheValid(devices[name := d], order + [name])
  {
    var m := devices[name := d];
    forall k1, k2 | k1 in m && k2 in m && k1 != k2
      ensures m[k1] != m[k2]
    {
      if k1 != name && k2 != name {
        assert m[k1] == devices[k1];
      } else if k1 == name {
        assert devices[k2] in devices.Values;
      } else {
        assert devices[k1] in devices.Values;
      }
    }
  }

  class JellyfinClientManager {
    /** `config_entry[CONF_CLIENT_ID]`: the integration's own Jellyfin client id. */
    const clientId: string
    /** `_sessions`, the last session list pushed by the server (None before the first). */
    var sessions: Option<seq<Json>>
    /** `_devices`; `order` is the dict's insertion order. */
    var devices: map<string, JellyfinDevice>
    var order: seq<string>
    var newDevicesCallbacks: seq<Callback>
    var staleDevicesCallbacks: seq<Callback>
    var updateCallbacks: seq<(Callback, string)>
    /** The calls handed to the event loop's `call_soon`, oldest first. */
    var scheduled: seq<Call>

    /** The cache lists each key once, and no two keys share a device object. */
    ghost predicate Valid()
      reads this
    {
      CacheValid(devices, order)
    }

    function Reg(): Registry
      reads this
    {
      Registry(newDevicesCallbacks, staleDevicesCallbacks, updateCallbacks)
    }

    constructor(clientId: string)
      ensures Valid()
      ensures this.clientId == clientId && sessions.None? && devices == map[] && order == []
      ensures newDevicesCallbacks == [] && staleDevicesCallbacks == [] && updateCallbacks == []
      ensures scheduled == []
    {
      this.clientId := clientId;
      sessions := None;
      devices := map[];
      order := [];
      newDevicesCallbacks := [];
      staleDevicesCallbacks := [];
      updateCallbacks := [];
      scheduled := [];
    }

    method AddNewDevicesCallback(callback: Callback)
      modifies this
      ensures newDevicesCallbacks == old(newDevicesCallbacks) + [callback]
      ensures staleDevicesCallbacks == old(staleDevicesCallbacks) && updateCallbacks == old(updateCallbacks)
      ensures devices == old(devices) && order == old(order) && sessions == old(sessions)
      ensures scheduled == old(scheduled)
    {
      newDevicesCallbacks := newDevicesCallbacks + [callback];
    }

    method AddStaleDevicesCallback(callback: Callback)
      modifies this
      ensures staleDevicesCallbacks == old(staleDevicesCallbacks) + [callback]
      ensures newDevicesCallbacks == old(newDevicesCallbacks) && updateCallbacks == old(updateCallbacks)
      ensures devices == old(devices) && order == old(order) && sessions == old(sessions)
      ensures scheduled == old(scheduled)
    {
      staleDevicesCallbacks := staleDevicesCallbacks + [callback];
    }

    method AddUpdateCallback(callback: Callback, device: string)
      modifies this
      ensures updateCallbacks == old(updateCallbacks) + [(callback, device)]
      ensures newDevicesCallbacks == old(newDevicesCallbacks) && staleDevicesCallbacks == old(staleDevicesCallbacks)
      ensures devices == old(devices) && order == old(order) && sessions == old(sessions)
      ensures scheduled == old(scheduled)
    {
      updateCallbacks := updateCallbacks + [(callback, device)];
    }

    /** `remove_update_callback`: drops the first matching pair, if there is one. */
    method RemoveUpdateCallback(callback: Callback, device: string)
      modifies this
      ensures updateCallbacks == RemoveFirst(old(updateCallbacks), (callback, device))
      ensures newDevicesCallbacks == old(newDevicesCallbacks) && staleDevicesCallbacks == old(staleDevicesCallbacks)
      ensures devices == old(devices) && order == old(order) && sessions == old(sessions)
      ensures scheduled == old(scheduled)
    {
      if (callback, device) in updateCallbacks {
        updateCallbacks := RemoveFirst(updateCallbacks, (callback, device));
      }
    }

    /** `_do_new_devices_callback(msg)`: one `call_soon` per registered callback,
        in registration order. */
    method DoNewDevicesCallback(msg: Message)
      modifies this
      ensures scheduled == old(scheduled) + Broadcast(NewDevices, newDevicesCallbacks, msg)
      ensures devices == old(devices) && order == old(order) && sessions == old(sessions)
      ensures unchanged(devices.Values)
      ensures Reg() == old(Reg())
    {
      var queue := scheduled;
      var i := 0;
      while i < |newDevicesCallbacks|
        invariant 0 <= i <= |newDevicesCallbacks|
        invariant queue == scheduled + Broadcast(NewDevices, newDevicesCallbacks[..i], msg)
      {
        assert newDevicesCallbacks[..i + 1][..i] == newDevicesCallbacks[..i];
        queue := queue + [Call(NewDevices, newDevicesCallbacks[i], msg)];
        i := i + 1;
      }
      assert newDevicesCallbacks[..i] == newDevicesCallbacks;
      scheduled := queue;
    }

    /** `_do_stale_devices_callback(msg)`: one `call_soon` per registered
        callback, in registration order. */
    method DoStaleDevicesCallback(msg: Message)
      modifies this
      ensures scheduled == old(scheduled) + Broadcast(Stale, staleDevicesCallbacks, msg)
      ensures devices == old(devices) && order == old(order) && sessions == old(sessions)
      ensures unchanged(devices.Values)
      ensures Reg() == old(Reg())
    {
      var queue := scheduled;
      var i := 0;
      while i < |staleDevicesCallbacks|
        invariant 0 <= i <= |staleDevicesCallbacks|
        invariant queue == scheduled + Broadcast(Stale, staleDevicesCallbacks[..i], msg)
      {
        assert staleDevicesCallbacks[..i + 1][..i] == staleDevicesCallbacks[..i];
        queue := queue + [Call(Stale, staleDevicesCallbacks[i], msg)];
        i := i + 1;
      }
      assert staleDevicesCallbacks[..i] == staleDevicesCallbacks;
      scheduled := queue;
    }

    /** `_do_update_callback(key)`: one `call_soon` per registered pair whose
        device is `key`, in registration order. */
    method DoUpdateCallback(key: string)
      modifies this
      ensures scheduled == old(scheduled) + UpdateCalls(updateCallbacks, key)
      ensures devices == old(devices) && order == old(order) && sessions == old(sessions)
      ensures unchanged(devices.Values)
      ensures Reg() == old(Reg())
    {
      var queue := scheduled;
      var i := 0;
      while i < |updateCallbacks|
        invariant 0 <= i <= |updateCallbacks|
        invariant queue == scheduled + UpdateCalls(updateCallbacks[..i], key)
      {
        assert updateCallbacks[..i + 1][..i] == updateCallbacks[..i];
        var (callback, device) := updateCallbacks[i];
        if device == key {
          queue := queue + [Call(Update, callback, DeviceKey(key))];
        }
        i := i + 1;
      }
      assert updateCallbacks[..i] == updateCallbacks;
      scheduled := queue;
    }

    /** `self._devices[name] = JellyfinDevice(session, self)`. */
    method AddDevice(name: string, session: map<string, Json>) returns (d: JellyfinDevice)
      requires Valid() && name !in devices
      modifies this
      ensures Valid()
      ensures fresh(d) && d.View() == DeviceView(session, true)
      ensures devices == old(devices)[name := d] && order == old(order) + [name]
      ensures ViewOf(devices) == old(ViewOf(devices))[name := d.View()]
      ensures Reg() == old(Reg()) && sessions == old(sessions) && scheduled == old(scheduled)
    {
      d := new JellyfinDevice(session);
      CacheValidPut(devices, order, name, d);
      ViewOfPut(devices, name, d);
      devices := devices[name := d];
      order := order + [name];
    }

    /** `update_data(session)` then `set_active(True)` on the device at `name`. */
    method RefreshDevice(name: string, session: map<string, Json>)
      requires Valid() && name in devices
      modifies devices[name]
      ensures ViewOf(devices) == old(ViewOf(devices))[name := DeviceView(session, true)]
    {
      ghost var before := ViewOf(devices);
      ghost var after := before[name := DeviceView(session, true)];
      var d := devices[name];
      d.UpdateData(session);
      d.SetActive(true);
      forall k | k in devices ensures ViewOf(devices)[k] == after[k] {
        if k != name {
          assert devices[k] != d;
        }
      }
      assert ViewOf(devices).Keys == after.Keys;
    }

    /** `set_active(False)` on the device at `key`. */
    method Deactivate(key: string)
      requires Valid() && key in devices
      modifies devices[key]
      ensures ViewOf(devices) == old(ViewOf(devices))[key := old(ViewOf(devices))[key].(active := false)]
    {
      ghost var before := ViewOf(devices);
      ghost var after := before[key := before[key].(active := false)];
      var d := devices[key];
      d.SetActive(false);
      forall k | k in devices ensures ViewOf(devices)[k] == after[k] {
        if k != key {
          assert devices[k] != d;
        }
      }
      assert ViewOf(devices).Keys == after.Keys;
    }

    /** The refresh branch for a known foreign session: `update_check`, then
        `update_data` and `set_active(True)`, then the callbacks. */
    method RefreshSession(session: map<string, Json>, name: string, ghost st: Scan)
      returns (err: Option<PyError>, ghost next: Result<Scan>)
      requires Valid() && name in devices
      requires st.devices == ViewOf(devices) && st.calls == scheduled
      modifies this, devices[name]
      ensures Valid()
      ensures devices == old(devices) && order == old(order)
      ensures Reg() == old(Reg()) && sessions == old(sessions)
      ensures next == (var d :- UpdateCheck(st.devices[name], session);
                       Ok(st.(devices := st.devices[name := DeviceView(session, true)],
                              calls := RefreshCalls(Reg(), st.devices[name].active, d, name, st.calls))))
      ensures err.None? <==> next.Ok?
      ensures next.Err? ==> err == Some(next.error)
      ensures next.Ok? ==> next.value.devices == ViewOf(devices) && next.value.calls == scheduled
      ensures next.Err? ==> ViewOf(devices) == old(ViewOf(devices)) && scheduled == old(scheduled)
    {
      var d := devices[name];
      var devUpdate := false;
      if !d.isActive {
        devUpdate := true;
      }
      var doUpdate := UpdateCheck(d.View(), session);
      if doUpdate.Err? {
        return Some(doUpdate.error), Err(doUpdate.error);
      }
      next := Ok(st.(devices := st.devices[name := DeviceView(session, true)],
                     calls := RefreshCalls(Reg(), d.isActive, doUpdate.value, name, scheduled)));
      RefreshDevice(name, session);
      ghost var refreshed := ViewOf(devices);
      assert refreshed == next.value.devices;
      if devUpdate {
        DoNewDevicesCallback(Zero);
      }
      if doUpdate.value {
        DoUpdateCallback(name);
      }
      assert ViewOf(devices) == refreshed;
      return None, next;
    }

    /** One pass of the session loop. */
    method ProcessSession(device: Json, active: seq<string>, added: seq<string>, ghost st: Scan)
      returns (active': seq<string>, added': seq<string>, err: Option<PyError>, ghost next: Result<Scan>)
      requires Valid()
      requires st == Scan(ViewOf(devices), order, active, added, scheduled)
      modifies this, devices.Values
      ensures Valid()
      ensures next == Step(clientId, Reg(), st, device)
      ensures Reg() == old(Reg()) && sessions == old(sessions)
      ensures forall k :: k in devices ==> devices[k] in old(devices.Values) || fresh(devices[k])
      ensures err.None? <==> next.Ok?
      ensures next.Err? ==> err == Some(next.error)
      ensures next.Ok? ==> next.value == Scan(ViewOf(devices), order, active', added', scheduled)
      ensures next.Err? ==> ViewOf(devices) == old(ViewOf(devices)) && order == old(order) && scheduled == old(scheduled)
    {
      active', added' := active, added;
      var deviceId := Index(device, "DeviceId");
      if deviceId.Err? { return active', added', Some(deviceId.error), Err(deviceId.error); }
      var client := Index(device, "Client");
      if client.Err? { return active', added', Some(client.error), Err(client.error); }
      var probe := LogProbe(device.fields);
      if probe.Err? { return active', added', Some(probe.error), Err(probe.error); }
      var name := DeviceName(deviceId.value, client.value);
      active' := active + [name];
      err := None;
      if name !in devices && deviceId.value != Str(clientId) {
        var _ := AddDevice(name, device.fields);
        added' := added + [name];
        next := Ok(Scan(ViewOf(devices), order, active', added', scheduled));
      } else if deviceId.value != Str(clientId) {
        ghost var r;
        err, r := RefreshSession(device.fields, name, st);
        next := if r.Ok? then Ok(r.value.(active := active')) else r;
      } else {
        next := Ok(st.(active := active'));
      }
    }

    /** One pass of the stale loop, for the cache key `key`. */
    method MarkOne(key: string, active: seq<string>, ghost st: Scan)
      requires Valid() && key in devices
      requires st.devices == ViewOf(devices) && st.calls == scheduled && st.active == active
      modifies this, devices.Values
      ensures Valid()
      ensures Reg() == old(Reg()) && sessions == old(sessions) && devices == old(devices) && order == old(order)
      ensures MarkStale(Reg(), st, [key]) == st.(devices := ViewOf(devices), calls := scheduled)
    {
      assert [key][..0] == [];
      if key !in active {
        var d := devices[key];
        if d.isActive {
          Deactivate(key);
          ghost var deactivated := ViewOf(devices);
          assert deactivated == st.devices[key := st.devices[key].(active := false)];
          DoUpdateCallback(key);
          DoStaleDevicesCallback(DeviceKey(key));
          assert ViewOf(devices) == deactivated;
        }
      }
    }

    /** The session loop of `update_device_list()`: it stops at the first
        exception, leaving the state the sessions before it produced. */
    method ScanAll(all: seq<Json>) returns (active: seq<string>, added: seq<string>, err: Option<PyError>)
      requires Valid()
      modifies this, devices.Values
      ensures Valid()
      ensures Reg() == old(Reg()) && sessions == old(sessions)
      ensures forall k :: k in devices ==> devices[k] in old(devices.Values) || fresh(devices[k])
      ensures var o := ScanSessions(clientId, old(Reg()), Scan(old(ViewOf(devices)), old(order), [], [], old(scheduled)), all);
        o.err == err && o.scan.devices == ViewOf(devices) && o.scan.order == order && o.scan.calls == scheduled
        && (err.None? ==> o.scan.active == active && o.scan.added == added)
    {
      ghost var start := Scan(ViewOf(devices), order, [], [], scheduled);
      active, added := [], [];
      var i := 0;
      while i < |all|
        invariant 0 <= i <= |all|
        invariant Valid()
        invariant Reg() == old(Reg()) && sessions == old(sessions)
        invariant forall k :: k in devices ==> devices[k] in old(devices.Values) || fresh(devices[k])
        invariant ScanSessions(clientId, Reg(), start, all[..i])
                  == Outcome(Scan(ViewOf(devices), order, active, added, scheduled), None)
      {
        ghost var st := Scan(ViewOf(devices), order, active, added, scheduled);
        assert all[..i + 1][..i] == all[..i];
        var e;
        ghost var next;
        active, added, e, next := ProcessSession(all[i], active, added, st);
        if e.Some? {
          ErrorSticks(clientId, Reg(), start, all, i + 1);
          assert all == all[..|all|];
          return active, added, e;
        }
        i := i + 1;
      }
      assert all[..i] == all;
      return active, added, None;
    }

    /** The stale loop of `update_device_list()`, over the cache keys in order. */
    method MarkAll(active: seq<string>, ghost scanned: Scan)
      requires Valid()
      requires scanned == Scan(ViewOf(devices), order, active, scanned.added, scheduled)
      modifies this, devices.Values
      ensures Valid()
      ensures Reg() == old(Reg()) && sessions == old(sessions) && order == old(order)
      ensures MarkStale(Reg(), scanned, order) == scanned.(devices := ViewOf(devices), calls := scheduled)
    {
      var j := 0;
      while j < |order|
        invariant 0 <= j <= |order|
        invariant Valid()
        invariant Reg() == old(Reg()) && sessions == old(sessions)
        invariant order == scanned.order && devices == old(devices)
        invariant MarkStale(Reg(), scanned, order[..j]) == scanned.(devices := ViewOf(devices), calls := scheduled)
      {
        ghost var st := scanned.(devices := ViewOf(devices), calls := scheduled);
        MarkOne(order[j], active, st);
        assert order[..j + 1] == order[..j] + [order[j]];
        MarkStaleSnoc(Reg(), scanned, order[..j], order[j]);
        j := j + 1;
      }
      assert order[..j] == order;
    }

    /** `update_device_list()`: the cache, its order and the scheduled calls
      become those `UpdateSpec` gives, and the exception raised is the one it
      gives. */
    method UpdateDeviceList() returns (err: Option<PyError>)
      requires Valid()
      modifies this, devices.Values
      ensures Valid()
      ensures var o := UpdateSpec(clientId, old(Reg()), old(ViewOf(devices)), old(order), old(scheduled), sessions);
        ViewOf(devices) == o.scan.devices && order == o.scan.order && scheduled == o.scan.calls && err == o.err
      ensures Reg() == old(Reg()) && sessions == old(sessions)
    {
      if sessions.None? {
        return None;
      }
      var active, added, e := ScanAll(sessions.value);
      if e.Some? {
        return e;
      }
      ghost var scanned := Scan(ViewOf(devices), order, active, added, scheduled);
      MarkAll(active, scanned);
      if added != [] {
        DoNewDevicesCallback(Zero);
      }
      return None;
    }
  }
}
