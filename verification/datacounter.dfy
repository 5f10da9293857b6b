/**
  The data-usage counter of lib/datacounter.c.

  The process-wide counter record is a value of type Counter; each public
  entry point (and the store change handler) is a function from the counter
  and the settings store to a Step: the new counter, the new store, and the
  notifications emitted, in order.  Whether gconf_client_get_default() hands
  out a client is the input `clientAvailable` of every entry point that
  calls get.
 */
module DataCounter {

  import opened Wrappers
  import opened Decimal
  import opened Settings
  import opened GprsKeys
  import opened Notifiers

  /** The static connui_cell_datacounter record. */
  datatype Counter = Counter(
    initialized: bool,
    notifiers: seq<Notifier>,
    client: bool,              // a GConf client is held
    watching: bool,            // the GPRS directory is watched and the change handler added
    rxBytes: U64,
    txBytes: U64,
    resetTime: U64,
    home: bool,
    warningLimit: Option<string>,
    notificationEnabled: bool)

  /** The arguments every notifier callback receives. */
  datatype Snapshot = Snapshot(
    rxBytes: U64,
    txBytes: U64,
    resetTime: U64,
    notificationEnabled: bool,
    warningLimit: Option<string>)

  /** One delivery of a snapshot to the notifiers registered at that moment. */
  datatype Notification = Notification(recipients: seq<Notifier>, snapshot: Snapshot)

  datatype Step = Step(dc: Counter, store: Store, emitted: seq<Notification>)

  /** What get leaves behind, and whether it returned the counter or NULL. */
  datatype Lookup = Lookup(dc: Counter, found: bool)

  /** What register leaves behind, and its gboolean result. */
  datatype Registration = Registration(ok: bool, next: Step)

  /** The zero-initialised static record before any call. */
  const Unloaded: Counter := Counter(false, [], false, false, 0, 0, 0, false, None, false)

  function SnapshotOf(dc: Counter): Snapshot
  {
    Snapshot(dc.rxBytes, dc.txBytes, dc.resetTime, dc.notificationEnabled, dc.warningLimit)
  }

  /** connui_cell_datacounter_notify: one snapshot to every notifier, only when initialized. */
  function Notify(dc: Counter): (r: seq<Notification>)
    ensures dc.initialized <==> |r| == 1
    ensures !dc.initialized <==> r == []
    ensures dc.initialized ==> r[0].recipients == dc.notifiers && r[0].snapshot == SnapshotOf(dc)
  {
    if dc.initialized then [Notification(dc.notifiers, SnapshotOf(dc))] else []
  }

  /** The five persisted fields of one profile, as get loads them. */
  function Loaded(store: Store, home: bool): (s: Snapshot)
    ensures s.rxBytes == ReadSetting(store, Key(home, RxBytes))
    ensures s.txBytes == ReadSetting(store, Key(home, TxBytes))
    ensures s.resetTime == ReadSetting(store, Key(home, RstTime))
    ensures s.warningLimit == GetString(store, Key(home, WarningLimit))
    ensures s.notificationEnabled == GetBool(store, Key(home, NtfyEnable))
  {
    Snapshot(
      ReadSetting(store, Key(home, RxBytes)),
      ReadSetting(store, Key(home, TxBytes)),
      ReadSetting(store, Key(home, RstTime)),
      GetBool(store, Key(home, NtfyEnable)),
      GetString(store, Key(home, WarningLimit)))
  }

  /**
    connui_cell_datacounter_get: an initialized counter is returned as it is,
    whatever profile is asked for.  Otherwise every field is reset, the
    requested profile recorded, and then either no client is available (NULL,
    still uninitialized) or the directory is watched and the profile's five
    fields are loaded.
   */
  function Get(dc: Counter, store: Store, home: bool, clientAvailable: bool): (r: Lookup)
    ensures r.found <==> r.dc.initialized
    ensures r.found <==> dc.initialized || clientAvailable
    ensures dc.initialized ==> r == Lookup(dc, true)
    ensures !dc.initialized ==> r.dc.home == home && r.dc.notifiers == []
    ensures !dc.initialized && !clientAvailable ==> r.dc == Unloaded.(home := home)
    ensures !dc.initialized && clientAvailable ==>
      r.dc.client && r.dc.watching && SnapshotOf(r.dc) == Loaded(store, home)
  {
    if dc.initialized then Lookup(dc, true)
    else
      var blank := Unloaded.(home := home);
      if !clientAvailable then Lookup(blank, false)
      else
        var s := Loaded(store, home);
        Lookup(blank.(
          initialized := true,
          client := true,
          watching := true,
          rxBytes := s.rxBytes,
          txBytes := s.txBytes,
          resetTime := s.resetTime,
          warningLimit := s.warningLimit,
          notificationEnabled := s.notificationEnabled), true)
  }

  /** Releasing the client and the watch, dropping the warning limit. */
  function TearDown(dc: Counter): Counter
  {
    dc.(initialized := false, client := false, watching := false, warningLimit := None)
  }

  /**
    connui_cell_datacounter_close(cb): get(TRUE), remove cb when one is
    given, and tear down exactly when no notifier is left.  On an
    initialized counter get returns it as it is, so only the removal remains.
   */
  function Close(dc: Counter, store: Store, cb: Option<Callback>, clientAvailable: bool): (r: Step)
    ensures r.store == store && r.emitted == []
    ensures !dc.initialized ==>
      && !r.dc.initialized && r.dc.notifiers == [] && !r.dc.client
      && !r.dc.watching && r.dc.warningLimit.None? && r.dc.home
    ensures !dc.initialized && !clientAvailable ==> r.dc == Unloaded.(home := true)
    ensures !dc.initialized && clientAvailable ==>
      SnapshotOf(r.dc).(warningLimit := None) == Loaded(store, true).(warningLimit := None)
    ensures dc.initialized ==>
      var remaining := if cb.Some? then Remove(dc.notifiers, cb.value) else dc.notifiers;
      && r.dc.notifiers == remaining
      && (r.dc.initialized <==> remaining != [])
      && (remaining != [] ==> r.dc == dc.(notifiers := remaining))
      && (remaining == [] ==> !r.dc.client && !r.dc.watching && r.dc.warningLimit.None?)
      && SnapshotOf(r.dc).(warningLimit := None) == SnapshotOf(dc).(warningLimit := None)
      && r.dc.home == dc.home
  {
    if dc.initialized then Step(Detach(dc, cb), store, [])
    else Step(CloseUninitialized(dc, store, cb, clientAvailable), store, [])
  }

  /**
    close on an uninitialized counter: get(TRUE) either fails or loads the
    home profile with no notifiers, and the empty list then tears it down.
   */
  function CloseUninitialized(dc: Counter, store: Store, cb: Option<Callback>, clientAvailable: bool): (r: Counter)
    requires !dc.initialized
    ensures !r.initialized && r.notifiers == [] && !r.client && !r.watching && r.warningLimit.None? && r.home
    ensures !clientAvailable ==> r == Unloaded.(home := true)
    ensures clientAvailable ==> SnapshotOf(r).(warningLimit := None) == Loaded(store, true).(warningLimit := None)
  {
    var g := Get(dc, store, true, clientAvailable);
    if !g.found then g.dc
    else
      assert g.dc.notifiers == [];
      Detach(g.dc, cb)
  }

  /** The part of close after get: remove cb when one is given, and tear down when no notifier is left. */
  function Detach(d: Counter, cb: Option<Callback>): (r: Counter)
    ensures var remaining := if cb.Some? then Remove(d.notifiers, cb.value) else d.notifiers;
      && r.notifiers == remaining
      && (remaining != [] ==> r == d.(notifiers := remaining))
      && (remaining == [] ==>
            && !r.initialized && !r.client && !r.watching && r.warningLimit.None?
            && SnapshotOf(r).(warningLimit := None) == SnapshotOf(d).(warningLimit := None)
            && r.home == d.home)
  {
    var notifiers := if cb.Some? then Remove(d.notifiers, cb.value) else d.notifiers;
    var d' := d.(notifiers := notifiers);
    if notifiers == [] then TearDown(d') else d'
  }

  /** The profile the store writes of reset and save go to: get(TRUE) keeps an active profile. */
  function ActiveProfile(dc: Counter): bool
  {
    if dc.initialized then dc.home else true
  }

  /** The store writes of reset, on the reset-time, RX, TX and last-notification keys of one profile. */
  function ResetWrites(store: Store, rst: string, rx: string, tx: string, last: string, now: U64): (r: Store)
    requires rst != rx && rst != tx && rst != last
    ensures AgreeExcept(r, store, {rst, rx, tx, last})
    ensures GetString(r, rst) == Some(FormatDecimal(now))
    ensures rx !in r && tx !in r && last !in r
  {
    var s1 := WriteSetting(store, rst, now);
    var s2 := Unset(s1, rx);
    var s3 := Unset(s2, tx);
    var s4 := Unset(s3, last);
    ResetWritesFrame(store, s1, s2, s3, s4, rst, rx, tx, last);
    assert s2[rst] == s1[rst];
    assert s3[rst] == s2[rst];
    assert s4[rst] == s3[rst];
    s4
  }

  lemma ResetWritesFrame(store: Store, s1: Store, s2: Store, s3: Store, s4: Store,
                         rst: string, rx: string, tx: string, last: string)
    requires AgreeExcept(s1, store, {rst}) && AgreeExcept(s2, s1, {rx})
    requires AgreeExcept(s3, s2, {tx}) && AgreeExcept(s4, s3, {last})
    ensures AgreeExcept(s4, store, {rst, rx, tx, last})
  {
    AgreeExceptTrans(s4, s3, s2, {last}, {tx});
    AgreeExceptTrans(s4, s2, s1, {last} + {tx}, {rx});
    AgreeExceptTrans(s4, s1, store, {last} + {tx} + {rx}, {rst});
    assert {last} + {tx} + {rx} + {rst} == {rst, rx, tx, last};
  }

  function ResetStore(store: Store, h: bool, now: U64): (r: Store)
    ensures AgreeExcept(r, store, {Key(h, RstTime), Key(h, RxBytes), Key(h, TxBytes), Key(h, LastNtfy)})
    ensures GetString(r, Key(h, RstTime)) == Some(FormatDecimal(now))
    ensures Key(h, RxBytes) !in r && Key(h, TxBytes) !in r && Key(h, LastNtfy) !in r
  {
    KeyInjective(h, RstTime, h, RxBytes);
    KeyInjective(h, RstTime, h, TxBytes);
    KeyInjective(h, RstTime, h, LastNtfy);
    ResetWrites(store, Key(h, RstTime), Key(h, RxBytes), Key(h, TxBytes), Key(h, LastNtfy), now)
  }

  /**
    connui_cell_datacounter_reset(now): get(TRUE); write the reset time,
    unset RX bytes, TX bytes and the last-notification marker of the active
    profile; then close(NULL).  The in-memory counters are not refreshed.
   */
  function Reset(dc: Counter, store: Store, now: U64, clientAvailable: bool): (r: Step)
    requires dc.initialized || clientAvailable
    ensures var h := ActiveProfile(dc);
      && AgreeExcept(r.store, store, {Key(h, RstTime), Key(h, RxBytes), Key(h, TxBytes), Key(h, LastNtfy)})
      && GetString(r.store, Key(h, RstTime)) == Some(FormatDecimal(now))
      && Key(h, RxBytes) !in r.store
      && Key(h, TxBytes) !in r.store
      && Key(h, LastNtfy) !in r.store
    ensures r.emitted == []
    ensures r.dc.initialized <==> dc.initialized && dc.notifiers != []
    ensures r.dc.initialized ==> r.dc == dc
    ensures dc.initialized ==> r.dc.notifiers == dc.notifiers
    ensures !r.dc.initialized ==> r.dc.notifiers == [] && !r.dc.client && !r.dc.watching && r.dc.warningLimit.None?
  {
    var g := Get(dc, store, true, clientAvailable).dc;
    Close(g, ResetStore(store, g.home, now), None, clientAvailable)
  }

  /** The notify-period value save derives from the warning limit. */
  function NotifyPeriod(enabled: bool, limit: string): string
  {
    if enabled then limit + "000000" else "0"
  }

  /**
    connui_cell_datacounter_save(enabled, limit): get(TRUE); write the
    notification flag of the active profile; when a limit is given, also
    write it verbatim and the derived notify period.
   */
  function Save(dc: Counter, store: Store, enabled: bool, limit: Option<string>, clientAvailable: bool): (r: Step)
    requires dc.initialized || clientAvailable
    ensures var h := ActiveProfile(dc);
      && Key(h, NtfyEnable) in r.store && r.store[Key(h, NtfyEnable)] == BoolValue(enabled)
      && (limit.None? ==> AgreeExcept(r.store, store, {Key(h, NtfyEnable)}))
      && (limit.Some? ==>
            && AgreeExcept(r.store, store, {Key(h, NtfyEnable), Key(h, WarningLimit), Key(h, NtfyPeriod)})
            && GetString(r.store, Key(h, WarningLimit)) == limit
            && GetString(r.store, Key(h, NtfyPeriod)) == Some(NotifyPeriod(enabled, limit.value)))
    ensures r.emitted == []
    ensures r.dc.initialized && r.dc.home == ActiveProfile(dc)
    ensures dc.initialized ==> r.dc == dc
  {
    var g := Get(dc, store, true, clientAvailable).dc;
    var h := g.home;
    KeyInjective(h, NtfyEnable, h, WarningLimit);
    KeyInjective(h, NtfyEnable, h, NtfyPeriod);
    KeyInjective(h, WarningLimit, h, NtfyPeriod);
    Step(g, SaveWrites(store, Key(h, NtfyEnable), Key(h, WarningLimit), Key(h, NtfyPeriod), enabled, limit), [])
  }

  /** The store writes of save, on the flag, limit and notify-period keys of one profile. */
  function SaveWrites(store: Store, en: string, lim: string, per: string, enabled: bool, limit: Option<string>): (r: Store)
    requires en != lim && en != per && lim != per
    ensures en in r && r[en] == BoolValue(enabled)
    ensures limit.None? ==> AgreeExcept(r, store, {en})
    ensures limit.Some? ==>
      && AgreeExcept(r, store, {en, lim, per})
      && GetString(r, lim) == limit
      && GetString(r, per) == Some(NotifyPeriod(enabled, limit.value))
  {
    var s1 := SetBool(store, en, enabled);
    if limit.None? then s1
    else
      var s2 := SetString(s1, lim, limit.value);
      var s3 := SetString(s2, per, NotifyPeriod(enabled, limit.value));
      AgreeExceptTrans(s3, s2, s1, {per}, {lim});
      AgreeExceptTrans(s3, s1, store, {per} + {lim}, {en});
      assert {per} + {lim} + {en} == {en, lim, per};
      assert s3[en] == s2[en] == s1[en];
      s3
  }

  /**
    connui_cell_datacounter_register(cb, home, userData): FALSE when get
    fails; otherwise append the notifier and deliver the current snapshot.
   */
  function Register(dc: Counter, store: Store, cb: Callback, home: bool, userData: UserData,
                    clientAvailable: bool): (r: Registration)
    ensures r.ok <==> dc.initialized || clientAvailable
    ensures r.next.store == store
    ensures !r.ok ==> r.next.emitted == [] && !r.next.dc.initialized && r.next.dc.notifiers == []
    ensures r.ok ==>
      var g := Get(dc, store, home, clientAvailable).dc;
      && r.next.dc == g.(notifiers := g.notifiers + [Notifier(cb, userData)])
      && r.next.emitted == [Notification(r.next.dc.notifiers, SnapshotOf(g))]
    ensures dc.initialized ==> r.next.dc.home == dc.home
    ensures !dc.initialized && clientAvailable ==>
      r.next.dc.notifiers == [Notifier(cb, userData)] && SnapshotOf(r.next.dc) == Loaded(store, home)
  {
    var g := Get(dc, store, home, clientAvailable);
    if !g.found then Registration(false, Step(g.dc, store, []))
    else
      var d := g.dc.(notifiers := Add(g.dc.notifiers, cb, userData));
      Registration(true, Step(d, store, Notify(d)))
  }

  /**
    The counter an event value parses to: 0 for a missing or non-string
    value; a string that starts with digits gives their value, capped at
    ULLONG_MAX.
   */
  function EventCounter(value: Option<StoreValue>): (r: U64)
    ensures !(value.Some? && value.value.StringValue?) ==> r == 0
    ensures value.Some? && value.value.StringValue? && LeadingDigits(value.value.s) != [] ==>
      r == Min(DigitsValue(LeadingDigits(value.value.s)), U64_MAX)
  {
    match value
    case Some(StringValue(s)) => Strtoull(s)
    case _ => 0
  }

  /** gconf_value_get_bool: FALSE for a missing or non-boolean value. */
  function EventBool(value: Option<StoreValue>): (b: bool)
    ensures b <==> value == Some(BoolValue(true))
  {
    match value
    case Some(BoolValue(b)) => b
    case _ => false
  }

  /** The home branch of the change handler. */
  function HomeEvent(dc: Counter, key: string, value: Option<StoreValue>): (r: Counter)
    ensures r.initialized == dc.initialized && r.notifiers == dc.notifiers
    ensures r.client == dc.client && r.watching == dc.watching && r.home == dc.home
  {
    var n := EventCounter(value);
    if key == Key(true, RxBytes) then dc.(rxBytes := n)
    else if key == Key(true, TxBytes) then dc.(txBytes := n)
    else if key == Key(true, RstTime) then dc.(resetTime := n)
    else if key == Key(true, WarningLimit) then dc.(warningLimit := Some(FormatDecimal(n)))
    else if key == Key(true, NtfyEnable) then dc.(notificationEnabled := EventBool(value))
    else dc
  }

  /** The roaming branch of the change handler, with its TX-bytes test negated as in the source. */
  function RoamingEvent(dc: Counter, key: string, value: Option<StoreValue>): (r: Counter)
    ensures r.initialized == dc.initialized && r.notifiers == dc.notifiers
    ensures r.client == dc.client && r.watching == dc.watching && r.home == dc.home
  {
    var n := EventCounter(value);
    if key == Key(false, RxBytes) then dc.(rxBytes := n)
    else if key != Key(false, TxBytes) then dc.(txBytes := n)
    else if key == Key(false, RstTime) then dc.(resetTime := n)
    else if key == Key(false, WarningLimit) then dc.(warningLimit := Some(FormatDecimal(n)))
    else if key == Key(false, NtfyEnable) then dc.(notificationEnabled := EventBool(value))
    else dc
  }

  /**
    connui_cell_datacounter_gconf_changed(key, value): ignored while
    uninitialized; otherwise the profile's branch updates the record and the
    whole snapshot is delivered once.  The store itself is not touched.
   */
  function Changed(dc: Counter, store: Store, key: string, value: Option<StoreValue>): (r: Step)
    ensures r.store == store
    ensures !dc.initialized ==> r.dc == dc && r.emitted == []
    ensures dc.initialized ==> r.emitted == [Notification(dc.notifiers, SnapshotOf(r.dc))]
    ensures r.dc.initialized == dc.initialized && r.dc.notifiers == dc.notifiers
    ensures r.dc.client == dc.client && r.dc.watching == dc.watching && r.dc.home == dc.home
  {
    if !dc.initialized then Step(dc, store, [])
    else
      var d := if dc.home then HomeEvent(dc, key, value) else RoamingEvent(dc, key, value);
      Step(d, store, Notify(d))
  }
}
