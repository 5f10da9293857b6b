/**
  Properties of the data-usage counter that relate several calls or
  characterise a call against an independent description.
 */
module DataCounterProperties {

  import opened Wrappers
  import opened Decimal
  import opened Settings
  import opened GprsKeys
  import opened Notifiers
  import opened DataCounter

  /** Which snapshot field each tracked field's key names, and the value an event gives it. */
  function Apply(s: Snapshot, f: Field, value: Option<StoreValue>): Snapshot
  {
    var n := EventCounter(value);
    match f
    case RxBytes => s.(rxBytes := n)
    case TxBytes => s.(txBytes := n)
    case RstTime => s.(resetTime := n)
    case WarningLimit => s.(warningLimit := Some(FormatDecimal(n)))
    case NtfyEnable => s.(notificationEnabled := EventBool(value))
    case NtfyPeriod => s
    case LastNtfy => s
  }

  /** The binding of key is the same in a and b. */
  predicate SameBinding(a: Store, b: Store, key: string)
  {
    (key in a <==> key in b) && (key in a && key in b ==> a[key] == b[key])
  }

  lemma AgreeExceptBinding(a: Store, b: Store, keys: set<string>, key: string)
    requires AgreeExcept(a, b, keys) && key !in keys
    ensures SameBinding(a, b, key)
  {
    assert key in a <==> key in a - keys;
    assert key in b <==> key in b - keys;
    if key in a && key in b {
      assert a[key] == (a - keys)[key] == (b - keys)[key] == b[key];
    }
  }

  /** A key bound alike in two stores reads alike in them. */
  lemma SameBindingReads(a: Store, b: Store, key: string)
    requires SameBinding(a, b, key)
    ensures GetString(a, key) == GetString(b, key) && GetBool(a, key) == GetBool(b, key)
    ensures ReadSetting(a, key) == ReadSetting(b, key)
  {
  }

  /** get on an active counter returns it unchanged, whatever profile, store or client is passed. */
  lemma GetProfileFixed(dc: Counter, store: Store, home: bool, clientAvailable: bool,
                        store': Store, home': bool, clientAvailable': bool)
    requires Get(dc, store, home, clientAvailable).found
    ensures var g := Get(dc, store, home, clientAvailable).dc;
      && Get(g, store', home', clientAvailable') == Lookup(g, true)
      && g.home == (if dc.initialized then dc.home else home)
  {
  }

  /** In the home profile an event on a tracked key updates exactly the field that key names. */
  lemma HomeEventUpdatesNamedField(dc: Counter, store: Store, f: Field, value: Option<StoreValue>)
    requires dc.initialized && dc.home && Tracked(f)
    ensures SnapshotOf(Changed(dc, store, Key(true, f), value).dc) == Apply(SnapshotOf(dc), f, value)
  {
    KeyInjective(true, f, true, RxBytes);
    KeyInjective(true, f, true, TxBytes);
    KeyInjective(true, f, true, RstTime);
    KeyInjective(true, f, true, WarningLimit);
  }

  /** In the home profile an event on any other key changes no field. */
  lemma HomeEventIgnoresOtherKeys(dc: Counter, store: Store, key: string, value: Option<StoreValue>)
    requires dc.initialized && dc.home && key !in TrackedKeys(true)
    ensures Changed(dc, store, key, value).dc == dc
    ensures Changed(dc, store, key, value).emitted == [Notification(dc.notifiers, SnapshotOf(dc))]
  {
  }

  /**
    The roaming branch as written: the RX key sets rx_bytes, the TX key
    changes nothing, and every other key, tracked or not, sets tx_bytes.
   */
  lemma RoamingEventAsWritten(dc: Counter, store: Store, key: string, value: Option<StoreValue>)
    requires dc.initialized && !dc.home
    ensures var s := SnapshotOf(dc);
      var s' := SnapshotOf(Changed(dc, store, key, value).dc);
      var n := EventCounter(value);
      && (key == Key(false, RxBytes) ==> s' == s.(rxBytes := n))
      && (key == Key(false, TxBytes) ==> s' == s)
      && (key != Key(false, RxBytes) && key != Key(false, TxBytes) ==> s' == s.(txBytes := n))
  {
    var n := EventCounter(value);
    if key == Key(false, TxBytes) {
      KeyInjective(false, RxBytes, false, TxBytes);
      KeyInjective(false, TxBytes, false, RstTime);
      KeyInjective(false, TxBytes, false, WarningLimit);
      KeyInjective(false, TxBytes, false, NtfyEnable);
      assert RoamingEvent(dc, key, value) == dc;
    } else if key == Key(false, RxBytes) {
      assert RoamingEvent(dc, key, value) == dc.(rxBytes := n);
    } else {
      assert RoamingEvent(dc, key, value) == dc.(txBytes := n);
    }
  }

  /** Hence in the roaming profile no event changes the reset time, the warning limit or the flag. */
  lemma RoamingEventKeepsSettings(dc: Counter, store: Store, key: string, value: Option<StoreValue>)
    requires dc.initialized && !dc.home
    ensures var d := Changed(dc, store, key, value).dc;
      d.resetTime == dc.resetTime && d.warningLimit == dc.warningLimit
      && d.notificationEnabled == dc.notificationEnabled
  {
    RoamingEventAsWritten(dc, store, key, value);
  }

  /** The roaming TX-bytes update is lost, and a roaming reset-time event lands in tx_bytes. */
  lemma RoamingTxEventLost(dc: Counter, store: Store)
    requires dc.initialized && !dc.home && dc.txBytes != 5
    ensures Changed(dc, store, Key(false, TxBytes), Some(StringValue("5"))).dc.txBytes == dc.txBytes
    ensures Changed(dc, store, Key(false, RstTime), Some(StringValue("5"))).dc.txBytes == 5
    ensures Changed(dc, store, Key(false, RstTime), Some(StringValue("5"))).dc.resetTime == dc.resetTime
  {
    var five := Some(StringValue("5"));
    KeyInjective(false, RstTime, false, RxBytes);
    KeyInjective(false, RstTime, false, TxBytes);
    RoamingEventAsWritten(dc, store, Key(false, TxBytes), five);
    RoamingEventAsWritten(dc, store, Key(false, RstTime), five);
    assert LeadingDigits("5") == "5";
    assert EventCounter(five) == 5;
  }

  /** A counter value the store holds in "%llu" form is what the home handler stores. */
  lemma HomeEventParsesCounter(dc: Counter, store: Store, f: Field, n: U64)
    requires dc.initialized && dc.home && (f.RxBytes? || f.TxBytes? || f.RstTime?)
    ensures var s := SnapshotOf(Changed(dc, store, Key(true, f), Some(StringValue(FormatDecimal(n)))).dc);
      (f.RxBytes? ==> s.rxBytes == n) && (f.TxBytes? ==> s.txBytes == n) && (f.RstTime? ==> s.resetTime == n)
  {
    HomeEventUpdatesNamedField(dc, store, f, Some(StringValue(FormatDecimal(n))));
    ParseFormat(n);
  }

  /** A string value in "%llu" form of a number below 2^64. */
  predicate CanonicalString(value: Option<StoreValue>)
  {
    value.Some? && value.value.StringValue? && Canonical(value.value.s) && DigitsValue(value.value.s) <= U64_MAX
  }

  /**
    A home warning-limit event stores the canonical rendering of the parsed
    value: a canonical value is kept as it is, and a missing or non-string
    value becomes "0" rather than no limit.
   */
  lemma HomeLimitEventNormalises(dc: Counter, store: Store, value: Option<StoreValue>)
    requires dc.initialized && dc.home
    ensures var lim := Changed(dc, store, Key(true, WarningLimit), value).dc.warningLimit;
      && lim.Some? && Canonical(lim.value)
      && Strtoull(lim.value) == EventCounter(value)
      && (!(value.Some? && value.value.StringValue?) ==> lim == Some("0"))
      && (CanonicalString(value) ==> lim == Some(value.value.s))
  {
    HomeEventUpdatesNamedField(dc, store, WarningLimit, value);
    ParseFormat(EventCounter(value));
    if CanonicalString(value) {
      FormatParse(value.value.s);
    }
  }

  /**
    Registering a callback that is not yet registered and then closing it
    restores the notifier list, and tears down exactly when no other
    notifier is left.
   */
  lemma RegisterThenClose(dc: Counter, store: Store, cb: Callback, home: bool, userData: UserData,
                          clientAvailable: bool, clientAvailable': bool)
    requires dc.initialized || clientAvailable
    requires dc.initialized ==> forall i :: 0 <= i < |dc.notifiers| ==> dc.notifiers[i].callback != cb
    ensures var r := Register(dc, store, cb, home, userData, clientAvailable).next;
      var c := Close(r.dc, r.store, Some(cb), clientAvailable');
      && c.dc.notifiers == (if dc.initialized then dc.notifiers else [])
      && (c.dc.initialized <==> dc.initialized && dc.notifiers != [])
      && c.store == store
  {
    var g := Get(dc, store, home, clientAvailable).dc;
    RemoveAppend(g.notifiers, [Notifier(cb, userData)], cb);
    RemoveAbsent(g.notifiers, cb);
  }

  /**
    After reset of a counter nobody listens to, a new registration on the
    same profile loads zero counters and the reset time just written.
   */
  lemma ResetThenRegister(dc: Counter, store: Store, now: U64, clientAvailable: bool,
                          cb: Callback, userData: UserData)
    requires dc.initialized || clientAvailable
    requires dc.initialized ==> dc.notifiers == []
    ensures var r := Reset(dc, store, now, clientAvailable);
      var g := Register(r.dc, r.store, cb, ActiveProfile(dc), userData, true);
      && g.ok
      && |g.next.emitted| == 1
      && g.next.emitted[0].snapshot.rxBytes == 0
      && g.next.emitted[0].snapshot.txBytes == 0
      && g.next.emitted[0].snapshot.resetTime == now
  {
  }

  /** reset writes only keys of the active profile: every key of the other profile keeps its binding. */
  lemma ResetKeepsOtherProfile(dc: Counter, store: Store, now: U64, clientAvailable: bool, f: Field)
    requires dc.initialized || clientAvailable
    ensures SameBinding(Reset(dc, store, now, clientAvailable).store, store, Key(!ActiveProfile(dc), f))
  {
    var h := ActiveProfile(dc);
    KeyInjective(!h, f, h, RstTime);
    KeyInjective(!h, f, h, RxBytes);
    KeyInjective(!h, f, h, TxBytes);
    KeyInjective(!h, f, h, LastNtfy);
    AgreeExceptBinding(Reset(dc, store, now, clientAvailable).store, store,
                       {Key(h, RstTime), Key(h, RxBytes), Key(h, TxBytes), Key(h, LastNtfy)}, Key(!h, f));
  }

  /** save writes only keys of the active profile: every key of the other profile keeps its binding. */
  lemma SaveKeepsOtherProfile(dc: Counter, store: Store, enabled: bool, limit: Option<string>,
                              clientAvailable: bool, f: Field)
    requires dc.initialized || clientAvailable
    ensures SameBinding(Save(dc, store, enabled, limit, clientAvailable).store, store, Key(!ActiveProfile(dc), f))
  {
    var h := ActiveProfile(dc);
    KeyInjective(!h, f, h, NtfyEnable);
    KeyInjective(!h, f, h, WarningLimit);
    KeyInjective(!h, f, h, NtfyPeriod);
    var r := Save(dc, store, enabled, limit, clientAvailable).store;
    if limit.None? {
      AgreeExceptBinding(r, store, {Key(h, NtfyEnable)}, Key(!h, f));
    } else {
      AgreeExceptBinding(r, store, {Key(h, NtfyEnable), Key(h, WarningLimit), Key(h, NtfyPeriod)}, Key(!h, f));
    }
  }

  /**
    What save writes is what the next get loads: the flag and the limit as
    given, and the three counters as they were.
   */
  lemma SaveThenLoad(dc: Counter, store: Store, enabled: bool, limit: Option<string>, clientAvailable: bool)
    requires dc.initialized || clientAvailable
    ensures var h := ActiveProfile(dc);
      var s := Loaded(Save(dc, store, enabled, limit, clientAvailable).store, h);
      var s0 := Loaded(store, h);
      && s.notificationEnabled == enabled
      && s.warningLimit == (if limit.Some? then limit else s0.warningLimit)
      && s.rxBytes == s0.rxBytes && s.txBytes == s0.txBytes && s.resetTime == s0.resetTime
  {
    var h := ActiveProfile(dc);
    var r := Save(dc, store, enabled, limit, clientAvailable).store;
    var keys := if limit.None? then {Key(h, NtfyEnable)}
                else {Key(h, NtfyEnable), Key(h, WarningLimit), Key(h, NtfyPeriod)};
    KeyInjective(h, NtfyEnable, h, WarningLimit);
    forall f: Field | f.RxBytes? || f.TxBytes? || f.RstTime? || (limit.None? && f.WarningLimit?)
      ensures SameBinding(r, store, Key(h, f))
    {
      KeyInjective(h, f, h, NtfyEnable);
      KeyInjective(h, f, h, WarningLimit);
      KeyInjective(h, f, h, NtfyPeriod);
      AgreeExceptBinding(r, store, keys, Key(h, f));
    }
    SameBindingReads(r, store, Key(h, RxBytes));
    SameBindingReads(r, store, Key(h, TxBytes));
    SameBindingReads(r, store, Key(h, RstTime));
    if limit.None? {
      SameBindingReads(r, store, Key(h, WarningLimit));
    }
  }

  /**
    The notify period save derives from a decimal limit reads back as the
    limit times 10^6 (saturated at ULLONG_MAX) when notifications are on,
    and as 0 when they are off.
   */
  lemma NotifyPeriodValue(enabled: bool, limit: string)
    requires AllDigits(limit) && limit != []
    ensures Strtoull(NotifyPeriod(enabled, limit)) ==
      if enabled then Min(DigitsValue(limit) * 1000000, U64_MAX) else 0
  {
    if enabled {
      ScaledLimitValue(limit);
    } else {
      assert LeadingDigits("0") == "0";
    }
  }

  lemma ScaledLimitValue(limit: string)
    requires AllDigits(limit) && limit != []
    ensures AllDigits(limit + "000000")
    ensures Strtoull(limit + "000000") == Min(DigitsValue(limit) * 1000000, U64_MAX)
  {
    ScaledLimitDigits(limit);
    LeadingDigitsOfDigits(limit + "000000");
  }

  lemma ScaledLimitDigits(limit: string)
    requires AllDigits(limit)
    ensures AllDigits(limit + "000000")
    ensures DigitsValue(limit + "000000") == DigitsValue(limit) * 1000000
  {
    ZerosValue("000000");
    MillionIsPow10();
    DigitsAppend(limit, "000000");
  }

  lemma MillionIsPow10()
    ensures Pow10(6) == 1000000
  {
  }

  /** save(TRUE, "500") stores the period "500000000", save(FALSE, "500") stores "0". */
  lemma SaveFiveHundred(dc: Counter, store: Store, clientAvailable: bool)
    requires dc.initialized || clientAvailable
    ensures var h := ActiveProfile(dc);
      && GetString(Save(dc, store, true, Some("500"), clientAvailable).store, Key(h, NtfyPeriod)) == Some("500000000")
      && GetString(Save(dc, store, false, Some("500"), clientAvailable).store, Key(h, NtfyPeriod)) == Some("0")
  {
    assert NotifyPeriod(true, "500") == "500000000";
  }

  /** A counter opened on an empty store reports (0, 0, 0, FALSE, NULL). */
  lemma EmptyStoreScenario(cb: Callback, userData: UserData)
    ensures var r := Register(Unloaded, map[], cb, true, userData, true);
      && r.ok
      && r.next.emitted == [Notification([Notifier(cb, userData)], Snapshot(0, 0, 0, false, None))]
  {
  }

  /** An external write of "12345" to the home RX key then reports rx_bytes 12345, all else unchanged. */
  lemma EmptyStoreThenRxWrite(cb: Callback, userData: UserData)
    ensures var r := Register(Unloaded, map[], cb, true, userData, true);
      var c := Changed(r.next.dc, r.next.store, Key(true, RxBytes), Some(StringValue("12345")));
      c.emitted == [Notification([Notifier(cb, userData)], Snapshot(12345, 0, 0, false, None))]
  {
    var r := Register(Unloaded, map[], cb, true, userData, true);
    var d := Unloaded.(initialized := true, client := true, watching := true, home := true,
                       notifiers := [Notifier(cb, userData)]);
    assert r.next.dc == d && r.next.store == map[];
    FormatOf12345();
    HomeEventUpdatesNamedField(d, map[], RxBytes, Some(StringValue("12345")));
    ParseFormat(12345);
    assert EventCounter(Some(StringValue("12345"))) == 12345;
  }

  lemma FormatOf12345()
    ensures FormatDecimal(12345) == "12345"
  {
    assert FormatDecimal(1) == "1";
    assert FormatDecimal(12) == FormatDecimal(1) + "2";
    assert FormatDecimal(123) == FormatDecimal(12) + "3";
    assert FormatDecimal(1234) == FormatDecimal(123) + "4";
    assert FormatDecimal(12345) == FormatDecimal(1234) + "5";
  }
}
