/**
  The key/value settings store (GConf) as the counter sees it: a map from
  key to a string or boolean value, with the client calls the counter makes.
 */
module Settings {

  import opened Wrappers
  import opened Decimal

  datatype StoreValue = StringValue(s: string) | BoolValue(b: bool)

  type Store = map<string, StoreValue>

  /** gconf_client_get_string: NULL when the key is unset or holds another type. */
  function GetString(store: Store, key: string): Option<string>
  {
    if key in store && store[key].StringValue? then Some(store[key].s) else None
  }

  /** gconf_client_get_bool: FALSE when the key is unset or holds another type. */
  function GetBool(store: Store, key: string): bool
  {
    key in store && store[key].BoolValue? && store[key].b
  }

  /** Every key outside `keys` is bound alike in a and b. */
  predicate AgreeExcept(a: Store, b: Store, keys: set<string>)
  {
    a - keys == b - keys
  }

  lemma AgreeExceptTrans(a: Store, b: Store, c: Store, ka: set<string>, kb: set<string>)
    requires AgreeExcept(a, b, ka) && AgreeExcept(b, c, kb)
    ensures AgreeExcept(a, c, ka + kb)
  {
    assert a - (ka + kb) == (a - ka) - kb;
    assert c - (ka + kb) == (c - kb) - ka;
    assert (b - ka) - kb == (b - kb) - ka;
  }

  /** gconf_client_set_string */
  function SetString(store: Store, key: string, s: string): (r: Store)
    ensures GetString(r, key) == Some(s)
    ensures AgreeExcept(r, store, {key})
  {
    store[key := StringValue(s)]
  }

  /** gconf_client_set_bool */
  function SetBool(store: Store, key: string, b: bool): (r: Store)
    ensures key in r && r[key] == BoolValue(b) && GetBool(r, key) == b
    ensures AgreeExcept(r, store, {key})
  {
    store[key := BoolValue(b)]
  }

  /** gconf_client_unset */
  function Unset(store: Store, key: string): (r: Store)
    ensures key !in r
    ensures AgreeExcept(r, store, {key})
  {
    store - {key}
  }

  /**
    read_gconf_setting: a counter key, 0 when no string is stored there;
    stored text that starts with digits reads as their value, capped at
    ULLONG_MAX, and text that starts with anything else than white space, a
    sign or a digit reads as 0.
   */
  function ReadSetting(store: Store, key: string): (v: U64)
    ensures GetString(store, key).None? ==> v == 0
    ensures var o := GetString(store, key);
      o.Some? && LeadingDigits(o.value) != [] ==> v == Min(DigitsValue(LeadingDigits(o.value)), U64_MAX)
    ensures var o := GetString(store, key);
      o.Some? && (o.value == [] || !(IsSpace(o.value[0]) || IsDigit(o.value[0]) || o.value[0] == '+' || o.value[0] == '-')) ==> v == 0
  {
    match GetString(store, key)
    case Some(s) => Strtoull(s)
    case None => 0
  }

  /** write_gconf_setting: stores the "%llu" rendering of v, which reads back as v. */
  function WriteSetting(store: Store, key: string, v: U64): (r: Store)
    ensures GetString(r, key) == Some(FormatDecimal(v))
    ensures ReadSetting(r, key) == v
    ensures AgreeExcept(r, store, {key})
  {
    ParseFormat(v);
    SetString(store, key, FormatDecimal(v))
  }

  /** A canonical decimal string below 2^64 reads as the number it denotes, and "%llu" of that number is the string. */
  lemma ReadCanonical(store: Store, key: string)
    requires GetString(store, key).Some?
    requires Canonical(GetString(store, key).value)
    requires DigitsValue(GetString(store, key).value) <= U64_MAX
    ensures ReadSetting(store, key) == DigitsValue(GetString(store, key).value)
    ensures FormatDecimal(ReadSetting(store, key)) == GetString(store, key).value
  {
    var s := GetString(store, key).value;
    StrtoullOfDigits(s);
    FormatOfCanonical(s);
  }
}
