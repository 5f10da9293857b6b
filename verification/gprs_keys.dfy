/**
  Names of the settings-store keys of the two data-usage profiles.

  The header that defines the GPRS_HOME_* and GPRS_ROAM_* macros is not part
  of this model; the spellings below are placeholders under the GPRS network
  mapping directory, and every property of the model depends only on the
  keys being pairwise distinct (KeyInjective).
 */
module GprsKeys {

  /** The GPRS network mapping directory the counter watches. */
  const GPRS_DIR: string := "/system/osso/connectivity/network_type/GPRS"

  /** One key per profile for each of these. */
  datatype Field = RxBytes | TxBytes | RstTime | WarningLimit | NtfyEnable | NtfyPeriod | LastNtfy

  /** The five keys the change handler dispatches on and get loads. */
  predicate Tracked(f: Field)
  {
    f.RxBytes? || f.TxBytes? || f.RstTime? || f.WarningLimit? || f.NtfyEnable?
  }

  /** The directory and profile part of a key. */
  function ProfilePrefix(home: bool): string
  {
    if home then GPRS_DIR + "/gprs_home_" else GPRS_DIR + "/gprs_roaming_"
  }

  /** The field part of a key. */
  function FieldName(f: Field): string
  {
    match f
    case RxBytes => "rx_bytes"
    case TxBytes => "tx_bytes"
    case RstTime => "reset_time"
    case WarningLimit => "warning_limit"
    case NtfyEnable => "notification_enabled"
    case NtfyPeriod => "notification_period"
    case LastNtfy => "last_notification"
  }

  /** GPRS_HOME_<field> when home, GPRS_ROAM_<field> otherwise. */
  function Key(home: bool, f: Field): string
  {
    ProfilePrefix(home) + FieldName(f)
  }

  /** The keys of one profile that the change handler tracks. */
  function TrackedKeys(home: bool): (ks: set<string>)
    ensures forall f :: Tracked(f) ==> Key(home, f) in ks
    ensures forall k :: k in ks ==> exists f :: Tracked(f) && k == Key(home, f)
  {
    {Key(home, RxBytes), Key(home, TxBytes), Key(home, RstTime), Key(home, WarningLimit), Key(home, NtfyEnable)}
  }

  /** No two (profile, field) pairs share a key. */
  lemma KeyInjective(h1: bool, f1: Field, h2: bool, f2: Field)
    ensures Key(h1, f1) == Key(h2, f2) ==> h1 == h2 && f1 == f2
  {
    if h1 != h2 {
      var i := |GPRS_DIR| + 6;
      assert Key(h1, f1)[i] == ProfilePrefix(h1)[i] == (if h1 then 'h' else 'r');
      assert Key(h2, f2)[i] == ProfilePrefix(h2)[i] == (if h2 then 'h' else 'r');
    } else if Key(h1, f1) == Key(h2, f2) {
      var p := ProfilePrefix(h1);
      assert FieldName(f1) == Key(h1, f1)[|p|..] == Key(h2, f2)[|p|..] == FieldName(f2);
      FieldNameInjective(f1, f2);
    }
  }

  lemma FieldNameInjective(f1: Field, f2: Field)
    ensures FieldName(f1) == FieldName(f2) ==> f1 == f2
  {
  }
}
