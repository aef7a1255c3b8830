/** src/services/settingsStorage.js: the monitoring settings kept under the
    storage key 'deliala_settings', read back merged over the defaults. */
module SettingsStorage {
  import opened Model
  import opened Browser

  /** `DEFAULT_SETTINGS`: no webhook, every 30 minutes, only the delay
      notification enabled. */
  const DefaultSettings := Settings("", 30, false, true, false, false)

  /** `{ ...DEFAULT_SETTINGS, ...saved }`: each field the saved object
      defines wins, the others come from the defaults. */
  function MergeSettings(d: Settings, p: SettingsPatch): (r: Settings)
    ensures r.slackWebhookUrl == (if p.slackWebhookUrl.Some? then p.slackWebhookUrl.value else d.slackWebhookUrl)
    ensures r.monitoringInterval == (if p.monitoringInterval.Some? then p.monitoringInterval.value else d.monitoringInterval)
    ensures r.notifyOnShipment == (if p.notifyOnShipment.Some? then p.notifyOnShipment.value else d.notifyOnShipment)
    ensures r.notifyOnDelay == (if p.notifyOnDelay.Some? then p.notifyOnDelay.value else d.notifyOnDelay)
    ensures r.notifyOnDelivery == (if p.notifyOnDelivery.Some? then p.notifyOnDelivery.value else d.notifyOnDelivery)
    ensures r.notifyOnException == (if p.notifyOnException.Some? then p.notifyOnException.value else d.notifyOnException)
  {
    Settings(
      if p.slackWebhookUrl.Some? then p.slackWebhookUrl.value else d.slackWebhookUrl,
      if p.monitoringInterval.Some? then p.monitoringInterval.value else d.monitoringInterval,
      if p.notifyOnShipment.Some? then p.notifyOnShipment.value else d.notifyOnShipment,
      if p.notifyOnDelay.Some? then p.notifyOnDelay.value else d.notifyOnDelay,
      if p.notifyOnDelivery.Some? then p.notifyOnDelivery.value else d.notifyOnDelivery,
      if p.notifyOnException.Some? then p.notifyOnException.value else d.notifyOnException)
  }

  /** `getSettings()` on a given entry: the defaults when nothing is stored
      or the stored text does not parse, the merge otherwise. */
  function SettingsFrom(e: Entry<SettingsPatch>): (s: Settings)
    ensures !e.Saved? ==> s == DefaultSettings
    ensures e.Saved? ==> s == MergeSettings(DefaultSettings, e.value)
  {
    match e
    case Saved(saved) => MergeSettings(DefaultSettings, saved)
    case _ => DefaultSettings
  }

  function GetSettings(ls: LocalStorage): Settings
    reads ls
  {
    SettingsFrom(ls.settingsEntry)
  }

  /** A complete settings object as the settings page saves it. */
  function Full(s: Settings): SettingsPatch {
    SettingsPatch(Some(s.slackWebhookUrl), Some(s.monitoringInterval), Some(s.notifyOnShipment),
                  Some(s.notifyOnDelay), Some(s.notifyOnDelivery), Some(s.notifyOnException))
  }

  /** Saving a complete object and loading it gives it back; an empty saved
      object loads as the defaults. */
  lemma SaveLoadRoundTrip(s: Settings)
    ensures SettingsFrom(Saved(Full(s))) == s
    ensures SettingsFrom(Saved(SettingsPatch(None, None, None, None, None, None))) == DefaultSettings
  {
  }

  /** Under the defaults no webhook is configured, so monitoring cannot start. */
  lemma DefaultsHaveNoWebhook(e: Entry<SettingsPatch>)
    requires !e.Saved? || e.value.slackWebhookUrl.None?
    ensures SettingsFrom(e).slackWebhookUrl == ""
  {
  }

  /** `saveSettings(s)`; a later `getSettings()` agrees with `s` on every
      field `s` defines. */
  method SaveSettings(ls: LocalStorage, s: SettingsPatch) returns (ok: bool)
    modifies ls`settingsEntry
    ensures ok == ls.writable
    ensures ls.settingsEntry == if ok then Saved(s) else old(ls.settingsEntry)
    ensures ok ==> GetSettings(ls) == MergeSettings(DefaultSettings, s)
  {
    if !ls.writable {
      return false;
    }
    ls.settingsEntry := Saved(s);
    ok := true;
  }

  /** `clearSettings()`: afterwards `getSettings()` gives the defaults. */
  method ClearSettings(ls: LocalStorage) returns (ok: bool)
    modifies ls`settingsEntry
    ensures ok == ls.writable
    ensures ls.settingsEntry == if ok then Missing else old(ls.settingsEntry)
    ensures ok ==> GetSettings(ls) == DefaultSettings
  {
    if !ls.writable {
      return false;
    }
    ls.settingsEntry := Missing;
    ok := true;
  }
}
