/** The single `app_config` row (`"ID" = 1`) that the settings routes and the schedulers read
    and rewrite: the media-server connection, the login, the API keys and the `settings` JSON. */
module AppConfig {
  import opened Wrappers

  /** One entry of `settings.Tasks`. `interval` is the `Interval` member in minutes, None when
      the entry has none. */
  datatype TaskSettings = TaskSettings(interval: Option<int>)

  /** The members of the `settings` JSON the model follows. A NULL `settings` column reads as
      `{}`, which is this value with empty lists and no task entries. */
  datatype Settings = Settings(
    excludedLibraries: seq<string>, excludedUsers: seq<string>, tasks: map<string, TaskSettings>)

  const EmptySettings := Settings([], [], map[])

  /** One `api_keys` entry. */
  datatype ApiKey = ApiKey(name: string, key: string)

  /** JavaScript truthiness of an `Interval` member: present and not zero. */
  predicate Truthy(interval: Option<int>)
  {
    interval.Some? && interval.value != 0
  }

  /** The `app_config` row. `present` is false when the table has no row with `"ID" = 1`; the
      other fields are then those an `UPDATE ... where "ID"=1` cannot change. `host`, `apiKey`,
      `appUser` and `appPassword` are None for SQL NULL. */
  class ConfigRow {
    var present: bool
    var host: Option<string>
    var apiKey: Option<string>
    var appUser: Option<string>
    var appPassword: Option<string>
    var apiKeys: seq<ApiKey>
    var settings: Settings

    constructor (present: bool, host: Option<string>, apiKey: Option<string>, settings: Settings)
      ensures this.present == present && this.host == host && this.apiKey == apiKey && this.settings == settings
      ensures appUser.None? && appPassword.None? && apiKeys == []
    {
      this.present := present;
      this.host := host;
      this.apiKey := apiKey;
      this.settings := settings;
      appUser := None;
      appPassword := None;
      apiKeys := [];
    }
  }
}
