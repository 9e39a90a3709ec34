/** The configuration of the client: a YAML file holding, per device name, a device
    token. The file's existence, its directory's existence and its decoded contents are
    the state; loading decodes the contents and the token lookups read them. */
module Configuration {
  import opened Python
  import opened Json

  const DefaultDeviceName := "reMarkable2"
  const PlaceholderToken := "#INSERT_TOKEN_HERE"
  const DeviceTokenField := "device_token"
  const LastKnownUserTokenField := "last_known_user_token"

  /** The contents written when no configuration file exists: device `reMarkable2` is
      the default and has the placeholder token and an empty last user token. */
  function DefaultData(): (d: Json)
    ensures d.JObj? && d.fields.Keys == {"devices"}
    ensures d.fields["devices"].JObj? && d.fields["devices"].fields.Keys == {"default", "device"}
    ensures d.fields["devices"].fields["default"] == JStr(DefaultDeviceName)
    ensures d.fields["devices"].fields["device"].JObj?
    ensures d.fields["devices"].fields["device"].fields.Keys == {DefaultDeviceName}
    ensures TokenIn(d, DefaultDeviceName, DeviceTokenField) == Returned(JStr(PlaceholderToken))
    ensures TokenIn(d, DefaultDeviceName, LastKnownUserTokenField) == Returned(JStr(""))
  {
    JObj(map[
      "devices" := JObj(map[
        "default" := JStr(DefaultDeviceName),
        "device" := JObj(map[
          DefaultDeviceName := JObj(map[
            DeviceTokenField := JStr(PlaceholderToken),
            LastKnownUserTokenField := JStr("")
          ])
        ])
      ])
    ])
  }

  /** `str(value).startswith('#')`: only a string can print with a leading `#`; None,
      booleans, numbers, lists and dicts print as `None`, `True`, digits, `[...]`, `{...}`. */
  predicate PrintsWithHash(value: Json) {
    value.JStr? && |value.s| > 0 && value.s[0] == '#'
  }

  /** `if not device_name: device_name = 'reMarkable2'`. */
  function DeviceName(deviceName: Option<string>): (name: string)
    ensures Present(deviceName) ==> name == deviceName.value
    ensures !Present(deviceName) ==> name == DefaultDeviceName
    ensures name != ""
  {
    if Present(deviceName) then deviceName.value else DefaultDeviceName
  }

  /** The configuration has a `token_type` field for device `deviceName`. */
  predicate HasToken(config: Json, deviceName: string, tokenType: string) {
    && config.JObj? && "devices" in config.fields
    && var devices := config.fields["devices"];
    && devices.JObj? && "device" in devices.fields
    && var device := devices.fields["device"];
    && device.JObj? && deviceName in device.fields
    && var entry := device.fields[deviceName];
    && entry.JObj? && tokenType in entry.fields
  }

  /** On the way to the `tokenType` field of device `deviceName`, the first value that does
      not lead on is a dict without the next key (rather than a value that is not a dict). */
  predicate MissingKey(config: Json, deviceName: string, tokenType: string) {
    && config.JObj?
    && ("devices" !in config.fields ||
        var devices := config.fields["devices"];
        && devices.JObj?
        && ("device" !in devices.fields ||
            var device := devices.fields["device"];
            && device.JObj?
            && (deviceName !in device.fields ||
                var entry := device.fields[deviceName];
                entry.JObj? && tokenType !in entry.fields)))
  }

  /** `_get_a_token` on a loaded configuration:
      `config['devices']['device'][device_name][token_type]`, raising KeyError at the
      first missing key and TypeError at the first value that is not a dict. */
  function TokenIn(config: Json, deviceName: string, tokenType: string): (r: Outcome<Json>)
    ensures r.Returned? <==> HasToken(config, deviceName, tokenType)
    ensures r.Returned? ==> r.value == config.fields["devices"].fields["device"].fields[deviceName].fields[tokenType]
    ensures r.Raised? ==> r.error == KeyError || r.error == TypeError
    ensures r == Raised(KeyError) <==> MissingKey(config, deviceName, tokenType)
  {
    var devices :- Subscript(config, "devices");
    var device :- Subscript(devices, "device");
    var entry :- Subscript(device, deviceName);
    Subscript(entry, tokenType)
  }

  /** `get_device_token` on a loaded configuration: the stored device token, unless it
      looks like the placeholder (prints with a leading `#`) or any key on the way to it
      is missing; both raise ValueError. */
  function DeviceTokenIn(config: Json, deviceName: Option<string>): (r: Outcome<Json>)
    ensures r != Raised(KeyError)
    ensures var stored := TokenIn(config, DeviceName(deviceName), DeviceTokenField);
      && (r.Returned? <==> stored.Returned? && !PrintsWithHash(stored.value))
      && (r.Returned? ==> r.value == stored.value)
      && (stored == Raised(KeyError) || (stored.Returned? && PrintsWithHash(stored.value)) ==> r == Raised(ValueError))
      && (stored == Raised(TypeError) ==> r == Raised(TypeError))
    ensures MissingKey(config, DeviceName(deviceName), DeviceTokenField) ==> r == Raised(ValueError)
    ensures r == Raised(TypeError) <==>
      !HasToken(config, DeviceName(deviceName), DeviceTokenField) &&
      !MissingKey(config, DeviceName(deviceName), DeviceTokenField)
  {
    var stored := TokenIn(config, DeviceName(deviceName), DeviceTokenField);
    if stored.Raised? then
      if stored.error == KeyError then Raised(ValueError) else Raised(stored.error)
    else if PrintsWithHash(stored.value) then Raised(ValueError)
    else stored
  }

  /** `get_user_token` on a loaded configuration: despite its name it reads the
      `device_token` field, with no placeholder check, and a missing key escapes. */
  function UserTokenIn(config: Json, deviceName: Option<string>): (r: Outcome<Json>)
    ensures r.Returned? <==> HasToken(config, DeviceName(deviceName), DeviceTokenField)
    ensures r.Returned? ==>
      r.value == config.fields["devices"].fields["device"].fields[DeviceName(deviceName)].fields[DeviceTokenField]
    ensures r.Raised? ==> r.error == KeyError || r.error == TypeError
    ensures r == Raised(KeyError) <==> MissingKey(config, DeviceName(deviceName), DeviceTokenField)
    ensures DeviceTokenIn(config, deviceName).Returned? ==> r == DeviceTokenIn(config, deviceName)
    ensures r.Returned? && PrintsWithHash(r.value) ==> DeviceTokenIn(config, deviceName) == Raised(ValueError)
  {
    TokenIn(config, DeviceName(deviceName), DeviceTokenField)
  }

  /** The configuration as the file system holds it. */
  class ReMarkableConfiguration {
    var configExists: bool     // `isfile(configuration_file)`
    var directoryExists: bool  // `isdir(~/.reMarkable2)`
    var stored: Json           // what `safe_load` decodes from the file

    /** A configuration object over the given file-system state. */
    constructor(configExists: bool, directoryExists: bool, stored: Json)
      ensures this.configExists == configExists && this.directoryExists == directoryExists
      ensures this.stored == stored
    {
      this.configExists := configExists;
      this.directoryExists := directoryExists;
      this.stored := stored;
    }

    /** `load_config`: the decoded file, or FileNotFoundError when there is none. */
    function LoadConfig(): (r: Outcome<Json>)
      reads this
      ensures r.Returned? <==> configExists
      ensures r.Returned? ==> r.value == stored
      ensures r.Raised? ==> r.error == FileNotFoundError
    {
      if configExists then Returned(stored) else Raised(FileNotFoundError)
    }

    /** `_get_a_token`. */
    function GetAToken(deviceName: string, tokenType: string): (r: Outcome<Json>)
      reads this
      ensures !configExists ==> r == Raised(FileNotFoundError)
      ensures configExists ==> r == TokenIn(stored, deviceName, tokenType)
    {
      var config :- LoadConfig();
      TokenIn(config, deviceName, tokenType)
    }

    /** `get_device_token`: a missing file escapes as FileNotFoundError, since only a
        KeyError is turned into ValueError. */
    function GetDeviceToken(deviceName: Option<string>): (r: Outcome<Json>)
      reads this
      ensures r != Raised(KeyError)
      ensures !configExists ==> r == Raised(FileNotFoundError)
      ensures configExists ==> r == DeviceTokenIn(stored, deviceName)
    {
      var config :- LoadConfig();
      DeviceTokenIn(config, deviceName)
    }

    /** `get_user_token`. */
    function GetUserToken(deviceName: Option<string>): (r: Outcome<Json>)
      reads this
      ensures !configExists ==> r == Raised(FileNotFoundError)
      ensures configExists ==> r == UserTokenIn(stored, deviceName)
    {
      GetAToken(DeviceName(deviceName), DeviceTokenField)
    }

    /** `generate_basic_config`: refuses (returns False) and writes nothing when the file
        exists; otherwise creates the directory when missing and writes the default data,
        returning None. */
    method GenerateBasicConfig() returns (r: Option<bool>)
      modifies this
      ensures old(configExists) ==> r == Some(false) && unchanged(this)
      ensures !old(configExists) ==> r == None && configExists && directoryExists && stored == DefaultData()
    {
      if configExists {
        return Some(false);
      }
      if !directoryExists {
        directoryExists := true;
      }
      stored := DefaultData();
      configExists := true;
      return None;
    }

    /** `__init__`: with no configuration file it scaffolds the default one and then
        raises ValueError; with one it changes nothing. */
    method Init() returns (r: Outcome<()>)
      modifies this
      ensures old(configExists) ==> r == Returned(()) && unchanged(this)
      ensures !old(configExists) ==> r == Raised(ValueError) && configExists && directoryExists && stored == DefaultData()
      ensures r.Raised? ==> forall name :: GetDeviceToken(name) == Raised(ValueError)
    {
      if !configExists {
        var _ := GenerateBasicConfig();
        ScaffoldedConfigRefused();
        return Raised(ValueError);
      }
      return Returned(());
    }
  }

  /** In the default data device `reMarkable2` holds the placeholder token, and no other
      device exists: `get_device_token` refuses every name on a freshly scaffolded file. */
  lemma {:induction false} ScaffoldedConfigRefused()
    ensures forall name :: DeviceTokenIn(DefaultData(), name) == Raised(ValueError)
  {
    forall name
      ensures DeviceTokenIn(DefaultData(), name) == Raised(ValueError)
    {
      var entries := DefaultData().fields["devices"].fields["device"].fields;
      if DeviceName(name) == DefaultDeviceName {
        assert TokenIn(DefaultData(), DeviceName(name), DeviceTokenField) == Returned(JStr(PlaceholderToken));
      } else {
        assert DeviceName(name) !in entries;
      }
    }
  }

  /** `get_user_token` does not check for the placeholder: on the default data it hands
      the placeholder out as a token. */
  lemma UserTokenOfScaffoldedConfig()
    ensures UserTokenIn(DefaultData(), None) == Returned(JStr(PlaceholderToken))
    ensures DeviceTokenIn(DefaultData(), None) == Raised(ValueError)
  {
    ScaffoldedConfigRefused();
  }

  /** A None or empty device name stands for `reMarkable2`. */
  lemma DefaultDeviceLookedUp(config: Json)
    ensures DeviceTokenIn(config, None) == DeviceTokenIn(config, Some("")) == DeviceTokenIn(config, Some(DefaultDeviceName))
  {
  }

  /** A stored string token without a leading `#` is handed out unchanged by
      `get_device_token` and `get_user_token` alike; one with it is refused by the first
      and handed out by the second. */
  lemma StoredTokenReturned(config: Json, deviceName: Option<string>, token: string)
    requires TokenIn(config, DeviceName(deviceName), DeviceTokenField) == Returned(JStr(token))
    ensures token != "" && token[0] == '#' ==> DeviceTokenIn(config, deviceName) == Raised(ValueError)
    ensures !(token != "" && token[0] == '#') ==> DeviceTokenIn(config, deviceName) == Returned(JStr(token))
    ensures UserTokenIn(config, deviceName) == Returned(JStr(token))
  {
  }
}
