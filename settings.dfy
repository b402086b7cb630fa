/** DeathSettings (scripts/settings.js): the settings the module registers with
    the host, and how the localisation keys and default asset paths of the
    image and audio settings are derived from their setting keys. */
module Settings {
  import opened Values
  import opened Constants
  import opened Outcome

  /** _capitalize: the first character upper-cased, the rest as is. */
  function Capitalize(s: string): string
  {
    if s == [] then [] else [UpperChar(s[0])] + s[1..]
  }

  /** An upper-cased character stays upper-cased. */
  lemma UpperCharIdempotent(c: char)
    ensures UpperChar(UpperChar(c)) == UpperChar(c)
  {
  }

  /** Capitalising keeps the length and everything after the first character,
      upper-cases the first, and doing it twice is doing it once. */
  lemma CapitalizeMeaning(s: string)
    ensures |Capitalize(s)| == |s|
    ensures s == [] ==> Capitalize(s) == []
    ensures s != [] ==> Capitalize(s)[0] == UpperChar(s[0]) && Capitalize(s)[1..] == s[1..]
    ensures Capitalize(Capitalize(s)) == Capitalize(s)
  {
    if s != [] {
      UpperCharIdempotent(s[0]);
      assert Capitalize(s)[1..] == s[1..];
    }
  }

  /** String.prototype.indexOf: where the first occurrence of pat starts. */
  function IndexOf(s: string, pat: string): (r: Option<nat>)
    ensures r.Some? ==> r.value + |pat| <= |s|
    decreases |s|
  {
    if |pat| <= |s| && s[..|pat|] == pat then Some(0)
    else if s == [] then None
    else match IndexOf(s[1..], pat)
      case None => None
      case Some(i) => Some(i + 1)
  }

  /** pat occurs at position j of s. */
  predicate OccursAt(s: string, pat: string, j: nat)
  {
    j + |pat| <= |s| && s[j..j + |pat|] == pat
  }

  /** IndexOf finds an occurrence, and no occurrence starts earlier; it finds
      nothing exactly when there is no occurrence. */
  lemma {:induction false} IndexOfMeaning(s: string, pat: string)
    ensures IndexOf(s, pat).Some? ==> OccursAt(s, pat, IndexOf(s, pat).value)
    ensures IndexOf(s, pat).Some? ==> forall j: nat :: j < IndexOf(s, pat).value ==> !OccursAt(s, pat, j)
    ensures IndexOf(s, pat).None? ==> forall j: nat :: !OccursAt(s, pat, j)
    decreases |s|
  {
    if |pat| <= |s| && s[..|pat|] == pat {
      assert s[0..|pat|] == s[..|pat|];
    } else if s != [] {
      IndexOfMeaning(s[1..], pat);
      assert |pat| <= |s| ==> s[0..|pat|] == s[..|pat|];
      forall j: nat | j > 0 ensures OccursAt(s, pat, j) <==> OccursAt(s[1..], pat, j - 1) {
        if j + |pat| <= |s| {
          assert s[j..j + |pat|] == s[1..][j - 1..j - 1 + |pat|];
        }
      }
    }
  }

  /** String.prototype.replace(pat, "") with a string pattern: only the first
      occurrence is removed. */
  function RemoveFirst(s: string, pat: string): string
  {
    match IndexOf(s, pat)
    case None => s
    case Some(i) => s[..i] + s[i + |pat|..]
  }

  /** s is pat's first occurrence removed from a string that had it, and a
      string without pat is left as it is. */
  lemma RemoveFirstMeaning(s: string, pat: string)
    ensures IndexOf(s, pat).None? ==> RemoveFirst(s, pat) == s
    ensures IndexOf(s, pat).Some? ==>
      var i := IndexOf(s, pat).value;
      s == RemoveFirst(s, pat)[..i] + pat + RemoveFirst(s, pat)[i..]
      && |RemoveFirst(s, pat)| == |s| - |pat|
  {
    IndexOfMeaning(s, pat);
    if IndexOf(s, pat).Some? {
      var i := IndexOf(s, pat).value;
      var t := RemoveFirst(s, pat);
      assert t[..i] == s[..i];
      assert t[i..] == s[i + |pat|..];
      assert s == s[..i] + s[i..i + |pat|] + s[i + |pat|..];
    }
  }

  /** The localisation key part of an image setting: `key.replace('Path', '')`, capitalised. */
  function ImageI18nKey(key: string): string
  {
    Capitalize(RemoveFirst(key, "Path"))
  }

  /** The localisation key part of an audio setting: the key itself, capitalised. */
  function AudioI18nKey(key: string): string
  {
    Capitalize(key)
  }

  function SettingName(i18nKey: string): string { "DEATH_OPTIONS.Settings." + i18nKey + ".Name" }
  function SettingHint(i18nKey: string): string { "DEATH_OPTIONS.Settings." + i18nKey + ".Hint" }

  const IMAGE_DIR: string := "modules/" + MODULE_ID + "/assets/images/"
  const AUDIO_DIR: string := "modules/" + MODULE_ID + "/assets/audio/"

  /** The `paths` objects of _registerImages and _registerAudio, in source order. */
  const IMAGE_FILES: StringTable := [
    ("backgroundPath", "roll-screen.webp"),
    ("blazePath", "blaze.webp"),
    ("avoidScarPath", "avoid_scar.webp"),
    ("avoidSafePath", "avoid_safe.webp"),
    ("hopePath", "hope.webp"),
    ("fearPath", "fear.webp"),
    ("criticalPath", "critical.webp")]

  const AUDIO_FILES: StringTable := [
    ("soundSuspense", "countdown.mp3"),
    ("soundBlaze", "blaze.mp3"),
    ("soundAvoidSafe", "avoid_safe.mp3"),
    ("soundAvoidScar", "avoid_scar.mp3"),
    ("soundHope", "hope.mp3"),
    ("soundFear", "fear.mp3"),
    ("soundCritical", "critical.mp3")]

  datatype SettingType = NumberSetting | StringSetting | BooleanSetting
  datatype SettingValue = NumberValue(n: int) | StringValue(s: string) | BooleanValue(b: bool)
  datatype Range = Range(min: int, max: int, step: int)

  /** The options object passed to game.settings.register, with the key. */
  datatype Registration = Registration(
    key: string, name: string, hint: string, scope: string, config: bool,
    kind: SettingType, range: Option<Range>, filePicker: Option<string>, default: SettingValue)

  /** `{ name, hint, ...picker, default }` for an image or audio setting. */
  function PickerRegistration(key: string, i18nKey: string, picker: string, default: string): Registration
  {
    Registration(key, SettingName(i18nKey), SettingHint(i18nKey), "world", true,
      StringSetting, None, Some(picker), StringValue(default))
  }

  function ImageRegistration(entry: (string, string)): Registration
  {
    PickerRegistration(entry.0, ImageI18nKey(entry.0), "image", IMAGE_DIR + entry.1)
  }

  function AudioRegistration(entry: (string, string)): Registration
  {
    PickerRegistration(entry.0, AudioI18nKey(entry.0), "audio", AUDIO_DIR + entry.1)
  }

  /** The registrations of a run of table entries, in order. */
  function ImageRegistrations(entries: StringTable): seq<Registration>
  {
    seq(|entries|, i requires 0 <= i < |entries| => ImageRegistration(entries[i]))
  }

  function AudioRegistrations(entries: StringTable): seq<Registration>
  {
    seq(|entries|, i requires 0 <= i < |entries| => AudioRegistration(entries[i]))
  }

  const DURATION_SETTING: Registration :=
    Registration("countdownDuration", "DEATH_OPTIONS.Settings.Duration.Name", "DEATH_OPTIONS.Settings.Duration.Hint",
      "world", true, NumberSetting, Some(Range(0, 10, 1)), None, NumberValue(6))

  const BLAZE_MESSAGE_SETTING: Registration :=
    Registration("blazeChatMessage", "DEATH_OPTIONS.Settings.BlazeMessage.Name", "DEATH_OPTIONS.Settings.BlazeMessage.Hint",
      "world", true, StringSetting, None, None, StringValue("A hero falls, but their legend rises..."))

  const PROBABILITIES_SETTING: Registration :=
    Registration("showProbabilities", "DEATH_OPTIONS.Settings.ShowProbabilities.Name",
      "DEATH_OPTIONS.Settings.ShowProbabilities.Hint",
      "world", true, BooleanSetting, None, None, BooleanValue(true))

  /** Everything DeathSettings.register registers, in order. */
  function AllRegistrations(): seq<Registration>
  {
    [DURATION_SETTING, BLAZE_MESSAGE_SETTING, PROBABILITIES_SETTING]
    + ImageRegistrations(IMAGE_FILES) + AudioRegistrations(AUDIO_FILES)
  }

  /** game.settings: the registrations it has received, oldest first. */
  class GameSettings {
    var registered: seq<Registration>

    constructor()
      ensures registered == []
    {
      registered := [];
    }

    method Register(r: Registration)
      modifies this
      ensures registered == old(registered) + [r]
    {
      registered := registered + [r];
    }
  }

  /** _registerImages: one picker registration per entry of its table. */
  method RegisterImages(settings: GameSettings)
    modifies settings
    ensures settings.registered == old(settings.registered) + ImageRegistrations(IMAGE_FILES)
  {
    var paths := IMAGE_FILES;
    for n := 0 to |paths|
      invariant settings.registered == old(settings.registered) + ImageRegistrations(paths[..n])
    {
      var (key, file) := paths[n];
      var keyBase := RemoveFirst(key, "Path");
      var i18nKey := Capitalize(keyBase);
      settings.Register(PickerRegistration(key, i18nKey, "image", IMAGE_DIR + file));
      RegistrationsSnoc(paths, n);
    }
    assert paths[..|paths|] == paths;
  }

  /** _registerAudio: one picker registration per entry of its table. */
  method RegisterAudio(settings: GameSettings)
    modifies settings
    ensures settings.registered == old(settings.registered) + AudioRegistrations(AUDIO_FILES)
  {
    var paths := AUDIO_FILES;
    for n := 0 to |paths|
      invariant settings.registered == old(settings.registered) + AudioRegistrations(paths[..n])
    {
      var (key, file) := paths[n];
      var i18nKey := Capitalize(key);
      settings.Register(PickerRegistration(key, i18nKey, "audio", AUDIO_DIR + file));
      RegistrationsSnoc(paths, n);
    }
    assert paths[..|paths|] == paths;
  }

  /** One more table entry adds its registration at the end. */
  lemma RegistrationsSnoc(entries: StringTable, n: nat)
    requires n < |entries|
    ensures ImageRegistrations(entries[..n + 1]) == ImageRegistrations(entries[..n]) + [ImageRegistration(entries[n])]
    ensures AudioRegistrations(entries[..n + 1]) == AudioRegistrations(entries[..n]) + [AudioRegistration(entries[n])]
  {
  }

  /** DeathSettings.register */
  method RegisterAll(settings: GameSettings)
    modifies settings
    ensures settings.registered == old(settings.registered) + AllRegistrations()
  {
    settings.Register(DURATION_SETTING);
    settings.Register(BLAZE_MESSAGE_SETTING);
    settings.Register(PROBABILITIES_SETTING);
    RegisterImages(settings);
    RegisterAudio(settings);
  }

  // ---- what the registrations say ----

  /** The localisation keys the image and audio settings are named after. */
  const IMAGE_I18N_KEYS: seq<string> := ["Background", "Blaze", "AvoidScar", "AvoidSafe", "Hope", "Fear", "Critical"]
  const AUDIO_I18N_KEYS: seq<string> :=
    ["SoundSuspense", "SoundBlaze", "SoundAvoidSafe", "SoundAvoidScar", "SoundHope", "SoundFear", "SoundCritical"]

  /** The image settings' localisation keys drop the "Path" suffix, as in
      avoidScarPath and AvoidScar. */
  lemma ImageI18nKeys(i: nat)
    requires i < |IMAGE_FILES|
    ensures ImageI18nKey(IMAGE_FILES[i].0) == IMAGE_I18N_KEYS[i]
    ensures ImageRegistrations(IMAGE_FILES)[i].name == "DEATH_OPTIONS.Settings." + IMAGE_I18N_KEYS[i] + ".Name"
  {
    var key := IMAGE_FILES[i].0;
    if i == 0 {
      assert key == "background" + "Path";
      ImageKeyOf("background", "Background");
    } else if i == 1 {
      assert key == "blaze" + "Path";
      ImageKeyOf("blaze", "Blaze");
    } else if i == 2 {
      assert key == "avoidScar" + "Path";
      ImageKeyOf("avoidScar", "AvoidScar");
    } else if i == 3 {
      assert key == "avoidSafe" + "Path";
      ImageKeyOf("avoidSafe", "AvoidSafe");
    } else if i == 4 {
      assert key == "hope" + "Path";
      ImageKeyOf("hope", "Hope");
    } else if i == 5 {
      assert key == "fear" + "Path";
      ImageKeyOf("fear", "Fear");
    } else {
      assert key == "critical" + "Path";
      ImageKeyOf("critical", "Critical");
    }
  }

  /** The audio settings' localisation keys are the whole key capitalised, as
      in soundSuspense and SoundSuspense. */
  lemma AudioI18nKeys(i: nat)
    requires i < |AUDIO_FILES|
    ensures AudioI18nKey(AUDIO_FILES[i].0) == AUDIO_I18N_KEYS[i]
    ensures AudioRegistrations(AUDIO_FILES)[i].name == "DEATH_OPTIONS.Settings." + AUDIO_I18N_KEYS[i] + ".Name"
  {
    var key := AUDIO_FILES[i].0;
    assert key[..5] == "sound" && AUDIO_I18N_KEYS[i] == "Sound" + key[5..];
    SoundKeyOf(key);
  }

  /** A key starting with "sound" capitalises to one starting with "Sound". */
  lemma SoundKeyOf(key: string)
    requires |key| >= 5 && key[..5] == "sound"
    ensures AudioI18nKey(key) == "Sound" + key[5..]
  {
    assert key[0] == 's';
    assert key[1..] == "ound" + key[5..];
  }

  /** A key made of a base without a 'P' and the "Path" suffix loses the suffix. */
  lemma ImageKeyOf(base: string, expected: string)
    requires forall k :: 0 <= k < |base| ==> base[k] != 'P'
    requires Capitalize(base) == expected
    ensures ImageI18nKey(base + "Path") == expected
  {
    var key := base + "Path";
    IndexOfMeaning(key, "Path");
    assert OccursAt(key, "Path", |base|) by { assert key[|base|..|base| + 4] == "Path"; }
    forall j: nat | j < |base| ensures !OccursAt(key, "Path", j) {
      assert key[j] == base[j];
      if j + 4 <= |key| {
        assert key[j..j + 4][0] == key[j];
      }
    }
    var i := IndexOf(key, "Path").value;
    assert i == |base|;
    assert key[..i] == base && key[i + 4..] == [];
  }

  /** The setting keys of a run of registrations, and of a table's entries. */
  function Keys(rs: seq<Registration>): seq<string>
  {
    seq(|rs|, i requires 0 <= i < |rs| => rs[i].key)
  }

  function TableKeys(entries: StringTable): seq<string>
  {
    seq(|entries|, i requires 0 <= i < |entries| => entries[i].0)
  }

  /** Each picker registration has its entry's key and its file under the
      right folder with the right picker. */
  lemma RegistrationFields(entries: StringTable)
    ensures Keys(ImageRegistrations(entries)) == TableKeys(entries)
    ensures Keys(AudioRegistrations(entries)) == TableKeys(entries)
    ensures forall i :: 0 <= i < |entries| ==>
      ImageRegistrations(entries)[i].default == StringValue(IMAGE_DIR + entries[i].1)
      && ImageRegistrations(entries)[i].filePicker == Some("image") && ImageRegistrations(entries)[i].scope == "world"
    ensures forall i :: 0 <= i < |entries| ==>
      AudioRegistrations(entries)[i].default == StringValue(AUDIO_DIR + entries[i].1)
      && AudioRegistrations(entries)[i].filePicker == Some("audio") && AudioRegistrations(entries)[i].scope == "world"
  {
  }

  /** The image and audio folders of the module. */
  lemma DefaultFolders()
    ensures IMAGE_DIR == "modules/daggerheart-death-moves/assets/images/"
    ensures AUDIO_DIR == "modules/daggerheart-death-moves/assets/audio/"
  {
    var prefix := "modules/" + MODULE_ID;
    assert prefix == "modules/daggerheart-death-moves";
  }

  lemma KeysAppend(a: seq<Registration>, b: seq<Registration>)
    ensures Keys(a + b) == Keys(a) + Keys(b)
  {
  }

  const IMAGE_KEYS: seq<string> :=
    ["backgroundPath", "blazePath", "avoidScarPath", "avoidSafePath", "hopePath", "fearPath", "criticalPath"]
  const AUDIO_KEYS: seq<string> :=
    ["soundSuspense", "soundBlaze", "soundAvoidSafe", "soundAvoidScar", "soundHope", "soundFear", "soundCritical"]

  lemma TablesKeys()
    ensures TableKeys(IMAGE_FILES) == IMAGE_KEYS && TableKeys(AUDIO_FILES) == AUDIO_KEYS
  {
  }

  const SETTING_KEYS: seq<string> :=
    ["countdownDuration", "blazeChatMessage", "showProbabilities"] + IMAGE_KEYS + AUDIO_KEYS

  /** The settings are registered under these seventeen keys, in this order. */
  lemma RegisteredKeys()
    ensures Keys(AllRegistrations()) == SETTING_KEYS
  {
    var config := [DURATION_SETTING, BLAZE_MESSAGE_SETTING, PROBABILITIES_SETTING];
    RegistrationFields(IMAGE_FILES);
    RegistrationFields(AUDIO_FILES);
    TablesKeys();
    KeysAppend(config, ImageRegistrations(IMAGE_FILES));
    KeysAppend(config + ImageRegistrations(IMAGE_FILES), AudioRegistrations(AUDIO_FILES));
    assert Keys(config) == ["countdownDuration", "blazeChatMessage", "showProbabilities"];
  }

  /** No two settings share a key, so no registration replaces another. */
  lemma KeysDistinct()
    ensures |SETTING_KEYS| == 17
    ensures forall i, j :: 0 <= i < j < |SETTING_KEYS| ==> SETTING_KEYS[i] != SETTING_KEYS[j]
  {
  }

  /** The countdown runs between 0 and 10 seconds in steps of one, six by default. */
  lemma DurationSetting()
    ensures DURATION_SETTING in AllRegistrations()
    ensures DURATION_SETTING.range == Some(Range(0, 10, 1)) && DURATION_SETTING.default == NumberValue(6)
    ensures DURATION_SETTING.range.value.min <= DURATION_SETTING.default.n <= DURATION_SETTING.range.value.max
  {
    assert AllRegistrations()[0] == DURATION_SETTING;
  }

  /** Every image and sound the handlers look up is a registered setting. */
  lemma AssetKeysRegistered(r: RiskResult, a: AvoidResult)
    ensures var images := Keys(ImageRegistrations(IMAGE_FILES));
      && RiskKeys(r).resultKey in images && AvoidKeys(a).resultKey in images
      && "backgroundPath" in images && "blazePath" in images
    ensures var sounds := Keys(AudioRegistrations(AUDIO_FILES));
      && RiskKeys(r).soundKey in sounds && AvoidKeys(a).soundKey in sounds
      && "soundBlaze" in sounds && "soundSuspense" in sounds
  {
    RegistrationFields(IMAGE_FILES);
    RegistrationFields(AUDIO_FILES);
    TablesKeys();
  }
}
