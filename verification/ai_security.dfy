/**
 * The API key store: a map from service name to key, serialised as JSON, encrypted with
 * DPAPI or Fernet, prefixed with a marker naming the cipher and written to one file. The
 * ciphers and the JSON codec are outside the model and arrive as functions.
 */
module AiSecurity {
  import opened Wrappers
  import opened Text

  newtype byte = b: int | 0 <= b < 256

  /** The stored map; a value is `None` when the JSON holds `null`. */
  type Keys = map<string, Option<string>>

  /**
   * `decrypt` is `None` where the library raises. A raising `encrypt` is a failed write,
   * given to the storing methods as a flag.
   */
  datatype Cipher = Cipher(encrypt: string -> seq<byte>, decrypt: seq<byte> -> Option<string>)

  datatype Parsed = ParsedDict(keys: Keys) | ParsedOther

  /** `json.dumps` and `json.loads`; `loads` is `None` where it raises. */
  datatype JsonCodec = JsonCodec(dumps: Keys -> string, loads: string -> Option<Parsed>)

  /**
   * What the store depends on: whether DPAPI imported, whether the platform is Windows,
   * the two ciphers and the codec.
   */
  datatype Env = Env(dpapiAvailable: bool, onWindows: bool, dpapi: Cipher, fernet: Cipher, json: JsonCodec)

  /** The ASCII bytes of "DPAPI:" and "FERNET:". */
  const DpapiMarker: seq<byte> := [68, 80, 65, 80, 73, 58]
  const FernetMarker: seq<byte> := [70, 69, 82, 78, 69, 84, 58]

  // ---------------------------------------------------------------------------------------
  // Framing
  // ---------------------------------------------------------------------------------------

  datatype Framing = DpapiFramed(body: seq<byte>) | FernetFramed(body: seq<byte>) | Legacy(body: seq<byte>)

  /** The cipher `store_api_key` picks, with its marker in front of the ciphertext. */
  function Encode(env: Env, keys: Keys): (r: seq<byte>)
    ensures r != []
  {
    if env.dpapiAvailable && env.onWindows then DpapiMarker + env.dpapi.encrypt(env.json.dumps(keys))
    else FernetMarker + env.fernet.encrypt(env.json.dumps(keys))
  }

  /** How `_load_all_keys` reads the marker: six bytes for DPAPI, seven for Fernet, else none. */
  function Unframe(data: seq<byte>): Framing {
    if DpapiMarker <= data then DpapiFramed(data[6..])
    else if FernetMarker <= data then FernetFramed(data[7..])
    else Legacy(data)
  }

  /** Loading strips exactly the marker that storing wrote. */
  lemma UnframeFrame(c: seq<byte>)
    ensures Unframe(DpapiMarker + c) == DpapiFramed(c)
    ensures Unframe(FernetMarker + c) == FernetFramed(c)
  {
    assert (DpapiMarker + c)[..6] == DpapiMarker;
    assert (FernetMarker + c)[..7] == FernetMarker;
    assert (FernetMarker + c)[0] != DpapiMarker[0];
  }

  /** `_decrypt_with_dpapi`: raises when DPAPI did not import. */
  function DecryptDpapi(env: Env, body: seq<byte>): Option<string> {
    if env.dpapiAvailable then env.dpapi.decrypt(body) else None
  }

  /**
   * The decryption `_load_all_keys` chooses for a file's bytes; `None` where it raises. A
   * DPAPI-marked file cannot be read without DPAPI, a Fernet-marked one is read by Fernet
   * alone, and an unmarked one is readable when either cipher can read it.
   */
  function Decrypt(env: Env, data: seq<byte>): (r: Option<string>)
    ensures DpapiMarker <= data && !env.dpapiAvailable ==> r == None
    ensures FernetMarker <= data ==> r == env.fernet.decrypt(data[7..])
    ensures !(DpapiMarker <= data) && !(FernetMarker <= data) ==>
              (r.Some? <==> (env.dpapiAvailable && env.dpapi.decrypt(data).Some?) || env.fernet.decrypt(data).Some?)
  {
    assert FernetMarker <= data ==> data[0] == FernetMarker[0] != DpapiMarker[0];
    match Unframe(data)
    case DpapiFramed(body) => DecryptDpapi(env, body)
    case FernetFramed(body) => env.fernet.decrypt(body)
    case Legacy(body) =>
      if env.dpapiAvailable && env.dpapi.decrypt(body).Some? then env.dpapi.decrypt(body)
      else env.fernet.decrypt(body)
  }

  /** The keys `_load_all_keys` returns, and the key file after it (a corrupt file is deleted). */
  datatype Loaded = Loaded(keys: Keys, file: Option<seq<byte>>)

  function Load(env: Env, file: Option<seq<byte>>): (r: Loaded)
    ensures r.file == file || r.file == None
    ensures file == None ==> r == Loaded(map[], None)
  {
    match file
    case None => Loaded(map[], None)
    case Some(data) =>
      if data == [] then Loaded(map[], file)
      else match Decrypt(env, data)
        case None => Loaded(map[], None)
        case Some(text) =>
          if Strip(text) == "" then Loaded(map[], file)
          else match env.json.loads(text)
            case None => Loaded(map[], None)
            case Some(ParsedOther) => Loaded(map[], file)
            case Some(ParsedDict(keys)) => Loaded(keys, file)
  }

  /** A payload that decrypts to blank text, or to JSON that is no dictionary, loads as no keys. */
  lemma BlankOrOtherLoadsEmpty(env: Env, data: seq<byte>)
    requires data != [] && Decrypt(env, data).Some?
    requires Strip(Decrypt(env, data).value) == "" || env.json.loads(Decrypt(env, data).value) == Some(ParsedOther)
    ensures Load(env, Some(data)) == Loaded(map[], Some(data))
  {
  }

  /** The ciphers and the codec invert each other, and no serialised map is blank. */
  ghost predicate RoundTrips(env: Env) {
    && (forall s :: env.dpapi.decrypt(env.dpapi.encrypt(s)) == Some(s))
    && (forall s :: env.fernet.decrypt(env.fernet.encrypt(s)) == Some(s))
    && (forall k :: env.json.loads(env.json.dumps(k)) == Some(ParsedDict(k)))
    && (forall k :: Strip(env.json.dumps(k)) != "")
  }

  /** What is stored loads back unchanged, and the file stays. */
  lemma StoreThenLoad(env: Env, keys: Keys)
    requires RoundTrips(env)
    ensures Load(env, Some(Encode(env, keys))) == Loaded(keys, Some(Encode(env, keys)))
  {
    var text := env.json.dumps(keys);
    UnframeFrame(env.dpapi.encrypt(text));
    UnframeFrame(env.fernet.encrypt(text));
    assert Decrypt(env, Encode(env, keys)) == Some(text);
  }

  // ---------------------------------------------------------------------------------------
  // Validation
  // ---------------------------------------------------------------------------------------

  /** `validate_api_key_format`: a blank key is never valid, for any service. */
  function ValidKeyFormat(service: string, apiKey: string): (r: bool)
    ensures r ==> !IsBlank(apiKey)
  {
    StripEmptyIffBlank(apiKey);
    if Lower(service) == "openai" then
      (StartsWith(apiKey, "sk-") || StartsWith(apiKey, "sk-proj-")) && 40 <= |apiKey| <= 200
    else Strip(apiKey) != ""
  }

  /**
   * An OpenAI key is valid exactly when it starts with "sk-" and has 40 to 200 characters
   * ("sk-proj-" keys start with "sk-" too); any other service needs a non-blank key.
   */
  lemma ValidKeyFormatMeaning(service: string, apiKey: string)
    ensures Lower(service) == "openai" ==> (ValidKeyFormat(service, apiKey) <==> StartsWith(apiKey, "sk-") && 40 <= |apiKey| <= 200)
    ensures Lower(service) != "openai" ==> (ValidKeyFormat(service, apiKey) <==> !IsBlank(apiKey))
  {
    if StartsWith(apiKey, "sk-proj-") {
      assert apiKey[..3] == "sk-proj-"[..3];
    }
    StripEmptyIffBlank(apiKey);
  }

  /** `has_api_key` on loaded keys: present, not null, not blank. */
  predicate HasKey(keys: Keys, service: string) {
    service in keys && keys[service].Some? && Strip(keys[service].value) != ""
  }

  // ---------------------------------------------------------------------------------------
  // The manager object
  // ---------------------------------------------------------------------------------------

  class AISecurityManager {
    const env: Env
    /** The bytes of the key file, `None` when it does not exist. */
    var keyFile: Option<seq<byte>>

    constructor(env: Env, keyFile: Option<seq<byte>>)
      ensures this.env == env && this.keyFile == keyFile
    {
      this.env := env;
      this.keyFile := keyFile;
    }

    /** `_load_all_keys` */
    method LoadAllKeys() returns (keys: Keys)
      modifies this
      ensures Loaded(keys, keyFile) == Load(env, old(keyFile))
    {
      var loaded := Load(env, keyFile);
      keys := loaded.keys;
      keyFile := loaded.file;
    }

    /**
     * `store_api_key`: the loaded map with this service's entry replaced, written back.
     * `writeOk` is false when encrypting (machine key and salt included) or writing the
     * file raises; then `False` is returned and the file stays as loading left it.
     */
    method StoreApiKey(service: string, apiKey: string, writeOk: bool) returns (ok: bool)
      modifies this
      ensures ok == writeOk
      ensures ok ==> keyFile == Some(Encode(env, Load(env, old(keyFile)).keys[service := Some(apiKey)]))
      ensures !ok ==> keyFile == Load(env, old(keyFile)).file
    {
      var keys := LoadAllKeys();
      if !writeOk {
        return false;
      }
      keys := keys[service := Some(apiKey)];
      keyFile := Some(Encode(env, keys));
      ok := true;
    }

    /** `get_api_key` */
    method GetApiKey(service: string) returns (r: Option<string>)
      modifies this
      ensures var loaded := Load(env, old(keyFile));
        keyFile == loaded.file && r == (if service in loaded.keys then loaded.keys[service] else None)
    {
      var keys := LoadAllKeys();
      r := if service in keys then keys[service] else None;
    }

    /**
     * `delete_api_key`: `False` when the service is absent; otherwise the rest is written
     * back, or the file deleted when nothing is left. `writeOk` is false when that write or
     * deletion raises; then `False` is returned and the file stays as loading left it.
     */
    method DeleteApiKey(service: string, writeOk: bool) returns (ok: bool)
      modifies this
      ensures var loaded := Load(env, old(keyFile));
        && (ok <==> service in loaded.keys && writeOk)
        && (!ok ==> keyFile == loaded.file)
        && (ok ==> keyFile == (if loaded.keys - {service} == map[] then None
                               else Some(Encode(env, loaded.keys - {service}))))
    {
      var keys := LoadAllKeys();
      if service in keys && writeOk {
        keys := keys - {service};
        if keys != map[] {
          keyFile := Some(Encode(env, keys));
        } else {
          keyFile := None;
        }
        return true;
      }
      return false;
    }

    /** `has_api_key` */
    method HasApiKey(service: string) returns (r: bool)
      modifies this
      ensures r == HasKey(Load(env, old(keyFile)).keys, service) && keyFile == Load(env, old(keyFile)).file
    {
      var keys := LoadAllKeys();
      r := service in keys && keys[service].Some? && Strip(keys[service].value) != "";
    }

    /**
     * `list_stored_services`: the services in the loaded map. The model's map has no order,
     * so the list is a set here.
     */
    method ListStoredServices() returns (services: set<string>)
      modifies this
      ensures var loaded := Load(env, old(keyFile));
        services == loaded.keys.Keys && keyFile == loaded.file
    {
      var keys := LoadAllKeys();
      services := keys.Keys;
    }

    /**
     * `clear_all_keys`: the key file is removed, then the salt file. Either removal may
     * raise (`keyUnlinkOk`, `saltUnlinkOk`); then `False` is returned, and the key file is
     * still there only when its own removal raised.
     */
    method ClearAllKeys(keyUnlinkOk: bool, saltUnlinkOk: bool) returns (ok: bool)
      modifies this
      ensures ok <==> keyUnlinkOk && saltUnlinkOk
      ensures keyUnlinkOk ==> keyFile == None && Load(env, keyFile).keys == map[]
      ensures !keyUnlinkOk ==> keyFile == old(keyFile)
    {
      if !keyUnlinkOk {
        return false;
      }
      keyFile := None;
      ok := saltUnlinkOk;
    }

    /** `store_openai_api_key`: an ill-formed key is refused and nothing is written. */
    method StoreOpenAIApiKey(apiKey: string, writeOk: bool) returns (ok: bool)
      modifies this
      ensures ok <==> ValidKeyFormat("openai", apiKey) && writeOk
      ensures !ValidKeyFormat("openai", apiKey) ==> keyFile == old(keyFile)
      ensures ValidKeyFormat("openai", apiKey) && !writeOk ==> keyFile == Load(env, old(keyFile)).file
      ensures ok ==> keyFile == Some(Encode(env, Load(env, old(keyFile)).keys["openai" := Some(apiKey)]))
    {
      if ValidKeyFormat("openai", apiKey) {
        ok := StoreApiKey("openai", apiKey, writeOk);
      } else {
        ok := false;
      }
    }
  }

  /**
   * After storing a key, loading finds it, and every other service keeps the value it had
   * when the store began.
   */
  lemma StoreOverwritesOnlyThatService(env: Env, file: Option<seq<byte>>, service: string, apiKey: string)
    requires RoundTrips(env)
    ensures var before := Load(env, file).keys;
      var after := Load(env, Some(Encode(env, before[service := Some(apiKey)]))).keys;
      && service in after && after[service] == Some(apiKey)
      && forall s :: s != service ==> (s in after <==> s in before) && (s in before ==> after[s] == before[s])
  {
    StoreThenLoad(env, Load(env, file).keys[service := Some(apiKey)]);
  }

  /** After deleting a stored service, loading no longer finds it and finds the rest unchanged. */
  lemma DeleteRemovesOnlyThatService(env: Env, keys: Keys, service: string)
    requires RoundTrips(env) && service in keys
    ensures var rest := keys - {service};
      Load(env, if rest == map[] then None else Some(Encode(env, rest))).keys == rest
  {
    var rest := keys - {service};
    if rest != map[] {
      StoreThenLoad(env, rest);
    }
  }
}
