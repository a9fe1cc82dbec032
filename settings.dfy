/**
 * `cumulus.settings`: the module-level `CUMULUS` dictionary. It starts from
 * the defaults, takes the project's `settings.CUMULUS` entries over them,
 * rewrites EXCLUDE_LIST when FILTER_LIST is given, and expands the two
 * Rackspace auth-URL aliases.
 */
module Settings {
  import opened Common

  /** A settings value. */
  datatype Value =
    | VNone
    | VBool(b: bool)
    | VInt(i: int)
    | VStr(s: string)
    | VList(items: seq<string>)
    | VMap(entries: map<string, string>)
    /** The `CUMULUS` dictionary itself, which the FILTER_LIST rule stores into EXCLUDE_LIST. */
    | VCumulus

  const US_AUTH_URL := "https://auth.api.rackspacecloud.com/v1.0"
  const UK_AUTH_URL := "https://lon.auth.api.rackspacecloud.com/v1.0"

  const DEFAULTS: map<string, Value> := map[
    "API_KEY" := VNone,
    "AUTH_URL" := VStr("us_authurl"),
    "CNAMES" := VNone,
    "CONTAINER" := VNone,
    "CONTAINER_URI" := VNone,
    "SERVICENET" := VBool(false),
    "TIMEOUT" := VInt(5),
    "TTL" := VInt(600),
    "USE_SSL" := VBool(false),
    "USERNAME" := VNone,
    "STATIC_CONTAINER" := VNone,
    "INCLUDE_LIST" := VList([]),
    "EXCLUDE_LIST" := VList([])]

  /** An AUTH_URL after alias expansion. */
  function ResolveAuthUrl(v: Value): (r: Value)
    ensures v == VStr("us_authurl") ==> r == VStr(US_AUTH_URL)
    ensures v == VStr("uk_authurl") ==> r == VStr(UK_AUTH_URL)
    ensures v != VStr("us_authurl") && v != VStr("uk_authurl") ==> r == v
  {
    if v == VStr("us_authurl") then VStr(US_AUTH_URL)
    else if v == VStr("uk_authurl") then VStr(UK_AUTH_URL)
    else v
  }

  /** Expanding twice is expanding once: neither full URL is an alias. */
  lemma ResolveAuthUrlIdempotent(v: Value)
    ensures ResolveAuthUrl(ResolveAuthUrl(v)) == ResolveAuthUrl(v)
  {
  }

  /**
   * The dictionary after the module has run, from `base` (the defaults) and
   * the project's `settings.CUMULUS` (None when the project has none, and
   * then the FILTER_LIST check raises AttributeError).
   */
  function Loaded(base: map<string, Value>, user: Option<map<string, Value>>): Result<map<string, Value>>
    requires "AUTH_URL" in base
  {
    match user
    case None => Err(AttributeError("CUMULUS"))
    case Some(u) =>
      var merged := base + u;
      var filtered := if "FILTER_LIST" in u then merged["EXCLUDE_LIST" := VCumulus] else merged;
      Ok(filtered["AUTH_URL" := ResolveAuthUrl(filtered["AUTH_URL"])])
  }

  /** Without `settings.CUMULUS` the module raises AttributeError. */
  lemma LoadedNeedsCumulus(base: map<string, Value>)
    requires "AUTH_URL" in base
    ensures Loaded(base, None) == Err(AttributeError("CUMULUS"))
  {
  }

  /**
   * With `settings.CUMULUS`, every default key and every user key is
   * present and nothing else; a user entry overrides its default key by
   * key; a default the user leaves alone stays. EXCLUDE_LIST and AUTH_URL
   * are the two exceptions, stated in the lemmas below.
   */
  lemma LoadedMerges(u: map<string, Value>)
    ensures Loaded(DEFAULTS, Some(u)).Ok?
    ensures var m := Loaded(DEFAULTS, Some(u)).value;
      && m.Keys == DEFAULTS.Keys + u.Keys
      && (forall k :: k in u && k != "AUTH_URL" && k != "EXCLUDE_LIST" ==> m[k] == u[k])
      && (forall k :: k in DEFAULTS && k !in u && k != "AUTH_URL" && k != "EXCLUDE_LIST" ==> m[k] == DEFAULTS[k])
  {
  }

  /** EXCLUDE_LIST is the dictionary itself when FILTER_LIST is given, else the user's or the default list. */
  lemma LoadedExcludeList(u: map<string, Value>)
    ensures var m := Loaded(DEFAULTS, Some(u)).value;
      && ("FILTER_LIST" in u ==> m["EXCLUDE_LIST"] == VCumulus)
      && ("FILTER_LIST" !in u ==> m["EXCLUDE_LIST"] == if "EXCLUDE_LIST" in u then u["EXCLUDE_LIST"] else VList([]))
  {
  }

  /**
   * AUTH_URL is the user's value, or "us_authurl" when the user gives none,
   * with the two aliases expanded to the full Rackspace URLs and any other
   * value left as it is.
   */
  lemma LoadedAuthUrl(u: map<string, Value>)
    ensures var m := Loaded(DEFAULTS, Some(u)).value;
      var given := if "AUTH_URL" in u then u["AUTH_URL"] else VStr("us_authurl");
      && m["AUTH_URL"] == ResolveAuthUrl(given)
      && ("AUTH_URL" !in u ==> m["AUTH_URL"] == VStr(US_AUTH_URL))
      && (given == VStr("uk_authurl") ==> m["AUTH_URL"] == VStr(UK_AUTH_URL))
      && (given != VStr("us_authurl") && given != VStr("uk_authurl") ==> m["AUTH_URL"] == given)
  {
  }

  /** The `CUMULUS` dictionary, changed in place as the module runs. */
  class Cumulus {
    var values: map<string, Value>

    /** The literal dictionary of defaults. */
    constructor()
      ensures values == DEFAULTS
    {
      values := DEFAULTS;
    }

    /** `CUMULUS.update(settings.CUMULUS)`: user entries replace defaults key by key. */
    method Update(u: map<string, Value>)
      modifies this`values
      ensures values == old(values) + u
      ensures forall k :: k in u ==> values[k] == u[k]
      ensures forall k :: k in old(values) && k !in u ==> values[k] == old(values)[k]
    {
      values := values + u;
    }

    /** `CUMULUS["EXCLUDE_LIST"] = CUMULUS` when the project settings name FILTER_LIST. */
    method RewriteFilterList(u: map<string, Value>)
      modifies this`values
      ensures values == if "FILTER_LIST" in u then old(values)["EXCLUDE_LIST" := VCumulus] else old(values)
    {
      if "FILTER_LIST" in u {
        values := values["EXCLUDE_LIST" := VCumulus];
      }
    }

    /** The us/uk alias expansion of AUTH_URL. */
    method ExpandAuthUrl()
      requires "AUTH_URL" in values
      modifies this`values
      ensures values == old(values)["AUTH_URL" := ResolveAuthUrl(old(values)["AUTH_URL"])]
    {
      if values["AUTH_URL"] == VStr("us_authurl") {
        values := values["AUTH_URL" := VStr(US_AUTH_URL)];
      } else if values["AUTH_URL"] == VStr("uk_authurl") {
        values := values["AUTH_URL" := VStr(UK_AUTH_URL)];
      }
    }

    /**
     * The module body after the literal: update when the project has
     * `CUMULUS`, then the FILTER_LIST check (which raises when it has none),
     * then the alias expansion. The legacy block after it can never run.
     */
    method Load(user: Option<map<string, Value>>) returns (err: Option<Error>)
      requires "AUTH_URL" in values
      modifies this`values
      ensures err.None? <==> user.Some?
      ensures err.Some? ==> err.value == Loaded(old(values), user).error && values == old(values)
      ensures err.None? ==> values == Loaded(old(values), user).value
    {
      if user.None? {
        return Some(AttributeError("CUMULUS"));
      }
      Update(user.value);
      RewriteFilterList(user.value);
      ExpandAuthUrl();
      err := None;
    }
  }
}
