/**
 * `cumulus.authentication.Auth`: the settings its class body reads,
 * connection and container caching, the object lookup that answers None for
 * a missing object, and `_set_container` and `container_url`, which read
 * attributes (`ttl`, `use_ssl`, `container_ssl_uri`, `container_uri`) that
 * no code ever sets on an `Auth`.
 */
module Authentication {
  import opened Common
  import Storage
  import opened Settings

  /** An object as the container lookup returns it; only its etag is read. */
  datatype ObjectInfo = ObjectInfo(etag: string)

  /** A Cloud Files container as pyrax describes it. */
  datatype CdnContainer = CdnContainer(
    name: string,
    cdnEnabled: bool,
    cdnTtl: int,
    cdnUri: Option<string>,
    cdnSslUri: Option<string>,
    objects: map<string, ObjectInfo>)

  /** The container `create_container` makes for a name the account does not have: private and empty. */
  function NewContainer(name: string): CdnContainer
  {
    CdnContainer(name, false, 0, None, None, map[])
  }

  /** The account a pyrax connection reaches. */
  class Account {
    var containers: map<string, CdnContainer>

    constructor(containers: map<string, CdnContainer>)
      ensures this.containers == containers
    {
      this.containers := containers;
    }

    /** `create_container(name)`: the existing container of that name, or a new one. */
    method CreateContainer(name: string) returns (c: CdnContainer)
      modifies this`containers
      ensures name in old(containers) ==> c == old(containers)[name] && containers == old(containers)
      ensures name !in old(containers) ==> c == NewContainer(name) && containers == old(containers)[name := c]
    {
      if name in containers {
        c := containers[name];
      } else {
        c := NewContainer(name);
        containers := containers[name := c];
      }
    }
  }

  /** Python truthiness of a settings value. */
  predicate Truth(v: Value)
  {
    match v
    case VNone => false
    case VBool(b) => b
    case VInt(i) => i != 0
    case VStr(s) => s != ""
    case VList(items) => items != []
    case VMap(entries) => entries != map[]
    case VCumulus => true
  }

  /** The class attributes of `Auth` that the model reads afterwards. */
  datatype AuthDefaults = AuthDefaults(usePyrax: bool, username: Value, apiKey: Value)

  /** The dictionary has every key the class body of `Auth` reads. */
  predicate HasClassKeys(cumulus: map<string, Value>)
  {
    "USE_PYRAX" in cumulus && "SERVICENET" in cumulus && "REGION" in cumulus && "USERNAME" in cumulus
    && "API_KEY" in cumulus && "AUTH_URL" in cumulus && "AUTH_TENANT_ID" in cumulus
    && "AUTH_TENANT_NAME" in cumulus && "AUTH_VERSION" in cumulus && "PYRAX_IDENTITY_TYPE" in cumulus
  }

  /**
   * The class body of `Auth`, run when the module is imported: each
   * attribute is `CUMULUS[key]`, read in this order, so the first key the
   * dictionary lacks raises KeyError and the import fails.
   */
  function ClassBody(cumulus: map<string, Value>): (r: Result<AuthDefaults>)
    ensures r.Ok? <==> HasClassKeys(cumulus)
    ensures r.Ok? ==> r.value == AuthDefaults(Truth(cumulus["USE_PYRAX"]), cumulus["USERNAME"], cumulus["API_KEY"])
    ensures r.Err? ==> r.error.KeyError? && r.error.key !in cumulus
  {
    if "USE_PYRAX" !in cumulus then Err(KeyError("USE_PYRAX"))
    else if "SERVICENET" !in cumulus then Err(KeyError("SERVICENET"))
    else if "REGION" !in cumulus then Err(KeyError("REGION"))
    else if "USERNAME" !in cumulus then Err(KeyError("USERNAME"))
    else if "API_KEY" !in cumulus then Err(KeyError("API_KEY"))
    else if "AUTH_URL" !in cumulus then Err(KeyError("AUTH_URL"))
    else if "AUTH_TENANT_ID" !in cumulus then Err(KeyError("AUTH_TENANT_ID"))
    else if "AUTH_TENANT_NAME" !in cumulus then Err(KeyError("AUTH_TENANT_NAME"))
    else if "AUTH_VERSION" !in cumulus then Err(KeyError("AUTH_VERSION"))
    else if "PYRAX_IDENTITY_TYPE" !in cumulus then Err(KeyError("PYRAX_IDENTITY_TYPE"))
    else Ok(AuthDefaults(Truth(cumulus["USE_PYRAX"]), cumulus["USERNAME"], cumulus["API_KEY"]))
  }

  /** The project's `CUMULUS` sets each key the class body reads that `cumulus.settings` gives no default. */
  predicate SetsUndefaulted(u: map<string, Value>)
  {
    "USE_PYRAX" in u && "REGION" in u && "AUTH_TENANT_ID" in u && "AUTH_TENANT_NAME" in u
    && "AUTH_VERSION" in u && "PYRAX_IDENTITY_TYPE" in u
  }

  /** The loaded dictionary has the defaults' keys and the project's keys. */
  lemma LoadedKeys(u: map<string, Value>)
    ensures Loaded(DEFAULTS, Some(u)).Ok?
    ensures Loaded(DEFAULTS, Some(u)).value.Keys == DEFAULTS.Keys + u.Keys
  {
  }

  /** The defaults have four of the keys the class body reads and none of the other six. */
  lemma DefaultClassKeys()
    ensures "SERVICENET" in DEFAULTS && "USERNAME" in DEFAULTS && "API_KEY" in DEFAULTS && "AUTH_URL" in DEFAULTS
    ensures "USE_PYRAX" !in DEFAULTS && "REGION" !in DEFAULTS && "AUTH_TENANT_ID" !in DEFAULTS
    ensures "AUTH_TENANT_NAME" !in DEFAULTS && "AUTH_VERSION" !in DEFAULTS && "PYRAX_IDENTITY_TYPE" !in DEFAULTS
  {
  }

  /**
   * Against the loaded settings, the module imports exactly when the
   * project's `CUMULUS` sets the six keys that have no default.
   */
  lemma ClassBodyNeedsKeys(u: map<string, Value>)
    ensures ClassBody(Loaded(DEFAULTS, Some(u)).value).Ok? <==> SetsUndefaulted(u)
  {
    LoadedKeys(u);
    DefaultClassKeys();
  }

  /** Without USE_PYRAX in the project's `CUMULUS`, importing the module fails at its first read. */
  lemma ClassBodyFailsWithoutUsePyrax(u: map<string, Value>)
    requires "USE_PYRAX" !in u
    ensures ClassBody(Loaded(DEFAULTS, Some(u)).value) == Err(KeyError("USE_PYRAX"))
  {
    LoadedKeys(u);
    DefaultClassKeys();
  }

  /** What `self.container` answers: the cached value, else a create-if-absent under pyrax, else None. */
  function ContainerLookup(cached: Option<Option<CdnContainer>>, usePyrax: bool, containerName: Option<string>,
                           containers: map<string, CdnContainer>): (r: Result<Option<CdnContainer>>)
    ensures cached.Some? ==> r == Ok(cached.value)
    ensures cached.None? && !usePyrax ==> r == Ok(None)
    ensures cached.None? && usePyrax && containerName.None? ==> r == Err(AttributeError("container_name"))
    ensures cached.None? && usePyrax && containerName.Some? && containerName.value in containers ==>
      r == Ok(Some(containers[containerName.value]))
    ensures cached.None? && usePyrax && containerName.Some? && containerName.value !in containers ==>
      r == Ok(Some(NewContainer(containerName.value)))
  {
    if cached.Some? then Ok(cached.value)
    else if !usePyrax then Ok(None)
    else if containerName.None? then Err(AttributeError("container_name"))
    else if containerName.value in containers then Ok(Some(containers[containerName.value]))
    else Ok(Some(NewContainer(containerName.value)))
  }

  /** `_set_container` under pyrax calls `make_public(ttl)` exactly when this holds. */
  predicate NeedsPublic(c: CdnContainer, ttl: int)
  {
    c.cdnTtl != ttl || !c.cdnEnabled
  }

  /** The container after `make_public(ttl=ttl)`. */
  function MadePublic(c: CdnContainer, ttl: int): (r: CdnContainer)
    ensures r.cdnEnabled && r.cdnTtl == ttl && r.name == c.name && r.objects == c.objects
  {
    c.(cdnEnabled := true, cdnTtl := ttl)
  }

  /** A container made public with the TTL needs nothing more: setting it again calls nothing. */
  lemma MadePublicIsFinal(c: CdnContainer, ttl: int)
    ensures !NeedsPublic(MadePublic(c, ttl), ttl)
    ensures !NeedsPublic(c, ttl) ==> MadePublic(c, ttl) == c
  {
  }

  /**
   * The attributes `_get_container_url` and `_set_container` read, as the
   * storage backend reads the same settings. `Auth` never sets them, so
   * this is the configuration those methods assume, not one they get.
   */
  datatype UrlConfig = UrlConfig(
    ttl: int,
    useSsl: bool,
    containerSslUri: Option<string>,
    containerUri: Option<string>,
    cnames: map<string, string>)

  /**
   * The URL `_get_container_url` would choose if those attributes were set,
   * given what `self.container` answers: a configured SSL URI, else the CDN
   * SSL URI under SSL, else a configured URI, else the CDN URI; then the
   * CNAME substitution. Reading a CDN attribute of None raises
   * AttributeError.
   */
  function IntendedContainerUrl(d: UrlConfig, container: Result<Option<CdnContainer>>): (r: Result<Option<string>>)
    ensures d.useSsl && Truthy(d.containerSslUri) ==> r == Ok(Storage.Cname(d.cnames, d.containerSslUri))
    ensures d.useSsl && !Truthy(d.containerSslUri) && container.Ok? && container.value.Some? ==>
      r == Ok(Storage.Cname(d.cnames, container.value.value.cdnSslUri))
    ensures !d.useSsl && Truthy(d.containerUri) ==> r == Ok(Storage.Cname(d.cnames, d.containerUri))
    ensures !d.useSsl && !Truthy(d.containerUri) && container.Ok? && container.value.Some? ==>
      r == Ok(Storage.Cname(d.cnames, container.value.value.cdnUri))
    ensures !(d.useSsl && Truthy(d.containerSslUri)) && !(!d.useSsl && Truthy(d.containerUri)) ==>
      (container.Err? ==> r == Err(container.error))
      && (container == Ok(None) ==> r == Err(AttributeError(if d.useSsl then "cdn_ssl_uri" else "cdn_uri")))
  {
    var chosen: Result<Option<string>> :=
      if d.useSsl && Truthy(d.containerSslUri) then Ok(d.containerSslUri)
      else if !d.useSsl && Truthy(d.containerUri) then Ok(d.containerUri)
      else match container
        case Err(e) => Err(e)
        case Ok(None) => Err(AttributeError(if d.useSsl then "cdn_ssl_uri" else "cdn_uri"))
        case Ok(Some(c)) => Ok(if d.useSsl then c.cdnSslUri else c.cdnUri);
    match chosen
    case Err(e) => Err(e)
    case Ok(u) => Ok(Storage.Cname(d.cnames, u))
  }

  /**
   * Without SSL, the intended URL and the storage's `get_container_uri`
   * agree whenever the configured URI or the CDN URI is set: both take the
   * configured URI first and then the CDN URI, and apply the same CNAMES.
   */
  lemma UrlAgreesWithStorage(d: UrlConfig, c: CdnContainer, sslUri: Option<Option<string>>)
    requires !d.useSsl
    requires Truthy(d.containerUri) || Truthy(c.cdnUri)
    ensures IntendedContainerUrl(d, Ok(Some(c)))
      == Storage.ContainerUri(Storage.UriSettings(false, sslUri, d.containerUri, d.cnames), c.cdnUri)
  {
  }

  /**
   * Under SSL the two differ when no SSL URI is configured: the storage
   * returns the configured value as it is, the intended URL falls back to
   * the CDN SSL URI.
   */
  lemma SslFallbackDiffers(d: UrlConfig, c: CdnContainer)
    requires d.useSsl && d.containerSslUri == None && d.cnames == map[]
    ensures IntendedContainerUrl(d, Ok(Some(c))) == Ok(c.cdnSslUri)
    ensures Storage.ContainerUri(Storage.UriSettings(true, Some(None), d.containerUri, d.cnames), c.cdnUri) == Ok(None)
  {
  }

  /** `_get_object(name)` given what `self.container` answers: None for a missing object. */
  function ObjectLookup(container: Result<Option<CdnContainer>>, name: string): (r: Result<Option<ObjectInfo>>)
    ensures container.Ok? && container.value.Some? ==>
      r.Ok? && (r.value.None? <==> name !in container.value.value.objects)
    ensures container.Ok? && container.value.Some? && name in container.value.value.objects ==>
      r == Ok(Some(container.value.value.objects[name]))
    ensures container.Err? ==> r == Err(container.error)
    ensures container == Ok(None) ==> r == Err(AttributeError("get_object"))
  {
    match container
    case Err(e) => Err(e)
    case Ok(None) => Err(AttributeError("get_object"))
    case Ok(Some(c)) => if name in c.objects then Ok(Some(c.objects[name])) else Ok(None)
  }

  class Auth {
    var usePyrax: bool
    var username: Value
    var apiKey: Value
    /** `container_name`; None while the attribute was never set. */
    var containerName: Option<string>
    var connectionKwargs: map<string, Value>
    /** `_connection`, once set. */
    var connection: Option<Account>
    /** `_container`, once set; the value set may be None. */
    var container: Option<Option<CdnContainer>>

    /**
     * `__init__`, given the class attributes `ClassBody` read: an argument
     * replaces the class attribute only when it is not None. The
     * `container_uri` argument is accepted and ignored.
     */
    constructor(d: AuthDefaults, username: Value, apiKey: Value, container: Option<string>,
                connectionKwargs: Option<map<string, Value>>, containerUri: Option<string>)
      ensures usePyrax == d.usePyrax
      ensures this.username == (if username != VNone then username else d.username)
      ensures this.apiKey == (if apiKey != VNone then apiKey else d.apiKey)
      ensures containerName == container
      ensures this.connectionKwargs == (if connectionKwargs.Some? then connectionKwargs.value else map[])
      ensures this.connection == None && this.container == None
    {
      usePyrax := d.usePyrax;
      this.username := if username != VNone then username else d.username;
      this.apiKey := if apiKey != VNone then apiKey else d.apiKey;
      containerName := container;
      this.connectionKwargs := if connectionKwargs.Some? then connectionKwargs.value else map[];
      this.connection := None;
      this.container := None;
    }

    /**
     * `connection`: the cached connection, else a new one; `account` is the
     * service a new connection reaches. Only the pyrax
     * branch can connect: the other reads `self.servicenet`, which `Auth`
     * never sets.
     */
    method GetConnection(account: Account) returns (r: Result<Account>)
      modifies this`connection
      ensures old(connection).Some? ==> r == Ok(old(connection).value) && connection == old(connection)
      ensures old(connection).None? && usePyrax ==> r == Ok(account) && connection == Some(account)
      ensures old(connection).None? && !usePyrax ==> r == Err(AttributeError("servicenet")) && connection == None
    {
      if connection.None? {
        if usePyrax {
          connection := Some(account);
        } else {
          r := Err(AttributeError("servicenet"));
          return;
        }
      }
      r := Ok(connection.value);
    }

    /** `container`: computed once and cached; under pyrax it connects first, then creates the container if absent. */
    method GetContainer(account: Account) returns (r: Result<Option<CdnContainer>>)
      requires connection == None || connection == Some(account)
      modifies this`connection, this`container, account`containers
      ensures r == ContainerLookup(old(container), usePyrax, containerName, old(account.containers))
      ensures r.Ok? ==> container == Some(r.value)
      ensures r.Err? ==> container == old(container)
      ensures old(container).Some? || !usePyrax ==> connection == old(connection) && account.containers == old(account.containers)
      ensures old(container).None? && usePyrax ==> connection.Some?
    {
      if container.Some? {
        return Ok(container.value);
      }
      if usePyrax {
        var conn := GetConnection(account);
        if containerName.None? {
          return Err(AttributeError("container_name"));
        }
        var c := conn.value.CreateContainer(containerName.value);
        container := Some(Some(c));
        r := Ok(Some(c));
      } else {
        container := Some(None);
        r := Ok(None);
      }
    }

    /**
     * `_set_container`: under pyrax the TTL comparison reads `self.ttl`,
     * which `Auth` never sets, so it raises AttributeError before
     * `make_public` and before anything is stored; otherwise the container is
     * stored.
     */
    method SetContainer(c: CdnContainer) returns (err: Option<Error>)
      modifies this`container
      ensures usePyrax ==> err == Some(AttributeError("ttl")) && container == old(container)
      ensures !usePyrax ==> err == None && container == Some(Some(c))
    {
      if usePyrax {
        return Some(AttributeError("ttl"));
      }
      container := Some(Some(c));
      err := None;
    }

    /**
     * `container_url`: the first test reads `self.use_ssl`, which `Auth`
     * never sets, so every call raises AttributeError and nothing is looked
     * up or cached.
     */
    method GetContainerUrl() returns (r: Result<Option<string>>)
      ensures r == Err(AttributeError("use_ssl"))
    {
      r := Err(AttributeError("use_ssl"));
    }

    /** `_get_object`: the object, or None when the container has no such object. */
    method GetObject(account: Account, name: string) returns (r: Result<Option<ObjectInfo>>)
      requires connection == None || connection == Some(account)
      modifies this`connection, this`container, account`containers
      ensures r == ObjectLookup(ContainerLookup(old(container), usePyrax, containerName, old(account.containers)), name)
    {
      var looked := GetContainer(account);
      match looked {
        case Err(e) =>
          r := Err(e);
        case Ok(None) =>
          r := Err(AttributeError("get_object"));
        case Ok(Some(c)) =>
          r := if name in c.objects then Ok(Some(c.objects[name])) else Ok(None);
      }
    }
  }
}
