/**
 * The `MyAzure` credential store: class variables written by
 * `set_credentials` and read back by the getters every client constructor
 * calls. Reading a variable that was never assigned raises, which is what
 * happens when a client is built before `set_credentials` ran.
 */
module Credentials {
  import opened Wrappers
  import opened Http

  /** `@@resource`, assigned once when the module loads. */
  const ManagementResource: string := "https://management.azure.com"

  datatype Store = Store(
    resource: string,
    tenantId: Option<string>,
    clientId: Option<string>,
    clientSecret: Option<string>,
    subscriptionId: Option<string>,
    resourceGroupName: Option<string>)

  /** The arguments of one `set_credentials` call. */
  datatype Settings = Settings(
    tenant: string, client: string, secret: string, subscription: string, resourceGroup: string)

  /** The store right after the module is loaded. */
  function Loaded(): (st: Store)
    ensures st.resource == ManagementResource
    ensures st.tenantId.None? && st.clientId.None? && st.clientSecret.None?
    ensures st.subscriptionId.None? && st.resourceGroupName.None?
  {
    Store(ManagementResource, None, None, None, None, None)
  }

  function Read(v: Option<string>): (r: Result<string, Failure>)
    ensures v.Some? <==> r.Ok?
    ensures v.Some? ==> r.value == v.value
    ensures r.Err? ==> r.error == UninitializedVar
  {
    match v
    case Some(x) => Ok(x)
    case None => Err(UninitializedVar)
  }

  function GetResource(st: Store): string { st.resource }
  function GetTenantId(st: Store): Result<string, Failure> { Read(st.tenantId) }
  function GetClientId(st: Store): Result<string, Failure> { Read(st.clientId) }
  function GetClientSecret(st: Store): Result<string, Failure> { Read(st.clientSecret) }
  function GetSubscriptionId(st: Store): Result<string, Failure> { Read(st.subscriptionId) }
  function GetResourceGroupName(st: Store): Result<string, Failure> { Read(st.resourceGroupName) }

  /**
   * `set_credentials(tenant, client, secret, subscription, resourceGroupName)`:
   * afterwards the five getters answer exactly the arguments, and the
   * resource URI is what it was.
   */
  function SetCredentials(st: Store, s: Settings): (r: Store)
    ensures GetResource(r) == GetResource(st)
    ensures GetTenantId(r) == Ok(s.tenant)
    ensures GetClientId(r) == Ok(s.client)
    ensures GetClientSecret(r) == Ok(s.secret)
    ensures GetSubscriptionId(r) == Ok(s.subscription)
    ensures GetResourceGroupName(r) == Ok(s.resourceGroup)
  {
    st.(tenantId := Some(s.tenant),
        clientId := Some(s.client),
        clientSecret := Some(s.secret),
        subscriptionId := Some(s.subscription),
        resourceGroupName := Some(s.resourceGroup))
  }

  /** The store after loading the module and calling `set_credentials` with each of `calls` in turn. */
  function Replay(calls: seq<Settings>): Store
  {
    if |calls| == 0 then Loaded() else SetCredentials(Replay(calls[..|calls| - 1]), calls[|calls| - 1])
  }

  /**
   * Whatever was set, `get_resource` answers the management endpoint; before
   * any `set_credentials` the five getters raise, and after some the getters
   * answer the arguments of the last call.
   */
  lemma {:induction false} ReplayGetters(calls: seq<Settings>)
    ensures GetResource(Replay(calls)) == ManagementResource
    ensures |calls| == 0 ==>
              && GetTenantId(Replay(calls)) == Err(UninitializedVar)
              && GetClientId(Replay(calls)) == Err(UninitializedVar)
              && GetClientSecret(Replay(calls)) == Err(UninitializedVar)
              && GetSubscriptionId(Replay(calls)) == Err(UninitializedVar)
              && GetResourceGroupName(Replay(calls)) == Err(UninitializedVar)
    ensures |calls| > 0 ==>
              var last := calls[|calls| - 1];
              && GetTenantId(Replay(calls)) == Ok(last.tenant)
              && GetClientId(Replay(calls)) == Ok(last.client)
              && GetClientSecret(Replay(calls)) == Ok(last.secret)
              && GetSubscriptionId(Replay(calls)) == Ok(last.subscription)
              && GetResourceGroupName(Replay(calls)) == Ok(last.resourceGroup)
    decreases |calls|
  {
    if |calls| > 0 {
      ReplayGetters(calls[..|calls| - 1]);
    }
  }

  /** A second call overwrites the first completely: only the last call matters. */
  lemma SetOverwrites(st: Store, a: Settings, b: Settings)
    ensures SetCredentials(SetCredentials(st, a), b) == SetCredentials(st, b)
  {
  }

  // ---------------------------------------------------------------------------
  // What the client constructors read
  // ---------------------------------------------------------------------------

  /** The settings a `DATA_LAKE_STORAGE_GEN1` instance copies when it is built. */
  datatype StorageConfig = StorageConfig(
    resource: string, tenantId: string, clientId: string, clientSecret: string,
    subscriptionId: string, resourceGroupName: string)

  /** `DATA_LAKE_STORAGE_GEN1#initialize`, up to the token request. */
  function StorageClientConfig(st: Store): (r: Result<StorageConfig, Failure>)
    ensures r.Ok? <==> st.tenantId.Some? && st.clientId.Some? && st.clientSecret.Some?
                       && st.subscriptionId.Some? && st.resourceGroupName.Some?
    ensures r.Ok? ==> r.value == StorageConfig(st.resource, st.tenantId.value, st.clientId.value,
                                               st.clientSecret.value, st.subscriptionId.value,
                                               st.resourceGroupName.value)
    ensures r.Err? ==> r.error == UninitializedVar
  {
    var resource := GetResource(st);
    var tenant :- GetTenantId(st);
    var client :- GetClientId(st);
    var secret :- GetClientSecret(st);
    var subscription :- GetSubscriptionId(st);
    var group :- GetResourceGroupName(st);
    Ok(StorageConfig(resource, tenant, client, secret, subscription, group))
  }

  /** The settings `ACTIVE_DIRECTORY` and `GRAPH` copy when they are built. */
  datatype DirectoryConfig = DirectoryConfig(tenantId: string, clientId: string, clientSecret: string)

  /** `ACTIVE_DIRECTORY#initialize` and `GRAPH#initialize`, up to the token request. */
  function DirectoryClientConfig(st: Store): (r: Result<DirectoryConfig, Failure>)
    ensures r.Ok? <==> st.tenantId.Some? && st.clientId.Some? && st.clientSecret.Some?
    ensures r.Ok? ==> r.value == DirectoryConfig(st.tenantId.value, st.clientId.value, st.clientSecret.value)
    ensures r.Err? ==> r.error == UninitializedVar
  {
    var tenant :- GetTenantId(st);
    var client :- GetClientId(st);
    var secret :- GetClientSecret(st);
    Ok(DirectoryConfig(tenant, client, secret))
  }

  /**
   * Building a client works exactly when `set_credentials` has run, and the
   * client then holds the last call's values and the management resource.
   */
  lemma {:induction false} ClientsAfterSet(calls: seq<Settings>)
    ensures StorageClientConfig(Replay(calls)).Ok? <==> |calls| > 0
    ensures DirectoryClientConfig(Replay(calls)).Ok? <==> |calls| > 0
    ensures |calls| > 0 ==>
              var last := calls[|calls| - 1];
              && StorageClientConfig(Replay(calls)).value
                 == StorageConfig(ManagementResource, last.tenant, last.client, last.secret,
                                  last.subscription, last.resourceGroup)
              && DirectoryClientConfig(Replay(calls)).value
                 == DirectoryConfig(last.tenant, last.client, last.secret)
  {
    ReplayGetters(calls);
  }
}
