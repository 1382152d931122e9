# My-Azure-API core, modelled in Dafny

My-Azure-API is a set of small Ruby clients for Azure REST APIs. This project
models the parts of it that hold real logic once the network, the clock and the
input stream are abstracted away:

- **Landing-zone upload** (`DATA_LAKE_STORAGE_GEN1#create`). It builds the
  date-partitioned directory `/landing_zone/{category}/{source}/{type}/year=Y/month=MM/day=DD/`
  and issues MKDIRS on it with permission 777. It then CREATEs `dir + "/" + filename`
  (keeping the resulting double slash) and appends the input in 4 MiB chunks, one
  APPEND per chunk. It returns the CREATE status code.
- **Group membership** (`add_group_member`, `remove_group_member`,
  `list_group_members`). These are the request shapes plus the three-way result
  dispatch: 204 gives the code, 400..599 gives the parsed error body, and anything
  else gives `nil`. The source has three identical copies of this code, in
  `ACTIVE_DIRECTORY`, `GRAPH` and `MyAzure::GRAPH`. The model defines it once.
- **Token extraction** (`GRAPH#auth_bearer_aad`). This is the client-credentials
  form request and `parsed_json["access_token"]`, with Ruby's `[]` semantics on
  whatever `JSON.parse` returned.
- **Credential store** (`MyAzure.set_credentials` and its getters). Five
  write-then-read class variables, plus the constant management resource URI.
  The model also covers the reads each client constructor makes from the store.

Modules: `Wrappers` (result and option types), `Text` (decimal rendering,
two-digit padding, split/join on a separator), `Http` (requests, responses,
the server oracle, `JSON.parse` failure), `ClientCredentials` (the
client-credentials form body shared by the token request and MKDIRS),
`Chunking` (the read loop's chunks),
`Landing` (paths and WebHDFS requests), `Upload` (`create`), `Membership`,
`Token` and `Credentials`.

The server is an oracle `(nat, Request) -> Response`. It maps the n-th request of a
call to a status code and a body. A body is either an already parsed JSON document
or `Malformed`, meaning text that `JSON.parse` would reject. The JSON parser itself
is not modelled, but its failure is: every place where the Ruby code parses a reply
can raise `ParserError` in the model. The clock is a `Date` parameter.

Where the methods' doc-comments and the code disagree, the model follows the code:

- The doc-comments promise "200 if successful", but the code returns the code only
  for 204. A 200 gives `nil` (`Membership.DispatchByClass`).
- Token extraction never fails on a missing `access_token`: it returns `nil`. It
  also ignores the reply's status code.
- `create` does not ignore the MKDIRS reply. It runs the reply through
  `JSON.parse`, so a non-JSON reply raises before CREATE is sent.

## Model

| member | source | states |
|---|---|---|
| Text.Pad2 | lib/data_lake_storage_gen1.rb:271-280 | Month and day below 10 get a leading "0" and 10 or more print unchanged. Any value below 100 becomes exactly two decimal digits that read back as the value. |
| Text.NatToStringRoundTrip | lib/data_lake_storage_gen1.rb:282-283 | The decimal text interpolated for the year reads back as the year, so the rendering loses nothing. |
| Chunking.ChunksFlatten | lib/data_lake_storage_gen1.rb:305-312 | Concatenating the chunks the read loop produces, in order, gives back exactly the input. |
| Chunking.ChunksSizes | lib/data_lake_storage_gen1.rb:305-312 | Every chunk is non-empty and at most the chunk size; every chunk but the last is exactly the chunk size. |
| Chunking.ChunksCount | lib/data_lake_storage_gen1.rb:305-312 | The number of reads is ceil(n / k): zero exactly for empty input, and otherwise the unique c with (c-1)*k < n <= c*k. |
| Chunking.ChunkAt | lib/data_lake_storage_gen1.rb:307-311 | Chunk i is the input range [i*k, min((i+1)*k, n)), so chunks follow stream order with no overlap and no gap. |
| Chunking.ChunksPrefix | lib/data_lake_storage_gen1.rb:305-312 | After the first j APPENDs the remote file holds exactly the first min(j*k, n) input bytes, so an upload cut short leaves a prefix of the input. |
| Landing.LandingDirShape | lib/data_lake_storage_gen1.rb:271-283 | Split at '/', the directory is "", "landing_zone", category, source, type, "year=Y", "month=MM", "day=DD", "" (the trailing slash). For a real date, MM and DD are two digits denoting the month and day. |
| Landing.TargetPathShape | lib/data_lake_storage_gen1.rb:285 | The file path is the directory's components, then an empty component from the doubled slash after the day, then the file name. |
| Landing.MkdirsRequestShape | lib/data_lake_storage_gen1.rb:354-360 | MKDIRS is a PUT on the WebHDFS address of the path whose query is exactly `op=MKDIRS` and `permission=<decimal>`. Its form body is exactly the grant type, `client_id`, `client_secret` and the URL-encoded management resource. |
| ClientCredentials.CredentialsFormShape | lib/graph.rb:17-19 | Split at '&', a client-credentials form is exactly `grant_type=client_credentials`, `client_id=<id>`, `client_secret=<secret>` and its last field. The same body text is built at lib/data_lake_storage_gen1.rb:358-360. |
| Landing.CreateRequestShape | lib/data_lake_storage_gen1.rb:288-290 | CREATE is a PUT on the file's WebHDFS address whose query is exactly `op=CREATE` and `overwrite=true/false`. |
| Landing.AppendRequestShape | lib/data_lake_storage_gen1.rb:327-329 | APPEND is a POST on the file's WebHDFS address with query `op=APPEND` and the chunk as its raw body. |
| Upload.AppendsRebuildInput | lib/data_lake_storage_gen1.rb:305-312 | The APPEND bodies are the input's chunks in order and concatenate back to exactly the input; there are ceil(n / 4 MiB) of them, stated as the count c with (c-1)*4 MiB < n <= c*4 MiB, and none for empty input. |
| Upload.AppendsBounded | lib/data_lake_storage_gen1.rb:307-311 | Every APPEND of the run targets the same file path and carries 1 to 4 MiB, and every APPEND but the last carries exactly 4 MiB. |
| Upload.SendAppends | lib/data_lake_storage_gen1.rb:305-312 | The `until file.eof?` loop sends exactly one APPEND per 4 MiB read, in stream order. `append` only prints its reply, so the replies play no part. |
| Upload.Create | lib/data_lake_storage_gen1.rb:266-319 | MKDIRS on the landing directory with permission 777 and the client's id and secret comes first; a non-JSON reply to it raises and nothing more is sent. Otherwise CREATE with the overwrite flag follows, then the APPEND run. The result is the CREATE reply's code, whatever the APPEND replies are, and 2 + c requests are sent, where c is ceil(n / 4 MiB), stated as (c-1)*4 MiB < n <= c*4 MiB. |
| Membership.Dispatch | lib/active_directory.rb:80-85 | 204 gives the code itself. A code in 400..599 gives the parsed body, or raises if the body is not JSON. Every other code, 600 included, gives `nil`. |
| Membership.DispatchByClass | lib/active_directory.rb:60-85 | Measured against HTTP status classes: the body comes back exactly for client and server errors. Every success code other than 204, including 200 and 201, gives `nil`, and 200 is never returned, whatever the doc-comment says. |
| Membership.AddGroupMember | lib/graph.rb:76-102 | The result depends only on the reply to the add request. It is the code exactly when that is 204, and the parsed body exactly for a 4xx/5xx JSON reply. A 4xx/5xx non-JSON reply raises a parser error, and nothing else raises. Every other code gives `nil`. |
| Membership.RemoveGroupMember | lib/my_azure_api.rb:421-443 | The same result on the reply to the DELETE request: the code only for 204, the parsed body exactly for a 4xx/5xx JSON reply, a parser error exactly for a 4xx/5xx non-JSON reply, and `nil` otherwise. |
| Membership.ListGroupMembers | lib/active_directory.rb:47-55 | The listing is the reply's parsed JSON passed through unchanged; a non-JSON reply raises. |
| Membership.ListRequestShape | lib/graph.rb:62-70 | The listing GETs the Graph path v1.0/groups/{dept_id}/members with no body. |
| Membership.AddRequestShape | lib/active_directory.rb:61-78 | The add POSTs to v1.0/groups/{dept_id}/members/$ref. The body has the single key "@odata.id", whose value is the v1.0/directoryObjects/{user_id} URL. |
| Membership.RemoveRequestShape | lib/active_directory.rb:93-106 | The remove DELETEs v1.0/groups/{dept_id}/members/{user_id}/$ref with no body; the `user_create` hash it builds is never sent. |
| Token.Index | lib/graph.rb:23 | Ruby `[]` with a string key on a parsed document. A hash yields the value or `nil`. A string yields the key exactly when some window of it spells the key, and `nil` otherwise. Anything else raises. |
| Token.ContainsOccurs | lib/graph.rb:23 | The left-to-right scan behind `String#[]` finds the key exactly when some window of the string spells it. |
| Token.TokenOf | lib/graph.rb:22-23 | For an object body the token is the `access_token` value, and `nil` exactly when that field is absent or null. A string body yields "access_token" exactly when the string contains it, and `nil` otherwise. A `null`, boolean, array or number body raises, and so does a non-JSON body. |
| Token.AuthBearerAad | lib/graph.rb:15-24 | The same extraction on the reply to the Graph token request. An object gives its `access_token` value, `nil` when that is absent or null. A string gives "access_token" exactly when it contains it, `nil` otherwise. `null`, booleans, arrays, numbers and non-JSON replies raise. The status code plays no part. |
| Token.TokenRoundTrip | lib/graph.rb:22-23 | A reply carrying `access_token: t` yields exactly t under any status code; one without the field yields `nil`, not an error. |
| Token.TokenFormShape | lib/graph.rb:16-19 | Split at '&', the form body is exactly the grant type, `client_id`, `client_secret` and the Graph `.default` scope. |
| Credentials.SetCredentials | lib/my_azure_api.rb:42-48 | Afterwards the five getters return exactly the five arguments, and the resource is unchanged. |
| Credentials.ReplayGetters | lib/my_azure_api.rb:13-48 | Along any sequence of `set_credentials` calls, `get_resource` stays "https://management.azure.com". Before any call the five getters raise; after some, they return the last call's arguments. |
| Credentials.SetOverwrites | lib/my_azure_api.rb:42-48 | A second `set_credentials` overwrites the first completely. |
| Credentials.StorageClientConfig | lib/data_lake_storage_gen1.rb:17-24 | The storage constructor's reads copy all six stored values. They raise exactly when one of the five credentials was never set. |
| Credentials.DirectoryClientConfig | lib/graph.rb:28-31 | The Graph constructors' reads copy the tenant, client id and secret. They raise exactly when one of those was never set. |
| Credentials.ClientsAfterSet | lib/active_directory.rb:14-17 | A constructor's credential reads succeed exactly after some `set_credentials`. They then yield the last call's values and the management resource. The token request that follows them is not part of this statement. |

## Left out

- HTTP transport, headers, TLS `verify`, and transport exceptions: every request is one call to the server oracle.
- The JSON parser and `to_json` serialisation. Parsed documents and hash bodies are values; only parse failure is kept.
- JSON numbers are exact reals. Ruby parses decimals as binary floats, so rounding is not modelled; no modelled operation reads a number.
- Bearer-token acquisition for the storage and directory clients (`MyAzure.auth_bearer_management`, `auth_bearer_graph`): they are called but not defined in the source. The constructors are modelled up to that call. `GRAPH#initialize` then calls `auth_bearer_aad` (`Token.AuthBearerAad`), which can raise; the model does not state that composition.
- The clock: `Time.new` becomes a `Date` parameter with a natural-number year.
- Console `puts` diagnostics, including the upload's chunk counter, which only feeds a message.
- The credentials form body that `list_status`, `open_file` and the other unmodelled WebHDFS calls send. MKDIRS carries it in the model.
- `list_status`, `open_file`, `get_file_summary`, `get_file_status`, `list_users`, `list_groups`: single pass-through requests with nothing beyond a URL to state.
- ARM provisioning (`get_gen1_account_info`, `get_datafactory_info`, `create_datafactory`, `list_gen1_accounts`, `create_gen1_account`) and the Data Factory client: constant JSON bodies and pass-through replies.
- `MyAzure::ADLS` in lib/my_azure_api.rb, including its `auth_bearer` and `create`: an older copy whose `create` text is corrupted (`Time.new<`) and returns the value of `puts`. The data_lake_storage_gen1.rb version is modelled.
- The top-level my_azure_api.rb prototype, which runs network calls at load time.
- Landing.LandingDirShape: the component-by-component statement assumes category, source and type contain no '/'. Names with a '/' still produce the same string but add components.
- Landing.MkdirsRequestShape: assumes the client id and secret contain no '&'. They are sent without URL encoding, so one that contains '&' would add form fields.
- ClientCredentials.CredentialsFormShape: the same '&'-free assumption on the id, the secret and the last field.
- Landing.TargetPathShape: the component list assumes category, source, type and file name contain no '/'. The path string itself is exact for any names.
- Landing.MkdirsRequestShape: the split at '?' assumes the account and path contain no '?'. The URL string itself is exact for any input.
- Landing.CreateRequestShape: the same '?'-free assumption on the account and path.
- Landing.AppendRequestShape: the same '?'-free assumption on the account and path.
- Membership.ListRequestShape: the component list assumes the group id contains no '/'. The URL string itself is exact for any id.
- Membership.AddRequestShape: the component lists assume the group and user ids contain no '/'.
- Membership.RemoveRequestShape: the component list assumes the group and user ids contain no '/'.
- Token.TokenFormShape: assumes the client id and secret contain no '&'. They are sent without URL encoding, so one that contains '&' would add form fields.
- Upload.Create: the `overwrite` flag is a boolean; other Ruby values interpolated into the query are not modelled.
