# fanpoll: thread-pool configuration, club authentication settings, mock notification logging and error-handler logging

This Dafny project models four small, sequential pieces of the fanpoll Ktor backend:

- **Thread-pool configuration** (`ThreadPoolConfigs`, in `thread_pool_config.dfy`). The elastic-pool fields `minPoolSize`, `maxPoolSize` and `keepAliveTime` are either all configured or all null. `validate()` enforces this and fails with the source's `IllegalArgumentException` message. `isFixedThreadPool()` classifies a config as fixed. `Builder.build()` builds a config and validates it before returning it. A counting definition, `ElasticFieldCount`, is the reference that both predicates are checked against.
- **Club authentication settings** (`ClubAuth`, in `club_auth.dfy`). This covers:
  - the service provider name;
  - the security-scheme lists;
  - the four declarative `PrincipalAuth` policies (`Public`, `User`, `Admin`, `Member`) as immutable values;
  - `ClubAuthConfig`, as a class. Its constructor puts the one `SessionConfig` object it receives into both the Android and the iOS source configurations, and changes nothing else (`modifies android, iOS`; `UserAuthConfig`'s only mutable field is `session`). After construction both sources hold that same object (`SessionShared`). `getPrincipalSourceAuthConfigs()` returns exactly `[android, iOS]`, and `club(authConfig)` registers that list under the service provider name.
- **Mock notification sender** (`MockNotificationSenders`, in `mock_notification_sender.dfy`). `toMockLog` overwrites exactly four columns of the message's own log: send time, success flag, content and response code. `send` writes exactly one such log to the log writer when notification logging is enabled, and nothing otherwise. The log writer (`Logging.LogWriter`, in `logging.dfy`) is modelled as a ghost trace of the entities written to it:
  - `write` appends one entity;
  - the default `shutdown` leaves the trace unchanged.
- **Error-handler logging decision** (`ErrorHandler`, in `error_handler.dfy`). This models the `StatusPages` `exception<Throwable>` handler. Its effects are recorded as a trace: file log, `LogWriter.write`, then the response. The decisions are taken on the wrapped exception. The trace is lifted to a series of failed requests (`HandleEach`), which shows:
  - request i gets exactly the response built from its own exception and request, in request order;
  - the file log and the log writer receive exactly the exceptions (each with its own request) and error logs of the requests that meet the logging condition, in request order, so no entry is lost, duplicated or reordered.

The following collaborators are defined elsewhere in fanpoll and not modelled. They are passed as function-typed parameters (`Collaborators`, `MessageOps`):
- `wrapException`;
- `isError`;
- `createErrorResponse`, which reads the wrapped exception and the request;
- `toNotificationMessageLog`;
- the JSON encoding of a message's content.

The clock (`Instant.now()`) is passed in as a parameter `now`.

The shared session configuration is assigned into the Android and iOS source configurations by `ClubAuthConfig`'s `init` block, after those configurations exist; the model's constructor does the same assignment.

Scheme lookup, source matching and role checking live in `fanpoll.infra.auth` and are not modelled; only the policy values are.

## Model

| member | source | states |
|---|---|---|
| ThreadPoolConfigs.IsFixedThreadPool | src/fanpoll/infra/base/async/ThreadPoolConfig.kt:16 | a config is a fixed pool iff `fixedPoolSize` is non-null and none of the three elastic fields is set |
| ThreadPoolConfigs.Validate | src/fanpoll/infra/base/async/ThreadPoolConfig.kt:18-25 | validation passes iff zero or all three elastic fields are set; a failure carries the `require` message "minPoolSize, maxPoolSize, keepAliveTime should be configured" |
| ThreadPoolConfigs.ValidateIffAllOrNone | src/fanpoll/infra/base/async/ThreadPoolConfig.kt:18-25 | validation passes iff the three elastic fields are all non-null or all null |
| ThreadPoolConfigs.PartialElasticConfigIsRejected | src/fanpoll/infra/base/async/ThreadPoolConfig.kt:19-24 | configuring exactly one or two elastic fields makes validation fail with the `require` message |
| ThreadPoolConfigs.ValidateIgnoresFixedPoolSize | src/fanpoll/infra/base/async/ThreadPoolConfig.kt:18-25 | changing only `fixedPoolSize` never changes the validation outcome |
| ThreadPoolConfigs.FixedThreadPoolIsValid | src/fanpoll/infra/base/async/ThreadPoolConfig.kt:16-25 | every fixed-pool config passes validation |
| ThreadPoolConfigs.SomeValidConfigsAreNotFixed | src/fanpoll/infra/base/async/ThreadPoolConfig.kt:16-25 | the converse fails: a fully configured elastic pool, and a config with every field null, are both valid and not fixed |
| ThreadPoolConfigs.DefaultConfigIsValidFixedPool | src/fanpoll/infra/base/async/ThreadPoolConfig.kt:9-16 | the data class's defaults (`fixedPoolSize = 1`, rest null) form a valid, fixed pool |
| ThreadPoolConfigs.Build | src/fanpoll/infra/base/async/ThreadPoolConfig.kt:34-36 | `build()` returns a config with the builder's four field values iff that config validates, and fails with the validation error otherwise |
| ThreadPoolConfigs.NewBuilderBuildsDefaultConfig | src/fanpoll/infra/base/async/ThreadPoolConfig.kt:29-35 | the builder's defaults equal the data class's defaults, so an untouched builder builds the default config |
| ClubAuth.ServiceProviderNameOf | src/fanpoll/club/ClubAuth.kt:15 | the service provider name starts with the project id and ends with "-service", with nothing in between |
| ClubAuth.ServiceProviderNameIsProjectService | src/fanpoll/club/ClubAuth.kt:15 | the club's service provider name is "club-service" and starts with the project id |
| ClubAuth.AuthSchemeLists | src/fanpoll/club/ClubAuth.kt:17-23 | the service schemes are the API-key scheme only; the user schemes are the API-key scheme, then the "SessionIdAuth" header scheme; `allAuthSchemes` equals the user list |
| ClubAuth.PolicyRoleMaps | src/fanpoll/club/ClubAuth.kt:25-40 | `Public` has no role map; `User`, `Admin` and `Member` each map only the `User` user type, to all of its roles, to {Admin} and to {Member} respectively |
| ClubAuth.PoliciesAllowOnlyApp | src/fanpoll/club/ClubAuth.kt:25-40 | all four policies allow only the club's `App` source group, out of any project's groups; `Public` uses the service provider and scheme list, and the user policies use the session provider and the user scheme list |
| ClubAuth.ClubAuthConfig.Init | src/fanpoll/club/ClubAuth.kt:44-53 | construction keeps the given `session`, `android` and `iOS`, makes both `android.session` and `iOS.session` the very same `session` object, and may modify only those two source configurations |
| ClubAuth.ClubAuthConfig.PrincipalSourceAuthConfigs | src/fanpoll/club/ClubAuth.kt:55 | the project's source configurations are exactly Android, then iOS |
| ClubAuth.Club | src/fanpoll/club/ClubAuth.kt:58-61 | `club(authConfig)` registers an API-key provider named by the service provider name, with exactly `[android, iOS]` |
| ClubAuth.RegisteredConfigsShareSession | src/fanpoll/club/ClubAuth.kt:50-61 | once `ClubAuthConfig` is constructed, every configuration the club registers holds the project's one session object |
| Logging.LogWriter.Write | infra/src/fanpoll/infra/logging/writers/LogWriter.kt:11 | `write` appends exactly the given entity to the writer's trace |
| Logging.LogWriter.Shutdown | infra/src/fanpoll/infra/logging/writers/LogWriter.kt:13 | the default `shutdown` leaves the trace unchanged |
| MockNotificationSenders.MockNotificationChannelSender.Init | src/fanpoll/infra/notification/channel/MockNotificationChannelSenders.kt:23-30 | the sender keeps its logging config and log writer, and accepts at most one receiver per request (`maxReceiversPerRequest` is 1) |
| MockNotificationSenders.ToMockLog | src/fanpoll/infra/notification/channel/MockNotificationChannelSenders.kt:14-21 | the mock log sets the send time to now, `success` to true, `content` to the message content's JSON text and `rspCode` to "mock"; every other column equals the message's own log |
| MockNotificationSenders.SendLog | src/fanpoll/infra/notification/channel/MockNotificationChannelSenders.kt:32-38 | one `send` writes exactly one entity, the message's mock log, when logging is enabled, and none otherwise |
| MockNotificationSenders.MockNotificationChannelSender.Send | src/fanpoll/infra/notification/channel/MockNotificationChannelSenders.kt:32-38 | `send` changes the log writer's trace only by appending the entities above; nothing else is modified |
| MockNotificationSenders.SendAll | src/fanpoll/infra/notification/channel/MockNotificationChannelSenders.kt:32-38 | a series of sends writes one entity per message when logging is enabled and none otherwise; the i-th entity is the i-th message's mock log |
| MockNotificationSenders.MockNotificationChannelSender.SendEach | src/fanpoll/infra/notification/channel/MockNotificationChannelSenders.kt:32-38 | sending messages one by one leaves in the writer exactly the entities of that series of sends |
| MockNotificationSenders.MockLogsAreSuccessful | src/fanpoll/infra/notification/channel/MockNotificationChannelSenders.kt:17-19 | every entity the mock channel writes is a notification log with `success` true and `rspCode` "mock" |
| ErrorHandler.ShouldLogError | src/fanpoll/Application.kt:79-80 | an internal server exception is always logged; without a principal nothing else is; with a principal a non-internal exception is logged iff its code type is an error |
| ErrorHandler.HandleException | src/fanpoll/Application.kt:74-91 | the wrapped exception is file-logged, with the request, iff it is internal or the request is authenticated with an error code type; the log writer gets one error log iff, in addition, error logging is enabled; the effects come in the order file log, log-writer write, response, and exactly one response, built from the wrapped exception and the request, is sent last |
| ErrorHandler.InternalServerErrorIsFileLogged | src/fanpoll/Application.kt:79-82 | an `InternalServerException` is always written to the file log |
| ErrorHandler.OtherExceptionFileLoggedIff | src/fanpoll/Application.kt:79-82 | any other exception is file-logged, at most once, iff a principal is present and its code type is an error |
| ErrorHandler.UnauthenticatedOtherExceptionIsNotLogged | src/fanpoll/Application.kt:79-88 | without a principal, a non-internal exception produces no file log and no `LogWriter.write` |
| ErrorHandler.LogWriterCalledIffFileLoggedAndEnabled | src/fanpoll/Application.kt:79-88 | `LogWriter.write` is called at most once, and exactly when the exception is file-logged and `error.enabled` holds |
| ErrorHandler.ErrorResponseAlwaysSent | src/fanpoll/Application.kt:89-90 | the error response built from the wrapped exception and the request is always sent, exactly once, as the last effect |
| ErrorHandler.HandlingDependsOnlyOnWrappedException | src/fanpoll/Application.kt:75-90 | two causes that wrap to the same exception are handled identically, so every decision is taken on `e` and not on `cause` |
| ErrorHandler.HandleEach | src/fanpoll/Application.kt:74-91 | over a series of failed requests, the responses are exactly each request's own error response, in order; the file log receives exactly the wrapped exceptions of the requests meeting the logging condition, each with its own request, in order; the log writer receives exactly their error logs, in order, when error logging is enabled, and nothing otherwise |
| ErrorHandler.Handle | src/fanpoll/Application.kt:74-91 | the handler written against a log writer appends exactly the trace's log-writer entities and returns the error response built from the wrapped exception and the request |

## Left out

- Koin module setup, Ktor feature installation, the `Sessions` header wiring, routing and `main` (src/fanpoll/Application.kt:48-73, 94-139) are left out. They are framework bootstrapping with no logic to state.
- `PrincipalAuth`, `SessionAuthConfig`, `serviceApiKey`, `ProjectOpenApi` and `SecurityScheme` are defined in `fanpoll.infra.auth` and `fanpoll.infra.openapi` and are not modelled. Only the policy values that `ClubAuth.kt` builds are.
- `PrincipalAuth.Service.public(...)` is modelled as a `PublicService` policy value. What "public" changes inside the authentication engine is defined in `fanpoll.infra.auth` and not modelled.
- `ClubConst` is not part of this model. The project id is taken to be "club".
- `ClubAuth.UserTypeRoles`: the roles of `ClubUserType.User` are defined in `ClubUserType`, elsewhere in fanpoll, and not modelled. They are taken to be every `ClubUserRole` (Admin and Member). The contract only says that both are included.
- The text of `SessionAuth.SESSION_ID_HEADER_NAME`, the API-key scheme of `ProjectOpenApi` and `SessionAuthConfig.providerName` are defined elsewhere in fanpoll and not modelled. They are kept as opaque names.
- `UserAuthConfig` is defined in `fanpoll.infra.auth`; it is modelled with its `session` field only.
- `ExceptionUtils.writeLogToFile(e, call)` is recorded as a trace effect carrying the exception and the request. The file it writes is not modelled.
- The `Throwable` that reaches the handler is modelled by its class, its message and the rest of its contents as opaque name/value pairs. That rest includes the stack trace, the cause chain and, for an application exception, its response code. All of it reaches `wrapException`.
- The wrapped exception is modelled by its class, its response code, its message and its remaining data as opaque name/value pairs.
- ErrorHandler.ErrorResponseAlwaysSent: the response is proved to be sent on the assumption that the logging steps return normally. Those steps are the principal lookup, `writeLogToFile`, `ErrorLog.request` and `LogWriter.write`. In the source they can throw, and the comment at src/fanpoll/Application.kt:77-78 states the handler's own assumptions: the principal lookup does not throw for unauthenticated requests, and DoubleReceive is installed because logging reads the request again. If a logging step throws, lines 89-90 are not reached and no response is sent. The model has no exceptional path for these steps.
- `ErrorLog.request(e, call)` is modelled as a record of the exception and the request. The request is its principal plus its other details as opaque name/value pairs.
- The debug logging in `send` is not observable state, so it is left out.
- `Instant.now()` is a parameter.
- Asynchronous, thread-pool or concurrent log-writer and sink behaviour is left out. Everything here is sequential.
- `ThreadPoolConfig.Builder` is mutable in Kotlin. Here it is a value whose fields the caller sets before `Build`.
- The integer width of the pool fields is modelled as a range, with no arithmetic on it.
- The test helpers in projects/club/test/integration/util/KtorTestUtils.kt are left out. They only decode JSON responses with kotlinx.serialization.
- src/fanpoll/infra/notification/i18n/I18nNotificationMessagesProvider.kt is left out. It is a single `mapValues` over i18n message types.
- `ClubPrincipalSources` is defined elsewhere in fanpoll. A source group is modelled as the owning project's id and the group's name, so `App` is the club's group named "App". The members of the group are not modelled.
