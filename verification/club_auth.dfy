/** The club project's authentication settings: the declarative policies
    its routes are protected with, and the project auth configuration that
    shares one session configuration between the Android and iOS sources.
    Modelled on `fanpoll.club.ClubAuth`. */
module ClubAuth {
  import opened Results

  /** The header that carries the session id. Its text is defined outside
      this model, so it is kept as a name only. */
  datatype HeaderName = SessionIdHeaderName

  /** An OpenAPI security scheme. `ProjectApiKeyScheme` is the project-wide
      API-key scheme defined outside this model; `ApiKeyAuth` is a scheme
      built here from a name and a header. */
  datatype SecurityScheme = ProjectApiKeyScheme | ApiKeyAuth(name: string, header: HeaderName)

  /** A named authentication provider. `SessionAuthProvider` is the session
      provider, whose name is defined outside this model. */
  datatype ProviderName = ProviderNamed(name: string) | SessionAuthProvider

  datatype ClubUserType = User
  datatype ClubUserRole = Admin | Member

  /** A named group of principal sources, owned by the project that defines
      it. `PrincipalAuth` is shared by every project, so a policy may name
      any project's group. */
  datatype PrincipalSources = PrincipalSources(projectId: string, name: string)

  /** `PrincipalAuth`: a public service policy, or a user policy with a map
      from user type to the roles it admits. */
  datatype PrincipalAuth =
    | PublicService(provider: ProviderName, schemes: seq<SecurityScheme>, source: PrincipalSources)
    | UserAuth(provider: ProviderName, schemes: seq<SecurityScheme>,
               roles: map<ClubUserType, set<ClubUserRole>>, source: PrincipalSources)

  /** `ClubConst.projectId`. */
  const ProjectId: string := "club"

  /** `ClubPrincipalSources.App`: the club's mobile apps. */
  const App: PrincipalSources := PrincipalSources(ProjectId, "App")

  /** The roles a user type carries. The club has one user type, and it is
      taken to carry every club role. */
  function UserTypeRoles(t: ClubUserType): (roles: set<ClubUserRole>)
    ensures Admin in roles && Member in roles
  {
    match t
    case User => {Admin, Member}
  }

  /** The service provider's name for a project: the project id followed
      by "-service". */
  function ServiceProviderNameOf(projectId: string): (name: string)
    ensures |name| == |projectId| + |"-service"|
    ensures name[..|projectId|] == projectId
    ensures name[|projectId|..] == "-service"
  {
    projectId + "-service"
  }

  const ServiceProviderName: string := ServiceProviderNameOf(ProjectId)

  const SessionIdAuthScheme: SecurityScheme := ApiKeyAuth("SessionIdAuth", SessionIdHeaderName)
  const ServiceAuthSchemes: seq<SecurityScheme> := [ProjectApiKeyScheme]
  const UserAuthSchemes: seq<SecurityScheme> := [ProjectApiKeyScheme, SessionIdAuthScheme]
  const AllAuthSchemes: seq<SecurityScheme> := [ProjectApiKeyScheme, SessionIdAuthScheme]

  const PublicPolicy: PrincipalAuth :=
    PublicService(ProviderNamed(ServiceProviderName), ServiceAuthSchemes, App)
  const UserPolicy: PrincipalAuth :=
    UserAuth(SessionAuthProvider, UserAuthSchemes, map[User := UserTypeRoles(User)], App)
  const AdminPolicy: PrincipalAuth :=
    UserAuth(SessionAuthProvider, UserAuthSchemes, map[User := {Admin}], App)
  const MemberPolicy: PrincipalAuth :=
    UserAuth(SessionAuthProvider, UserAuthSchemes, map[User := {Member}], App)

  /** The roles a policy admits for a user type, if the type is mentioned. */
  function RequiredRoles(p: PrincipalAuth, t: ClubUserType): Option<set<ClubUserRole>>
  {
    if p.UserAuth? && t in p.roles then Some(p.roles[t]) else None
  }

  /** The service provider's name is the project id with "-service" appended. */
  lemma ServiceProviderNameIsProjectService()
    ensures ServiceProviderName == "club-service"
  {
  }

  /** Service routes accept the API key only; user routes accept the API key
      and then the session id; the advertised list is the user list. */
  lemma AuthSchemeLists()
    ensures ServiceAuthSchemes == [ProjectApiKeyScheme]
    ensures UserAuthSchemes == [ProjectApiKeyScheme, ApiKeyAuth("SessionIdAuth", SessionIdHeaderName)]
    ensures AllAuthSchemes == UserAuthSchemes
  {
  }

  /** The user policies mention only the `User` type: `User` admits every
      role of it, `Admin` only admins and `Member` only members. The public
      policy has no role map. */
  lemma PolicyRoleMaps()
    ensures forall t: ClubUserType :: RequiredRoles(PublicPolicy, t).None?
    ensures UserPolicy.roles.Keys == AdminPolicy.roles.Keys == MemberPolicy.roles.Keys == {User}
    ensures RequiredRoles(UserPolicy, User) == Some(UserTypeRoles(User))
    ensures RequiredRoles(AdminPolicy, User) == Some({Admin})
    ensures RequiredRoles(MemberPolicy, User) == Some({Member})
  {
  }

  /** All four policies admit the club's app sources only; the user policies go
      through the session provider, the public one through the service
      provider. */
  lemma PoliciesAllowOnlyApp()
    ensures forall p <- [PublicPolicy, UserPolicy, AdminPolicy, MemberPolicy] ::
              p.source == App
    ensures PublicPolicy.provider == ProviderNamed(ServiceProviderName)
    ensures PublicPolicy.schemes == ServiceAuthSchemes
    ensures forall p <- [UserPolicy, AdminPolicy, MemberPolicy] ::
              p.provider == SessionAuthProvider && p.schemes == UserAuthSchemes
  {
  }

  /** `SessionConfig`: shared by reference; its contents are not modelled. */
  class SessionConfig {
    constructor() {}
  }

  /** `UserAuthConfig`: the per-source configuration whose `session` is
      filled in by the project configuration. */
  class UserAuthConfig {
    var session: SessionConfig?

    constructor()
      ensures session == null
    {
      session := null;
    }
  }

  /** `ClubAuthConfig`. */
  class ClubAuthConfig {
    const session: SessionConfig
    const android: UserAuthConfig
    const iOS: UserAuthConfig

    /** Both source configurations hold the project's one session configuration. */
    ghost predicate SessionShared()
      reads android, iOS
    {
      android.session == session && iOS.session == session
    }

    /** The `init` block injects `session` into both source configurations
        and changes nothing else. */
    constructor Init(session: SessionConfig, android: UserAuthConfig, iOS: UserAuthConfig)
      modifies android, iOS
      ensures this.session == session && this.android == android && this.iOS == iOS
      ensures SessionShared()
    {
      this.session := session;
      this.android := android;
      this.iOS := iOS;
      new;
      android.session := session;
      iOS.session := session;
    }

    /** `getPrincipalSourceAuthConfigs()`: the Android configuration, then the iOS one. */
    function PrincipalSourceAuthConfigs(): (configs: seq<UserAuthConfig>)
      ensures |configs| == 2 && configs[0] == android && configs[1] == iOS
    {
      [android, iOS]
    }
  }

  /** The API-key provider `serviceApiKey(name, configs)` registers. */
  datatype ServiceApiKeyProvider = ServiceApiKeyProvider(name: string, configs: seq<UserAuthConfig>)

  /** `Authentication.Configuration.club(authConfig)`. */
  function Club(authConfig: ClubAuthConfig): (provider: ServiceApiKeyProvider)
    ensures provider.name == ServiceProviderName
    ensures provider.configs == [authConfig.android, authConfig.iOS]
  {
    ServiceApiKeyProvider(ServiceProviderName, authConfig.PrincipalSourceAuthConfigs())
  }

  /** Every configuration the club registers holds the project's session
      configuration, once the project configuration has been constructed. */
  lemma RegisteredConfigsShareSession(authConfig: ClubAuthConfig)
    requires authConfig.SessionShared()
    ensures forall c <- Club(authConfig).configs :: c.session == authConfig.session
  {
  }
}
