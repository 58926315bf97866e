# datumctl: a verified model

datumctl keeps several login sessions side by side, discovers the organizations and
projects each of them can reach, and lets an AI agent act on them. This project models the
parts in which state and strings interact, and proves what they promise.

| files | part of the program |
|---|---|
| `ConfigTypes`, `Resolver`, `ScopeMigration`, `ConfigStore`, `Discovery`, `Commands` | the session-scoped context store, its six-stage resolver, the upgrade of old files, refresh and the display names it makes usable, and every sequence of login, refresh, use, switch, logout and the console's own changes |
| `LlmTypes`, `AnthropicWire`, `AnthropicStream`, `OpenAIStream` | the conversation types, the wire format and the two streaming accumulators |
| `AgentLoop`, `ConfirmGate` | the agent's tool loop and the confirmation protocol between agent and terminal UI |
| `UserKeys`, `TokenSources`, `TokenRaces`, `DevicePoll` | moving credentials in a shared keyring, the token sources with atomic and with interrupted calls, device-flow polling (RFC 8628, sections 3.2 and 3.5) |
| `HostPattern`, `CatalogSource`, `AllowList`, `Catalogs` | the plugin catalog registry, its allow-list, and what a source text stands for |
| `Text`, `KeyedList` | string cutting, and the "upsert" and "keep" list operations everything is built from |

Code that updates fields, slices or maps in loops is a class or a method with the same
loops, and is proved equal to a function; the lemmas are about those functions. What comes
from outside (API answers, clocks, the model, tools, other processes, keyring failures,
picks in a menu) is a parameter over which every theorem quantifies. The confirmation
protocol is a transition system whose steps are those of the agent goroutine, the listener
goroutines, the UI and cancellation.

`Commands.Good` is the invariant over all runs. About last contexts it says how they are
written, not where they lead: saying only "a last context that resolves belongs to its own
session" is not preserved, and `Commands.RunKeepsLastContextsIff` shows that the clause is
exactly what is needed.

Where the code does less than its comments or an obvious reading suggest, the model
follows the code. Each case has a concrete or constructed failing input and an exact
condition, for all inputs unless a range is given:

- A context's printed reference can resolve to a sibling when the organization is named
  like the session (`Resolver.RefResolvesIffNotShadowed`, `Resolver.ShadowedRefExample`).
- The name upgrade can move a stored pointer to another session when an organization is
  named like a session (`ScopeMigration.PointerKeepsTargetIff`, `ScopeMigration.DivertedExample`).
- Refreshing one session garbage-collects another one's unreferenced cache entries
  (`Discovery.RefreshIsolatesIff`, `Discovery.CollectedElsewhereExample`).
- Two discovered entries can claim one context name, for instance when a project name is
  empty (`Discovery.RefreshOwnsExactlyDiscovered`, `Discovery.NamelessProjectExample`).
- A dangling last context can come to resolve to another session, after a refresh
  (`Commands.RefreshKeepsLastContextsIff`, `Commands.DanglingLastContextExample`) or in a
  run (`Commands.LastContextStaysOwnIff`, `Commands.ForeignComesToResolve`).
- A login that ends without a selected context leaves another session active when the
  current context is that session's (`Commands.LoginActivatesIff`,
  `Commands.LoginLeavesOtherActiveExample`).
- The key migration runs again whenever it did not finish. The second attempt can copy a
  credential without a hostname one step further than an uninterrupted run would. The
  condition is exact for sessions that share a new key only with the same old key and auth
  host, and sufficient for safety for all (`UserKeys.ResumeSafeIff`,
  `UserKeys.LateSourceExample`).
- A refresh that another process's logout or login overtakes puts the deleted entry back,
  or overwrites the new one (`TokenRaces.LogoutSticksIff`, `TokenRaces.PutBackExample`,
  `TokenRaces.LoginTakesOverIff`, `TokenRaces.OlderOverwrites`). The results of
  `TokenSources` about the persisting source assume that calls are atomic.
- A stale confirmation request can be shown over the live one, which then cannot be
  answered any more (`ConfirmGate.AnswerableIffNotDisplaced`, `ConfirmGate.DisplacedExample`).
- Interleaved Anthropic text blocks are joined in order of arrival
  (`AnthropicStream.StreamRefinesDecoderIff`, `AnthropicStream.InterleavedTextExample`).
- The polling interval is a 64-bit count of nanoseconds and can wrap around, after which the
  client polls as fast as it is answered (`DevicePoll.PollsBoundedIff`,
  `DevicePoll.PollingTerminatesIff`, `DevicePoll.WrapExample`).
- A catalog in the user's file can claim the official badge (`Catalogs.OfficialBadgeOnceIff`,
  `Catalogs.SecondBadgeExample`).
- The short form owner/repo does not reach every GitHub repository
  (`CatalogSource.ShorthandIsGitHubIff`), and the host pattern "*.q" also matches the very
  text "*.q" (`HostPattern.HostMatchesIff`).

## Model

| member | source | states |
|---|---|---|
| ConfigTypes.RefInjective | internal/datumconfig/config_v1beta1.go:71-76 | With slash-free organization IDs two contexts print alike only when they name the same organization and project. |
| ConfigTypes.QualifiedNameInjective | internal/datumconfig/config_v1beta1.go:81-88 | With slash-free session names and organization IDs a stored name determines session, organization and project, so overlapping IDs of two environments never share a name. |
| Resolver.NameResolves | internal/datumconfig/config_v1beta1.go:283-297 | Within its session the full name of a context finds that context, whatever the display-name cache holds. |
| Resolver.RefResolvesIffNotShadowed | internal/datumconfig/config_v1beta1.go:283-342 | Resolving what a context prints gives that context back if and only if it is not shadowed: no project context of an organization named like its session beside a context whose reference is that project ID. |
| Resolver.RefRoundTrips | internal/datumconfig/config_v1beta1.go:71-88 | The documented case: when the organization is not named like its session, both the reference and the name lead back to the context. |
| Resolver.ShadowedRefExample | internal/datumconfig/config_v1beta1.go:283-307 | A concrete config in which printing one context and resolving the text gives another one. |
| Resolver.ViewHolds | internal/datumconfig/config_v1beta1.go:283-290 | A query sees exactly the contexts and cached entries of its session, or everybody's when no session is given. |
| Resolver.NamedResolvesFirst | internal/datumconfig/config_v1beta1.go:291-297 | A full name finds the first context of that name, whatever else the text could mean, duplicates included. |
| Resolver.IDsResolveFirst | internal/datumconfig/config_v1beta1.go:301-307 | A pair of IDs that is nobody's name finds the first context with those IDs. |
| Resolver.PairResolvesIffUnique | internal/datumconfig/config_v1beta1.go:309-335 | An org/project query that is no exact name or ID pair resolves to a context exactly when it is the only one of the session it fits - the organization by display name, or by ID if nobody is displayed so, the project by ID or by display name within that organization; with none or several it resolves to nothing. |
| Resolver.WordResolvesIff | internal/datumconfig/config_v1beta1.go:337-379 | A word that is no context's name resolves to context k if and only if k is the first organization context with that ID; or there is none and k is the only context with that project ID; or the word is no ID, exactly one cached organization is displayed so, and k is its first context; or in addition at most one organization is displayed so, it has no context, exactly one cached project is displayed so, and k is its first context. |
| Resolver.AmbiguousWordFails | internal/datumconfig/config_v1beta1.go:344-379 | Two contexts with the project ID, two organizations displayed so, or two projects displayed so make the word resolve to nothing, each where no earlier reading applies. |
| Resolver.ResolvedIsOwned | internal/datumconfig/config_v1beta1.go:246-253 | Nothing outside the session asked about is ever returned. |
| ScopeMigration.MigrateSettled | internal/datumconfig/config_v1beta1.go:600-640 | A config whose names are qualified and whose cache entries carry a session is left exactly as it is. |
| ScopeMigration.MigrateIdempotent | internal/datumconfig/config_v1beta1.go:594-640 | Migrating twice is migrating once, for every config. |
| ScopeMigration.MigrateScopes | internal/datumconfig/config_v1beta1.go:600-640 | Afterwards every context that has a session carries it in front of its reference, unstamped cache entries are gone and only those, and nothing else about contexts, sessions or the active session has changed but last contexts. |
| ScopeMigration.PointerKeepsTargetIff | internal/datumconfig/config_v1beta1.go:600-626 | Despite the renames being done one after another, a pointer to a context leads to the same session, organization and project afterwards if and only if no other context diverts it; the condition reads only names, sessions and list positions before the migration. |
| ScopeMigration.NoOrgNamedLikeSession | internal/datumconfig/config_v1beta1.go:600-626 | When no organization ID equals a session name nothing is diverted. |
| ScopeMigration.PointerMeaningKept | internal/datumconfig/config_v1beta1.go:609-624 | Under that condition every pointer that resolved still resolves, to the same target. |
| ScopeMigration.MigrateKeepsMeaning | internal/datumconfig/config_v1beta1.go:600-640 | Current context and the last context of every session keep the session, organization and project they stood for. |
| ScopeMigration.DivertedExample | internal/datumconfig/config_v1beta1.go:600-626 | A concrete config with an organization named like a session whose current context silently moves to the other session. |
| ConfigStore.ConfigV1Beta1.Load | internal/datumconfig/config_v1beta1.go:573-593 | Loading gives the decoded file, migrated. |
| ConfigStore.ConfigV1Beta1.FindContextByName | internal/datumconfig/config_v1beta1.go:231-238 | The first context with the name, or nothing. |
| ConfigStore.ConfigV1Beta1.FindSessionByName | internal/datumconfig/config_v1beta1.go:200-207 | The first session with the name, or nothing. |
| ConfigStore.ConfigV1Beta1.FindActiveSession | internal/datumconfig/config_v1beta1.go:439-451 | The session of the current context if both exist, otherwise the session marked active, otherwise nothing. |
| ConfigStore.ConfigV1Beta1.ContextsForSession | internal/datumconfig/config_v1beta1.go:532-540 | Exactly the contexts of the session, in stored order. |
| ConfigStore.ConfigV1Beta1.UpsertSession | internal/datumconfig/config_v1beta1.go:454-462 | The first session with the name is replaced in place, otherwise the session goes to the end. |
| ConfigStore.ConfigV1Beta1.UpsertContext | internal/datumconfig/config_v1beta1.go:465-473 | The first context with the name is replaced in place, otherwise the context goes to the end. |
| ConfigStore.ConfigV1Beta1.DropSessionsOf | internal/datumconfig/config_v1beta1.go:499-511 | All sessions of the user go and their names are returned; the others keep their order. |
| ConfigStore.ConfigV1Beta1.DropContextsOf | internal/datumconfig/config_v1beta1.go:512-518 | The contexts of the removed sessions go; the others keep their order. |
| ConfigStore.LogoutRemoves | internal/datumconfig/config_v1beta1.go:499-529 | For every config: exactly the sessions with the e-mail address and the contexts of sessions of such a name are gone, the others stay in order; the active session is cleared if and only if it was one of them, the current context if and only if no remaining context has its name; the cache stays. |
| ConfigStore.LoggedOutIsInactive | internal/datumconfig/config_v1beta1.go:439-529 | Whatever session is active afterwards is not one of the removed ones. |
| ConfigStore.ConfigV1Beta1.RemoveSessionsByEmail | internal/datumconfig/config_v1beta1.go:499-529 | Sessions and contexts of the user are gone; the active session is cleared if it was one of them, the current context if no remaining context has its name. |
| ConfigStore.ConfigV1Beta1.QualifyContexts | internal/datumconfig/config_v1beta1.go:600-626 | The in-place rename loop does the sequential renames and pointer moves of the migration. |
| ConfigStore.ConfigV1Beta1.MigrateSessionScoping | internal/datumconfig/config_v1beta1.go:600-640 | The whole in-place migration is the function the migration lemmas are about. |
| ConfigStore.ConfigV1Beta1.ResolveOrgIDs | internal/datumconfig/config_v1beta1.go:384-392 | The IDs, in cache order, of the session's organizations displayed under the name. |
| ConfigStore.ConfigV1Beta1.ResolveProjectIDs | internal/datumconfig/config_v1beta1.go:396-404 | The same for projects of any organization. |
| ConfigStore.ConfigV1Beta1.ProjectCandidates | internal/datumconfig/config_v1beta1.go:409-424 | As a set: the literal part and the IDs of the organization's projects displayed under it. |
| ConfigStore.ConfigV1Beta1.FirstNamed | internal/datumconfig/config_v1beta1.go:291-297 | Stage 1: the least position carrying the name. |
| ConfigStore.ConfigV1Beta1.FirstWithIDs | internal/datumconfig/config_v1beta1.go:299-307 | Stages 2 and 3: the least position carrying the IDs. |
| ConfigStore.ConfigV1Beta1.OnlyWithProject | internal/datumconfig/config_v1beta1.go:345-356 | Stage 4: a project ID counts only if exactly one context carries it. |
| ConfigStore.ConfigV1Beta1.ScanIDs | internal/datumconfig/config_v1beta1.go:318-331 | The innermost loop: it stops if and only if two positions match over everything scanned so far. |
| ConfigStore.ConfigV1Beta1.ScanOrg | internal/datumconfig/config_v1beta1.go:313-333 | One round of the outer loop, independent of the order of candidate projects. |
| ConfigStore.ConfigV1Beta1.ScanOrgs | internal/datumconfig/config_v1beta1.go:309-335 | Stage 5: the single denoted position, nothing if there are none or several, whatever the order of the nested loops. |
| ConfigStore.ConfigV1Beta1.ResolvePairQuery | internal/datumconfig/config_v1beta1.go:299-335 | Stages 2 and 5 together are the set-based meaning of an org/project query. |
| ConfigStore.ConfigV1Beta1.ResolveWordQuery | internal/datumconfig/config_v1beta1.go:337-379 | Stages 3, 4 and 6 together are the set-based meaning of a single word. |
| ConfigStore.ConfigV1Beta1.ResolveContextInSession | internal/datumconfig/config_v1beta1.go:246-380 | The six-stage loop implementation returns what the order-independent definition of resolution says. |
| Discovery.UpsertCachedOrg | internal/discovery/cache.go:169-177 | In place by ID and session, otherwise at the end. |
| Discovery.UpsertCachedProject | internal/discovery/cache.go:179-187 | In place by ID and session, otherwise at the end. |
| Discovery.MergeCacheFromDiscovery | internal/discovery/cache.go:39-60 | Every discovered entry is upserted in order, stamped with the session; contexts are untouched. |
| Discovery.SyncContextsForSession | internal/discovery/cache.go:65-98 | The session's contexts are dropped and regenerated from the discovery; the others stay. |
| Discovery.References | internal/discovery/cache.go:105-114 | The (ID, session) pairs that some context refers to. |
| Discovery.GCCache | internal/discovery/cache.go:104-132 | Exactly the cache entries some context refers to remain, in order. |
| Discovery.UpdateConfigCache | internal/discovery/cache.go:21-33 | The steps together are the refresh the lemmas are about. |
| Discovery.RefreshedContexts | internal/discovery/cache.go:65-98 | A refresh keeps names distinct, keeps the other sessions' contexts as a sequence, and adds nothing that was not discovered. |
| Discovery.RefreshOwnsExactlyDiscovered | internal/discovery/cache.go:65-98 | After a refresh the session owns each discovered organization and (organization, project) exactly once and nothing else, if and only if no two discovered entries claim one name. |
| Discovery.NamelessProjectExample | internal/discovery/cache.go:74-97 | A project with an empty name for which it does not. |
| Discovery.ResourceNamesUnambiguous | internal/discovery/cache.go:74-97 | With slash-free names and non-empty project names no name is claimed twice. |
| Discovery.RefreshListsReported | internal/discovery/cache.go:65-98 | After a refresh the session lists exactly the organizations and (organization, project) pairs reported, each once and under its qualified name, whatever it listed before and whoever else shares their IDs. |
| Discovery.RefreshCachesOrg | internal/discovery/cache.go:39-52 | The cache entry of every reported organization carries the display name last reported for it, and survives the collection. |
| Discovery.RefreshCachesProject | internal/discovery/cache.go:53-60 | The cache entry of every reported project carries display name and organization as last reported. |
| Discovery.RefreshOrgsOrigin | internal/discovery/cache.go:39-132 | Any other cached organization was there before, and one that was there and not reported again stays if and only if a context refers to it. |
| Discovery.RefreshProjectsOrigin | internal/discovery/cache.go:39-132 | The same for projects. |
| Discovery.OrgNameResolves | internal/discovery/cache.go:21-60 | So after a refresh an organization can be named as the API displays it: a display name that is nobody's ID and nobody else's in the session resolves to that organization's context. |
| Discovery.ProjectNameResolves | internal/discovery/cache.go:21-60 | And a project, to a context of that project in an organization that reported it. |
| Discovery.RefreshCacheReferenced | internal/discovery/cache.go:104-132 | After a refresh every cached organization and project is referred to by a context of its session. |
| Discovery.RefreshIsolatesIff | internal/discovery/cache.go:21-132 | Refreshing S leaves contexts, cached organizations and cached projects of T the same sequences if and only if T had no unreferenced cache entry. |
| Discovery.CollectedElsewhereExample | internal/discovery/cache.go:104-132 | A config in which refreshing one session collects a cache entry of another. |
| Discovery.RefreshKeepsOtherResolution | internal/discovery/cache.go:21-33 | Hence every query resolves in T to what it resolved to before. |
| Discovery.RefreshIdempotent | internal/discovery/cache.go:21-132 | Repeating a refresh with the same discovery changes only the timestamp. |
| Commands.EmptyIsGood | internal/datumconfig/config_v1beta1.go:183-197 | A fresh install satisfies the invariant. |
| Commands.NoMigrationNeeded | internal/datumconfig/config_v1beta1.go:590-640 | Loading never changes a config that satisfies the invariant. |
| Commands.LoginSound | internal/cmd/login/login.go:103-209 | Every way a login can end keeps names unique and qualified, contexts owned and the cache referenced. |
| Commands.LogoutSound | internal/datumconfig/config_v1beta1.go:499-529 | Logout keeps them too, and the contexts of every other user's sessions. |
| Commands.StepSound | internal/cmd/ctx/use.go:26-90 | Each of the eleven ways the config is changed, on every success and failure path, keeps unique session and context names, qualified context names, no orphan context and a referenced cache. |
| Commands.StepFollows | internal/cmd/ctx/use.go:75-82 | A command changes a session's last context only to a name of that session's own. |
| Commands.StepGood | internal/cmd/auth/switch.go:80-95 | Each command also keeps last contexts from being written like the name of another session's context. |
| Commands.RunSound | internal/cmd/login/login.go:103-209 | The same as StepSound over every sequence of commands. |
| Commands.RunGood | internal/cmd/login/login.go:103-209 | And the whole invariant over every sequence of commands, from a fresh install or any config that satisfies it. |
| Commands.LastContextIsOwn | internal/cmd/auth/switch.go:80-95 | A last context that still resolves is a context of its own session. |
| Commands.SwitchActivates | internal/cmd/auth/switch.go:37-95 | After switching to a session that very session is the active one, although the current context takes precedence. |
| Commands.UseActivates | internal/cmd/ctx/use.go:75-82 | After using a context it is current, its session is marked and active and remembers it. |
| Commands.UsedContextIsActive | internal/cmd/ctx/use.go:26-90 | The same for a query resolved by the command. |
| Commands.PickedIsUsed | internal/cmd/ctx/use.go:63-82 | The context at the position picked, or the only one, is the one used. |
| Commands.OfferedSessions | internal/cmd/auth/switch.go:37-62 | Switching offers exactly the sessions with the e-mail address, or all. |
| Commands.SwitchRestores | internal/cmd/auth/switch.go:62-95 | The session picked becomes active and the context it last used current, if one of that name still exists, otherwise none; nothing else changes. |
| Commands.RunRemembers | internal/cmd/auth/switch.go:85-95 | Through every run that does not log a session in or out, refresh it or use another of its contexts, what it last used stays remembered and stays there. |
| Commands.SwitchBackRestores | internal/cmd/auth/switch.go:80-95 | Use a context, do whatever in other sessions, switch back: the context is current again and its session active. |
| Commands.ConsolePickActivates | internal/console/components/ctxswitcher.go:119-133 | Picking in the console makes the context current and its session the active one, although only the current context is set. |
| Commands.LoginIsolates | internal/cmd/login/login.go:103-209 | Logging in to one session changes no query's meaning in another. |
| Commands.StepIsolates | internal/datumconfig/config_v1beta1.go:246-253 | A command that does not log T in or out or refresh it changes no query's meaning in T. |
| Commands.RunIsolates | internal/datumconfig/config_v1beta1.go:246-253 | The same over every run. |
| Commands.RunRoundTrips | internal/datumconfig/config_v1beta1.go:71-88 | After every run, what is printed for a context resolves to it, if its organization is not named like its session. |
| Commands.RefreshKeepsLastContextsIff | internal/discovery/cache.go:65-98 | A refresh of S keeps every last context that resolves its own session's if and only if it discovers no context that another session remembers. |
| Commands.NamesForeignIff | internal/datumconfig/config_v1beta1.go:71-88 | A last context can be the name of some possible context of another session exactly when it is written with a non-empty first segment other than that session's name and does not end in an empty project. |
| Commands.RunKeepsLastContextsIff | internal/cmd/login/login.go:103-209 | Last contexts that resolve stay their own session's over every run of commands if and only if none is written like that at the start. |
| Commands.LastContextStaysOwnIff | internal/cmd/auth/switch.go:80-95 | The same for a single session and what it remembers. |
| Commands.ForeignComesToResolve | internal/cmd/login/login.go:103-140 | Otherwise one login makes it resolve to another session. |
| Commands.DanglingLastContextExample | internal/discovery/cache.go:65-98 | A concrete config and discovery for which a refresh makes a dangling last context another session's. |
| Commands.LoginActivatesIff | internal/cmd/login/login.go:103-209 | A login that succeeds makes its session the active one if and only if organizations were found, one of its own contexts was picked and onboarding is complete, or the current context is no other session's. |
| Commands.LoginLeavesOtherActiveExample | internal/cmd/login/login.go:115-124 | A login whose discovery fails, after which another session is still the active one. |
| Commands.RunKeyed | internal/discovery/cache.go:39-60 | After every run no two cached entries of a session share an ID, so each is displayed under one name. |
| Commands.LoginStores | internal/cmd/login/login.go:103-209 | A login that saves stores its session exactly as given but for the context it selected, marks it active, and lists for it exactly what was reported; without a selection the current context stays. |
| Commands.LoginAbortsIff | internal/cmd/login/login.go:103-209 | It saves nothing if and only if there is no token source, or discovery worked and then: nothing was found and the portal is unknown, or something was found but nothing picked or the onboarding check failed. |
| Commands.RefreshUpdatesActive | internal/cmd/ctx/refresh.go:14-41 | Refreshing lists for the active session exactly what was reported and leaves sessions and pointers; without an active session or an answer it leaves everything. |
| Commands.LogoutRemovesUser | internal/cmd/logout/logout.go:50-81 | The whole command: for a known user the removal as specified for every config, otherwise nothing. |
| Commands.LogoutAllClears | internal/cmd/logout/logout.go:83-107 | No session, no context, nothing active, and no query means anything in any session; the cache stays. |
| Commands.LogoutAllIsEveryLogout | internal/cmd/logout/logout.go:50-107 | Logging out everybody is logging out all users one after the other, in any order, if the pointers do not dangle. |
| Commands.BootstrapStores | internal/authutil/context.go:75-126 | Nothing while the active session has a key; otherwise the new session is stored, and marked only if none was. |
| Commands.BootstrapActivatesIff | internal/authutil/context.go:113-121 | With no session active the new one becomes active if and only if no other name was marked. |
| Commands.SetLastContext | internal/cmd/ctx/use.go:78-82 | Only the first session of the name changes, and only its last context. |
| Commands.SelectContext | internal/cmd/login/login.go:142-209 | Offering, picking and selecting a context, with every refusal, saves what the login function says. |
| Commands.RunLogin | internal/cmd/login/login.go:103-209 | The step-by-step updates and early returns save what the login function says; failures before saving leave the file. |
| Commands.RunRefresh | internal/cmd/ctx/refresh.go:14-41 | The active session is refreshed, or the file stays as it is. |
| Commands.RunUse | internal/cmd/ctx/use.go:26-90 | Query and picker form of the command, with every refusal. |
| Commands.RunSwitch | internal/cmd/auth/switch.go:37-95 | Target selection by e-mail and picker, then active session and restored context. |
| Commands.RunLogoutByEmail | internal/cmd/logout/logout.go:50-81 | Nothing for an unknown user, otherwise the removal. |
| Commands.RunLogoutAll | internal/cmd/logout/logout.go:83-107 | Sessions, contexts and both pointers are cleared, the cache is not. |
| Commands.RunConsoleLogin | internal/console/model.go:174-197 | Signing in from the console: the session is stored and marked active, and refreshed with whatever was discovered. |
| Commands.RunConsolePick | internal/console/components/ctxswitcher.go:56-133 | Only the current context changes, to one the switcher offers. |
| Commands.RunBootstrap | internal/authutil/context.go:75-126 | A session made from stored credentials is added when no usable one is active, and marked active when none was. |
| Commands.RekeySound | internal/authutil/migrate.go:27-36 | Saving moved user keys keeps names, contexts and cache as the invariant wants them. |
| Commands.RekeyMoves | internal/authutil/migrate.go:27-36 | Every session that has to gets its new key and nothing else changes. |
| LlmTypes.PairedConcat | internal/ai/agent.go:201-214 | Histories in which every call is answered at once can be put one after the other. |
| LlmTypes.SuffixPaired | internal/ai/agent.go:266-274 | Cutting such a history anywhere separates from their calls only results at the very front. |
| AnthropicWire.EncodeAssistant | internal/ai/llm/anthropic.go:149-167 | Text block only for non-empty text, then one tool-use block per call with an argument object always present. |
| AnthropicWire.EncodeBatch | internal/ai/llm/anthropic.go:168-190 | The inner loop takes the whole run of results and nothing else, in order, with their error flags. |
| AnthropicWire.ToAnthropicMessages | internal/ai/llm/anthropic.go:141-195 | The index-driven loop is the recursive encoding the lemmas are about. |
| AnthropicWire.FromAnthropicResponse | internal/ai/llm/anthropic.go:198-219 | The decoding loop concatenates text and collects calls in block order. |
| AnthropicWire.AssistantDecodes | internal/ai/llm/anthropic.go:198-219 | An encoded assistant message decodes to itself with missing argument objects filled in. |
| AnthropicWire.WireIsLossless | internal/ai/llm/anthropic.go:141-219 | Decoding an encoded history gives it back up to missing arguments and fields its roles do not use. |
| AnthropicWire.PlainHistoryRoundTrips | internal/ai/llm/anthropic.go:141-219 | For histories as the agent records them the round trip is the identity. |
| AnthropicWire.BatchesMaximal | internal/ai/llm/anthropic.go:168-190 | No two result batches are adjacent and none is empty. |
| AnthropicWire.PairedOnTheWire | internal/ai/llm/anthropic.go:134-195 | Every assistant turn with calls is followed by one user message with exactly those call IDs in order. |
| AnthropicStream.StreamChat | internal/ai/llm/anthropic.go:292-362 | The event loop is the fold the lemmas are about; it fails if and only if an error is reported, with the first one; what is printed is the accumulated text, which is the reply's content. |
| AnthropicStream.ToolsTracked | internal/ai/llm/anthropic.go:316-341 | If indices are started once and before their arguments, the accumulators are the started tool blocks in start order, each with exactly its own JSON, however arguments and text interleave. |
| AnthropicStream.StreamedCalls | internal/ai/llm/anthropic.go:343-360 | The reply has one call per started tool, in start order, with its ID and name, and as arguments what the JSON put together for its index parses to, or none if that is empty or malformed. |
| AnthropicStream.OneDelta | internal/ai/llm/anthropic.go:328-341 | A delta brings its text or JSON to its own index. |
| AnthropicStream.TextJoin | internal/ai/llm/anthropic.go:328-337 | The text of a block is put together in order of arrival. |
| AnthropicStream.JsonJoin | internal/ai/llm/anthropic.go:338-341 | So is its JSON. |
| AnthropicStream.TextTracked | internal/ai/llm/anthropic.go:328-337 | If text goes to started text blocks and none overtakes text of a later-started one, what is printed is the text of the blocks in start order. |
| AnthropicStream.StreamRefinesDecoder | internal/ai/llm/anthropic.go:292-362 | For such streams, in any chunking, the streamed message is what the non-streaming decoder makes of the assembled blocks. |
| AnthropicStream.StreamRefinesDecoderIff | internal/ai/llm/anthropic.go:292-362 | Streaming agrees with the decoder for every choice of text if and only if no text for an earlier-started block follows text for a later-started one. |
| AnthropicStream.OvertakingDiffers | internal/ai/llm/anthropic.go:328-337 | From any stream in which text overtakes, one with the same shape on which the two disagree. |
| AnthropicStream.ChunkingIrrelevant | internal/ai/llm/anthropic.go:292-362 | Two streams that deliver the same blocks give the same message. |
| AnthropicStream.InterleavedTextExample | internal/ai/llm/anthropic.go:319-329 | Two interleaved text blocks are joined in order of arrival, unlike the decoder. |
| OpenAIStream.FromOpenAIMessage | internal/ai/llm/openai.go:188-203 | Content if present, and the calls in order with parsed arguments. |
| OpenAIStream.SeenOnce | internal/ai/llm/openai.go:308-312 | Each call index is listed once, exactly when it has a fragment, and the order of first appearance never changes. |
| OpenAIStream.FirstIDWins | internal/ai/llm/openai.go:308-316 | The ID of a call is that of its first fragment that has one, whatever later ones say. |
| OpenAIStream.FirstNameWins | internal/ai/llm/openai.go:317-319 | So is its name. |
| OpenAIStream.OneChunk | internal/ai/llm/openai.go:301-321 | A chunk brings its text and its fragments, a fragment its arguments to its own call. |
| OpenAIStream.ContentsJoin | internal/ai/llm/openai.go:301-307 | Text is put together in order of arrival. |
| OpenAIStream.ArgumentsJoin | internal/ai/llm/openai.go:320-320 | So are the arguments of a call. |
| OpenAIStream.StreamedReply | internal/ai/llm/openai.go:301-345 | The reply's content is all the text that came, and it calls the tools in order of first appearance with the first ID and name given and the object their arguments parse to, an empty one if they do not. |
| OpenAIStream.AbsorbFragment | internal/ai/llm/openai.go:308-321 | One fragment: first non-empty ID and name win, arguments are appended. |
| OpenAIStream.AbsorbFragments | internal/ai/llm/openai.go:308-322 | After each chunk every accumulator holds the first ID and name and all arguments of its index, however the calls are interleaved. |
| OpenAIStream.StreamChat | internal/ai/llm/openai.go:278-340 | Every error-free stream gives the decoder's reading of the assembled reply (with an object where arguments are unreadable), and prints its content; an error ends it. |
| AgentLoop.Agent.ExecuteToolCall | internal/ai/agent.go:238-262 | Unknown tool, declined, failed and successful calls each give their result, and a tool is recorded as run only in the last two. |
| AgentLoop.Agent.RunToolCalls | internal/ai/agent.go:206-214 | One result per call is appended, in order. |
| AgentLoop.Agent.RunOnce | internal/ai/agent.go:181-219 | The loop, on every exit path, leaves the history, requests and tool runs of the turn function. |
| AgentLoop.Agent.RunTurn | internal/ai/agent.go:112-124 | The same after the user's message. |
| AgentLoop.Agent.ClearHistory | internal/ai/agent.go:127-129 | The history is empty. |
| AgentLoop.Agent.SetHistory | internal/ai/agent.go:133-135 | The history is the restored one. |
| AgentLoop.ConversePaired | internal/ai/agent.go:181-219 | Whether a turn ends in an answer, a model error or the iteration cap, every assistant message is followed at once by exactly the results of its calls. |
| AgentLoop.ConverseBounds | internal/ai/agent.go:184-218 | History only grows; at most the configured number of model calls, exactly that many at the cap; a finished turn ends in an answer without calls. |
| AgentLoop.WindowSound | internal/ai/agent.go:264-274 | The window is the whole history up to 40 messages and otherwise its last 40, in which only leading results lack their calls. |
| AgentLoop.ConverseRequestsSound | internal/ai/agent.go:187-192 | Every request of every turn is such a window. |
| AgentLoop.RequestOnTheWire | internal/ai/llm/anthropic.go:134-195 | On Anthropic's wire such a request is fully paired but for one batch that may stand first. |
| AgentLoop.ConverseConfirmed | internal/ai/agent.go:243-253 | Over a whole turn no tool runs unless it is registered and, where it needs confirmation, the gate approved that call at that point. |
| AgentLoop.ConverseReports | internal/ai/agent.go:206-262 | Every call of every answer is followed, in its place, by what became of it - the tool's words with its error flag, the refusal, or that there is no such tool - and runs exactly if the registry and the gate let it. |
| AgentLoop.ConverseRecords | internal/ai/agent.go:184-203 | Every request is the window on the history as it then was, and what the model answers comes next in the history word for word; an error ends the turn with that error. |
| AgentLoop.SessionPaired | internal/ai/agent.go:112-135 | Pairing holds after any sequence of turns, clears and restores. |
| ConfirmGate.StepKeeps | internal/ai/confirm.go:58-77 | Every step of agent, listener, UI and cancellation keeps the protocol invariant. |
| ConfirmGate.AlwaysInv | internal/console/model.go:1744-1773 | So it holds in every reachable state. |
| ConfirmGate.OnlyApprovedToolsRun | internal/ai/agent.go:243-253 | In every interleaving a tool that needs confirmation runs only after y was pressed while that very call was shown. |
| ConfirmGate.ConfirmTrueMeansApproved | internal/ai/confirm.go:64-77 | Confirm returns true only for a request so approved. |
| ConfirmGate.ReplyNeverBlocks | internal/console/model.go:1744-1773 | Each reply channel gets at most one value, and the one about to be written is empty. |
| ConfirmGate.NoLostRequest | internal/console/model.go:448-457 | A request on the channel always has a listener unless a dialog or delivery is under way. |
| ConfirmGate.CancelUnblocks | internal/ai/confirm.go:58-77 | In a cancelled turn Confirm can return at once, with a refusal. |
| ConfirmGate.ListenersConserved | internal/console/model.go:448-457 | In every run: one listener at the start, one more per answering key and per response handled, one less per request taken. |
| ConfirmGate.StaysAnswerableIff | internal/console/model.go:1064-1067 | While the agent waits, every step keeps its request on the channel, on its way, on screen or answered, except showing another one over it. |
| ConfirmGate.AnswerableIffNotDisplaced | internal/console/model.go:1064-1067 | In every interleaving the request the agent waits for can still be answered if and only if no other was shown over it. |
| ConfirmGate.DisplacedExample | internal/console/model.go:1064-1067 | A run in which a stale request displaces the live one and the agent of an uncancelled turn waits for an answer that cannot come. |
| ConfirmGate.ApprovedCallRuns | internal/console/model.go:1753-1760 | The protocol does let an approved call run. |
| UserKeys.AnyMovesIff | internal/authutil/migrate.go:56-89 | The migration reports a change exactly when a session's key changes. |
| UserKeys.NeverOverwrites | internal/authutil/migrate.go:95-130 | No non-empty entry is overwritten or deleted. |
| UserKeys.WritesClaimed | internal/authutil/migrate.go:95-130 | A newly filled key is some session's e-mail address, or lacking that its old key, with its auth host, and holds a credential with no hostname or with that auth host. |
| UserKeys.MovedKeys | internal/authutil/migrate.go:17-86 | A session that has an auth host and a key gets a key ending in that host, made from its e-mail address if it has one; otherwise, and in every other respect, it stays. |
| UserKeys.MatchingCredentialCopied | internal/authutil/migrate.go:95-130 | A credential of the session's own host, or of none, is copied to the new key if that is vacant when its turn comes, and is still there, under both keys, at the end. |
| UserKeys.ForeignCredentialStays | internal/authutil/migrate.go:108-118 | A session whose old key holds another host's credential, or none, fills nothing. |
| UserKeys.SecondRunIdle | internal/authutil/migrate.go:56-89 | A second run changes neither config nor credentials, whatever the keyring has come to hold. |
| UserKeys.ResumeSafe | internal/authutil/migrate.go:38-89 | For every list of sessions: a migration interrupted after any session and run again from the stored config ends with the credentials of an uninterrupted one, unless some session is late, that is, precedes the first one that can fill the key it moves away from, with nobody making up for it. |
| UserKeys.ResumeUnsafe | internal/authutil/migrate.go:95-130 | In that case a keyring and an interruption point exist for which it does not. |
| UserKeys.ResumeSafeIff | internal/authutil/migrate.go:56-89 | For sessions that share a new key only with the same old key and auth host, interruption is harmless for every keyring and every point if and only if no session is late; whether one is can be read off the list of sessions. |
| UserKeys.FirstFillIsPossible | internal/authutil/migrate.go:56-130 | Whatever a keyring holds, the first session to fill a key is one that can, from a key filled at the start. |
| UserKeys.CanFillDoes | internal/authutil/migrate.go:56-130 | And one that can does, when only that key is filled. |
| UserKeys.LateSourceExample | internal/authutil/migrate.go:56-130 | Two sessions a config can hold, a keyring and an interruption point for which the second attempt ends differently. |
| UserKeys.Keyring.Get | internal/authutil/migrate.go:96-103 | Found, not found or failed; nothing changes. |
| UserKeys.Keyring.Set | internal/authutil/migrate.go:121-124 | One entry written, or nothing. |
| UserKeys.AddKnownUserKey | internal/authutil/known_users.go:12-46 | The list grows by the key exactly when it was missing, stays free of duplicates, and an unreadable list is an error that changes nothing; credentials are untouched. |
| UserKeys.RehomeCredential | internal/authutil/migrate.go:95-130 | Whatever access fails, the credentials are either untouched or copied as specified, and the known users only grow. |
| UserKeys.MigrateSession | internal/authutil/migrate.go:58-86 | One loop body, with its skips. |
| UserKeys.MigrateUserKeys | internal/authutil/migrate.go:56-89 | Wherever it stops, the credentials are those of a whole number of served sessions; only a complete run yields a config to save. |
| TokenSources.PersistingTokenSource.Token | internal/authutil/credentials.go:139-203 | Memory, keyring entry and result after a call, on each of its eight exits. |
| TokenSources.UnexpiredIsReturned | internal/authutil/credentials.go:143-146 | An unexpired token in memory is returned whatever the keyring holds and the endpoint would say. |
| TokenSources.ExpiredIsReplaced | internal/authutil/credentials.go:148-203 | An expired one never is: what is returned is the stored one, unexpired, or the one just granted for the stored credentials, or an error; without an error the keyring holds what the source does. |
| TokenSources.LogoutSticks | internal/authutil/credentials.go:139-203 | With each call one atomic step: after a logout no sequence of calls by any number of sources puts the entry back before the next login. |
| TokenSources.TokenAfterLogout | internal/authutil/credentials.go:139-156 | With atomic calls: a source then returns exactly its in-memory token while valid, and none afterwards. |
| TokenSources.LoginTakesOver | internal/authutil/credentials.go:139-203 | With atomic calls: from the last login on, logouts included, whatever the keyring holds is that login's own credentials or stored ones descending from them by a token granted for exactly those, and every source holds its value from before or such a descendant; without a logout the entry is there. |
| TokenSources.NextCallAdopts | internal/authutil/credentials.go:150-203 | With atomic calls: a source whose token has expired holds after its next call exactly the stored credentials, or those with the new token granted for them, and both descend from the last login. |
| TokenRaces.HalvesMakeCall | internal/authutil/credentials.go:139-203 | Reading and writing as two steps with nothing in between are the atomic call. |
| TokenRaces.LogoutSticksIff | internal/authutil/credentials.go:150-200 | With other processes free to come in between: nothing is put back after a logout before the next login, whatever happens, if and only if no refresh was in flight at the logout. |
| TokenRaces.TokenAfterQuietLogout | internal/authutil/credentials.go:139-160 | Then a call returns the token the source had while that is valid, and none otherwise. |
| TokenRaces.PutBackExample | internal/authutil/credentials.go:150-200 | A run in which a logout falls between read and write and the deleted entry comes back. |
| TokenRaces.QuietLoginTakesOver | internal/authutil/credentials.go:150-200 | With no older refresh in flight at a login, entry, refreshes in flight and sources hold only what descends from it, or what the sources held. |
| TokenRaces.LoginTakesOverIff | internal/authutil/credentials.go:150-200 | The keyring holds only descendants of the last login, whatever happens, if and only if no refresh in flight at the login was for anything else. |
| TokenRaces.OlderOverwrites | internal/authutil/credentials.go:187-200 | An older refresh in flight overwrites the new login. |
| TokenRaces.NextReadAdopts | internal/authutil/credentials.go:150-187 | A source with an expired token adopts the stored credentials when it reads them, and what it will write is those with the token granted for them. |
| TokenSources.CooldownTokenSource.Token | internal/apiproxy/proxy.go:177-199 | One call: cached error, remembered failure or success. |
| TokenSources.UnaskedGetsCachedError | internal/apiproxy/proxy.go:177-199 | A call that is not passed on returns the error of the last call that was, within its cooldown. |
| TokenSources.StillCooling | internal/apiproxy/proxy.go:181-188 | Within the cooldown of a failure that failure is what is remembered. |
| TokenSources.NoAskWithinCooldown | internal/apiproxy/proxy.go:181-188 | The wrapped source is never called within the cooldown after any failure. |
| TokenSources.FailuresSpread | internal/apiproxy/proxy.go:161-199 | n failures take at least (n-1) cooldowns. |
| DevicePoll.PollUntil | internal/authutil/login.go:614-648 | Every poll is sent exactly when it falls due, that is after the answer, the interval then in force and any oversleep; none is sent after the deadline; only answers that ask for more and no cancellation precede it; each ending has its cause. |
| DevicePoll.PollDeviceToken | internal/authutil/login.go:608-649 | The same with Go's 64-bit durations for interval and expiry and the 5 s default. |
| DevicePoll.Judge | internal/authutil/login.go:628-647 | Each answer and the cancellation check end the polling or not; only slow_down changes the interval, with 64-bit wrap-around. |
| DevicePoll.IntervalExactIff | internal/authutil/login.go:634-635 | The interval is the start plus 5 s per slow_down if and only if that fits in 64 bits. |
| DevicePoll.WrapExample | internal/authutil/login.go:609-647 | A server interval for which one slow_down makes the next poll go out at the same instant. |
| DevicePoll.NeverWraps | internal/authutil/login.go:609-648 | If start interval and lifetime are steady - one slow_down fits into 64 bits, and a second does too unless the lifetime ends before the wait after the first - nothing wraps in any run, whatever the server answers. |
| DevicePoll.NeverWrapsIff | internal/authutil/login.go:609-648 | The interval is the start plus 5 s per slow_down throughout every run if and only if start interval and lifetime are steady, which is known before the first poll. |
| DevicePoll.SpanAtLeast | internal/authutil/login.go:614-648 | n polls span at least (n-1) start intervals, if the intervals waited out did not wrap. |
| DevicePoll.SpanAllSlow | internal/authutil/login.go:634-647 | If every answer waited on was slow_down they span (n-1)I + 5n(n-1)/2 seconds. |
| DevicePoll.PollsBounded | internal/authutil/login.go:614-648 | Then (n-1)I <= E, and (n-1)I + 5n(n-1)/2 <= E when every answer was slow_down. |
| DevicePoll.PollsBoundedIff | internal/authutil/login.go:609-648 | (n-1)I <= E holds of every run if and only if start interval and lifetime are steady. |
| DevicePoll.UnboundedPolls | internal/authutil/login.go:609-648 | If they are not, a server that says slow_down once or twice and then keeps the client waiting is polled any number of times within the lifetime. |
| DevicePoll.PollingTerminates | internal/authutil/login.go:614-648 | If they are, the polling ends by itself before n answers are used up, for any n with (n-1)I > E, whatever they are. |
| DevicePoll.PollingTerminatesIff | internal/authutil/login.go:609-648 | And it does so in every run if and only if they are. |
| DevicePoll.ServerLimitsKept | internal/authutil/login.go:608-648 | In the server's seconds, for every interval and expiry whose conversion is exact: no poll after the expiry, and n polls satisfy (n-1) * interval <= expires_in. |
| DevicePoll.DurationExact | internal/authutil/login.go:609-617 | Where the 64-bit conversion is exact, start interval, default and deadline are as the RFC has them, and without an expiry there is no deadline. |
| HostPattern.JoinOfLabels | internal/pluginstore/managed.go:193-204 | Splitting a host into labels loses nothing. |
| HostPattern.LabelsOfDotted | internal/pluginstore/managed.go:193-204 | Joining two names with a dot concatenates their labels. |
| HostPattern.DottedSuffixIff | internal/pluginstore/managed.go:193-204 | The textual suffix test holds if and only if the labels are a proper tail. |
| HostPattern.HostMatchesIff | internal/pluginstore/managed.go:190-204 | A plain pattern matches if and only if its labels end the host's; "*.q" if and only if q's labels properly end them or the texts are equal. |
| HostPattern.ScopeMatchesIff | internal/pluginstore/managed.go:159-181 | The text test on a GitHub scope is its parsed meaning: everybody, one owner, one repository, or nobody. |
| HostPattern.LowerIffSameLetters | internal/pluginstore/managed.go:190-204 | Lower-casing identifies exactly the texts that differ in ASCII case only. |
| HostPattern.TrimSpaceIs | internal/pluginstore/managed.go:124-134 | Trimming takes off all white space at both ends and nothing else. |
| CatalogSource.ClassifiedSource | internal/pluginstore/catalog.go:439-479 | Whatever is classified as remote has a host, and owner and repository are single path segments. |
| CatalogSource.ManifestIsGitHub | internal/pluginstore/catalog.go:453-479 | The raw manifest URL of a repository is a GitHub source with that owner and repository. |
| CatalogSource.HostedFormIsGitHub | internal/pluginstore/catalog.go:374-381 | So is github.com/owner/repo, for every owner and repository. |
| CatalogSource.ShorthandIsGitHubIff | internal/pluginstore/catalog.go:369-381 | owner/repo is if and only if the owner is not a dot segment and not github.com. |
| CatalogSource.PlainHttpRefused | internal/pluginstore/catalog.go:362-367 | A plain http URL is refused whatever follows, and is not remote. |
| CatalogSource.UrlClassified | internal/pluginstore/catalog.go:441-479 | An https URL is a GitHub repository if its host is one of the two in any case and its path starts with owner and repository, otherwise its host, and nothing remote without one. |
| CatalogSource.PathIsLocal | internal/pluginstore/catalog.go:369-431 | What starts like a path is local if it can be accessed and refused otherwise, never remote. |
| CatalogSource.PlainWordIsLocal | internal/pluginstore/catalog.go:383-388 | So is a text without a slash. |
| AllowList.IsAllowed | internal/pluginstore/managed.go:124-157 | From the source text on: an empty list allows all; otherwise some entry grants it, and each kind of entry has authority over one kind of source only, so hosts and bare names never decide GitHub sources. |
| AllowList.LocalPermittedIff | internal/pluginstore/managed.go:116-157 | A source that is not remote is permitted if and only if there is no list or its catalog's name is on it and has no dot. |
| AllowList.RemotePermittedIff | internal/pluginstore/managed.go:113-157 | A remote source that is not GitHub is permitted if and only if there is no list or some entry with a dot that is no GitHub scope is, up to case, its host, a parent domain, or a parent domain behind "*."; the catalog's name never matters. |
| AllowList.GitHubFormsAlike | internal/pluginstore/managed.go:107-115 | Every allow-list decides the three ways of naming a repository alike, by its GitHub scopes alone. |
| Catalogs.LoadedRegistry | internal/pluginstore/catalog.go:242-311 | For every file and managed configuration: distinct names, official first and only once under either name, official and managed never disabled, the rest disabled exactly when not permitted. |
| Catalogs.ManagedWins | internal/pluginstore/catalog.go:256-279 | A seeded name belongs to the first managed index that seeds it, with its source, description and owner, managed and enabled, whatever the user's file holds. |
| Catalogs.UserEntryFound | internal/pluginstore/catalog.go:262-311 | Any other name but the official ones belongs to the first entry of the file that has it, unchanged but for being disabled if its source is not permitted. |
| Catalogs.OfficialBadgeOnceIff | internal/pluginstore/catalog.go:99-110 | Only the first catalog is of the kind that gives the official badge if and only if no entry of that kind in the user's file is under a name of its own. |
| Catalogs.SecondBadgeExample | internal/pluginstore/catalog.go:99-110 | A file entry that claims that kind is loaded with the badge, and enabled. |
| Catalogs.SavedIsOwn | internal/pluginstore/catalog.go:315-335 | Saving a loaded registry writes exactly the user's own catalogs, without load-time marks. |
| Catalogs.LoadSaveLoad | internal/pluginstore/catalog.go:242-335 | Under a fixed managed configuration load-save-load is load. |
| Catalogs.AddSucceedsIff | internal/cmd/plugin/index.go:93-150 | A catalog is added if and only if its name is valid and new, its source usable and permitted, and it was vouched for with --yes or a typed y or yes. |
| Catalogs.AddRefuses | internal/cmd/plugin/index.go:93-150 | No answer, an empty line and n are refusals; so are plain http sources and names that are reserved, start with a hyphen or contain a dot or slash. |
| Catalogs.RemoveSucceedsIff | internal/cmd/plugin/index.go:279-308 | A catalog is removed if and only if it is there and neither official nor managed. |
| Catalogs.AddThenLoad | internal/cmd/plugin/index.go:95-169 | After a successful add the next load is the old registry with a catalog of that name, source, time and fetched header, enabled, at its end. |
| Catalogs.RemoveThenLoad | internal/cmd/plugin/index.go:279-308 | After a successful remove the next load is the old registry without that name. |
| Catalogs.AddRemoveCancel | internal/cmd/plugin/index.go:95-308 | Adding and removing again restores the registry. |
| Catalogs.SeededCatalogs | internal/pluginstore/managed.go:75-91 | The seedable managed entries in order; invalid ones are skipped. |
| Catalogs.Registry.ApplyAllowList | internal/pluginstore/catalog.go:294-311 | In place: exactly the non-exempt catalogs that are no longer permitted are marked. |
| Catalogs.Registry.Find | internal/pluginstore/catalog.go:132-140 | The first catalog with the canonical name. |
| Catalogs.Registry.SaveRegistry | internal/pluginstore/catalog.go:315-335 | Own catalogs only, marks cleared. |
| Catalogs.Registry.Drop | internal/cmd/plugin/index.go:299-305 | The in-place filter by name. |
| Catalogs.Registry.UpdateHeader | internal/cmd/plugin/index.go:449-465 | The first entry of the name takes over the non-empty parts of the fetched header and the time. |
| Catalogs.Register | internal/cmd/plugin/index.go:152-169 | What is saved in the end is the registry with the new catalog, its header included when one was fetched. |
| Catalogs.LoadRegistry | internal/pluginstore/catalog.go:242-283 | Official, then managed, then persisted, first name wins, then the allow-list. |
| Catalogs.IndexAdd | internal/cmd/plugin/index.go:93-173 | What the file holds after the command, header write-back included, or that it refuses: bad name, malformed source, name taken, not permitted, or not trusted. |
| Catalogs.IndexRemove | internal/cmd/plugin/index.go:279-308 | What the file holds after the command, or that it refuses. |

## Left out

- UserKeys.ResumeSafeIff: the converse is proved for sessions that share a new key only with the same old key and auth host; that late sessions are the only danger is proved for all.
- TokenSources.LogoutSticks: takes each call as one atomic step; `TokenRaces.LogoutSticksIff` does without that.
- TokenSources.TokenAfterLogout: takes each call as one atomic step, and is about the interactive source only; the service-account source does not read the keyring again and is not modelled. The safety margin of the oauth2 library counts as part of the expiry.
- TokenSources.LoginTakesOver: takes each call as one atomic step; `TokenRaces.LoginTakesOverIff` does without that.
- TokenSources.NextCallAdopts: takes each call as one atomic step; `TokenRaces.NextReadAdopts` does without that.
- AllowList.IsAllowed: URL parsing and the file system are arbitrary, except that the raw manifest URL of a repository is taken apart as written; absolute paths are those of Unix; case folding and trimming are ASCII only.
- HTTP, OIDC, browser, keyring backend, YAML and JSON encoding, file writes: their results are parameters, saved state is the value itself, JSON parsing is an arbitrary function.
- Parsing of server-sent events: the stream folds start from parsed events.
- Slices filtered through `[:0]`, and the pointers the lookups return into the config: lists are sequence fields reassigned by the methods and lookups return values, so aliasing of backing arrays is not captured.
- The confirmation protocol works on values, one transition per channel operation or handler, because its point is the interleaving; scheduling inside a handler is atomic.
- Replacing the chat pane while a dialog is open (loading or deleting a conversation) and restoring history while a turn runs.
- `toOpenAIMessages` and Gemini: the first drops text beside tool calls, the second has no stable call IDs, so there is no round trip to prove.
- StdinGate, AutoDeclineGate, spinner, tool-event channel, Go's escaping of unusual characters in the unknown-tool message, response text shown while streaming, and the default of 20 iterations.
- Display helpers (`DisplayRef`, `ContextDescription`, `FormatWithID`), `FindContextOwner`, `RemoveSession`, `SessionByUserKey`.
- Two processes changing the config at once, and the console saving a config it loaded earlier: every change is taken to start from the stored config.
- Settings of the config that no command here reads, such as automatic updates.
- Deleting keyring entries on logout appears as a step of the token-source runs, not in the config commands.
- Failing writes of the catalog file, `index update` and catalog downloads: what was fetched is an input of `index add`.
- kubectl and Cobra wiring, plugin download, extraction and execution, hashing, self-update and the fixed three-try retries.
