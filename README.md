# carbon-pipeline, modelled in Dafny

carbon-pipeline is a carbon-credit marketplace with three parts:

- A React dashboard (`carbon-trust-ui`). A buyer logs in, is routed by role, and can browse projects. The buyer can send an ESG profile to a remote matcher and drill into one project's satellite history and SDG evidence. The dashboard also computes a footprint, builds a portfolio, and lists and retires the credit tokens the buyer's wallet owns.
- `main.py`, a daily verification run. It reads every project, dispatches on the project type, and stores one vegetation-index (NDVI) record per reforestation project for which the satellite lookup gave a value.
- `backfill.py`, a historical backfill. For each reforestation project the query returns, it queries the last 24 calendar months one by one. It inserts the months that gave a value and flags the project once the insert returned rows. The query asks for a flag `is false`, which in SQL does not select a row whose flag is NULL, although the comment at `backfill.py:24` says "(or null)". The query is a parameter here, so the model covers whatever rows it returns.

The model keeps the decisions these files own and treats everything else as input:

- routing and the role redirect;
- the auth state machine;
- the login and demo-login flows;
- the matching form;
- request bodies;
- the card and detail-page derivations;
- the calculator's state machine;
- the token scan;
- the pipeline's dispatch and record collection;
- the backfill's month windows.

The following are parameters of the operations that use them:

- the database;
- the edge functions (remote serverless functions the dashboard calls);
- the satellite service;
- the wallet and token contract;
- the clock.

They appear as values: `Result`, `Settled`, `Option`, or functions such as `ownerOf`, `ndvi` and `parse`.

Stateful React components are classes whose fields are the component's `useState` cells. An `async` handler is split at its `await` points:

- `Begin…` methods hold the state change before the await.
- `Complete…` methods hold the state change after the reply.
- A composed `Handle…` method runs one whole click.

Pure helpers and the two Python scripts' arithmetic are functions, proved against lemmas. The Python loops are methods with loop invariants, and each is proved equal to a recursive function that states its result.

Three behaviours of the code are easy to misread, and the model keeps them as written:

- The `/admin` route checks only that a session exists; no role is checked (`App.tsx:55-58`).
- The matching payload carries numeric SDG ids under `prioritySDG_IDs`, although `types/project.ts` declares a string list named `prioritySDGs`.
- The unrouted `pages/Dashboard.tsx` sends yet another default (`requiredCredits`, `prioritySDGs`). `UnroutedDashboard.DefaultBodiesDiffer` proves that its default payload differs from the routed dashboard's.

## Model

| member | source | states |
|---|---|---|
| Routing.HomeRedirect | carbon-trust-ui/carbon-trust-dash-main/src/App.tsx:17-26 | the target is `/admin` exactly when the profile's role is Platform Admin or Aggregator, and `/dashboard` exactly when there is no profile or the role is Buyer |
| Routing.App | carbon-trust-ui/carbon-trust-dash-main/src/App.tsx:28-76 | shows the loading screen exactly while auth is loading. `/login` always renders the login page. An unknown path redirects to `/`. Without a session every other route redirects to `/login`. A page other than login renders only with a session. `/` with a session goes to HomeRedirect. `/admin` needs a session and nothing else. Any other matched route with a session renders its protected page |
| Routing.ProtectedPage | carbon-trust-ui/carbon-trust-dash-main/src/App.tsx:51-70 | each protected route renders its own page: `/dashboard` the buyer dashboard, `/admin` the admin panel, `/project/{id}` the detail page of that id |
| Routing.ProjectPathSelectsProject | carbon-trust-ui/carbon-trust-dash-main/src/App.tsx:59-62 | `/project/{id}` selects the project detail route with that same id, for every non-empty id without a slash |
| Routing.NavigationSettles | carbon-trust-ui/carbon-trust-dash-main/src/App.tsx:45-72 | following redirects from any path reaches a rendered page within three steps. Without a session that page is the login page. With a session, the login page is reached only by asking for `/login` |
| Routing.HomeLandsByRole | carbon-trust-ui/carbon-trust-dash-main/src/App.tsx:17-58 | a signed-in Buyer who opens `/` ends on the buyer dashboard; a Platform Admin or Aggregator ends on the admin panel |
| Routing.AdminPanelOpenToEverySession | carbon-trust-ui/carbon-trust-dash-main/src/App.tsx:55-58 | every session, whatever its role or with no profile at all, renders the admin panel at `/admin` |
| Auth.UseAuth | carbon-trust-ui/carbon-trust-dash-main/src/context/AuthContext.tsx:94-100 | errors exactly outside a provider, with the source's message; otherwise returns the provider's value |
| Auth.AuthProvider.constructor | carbon-trust-ui/carbon-trust-dash-main/src/context/AuthContext.tsx:31-34 | starts loading, with no session, user or profile |
| Auth.AuthProvider.RendersChildren | carbon-trust-ui/carbon-trust-dash-main/src/context/AuthContext.tsx:83-90 | the children render exactly when loading is over |
| Auth.AuthProvider.BeginFetch | carbon-trust-ui/carbon-trust-dash-main/src/context/AuthContext.tsx:37-38 | sets loading and changes nothing else |
| Auth.AuthProvider.SessionArrived | carbon-trust-ui/carbon-trust-dash-main/src/context/AuthContext.tsx:39-55 | a session error or a missing session leaves user and session as they were. A session sets both, and a profile lookup is requested exactly then |
| Auth.AuthProvider.ProfileArrived | carbon-trust-ui/carbon-trust-dash-main/src/context/AuthContext.tsx:57-63 | a successful lookup replaces the profile and an error keeps the old one; loading ends either way |
| Auth.AuthProvider.FetchData | carbon-trust-ui/carbon-trust-dash-main/src/context/AuthContext.tsx:37-64 | loading ends. A session error or no session changes nothing else. A session sets user and session. The profile changes only on a successful lookup and is never cleared |
| Auth.AuthProvider.OnAuthStateChange | carbon-trust-ui/carbon-trust-dash-main/src/context/AuthContext.tsx:69-76 | the new session and its user, or none, are stored before the refetch; the refetch then decides as FetchData does |
| Auth.SignInThenOut | carbon-trust-ui/carbon-trust-dash-main/src/context/AuthContext.tsx:69-76 | after signing in and then out, session and user are gone but the profile of the signed-out user remains |
| Login.DemoAccountsConsistent | carbon-trust-ui/carbon-trust-dash-main/src/pages/Index.tsx:42-88 | the two demo roles use distinct emails and distinct profile roles. The page each navigates to is the page HomeRedirect picks for the profile role it upserts |
| Login.MountRedirect | carbon-trust-ui/carbon-trust-dash-main/src/pages/Index.tsx:13-19 | navigates to `/dashboard` exactly when a session exists |
| Login.LoginPage.constructor | carbon-trust-ui/carbon-trust-dash-main/src/pages/Index.tsx:7-10 | not loading, and email and password empty |
| Login.LoginPage.SetEmail | carbon-trust-ui/carbon-trust-dash-main/src/pages/Index.tsx:115 | the typed text becomes the e-mail field |
| Login.LoginPage.SetPassword | carbon-trust-ui/carbon-trust-dash-main/src/pages/Index.tsx:125 | the typed text becomes the password field |
| Login.LoginPage.HandleLogin | carbon-trust-ui/carbon-trust-dash-main/src/pages/Index.tsx:21-31 | the sign-in is made with the e-mail and password fields. An error is alerted with its message. A session navigates to `/`, and nothing else navigates. Loading ends, except when the call throws, which leaves it set |
| Login.LoginPage.HandleSignUp | carbon-trust-ui/carbon-trust-dash-main/src/pages/Index.tsx:33-40 | the sign-up is made with the e-mail and password fields; it alerts the error, or the confirmation prompt; never navigates; loading ends unless the call throws |
| Login.LoginPage.BeginDemoLogin | carbon-trust-ui/carbon-trust-dash-main/src/pages/Index.tsx:42-46 | marks the demo buttons busy and leaves the form alone |
| Login.LoginPage.HandleDemoLogin | carbon-trust-ui/carbon-trust-dash-main/src/pages/Index.tsx:42-96 | the first call is a sign-in with the demo credentials. A sign-up is issued exactly when the sign-in fails. A failed sign-up ends the flow without an upsert or navigation. When the sign-in returns a user, the calls are that sign-in and one upsert of the role's profile for that user. Navigation goes only to the role's dashboard, and only when the last call was an upsert that settled; an upsert error does not block it. After a failed sign-in and a successful sign-up, the calls are sign-in, sign-up and, when the sign-up returns a user, one upsert for that user; navigation happens exactly when that upsert settled. A sign-in that throws or returns neither error nor user makes no further call and does not navigate; a sign-up that throws stops after two calls. The busy flag always ends clear |
| MatchingEngine.SliderStopsExact | carbon-trust-ui/carbon-trust-dash-main/src/components/MatchingEngine.tsx:148-155 | the slider's 100 stops are exactly the multiples of 1000 from 1000 to 100000 |
| MatchingEngine.Without | carbon-trust-ui/carbon-trust-dash-main/src/components/MatchingEngine.tsx:47 | unchecking removes every copy of the id and keeps every other id |
| MatchingEngine.WithoutAppend | carbon-trust-ui/carbon-trust-dash-main/src/components/MatchingEngine.tsx:46-47 | removing an id distributes over concatenation |
| MatchingEngine.WithoutAbsent | carbon-trust-ui/carbon-trust-dash-main/src/components/MatchingEngine.tsx:47 | removing an id that is not present leaves the list unchanged |
| MatchingEngine.WithoutKeepsNoDuplicates | carbon-trust-ui/carbon-trust-dash-main/src/components/MatchingEngine.tsx:47 | removing an id keeps a duplicate-free list duplicate-free |
| MatchingEngine.CheckUncheckRestores | carbon-trust-ui/carbon-trust-dash-main/src/components/MatchingEngine.tsx:42-49 | checking an absent id and then unchecking it gives back the original list |
| MatchingEngine.UncheckCheckSameSet | carbon-trust-ui/carbon-trust-dash-main/src/components/MatchingEngine.tsx:42-49 | unchecking a present id and then checking it gives back the same set of ids, now with the id last |
| MatchingEngine.ClickSdg | carbon-trust-ui/carbon-trust-dash-main/src/components/MatchingEngine.tsx:99-104 | a click is the toggle the checkbox asks for, and it flips the clicked id's membership. It keeps the list duplicate-free and keeps it within the five offered SDGs |
| MatchingEngine.DoubleClickRestores | carbon-trust-ui/carbon-trust-dash-main/src/components/MatchingEngine.tsx:99-104 | two clicks on an unchecked box give back the original list |
| MatchingEngine.MatchingForm.constructor | carbon-trust-ui/carbon-trust-dash-main/src/components/MatchingEngine.tsx:34-39 | Balanced, no SDGs, region Any, 5000 credits |
| MatchingEngine.MatchingForm.HandleSdgChange | carbon-trust-ui/carbon-trust-dash-main/src/components/MatchingEngine.tsx:42-49 | checking appends the id and unchecking removes it; the other fields are untouched |
| MatchingEngine.MatchingForm.ClickSdgCheckbox | carbon-trust-ui/carbon-trust-dash-main/src/components/MatchingEngine.tsx:99-104 | the checkbox passes the negation of its shown state. The form's invariant holds: no duplicates, only offered ids, credits on the slider, a region from the list |
| MatchingEngine.MatchingForm.SetRiskAppetite | carbon-trust-ui/carbon-trust-dash-main/src/components/MatchingEngine.tsx:74-78 | replaces only the risk appetite |
| MatchingEngine.MatchingForm.SetPreferredRegion | carbon-trust-ui/carbon-trust-dash-main/src/components/MatchingEngine.tsx:124-128 | replaces only the region |
| MatchingEngine.MatchingForm.SetMinimumCredits | carbon-trust-ui/carbon-trust-dash-main/src/components/MatchingEngine.tsx:148-155 | replaces only the credits, with a stop on the slider |
| MatchingEngine.MatchingForm.HandleSearch | carbon-trust-ui/carbon-trust-dash-main/src/components/MatchingEngine.tsx:51-53 | sends nothing while loading, because the button is disabled; otherwise sends exactly the current profile |
| Domain.ProfileJson | carbon-trust-ui/carbon-trust-dash-main/src/pages/BuyerDashboard.tsx:25-32 | an ESG profile serialises to an object with exactly the four keys the matcher reads, each holding its field |
| Domain.RiskAppetiteNameInjective | carbon-trust-ui/carbon-trust-dash-main/src/components/MatchingEngine.tsx:74-86 | distinct risk appetites have distinct wire names |
| Domain.ProfileJsonInjective | carbon-trust-ui/carbon-trust-dash-main/src/pages/BuyerDashboard.tsx:25-32 | distinct profiles give distinct payloads |
| BuyerDashboard.DefaultPreferences | carbon-trust-ui/carbon-trust-dash-main/src/pages/BuyerDashboard.tsx:26-31 | the default has exactly the keys riskAppetite, preferredRegion, minimumCredits and prioritySDG_IDs |
| BuyerDashboard.DefaultIsZeroCreditProfile | carbon-trust-ui/carbon-trust-dash-main/src/pages/BuyerDashboard.tsx:26-31 | the default is what a Balanced, no-SDG, Any-region, 0-credit profile serialises to |
| BuyerDashboard.RequestBody | carbon-trust-ui/carbon-trust-dash-main/src/pages/BuyerDashboard.tsx:25-32 | a single `preferences` key, holding the given profile or the default |
| BuyerDashboard.RequestBodyInjective | carbon-trust-ui/carbon-trust-dash-main/src/pages/BuyerDashboard.tsx:25-32 | distinct profiles give distinct request bodies |
| BuyerDashboard.ProjectClickTarget | carbon-trust-ui/carbon-trust-dash-main/src/pages/BuyerDashboard.tsx:53-55 | the click target is the route that selects the clicked project |
| BuyerDashboard.Dashboard.constructor | carbon-trust-ui/carbon-trust-dash-main/src/pages/BuyerDashboard.tsx:15-16 | no projects, loading |
| BuyerDashboard.Dashboard.BeginFetch | carbon-trust-ui/carbon-trust-dash-main/src/pages/BuyerDashboard.tsx:21-32 | loading, with the previous results cleared |
| BuyerDashboard.Dashboard.CompleteFetch | carbon-trust-ui/carbon-trust-dash-main/src/pages/BuyerDashboard.tsx:39-45 | an error leaves no projects and returns the alert `Error fetching projects: ` followed by the error's message; data replaces the list with no alert; loading ends |
| BuyerDashboard.Dashboard.FetchProjects | carbon-trust-ui/carbon-trust-dash-main/src/pages/BuyerDashboard.tsx:21-46 | one whole fetch: the body sent, then the projects are the reply's data or empty, an alert exactly on error carrying its message, and loading has ended |
| BuyerDashboard.Dashboard.Mount | carbon-trust-ui/carbon-trust-dash-main/src/pages/BuyerDashboard.tsx:49-51 | the first fetch sends the default body; it ends with the reply's projects, and an alert exactly on error |
| UnroutedDashboard.DefaultPreferences | carbon-trust-ui/carbon-trust-dash-main/src/pages/Dashboard.tsx:20-25 | the default has exactly the keys riskAppetite, preferredRegion, requiredCredits and prioritySDGs, holding `Balanced`, `Any`, 0 and the empty list |
| UnroutedDashboard.RequestBody | carbon-trust-ui/carbon-trust-dash-main/src/pages/Dashboard.tsx:18-26 | a single `preferences` key, holding the given profile or this page's default |
| UnroutedDashboard.DefaultBodiesDiffer | carbon-trust-ui/carbon-trust-dash-main/src/pages/Dashboard.tsx:20-25 | this page's initial request differs from the routed dashboard's |
| UnroutedDashboard.Dashboard.constructor | carbon-trust-ui/carbon-trust-dash-main/src/pages/Dashboard.tsx:12-13 | no projects, loading |
| UnroutedDashboard.Dashboard.BeginFetch | carbon-trust-ui/carbon-trust-dash-main/src/pages/Dashboard.tsx:15-26 | loading, with the previous projects kept and not cleared |
| UnroutedDashboard.Dashboard.CompleteFetch | carbon-trust-ui/carbon-trust-dash-main/src/pages/Dashboard.tsx:35-41 | an error empties the list and returns the same `Error fetching projects: ` alert with the error's message; data replaces the list with no alert; loading ends |
| UnroutedDashboard.Dashboard.FetchProjects | carbon-trust-ui/carbon-trust-dash-main/src/pages/Dashboard.tsx:15-42 | one whole fetch: the body sent, the reply's projects or none, an alert exactly on error carrying its message, and loading has ended |
| UnroutedDashboard.Dashboard.Mount | carbon-trust-ui/carbon-trust-dash-main/src/pages/Dashboard.tsx:45-47 | the first fetch sends this page's default body; it ends with the reply's projects, and an alert exactly on error |
| UnroutedDashboard.ProjectClickTarget | carbon-trust-ui/carbon-trust-dash-main/src/pages/Dashboard.tsx:49-51 | the click target is `/project/{id}`, and for a non-empty id without a slash it is matched as the detail route of that same id |
| ProjectCard.BandOf | carbon-trust-ui/carbon-trust-dash-main/src/components/ProjectCard.tsx:11-15 | low exactly at 30 or less, medium exactly above 30 up to 60, high exactly above 60 |
| ProjectCard.BandMonotone | carbon-trust-ui/carbon-trust-dash-main/src/components/ProjectCard.tsx:11-21 | a higher score never gets a lower band |
| ProjectCard.ColorAndBackgroundAgree | carbon-trust-ui/carbon-trust-dash-main/src/components/ProjectCard.tsx:11-21 | the text colour and the background of a score always name the same band |
| ProjectCard.FirstMatch | carbon-trust-ui/carbon-trust-dash-main/src/components/ProjectCard.tsx:23-32 | returns the icon of the first rule whose phrase the label contains, or the fallback when no phrase occurs |
| ProjectCard.SdgIcon | carbon-trust-ui/carbon-trust-dash-main/src/components/ProjectCard.tsx:23-32 | the icon of the first matching phrase, in source order, or the leaf when none matches |
| ProjectCard.BadgeLabel | carbon-trust-ui/carbon-trust-dash-main/src/components/ProjectCard.tsx:90 | the text before the first colon, or the whole label when there is none; the result contains no colon and is a prefix of the label |
| ProjectCard.TopSdgs | carbon-trust-ui/carbon-trust-dash-main/src/components/ProjectCard.tsx:35 | the first min(3, n) SDGs, in order |
| ProjectCard.Badges | carbon-trust-ui/carbon-trust-dash-main/src/components/ProjectCard.tsx:81-91 | one badge per top SDG, in order, each with that SDG's icon and label |
| ProjectDetail.DescriptionOrDefault | carbon-trust-ui/carbon-trust-dash-main/src/pages/ProjectDetail.tsx:97 | a non-empty description is kept; a null or empty one becomes the placeholder |
| ProjectDetail.EvidenceKey | carbon-trust-ui/carbon-trust-dash-main/src/pages/ProjectDetail.tsx:110 | every evidence key starts with `SDG ` |
| ProjectDetail.EvidenceKeyInjective | carbon-trust-ui/carbon-trust-dash-main/src/pages/ProjectDetail.tsx:110 | two goals give the same key exactly when they are the same goal, for goal names without a colon |
| ProjectDetail.WriteAllKeys | carbon-trust-ui/carbon-trust-dash-main/src/pages/ProjectDetail.tsx:109-113 | the reduce's object has a key exactly when some entry wrote it |
| ProjectDetail.WriteAllLast | carbon-trust-ui/carbon-trust-dash-main/src/pages/ProjectDetail.tsx:109-113 | a key holds the value of the last entry that wrote it |
| ProjectDetail.EvidenceEntries | carbon-trust-ui/carbon-trust-dash-main/src/pages/ProjectDetail.tsx:109-113 | one key and value per row, in row order |
| ProjectDetail.EvidenceMap | carbon-trust-ui/carbon-trust-dash-main/src/pages/ProjectDetail.tsx:109-113 | a key is present exactly when some row's goal produces it, and it holds the evidence text of the last such row |
| ProjectDetail.NdviSeries | carbon-trust-ui/carbon-trust-dash-main/src/pages/ProjectDetail.tsx:102-108 | one chart point per history row, in the same order, with that row's date and value |
| ProjectDetail.LatestNdvi | carbon-trust-ui/carbon-trust-dash-main/src/pages/ProjectDetail.tsx:98-101 | the last row's value, or 0 for an empty history |
| ProjectDetail.Build | carbon-trust-ui/carbon-trust-dash-main/src/pages/ProjectDetail.tsx:89-114 | fails (the code throws) exactly when a history value is null or an SDG row lacks its goal. Otherwise every field comes from the rows as the transformation states, and a failed side query counts as an empty list |
| ProjectDetail.EmptyHistoryIsNotAnError | carbon-trust-ui/carbon-trust-dash-main/src/pages/ProjectDetail.tsx:98-108 | a missing or empty history still builds the project, with latest value 0 and an empty series |
| ProjectDetail.RiskVariant | carbon-trust-ui/carbon-trust-dash-main/src/pages/ProjectDetail.tsx:154-158 | success exactly at 30 or less, warning exactly above 30 up to 60, danger exactly above 60 |
| ProjectDetail.VariantMatchesCardBand | carbon-trust-ui/carbon-trust-dash-main/src/pages/ProjectDetail.tsx:154-158 | the detail page's variant is the card's band for every score |
| ProjectDetail.ProjectDetailPage.constructor | carbon-trust-ui/carbon-trust-dash-main/src/pages/ProjectDetail.tsx:44-45 | no project, loading |
| ProjectDetail.ProjectDetailPage.View | carbon-trust-ui/carbon-trust-dash-main/src/pages/ProjectDetail.tsx:129-152 | shows the loading view exactly while loading, not-found exactly when loading is over with no project, and otherwise the detail of exactly the loaded project |
| ProjectDetail.ProjectDetailPage.FetchProjectData | carbon-trust-ui/carbon-trust-dash-main/src/pages/ProjectDetail.tsx:48-124 | loading always ends. With no id the project is kept. A rejected query, a project error or a missing row gives no project. Otherwise the project is Build of the three replies |
| Calculator.Set | carbon-trust-ui/carbon-trust-dash-main/src/pages/Calculator.tsx:39-42 | the named field takes the typed text and the other three keep theirs |
| Calculator.SetLaws | carbon-trust-ui/carbon-trust-dash-main/src/pages/Calculator.tsx:39-42 | a later edit of a field overrides an earlier one, and re-entering a field's text changes nothing |
| Calculator.Coerce | carbon-trust-ui/carbon-trust-dash-main/src/pages/Calculator.tsx:49-54 | a parsed number is kept and an unparseable text becomes 0 |
| Calculator.Numeric | carbon-trust-ui/carbon-trust-dash-main/src/pages/Calculator.tsx:49-54 | each numeric field is its own text coerced |
| Calculator.EmptyInputsSendZeros | carbon-trust-ui/carbon-trust-dash-main/src/pages/Calculator.tsx:27-54 | an untouched form sends four zeros |
| Calculator.UnparseableFieldIsZero | carbon-trust-ui/carbon-trust-dash-main/src/pages/Calculator.tsx:39-54 | typing garbage into one field sends 0 for it and leaves the other three values as they were |
| Calculator.CalculateBody | carbon-trust-ui/carbon-trust-dash-main/src/pages/Calculator.tsx:56-59 | a single `activityData` key holding the four numbers under their source names |
| Calculator.BuildBody | carbon-trust-ui/carbon-trust-dash-main/src/pages/Calculator.tsx:73-78 | exactly the keys `preferences` and `requiredCredits`; the credits are the result and the preferences carry both fields |
| Calculator.BuildBodyInjective | carbon-trust-ui/carbon-trust-dash-main/src/pages/Calculator.tsx:73-78 | distinct preferences or results give distinct bodies |
| Calculator.PhaseOf | carbon-trust-ui/carbon-trust-dash-main/src/pages/Calculator.tsx:159-211 | calculating exactly while loading. Building exactly when only the portfolio request runs. Showing a result or idle exactly when both buttons are enabled, as a result is present or absent |
| Calculator.EnabledExactlyAtRest | carbon-trust-ui/carbon-trust-dash-main/src/pages/Calculator.tsx:159-211 | the buttons are enabled exactly in the idle and showing-result phases |
| Calculator.CarbonCalculator.constructor | carbon-trust-ui/carbon-trust-dash-main/src/pages/Calculator.tsx:20-37 | idle, with empty inputs and Balanced preferences |
| Calculator.CarbonCalculator.HandleInputChange | carbon-trust-ui/carbon-trust-dash-main/src/pages/Calculator.tsx:39-42 | sets one field and nothing else |
| Calculator.CarbonCalculator.SetRiskAppetite | carbon-trust-ui/carbon-trust-dash-main/src/pages/Calculator.tsx:185-204 | replaces only the preference's risk appetite |
| Calculator.CarbonCalculator.BeginCalculate | carbon-trust-ui/carbon-trust-dash-main/src/pages/Calculator.tsx:44-59 | clears result and portfolio, enters the calculating phase, and sends the coerced inputs |
| Calculator.CarbonCalculator.CompleteCalculate | carbon-trust-ui/carbon-trust-dash-main/src/pages/Calculator.tsx:61-66 | a reply sets the result. An error alerts `Calculation failed: ` and its message and keeps the result. Loading ends |
| Calculator.CarbonCalculator.HandleCalculate | carbon-trust-ui/carbon-trust-dash-main/src/pages/Calculator.tsx:44-67 | afterwards the portfolio is gone and the result is the reply's or none. The phase is showing-result or idle accordingly, and an alert is raised exactly on error, reading `Calculation failed: ` followed by the error's message |
| Calculator.CarbonCalculator.BeginBuild | carbon-trust-ui/carbon-trust-dash-main/src/pages/Calculator.tsx:69-78 | without a result nothing is sent and nothing changes. Otherwise it enters the building phase and sends BuildBody of the preferences and the result |
| Calculator.CarbonCalculator.CompleteBuild | carbon-trust-ui/carbon-trust-dash-main/src/pages/Calculator.tsx:80-85 | a reply sets the portfolio. An error alerts `Failed to build portfolio: ` and its message and keeps the old portfolio. Building ends |
| Calculator.CarbonCalculator.HandleBuildPortfolio | carbon-trust-ui/carbon-trust-dash-main/src/pages/Calculator.tsx:69-86 | one whole click: nothing happens without a result; otherwise the body is sent, the portfolio follows the reply, and an alert `Failed to build portfolio: ` with the error's message is shown exactly on error; the result is never touched |
| MyPortfolio.OwnedInRange | carbon-trust-ui/carbon-trust-dash-main/src/pages/MyPortfolio.tsx:35 | every listed id lies between 1 and the total supply |
| MyPortfolio.OwnedAscending | carbon-trust-ui/carbon-trust-dash-main/src/pages/MyPortfolio.tsx:35-44 | the list is strictly ascending, so no token is listed twice |
| MyPortfolio.OwnedMembership | carbon-trust-ui/carbon-trust-dash-main/src/pages/MyPortfolio.tsx:35-44 | an id is listed exactly when it is in range and its owner equals the user ignoring case; an id whose ownerOf call throws is never listed |
| MyPortfolio.CaseOfOwnerIrrelevant | carbon-trust-ui/carbon-trust-dash-main/src/pages/MyPortfolio.tsx:38 | owners that differ only in letter case give the same list |
| MyPortfolio.ScanOwnedTokens | carbon-trust-ui/carbon-trust-dash-main/src/pages/MyPortfolio.tsx:32-44 | the loop over ids 1 to totalSupply inclusive yields exactly the owned list |
| MyPortfolio.RetireButtonDisabled | carbon-trust-ui/carbon-trust-dash-main/src/pages/MyPortfolio.tsx:106 | a token's button is disabled exactly while that token is being retired |
| MyPortfolio.OneButtonBusy | carbon-trust-ui/carbon-trust-dash-main/src/pages/MyPortfolio.tsx:106 | at most one retire button is disabled at a time |
| MyPortfolio.PortfolioPage.constructor | carbon-trust-ui/carbon-trust-dash-main/src/pages/MyPortfolio.tsx:14-16 | no tokens, loading, nothing being retired |
| MyPortfolio.PortfolioPage.FetchOwnedTokens | carbon-trust-ui/carbon-trust-dash-main/src/pages/MyPortfolio.tsx:18-48 | without a wallet nothing changes. A throw after `setLoading(true)` leaves the page loading. Otherwise the list is the owned list and loading ends |
| MyPortfolio.PortfolioPage.BeginRetire | carbon-trust-ui/carbon-trust-dash-main/src/pages/MyPortfolio.tsx:55 | marks the token busy, which disables its button |
| MyPortfolio.PortfolioPage.CompleteRetire | carbon-trust-ui/carbon-trust-dash-main/src/pages/MyPortfolio.tsx:56-74 | the list is refreshed exactly after a confirmed burn, which alerts success; a failure alerts the failure text and changes nothing. A refresh that throws keeps the list and leaves the page loading; without a wallet nothing changes. The busy mark is cleared on both paths |
| MyPortfolio.PortfolioPage.HandleRetire | carbon-trust-ui/carbon-trust-dash-main/src/pages/MyPortfolio.tsx:54-75 | one whole click. Afterwards no button is busy. A burn alerts `Token #{id} has been successfully retired (burned)!`, a failure the failure text. After a burn the list is the refreshed owned list, or unchanged with the page loading when the refresh throws. After a burn and a refresh, the token is absent from the list exactly when the chain no longer gives it to the user |
| Pipeline.Dispatch | main.py:145-159 | the vegetation-index check is chosen exactly for `Reforestation`, the solar check exactly for `Solar`, and the landfill-gas check exactly for `Landfill Gas` |
| Pipeline.Contribution | main.py:132-150 | a project adds at most one record. It adds one exactly when it is a reforestation project with coordinates and a type, and the lookup gave a value. That record holds the project id, the end date and the value |
| Pipeline.CollectAppend | main.py:129-150 | records keep the order of the projects |
| Pipeline.RecordsStampedWithEnd | main.py:126-148 | every record carries the run's end date |
| Pipeline.RecordsBound | main.py:138-150 | no more records than reforestation projects |
| Pipeline.RecordsHaveSource | main.py:145-150 | every record is the looked-up value of some reforestation project |
| Pipeline.RecordsComplete | main.py:145-150 | conversely, every reforestation project the lookup gives a value for contributes its record with the end date |
| Pipeline.RunPipeline | main.py:109-178 | a failing query is caught, and no data ends the run. Otherwise the dates are the first clock's day and 30 days before the second, a start before year 1 being caught. The records are those of the projects in order, and the single insert is issued exactly when there are records |
| Pipeline.WindowPrecedesEnd | main.py:126-127 | on one day's clock the start date is strictly earlier and formats differently |
| Calendar.DaysInMonth | backfill.py:50-51 | between 28 and 31 days; February has 29 exactly in leap years |
| Calendar.NextDay | backfill.py:50-65 | a valid date strictly later; DayStepsInverse shows it is the very next day |
| Calendar.PrevDay | backfill.py:51 | a valid date strictly earlier; DayStepsInverse shows it is the very previous day |
| Calendar.DayStepsInverse | backfill.py:51 | one day back and forward are inverses |
| Calendar.MinusDays | main.py:127 | for n > 0 a valid date strictly earlier, for n = 0 the date itself; failure (Python's OverflowError) only for n > 0 |
| Calendar.MinusDaysCountsDays | main.py:127 | `MinusDays` lands exactly n day numbers back, and fails exactly when that would fall before 0001-01-01 |
| Calendar.DaysBeforeYear | main.py:127 | the days of the years before y, each counting 365 or 366 |
| Calendar.DaysBeforeMonth | main.py:127 | the days of the months before m, each counting 28 to 31 |
| Calendar.DayNumber | main.py:127 | the proleptic Gregorian ordinal of a valid date, 1 for 0001-01-01, as Python's `date.toordinal` |
| Calendar.MonthsFillYear | main.py:127 | the twelve months' lengths add up to the year's length |
| Calendar.NextDayNumber | main.py:127 | the next day's ordinal is one more |
| Calendar.PrevDayNumber | main.py:127 | the previous day's ordinal is one less, and any date with a previous day has ordinal above 1 |
| Calendar.BeforeTransitive | main.py:127 | date order is transitive |
| Calendar.StartOfMonth | backfill.py:50 | the first of the same month |
| Calendar.PlusOneMonth | backfill.py:51 | a valid date; EndOfMonthIsLastDay states what stepping from the 1st gives |
| Calendar.MinusOneMonth | backfill.py:65 | a valid date; MinusOneMonthIsPrecedingMonth states which month it lands in |
| Calendar.MinusOneMonthIsPrecedingMonth | backfill.py:65 | the step lands in the calendar month immediately before |
| Calendar.EndOfMonth | backfill.py:51 | a valid date; EndOfMonthIsLastDay states which |
| Calendar.EndOfMonthIsLastDay | backfill.py:50-51 | the first of the month plus one month minus one day is that month's last day, the 29th for a leap February |
| Calendar.Format | main.py:126 | ten characters with dashes at positions 4 and 7, as `YYYY-MM-DD`; FormatParseRoundTrip shows they encode the date |
| Calendar.FormatParseRoundTrip | backfill.py:53-54 | parsing a formatted valid date gives it back |
| Calendar.FormatInjective | backfill.py:53-54 | distinct dates format differently |
| Backfill.Back | backfill.py:48-65 | after i steps back the date is valid and lies exactly i months before today |
| Backfill.WindowOf | backfill.py:50-51 | the window runs from the 1st to the month's last day |
| Backfill.Windows | backfill.py:48-65 | exactly one window per step, each between valid dates |
| Backfill.WindowsAt | backfill.py:48-65 | window i is the window of the month reached after i steps back |
| Backfill.WindowsAreWholeMonths | backfill.py:49-51 | window i covers the whole month that lies i months before today, a leap February included |
| Backfill.FirstWindowIsCurrentMonth | backfill.py:48-51 | the first window is today's month |
| Backfill.WindowsContiguous | backfill.py:50-65 | the 24 windows neither overlap nor leave a gap |
| Backfill.MonthAfterMonth | backfill.py:50-51 | the day after a month's last day is the first day of the next calendar month |
| Backfill.WindowEndsDistinct | backfill.py:50-54 | distinct windows end on distinct date strings |
| Backfill.RecordsForShape | backfill.py:59-63 | at most one record per window. Each record belongs to the project, is stamped with its window's end, and holds the value the lookup gave for that window |
| Backfill.RecordsForComplete | backfill.py:59-63 | conversely, every window the lookup gives a value for yields a record of the project stamped with that window's end and holding that value |
| Backfill.RecordsForSnoc | backfill.py:59-63 | one more window appends that month's record when the lookup gave a value, and nothing otherwise |
| Backfill.BackfillProject | backfill.py:45-65 | the 24-step loop yields exactly the records of the 24 windows |
| Backfill.Outcome | backfill.py:38-80 | skipped exactly when coordinates are missing or empty. Filled only with records and an insert that returned rows; not-filled only with records and an empty insert. The records are those of the 24 windows, and no data means none of them gave a value |
| Backfill.BackfillOne | backfill.py:36-80 | one pass of the outer loop ends in exactly the outcome Outcome prescribes |
| Backfill.InsertedRecordsAreMonthEnds | backfill.py:59-76 | a filled project got at most 24 records, each dated the last day of one of its windows |
| Backfill.FlaggedIds | backfill.py:72-76 | a project is flagged as filled exactly when its outcome is Filled |
| Backfill.FlaggedExactly | backfill.py:35-76 | an id is flagged exactly when one of the run's projects with that id has coordinates, got at least one month's value from the lookup, and had its insert answer with rows |
| Backfill.RunBackfill | backfill.py:16-86 | a failing query is caught, and no data ends the run; otherwise each project's outcome, in order, is Outcome of that project, and the flagged ids are exactly those of projects with coordinates, some month's value and an insert that answered with rows |
| Text.NatToStringRoundTrip | carbon-trust-ui/carbon-trust-dash-main/src/pages/ProjectDetail.tsx:110 | the decimal text of a number reads back as that number |
| Text.NatToStringInjective | carbon-trust-ui/carbon-trust-dash-main/src/pages/ProjectDetail.tsx:110 | distinct numbers have distinct decimal texts |
| Text.Includes | carbon-trust-ui/carbon-trust-dash-main/src/components/ProjectCard.tsx:24-30 | true exactly when the phrase occurs somewhere in the text |
| Text.IndexOf | carbon-trust-ui/carbon-trust-dash-main/src/components/ProjectCard.tsx:90 | None exactly when the character is absent; otherwise its first position |
| Text.LowerChar | carbon-trust-ui/carbon-trust-dash-main/src/pages/MyPortfolio.tsx:38 | a letter A-Z becomes the letter 32 code points above it, a to z; every other character is kept |
| Text.ToLower | carbon-trust-ui/carbon-trust-dash-main/src/pages/MyPortfolio.tsx:38 | same length; each letter A-Z lowered and every other character kept |

## Left out

- Interleaving of concurrent async handlers, and React's batching of state updates. Each handler is modelled as running to completion, or as its Begin and Complete steps.
- Supabase, the edge functions, the satellite service and ethers are not part of this model. Their replies are parameters. `get_ndvi_for_project`, `verify_solar_project` and `verify_landfill_gas_project` (`main.py`) are external: the first is the lookup parameter, and the other two only print.
- Logging (`print`, `console.log`, `console.error`) and JSX layout are not modelled, and neither are the admin dashboard, the metric card, mock data and the contract deployment scripts.
- BuyerDashboard `handleLogout` (`pages/BuyerDashboard.tsx:57-60`) only signs out and navigates to `/login`. The routing model already covers the login page.
- Routing.App: exact, case-sensitive path matching. react-router also accepts a trailing slash and ignores case.
- Text.ToLower: lowers ASCII letters only, not the full Unicode mapping of `toLowerCase`. Wallet addresses are hexadecimal.
- Calculator.Coerce: `parseFloat` is a parameter. A value of NaN or 0 both become 0, which the parameter's None covers.
- Calculator.CarbonCalculator.CompleteCalculate: a reply with no error but without `totalEmissions` (the result becomes undefined), or with null data (the handler throws and loading stays set), is not modelled.
- Calculator.CarbonCalculator.BeginCalculate: requires the buttons to be enabled, because the source disables them while a request runs. A second concurrent click is not modelled.
- MatchingEngine.MatchingForm.SetRiskAppetite: requires values the controls offer. The same applies to SetPreferredRegion and SetMinimumCredits.
- ProjectDetail.NdviSeries: keeps each row's raw `recorded_at` text and raw value. `toLocaleDateString` month labels and `toFixed(4)` rounding are not modelled.
- ProjectDetail.Build: the `toLocaleString` and number formatting in the page body is not modelled.
- MyPortfolio.PortfolioPage.CompleteRetire: the refresh after a burn is not awaited in the source. The model completes it before the busy mark is cleared.
- Calendar.Format: pads every year to four digits. Python's `strftime('%Y')` on Linux does not pad years below 1000.
- Backfill.RunBackfill: reads the clock once for all projects. The source calls `date.today()` per project, which differs only across midnight.
- Backfill.RunBackfill: requires today to be at least January of year 3 and not in December 9999. Outside those dates `relativedelta` or `replace` raises and the run ends in the outer handler.
- Backfill.RunBackfill: an exception from an insert or update part-way through the loop, which would end the run early, is not modelled. The result of the flag update is ignored, as in the source.
- Pipeline.RunPipeline: the result of the insert is only printed, so it is not modelled. The lookup itself never raises: `get_ndvi_for_project` catches every exception and returns None (`main.py:91-93`), which the lookup parameter's None stands for.
- Pipeline.RunPipeline: the lookup's NaN result is not modelled. When no pixel of a window is usable, `np.nanmean` gives NaN (`main.py:86-89`), which passes `is not None`, so the source stores a NaN record (`main.py:147-150`, `backfill.py:61-63`). The lookup here yields a real number or None.
- Pipeline.RunPipeline: a project whose coordinates are present but not a list is not modelled. The model keeps coordinates as a list of numbers.
- Auth.AuthProvider.OnAuthStateChange: the listener's unsubscribe on unmount is not modelled.
- Login.LoginPage.HandleDemoLogin: the alert texts for a failed sign-up or a thrown exception are not returned. Only whether the flow stopped is stated.
