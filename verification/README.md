# Verified model of an Internet provider's provisioning suite

The suite configures RouterOS routers, provisions subscriptions through a job queue, bills
them, changes their plans, assigns optical units and takes in new devices by MAC address.
This project models the parts that are state machines and proves what they promise, over
every input and every run. Where the code is narrower than its documentation, the lemma
says exactly when the promise holds.

## The parts

**The router reconciler** (`RouterOs`, `Reconciler`, `Preloader`, `PreloaderApi`,
`PreloaderRestart`, `RestartIff`, `FirewallOrder`, `RerunExample`, `PreloaderResult`,
`OnboardResult`). A router is a set of menus, each an ordered list of rows with ids that are never
reused, and a few single settings. `add` traps exactly when the identifying field is taken (a
bridge shares its names with all interfaces), `set` and `move` trap exactly when the row is
missing. The classes and methods of `PreloaderApi` follow the script call by call over a
connection that may die at any call, the last call landing or not; each is proved to do what a
list of steps (`Preloader`) says. `Reconciler` proves, for any list of steps in an order in which
none undoes an earlier one, that cutting a run after any step and repeating it in full ends like
the run that was never cut. The retry reads the management interface again, and may read another
one than before; `PreloaderRestart` proves this harmless for the sector configuration, because all
ports are handled before the address that could reveal the bridge, and `RestartIff` says for the
whole script on which routers it converges from every state it passes through. `PreloaderResult`
and `OnboardResult` say in terms of the router alone what a successful run leaves in every menu,
field by field, and exactly when a run succeeds.

**The provisioning pipeline** (`Provisioning`, `JobQueue`, `QueueHistory`, `JobOrder`, `Batching`,
`ServiceFlag`, `SystemRuns`, `SystemHistory`, `Payment`, `JobEffects`, `IspSystem`). A job reads
one subscription and its three rows on one router (PPPoE secret, DHCP lease, queue), issues
commands over a connection that may die, the last command landing or not, and writes the
subscription. `IspSystem.Isp` is the imperative program over the stored records; each of its
methods is proved equal to a function on their contents, and the whole-run theorems are about
those functions. `JobEffects` says what every kind of job leaves in the records and tables, and
exactly when it succeeds.

**Billing** (`Calendar`, `Billing`, `BillingRules`, `Arrears`, `PlanChanges`, `PlanChangeRules`).
The proleptic Gregorian calendar with month addition that clamps the day, the three billing crons,
the dashboard's and the portal's status, and plan change requests. The two modules of rules say on
the records alone who is billed, suspended, reconnected and moved to another plan, and when.

**Upserts and uniqueness** (`MacOnboarding`, `MacRules`, `OnuAssignment`) **and data**
(`ConfigMerge`, `HalfMerge`, `PayloadMerge`, `Csv`, `Text`).

## What the code does that its documentation does not say

- "The script is idempotent" holds of a successful run exactly when the router is `RerunSafe`
  before it (`OnboardIdempotentIff`), and exactly then the script also converges from every state
  such a run passes through (`OnboardRestartIff`). It fails when discovery is configured on the bridge that
  the same run creates only later, and when the sector's own address makes a second run guess
  another discovery interface than the first. `RerunExample` has a concrete router and a
  configuration for each of the two.
- All allow rules share one comment, so on a fresh router only the first allowed address gets a
  rule; `EachAdmittedIff` says exactly when every allowed address has one.
- The two ways of looking rows up differ only for the text `None` in a field that rows may lack.
- A plan change switches a suspended or terminated subscription back on, even when every job of
  the run succeeds (`PlanChangeReenables`).
- A suspension or termination over a dead connection is reported as done, and so is the
  reconnection of a PPPoE subscription without a service address, because the helpers swallow
  every router error; service follows exactly when the commands that had something to switch got
  through (`Lands`; `DeadSuspension` and `DeadReconnection` are the failing cases).
- A failed job is never tried again, although three attempts are allowed; only a rollback of the
  run brings a job back into the queue (`RollbackReenters`).
- Of several plan changes due on one day the lowest id wins, because requests come newest first.
- Dashboard and portal disagree on a subscription with one debt within grace and one past it.
- Merging three configurations depends on the grouping exactly unless the second is `Harmless` to
  the first (each null of it stands over a value that is no dictionary, and it is empty where the
  first has no dictionary), or raises on a first that is no dictionary. Both kinds of failure have
  an input: one with a null in the middle, one without any null where a section meets a text.
- When merging a fetched configuration raises halfway, the script says it goes on with the local
  configuration, but what was merged until then stays in it (`RaisedAt`: the earlier keys done, the
  raising one partly merged, the later ones untouched). The local configuration is left alone, in
  whatever order the payload lists its keys, exactly when the earlier keys bring nothing new and
  the raising one has nothing new to bring in any place it can reach (`RaiseHarmlessIff`). A local
  file whose `call_home:` section is left empty does raise, after the login has been replaced
  (`HalfMergedStays`, `AdminBecomesNoc`).
- MAC addresses that differ in colons only share one captive user.

## Modelling decisions

- A text that is not set and the empty text are the same. Dates are those of years 1 onwards.
- Jobs are queued in order of creation. The code orders by the request time, whose ties are
  not specified.
- The writes of a job are kept when its handler raises, as the code makes them. In whole runs of
  the system any run of the queue may also be rolled back: the records are restored, the routers
  stay as it left them (`RolledBack`).
- A swallowed router error and a dead connection are the same kind of error, as in the
  handlers' `except` clauses.
- The environment is a parameter: connection quality per execution (per job, where batchings are
  compared), random tokens, whether an invoice could be posted, the day. Whether a router can
  move rules and has a setting's menu is part of the router.
- Subscriptions, plans and routers exist from the start; each subscription has one router or
  none. `WellKeyed` and `NamesDistinct` state the assumption that names, service addresses and
  user names of subscriptions do not collide. The payment theorem is about runs in which no
  job raises; over healthy connections it is enough that those with a queued job, and those
  suspended, have coordinates and a router.
- Going live without coordinates is refused, as the constraint on the state demands.

## Model

| member | source | states |
|---|---|---|
| RouterOs.LookupPathsAgree | tools/mikrotik_preloader/preloader.py:42-53 | The filtered query and the full-print fallback return the same rows if and only if the value is not `None` or every row has the field |
| RouterOs.SelectHead | tools/mikrotik_preloader/preloader.py:65-69 | A lookup is empty exactly when no row matches; otherwise its head is the first match, and it holds all matches and nothing else |
| RouterOs.ExecuteKeepsValid | tools/mikrotik_preloader/preloader.py:56-58 | Every command keeps ids unique and identifying fields present |
| Reconciler.EstablishedIsNoOp | tools/mikrotik_preloader/preloader.py:72-334 | A step whose goal holds already changes nothing and does not fail |
| Reconciler.SuccessEstablishes | tools/mikrotik_preloader/preloader.py:72-334 | A step that succeeds has reached its goal |
| Reconciler.StepSpares | tools/mikrotik_preloader/preloader.py:72-334 | A later step leaves an established one established, for every pair of steps the order relation admits |
| Reconciler.CompletedAreEstablished | tools/mikrotik_preloader/preloader.py:529-594 | After a completed list of ordered steps all of them are still established |
| Reconciler.RestartConverges | tools/mikrotik_preloader/preloader.py:673-684 | From every state a run passes through, the full run ends exactly like the uncut run, tables and failure alike |
| Reconciler.RestartReaches | tools/mikrotik_preloader/preloader.py:673-684 | A restarted run passes only through states of the uncut one, so it may be cut again |
| Reconciler.FailureIsReached | tools/mikrotik_preloader/preloader.py:673-684 | The state a failing run stops in is one it passed through, so repeating it is covered by the restart theorem |
| Preloader.BeforeSpares | tools/mikrotik_preloader/preloader.py:529-594 | Any two steps of the script in their order spare each other, except a join of the bridge that is created later |
| Preloader.OnboardSpans | tools/mikrotik_preloader/preloader.py:638-693 | All steps of the whole script come in increasing phases, repeating only where repetition is harmless |
| PreloaderApi.Api.PrintWhere | tools/mikrotik_preloader/preloader.py:43-46 | A filtered query returns the matching rows, reports an unknown parameter, or dies with the connection |
| PreloaderApi.Api.Exec | tools/mikrotik_preloader/preloader.py:56-58 | One command: carried out, trapped with the router unchanged, or cut with the last command landing or not |
| PreloaderApi.MatchByText | tools/mikrotik_preloader/preloader.py:48-53 | The fallback loop collects exactly the rows whose text equals the value, in order |
| PreloaderApi.Find | tools/mikrotik_preloader/preloader.py:42-53 | A live connection yields the rows with the value by one of the two paths; they are those of the filtered query unless the value is `None` and a row lacks the field |
| PreloaderApi.FindSafely | tools/mikrotik_preloader/preloader.py:42-53 | For the lookups the script makes, whichever path is taken, a live connection yields exactly the rows with the value |
| PreloaderApi.EnsurePresent | tools/mikrotik_preloader/preloader.py:72-75 | Find or add: takes the router where the single step takes it, or stops at a state that step passes through |
| PreloaderApi.EnsureUser | tools/mikrotik_preloader/preloader.py:78-82 | Add, and set if that traps, is the upsert of the management user |
| PreloaderApi.UserCommands | tools/mikrotik_preloader/preloader.py:78-82 | Adding a user traps exactly when setting it by name succeeds, and both lead to the upsert's result |
| PreloaderApi.EnsureJoined | tools/mikrotik_preloader/preloader.py:91-99 | An interface joins a list or bridge once; a missing interface is passed over |
| PreloaderApi.EnsureNeighborDiscovery | tools/mikrotik_preloader/preloader.py:102-120 | The discovery steps in their order, settings with failures ignored |
| PreloaderApi.EnsureFirewallAllow | tools/mikrotik_preloader/preloader.py:123-152 | One allowed address: add unless the comment exists, then move to the top with failures ignored |
| PreloaderApi.EnsureFirewall | tools/mikrotik_preloader/preloader.py:663-668 | The allow loop and the drop rule, cut at any command, stay on the run of their steps |
| PreloaderApi.EnsureSet | tools/mikrotik_preloader/preloader.py:195-231 | Find, then set by id or name, or add, is the upsert of one row |
| PreloaderApi.SetNamed | tools/mikrotik_preloader/preloader.py:303-311 | The lease script is set on the server by id or by name, and the step traps exactly when the server is missing |
| PreloaderApi.GetMgmtInterface | tools/mikrotik_preloader/preloader.py:342-350 | Over a live connection, the interface of the first address that the management ip belongs to |
| PreloaderApi.ApplyCallHome | tools/mikrotik_preloader/preloader.py:424-445 | The call-home script and scheduler, cut anywhere, stay on the run of their steps |
| PreloaderApi.ApplySectorConfig | tools/mikrotik_preloader/preloader.py:529-594 | The sector configuration call by call ends where its list of steps ends, or stops at a state that list passes through |
| PreloaderApi.SectorWithRetry | tools/mikrotik_preloader/preloader.py:672-684 | After a first attempt cut anywhere, success of the second means the router is exactly where one uncut run leaves it |
| PreloaderApi.Onboard | tools/mikrotik_preloader/preloader.py:597-695 | Success means the router is where one uninterrupted run leaves it; any failure leaves a state such a run passes through |
| PreloaderApi.Sequence | tools/mikrotik_preloader/preloader.py:597-695 | Two procedures one after the other take the router along the joined list of steps |
| PreloaderRestart.MgmtAlong | tools/mikrotik_preloader/preloader.py:342-350 | During a run the management interface stays what it was, or becomes the bridge where there was none |
| PreloaderRestart.RestartAround | tools/mikrotik_preloader/preloader.py:672-684 | Restarting with the management interface read again still converges to the uncut run |
| PreloaderRestart.RestartAroundReaches | tools/mikrotik_preloader/preloader.py:672-684 | Such a restart passes only through states of the uncut run |
| PreloaderRestart.SectorRestart | tools/mikrotik_preloader/preloader.py:529-594 | For every router and configuration, the sector configuration cut anywhere and run again ends like the uncut run |
| PreloaderRestart.SectorRestartReaches | tools/mikrotik_preloader/preloader.py:672-684 | The restarted sector configuration may itself be cut any number of times |
| PreloaderRestart.SectorIdempotent | tools/mikrotik_preloader/preloader.py:529-594 | A further full run of the sector configuration changes nothing, without any condition |
| PreloaderRestart.OnboardRestart | tools/mikrotik_preloader/preloader.py:597-695 | On a steady and clear router, one of the two rerun safe kinds, the whole script goes the same way from every state it reaches |
| RestartIff.OnboardRestartSafe | tools/mikrotik_preloader/preloader.py:597-695 | On every rerun safe router, the guess stable or not, the whole script goes the same way from every state it reaches, in success and in failure |
| RestartIff.OnboardRestartIff | tools/mikrotik_preloader/preloader.py:597-695 | A successful run of the whole script converges from every state it passes through if and only if the router is rerun safe before it |
| PreloaderRestart.SteadyIff | docs/MIKROTIK_PRELOADER.md:36 | With a stable discovery guess a second run changes nothing if and only if discovery does not precede the bridge it needs |
| PreloaderRestart.UnsteadyIff | docs/MIKROTIK_PRELOADER.md:36 | With a guess that the run itself changes, a second run changes nothing if and only if discovery of the bridge was complete before |
| PreloaderRestart.OnboardIdempotentIff | docs/MIKROTIK_PRELOADER.md:36 | The claim that the script is idempotent holds of a successful run exactly when the router is rerun safe before it |
| RerunExample.SecondRunChanges | docs/MIKROTIK_PRELOADER.md:36 | A concrete router and configuration on which the first run succeeds and the second changes the router: discovery on the bridge |
| RerunExample.SecondGuessChanges | tools/mikrotik_preloader/preloader.py:655-659 | The same without configured discovery: the guess finds nothing the first time and the bridge the second |
| PreloaderResult.PortResult | tools/mikrotik_preloader/preloader.py:554-558 | After a successful sector configuration every configured port that exists, except the management interface, is in the bridge, joined once; the bridge port rows of that interface and of all others are those from before |
| PreloaderResult.PortInBridge | tools/mikrotik_preloader/preloader.py:554-558 | So each such port has a row with the configured bridge |
| PreloaderResult.ClientResult | tools/mikrotik_preloader/preloader.py:548-550 | An uplink client row with its five fields, or the menu untouched where that is switched off |
| PreloaderResult.BridgeResult | tools/mikrotik_preloader/preloader.py:552-561 | The bridge is there, and the sector's address on it, found rows left as they were |
| PreloaderResult.PoolResult | tools/mikrotik_preloader/preloader.py:562-564 | The pool has the configured range, the network the address up to the slash as gateway and the configured resolver, else the gateway, as its name server |
| PreloaderResult.HostIsBeforeSlash | tools/mikrotik_preloader/preloader.py:564 | The host part of an address is the one text without a slash that the address consists of, or that a slash follows in it |
| PreloaderResult.ServerResult | tools/mikrotik_preloader/preloader.py:563-594 | The server has bridge, pool, lease time and the lease script: the configured one, none if it is to be cleared, else the old one; all other rows stay |
| PreloaderResult.DnsResult | tools/mikrotik_preloader/preloader.py:566-568 | The resolver setting gets the servers and answers remote requests, or stays; no other setting changes |
| PreloaderResult.NatResult | tools/mikrotik_preloader/preloader.py:570-572 | A masquerading rule on the uplink, or the menu untouched where that is switched off |
| PreloaderResult.HotspotResult | tools/mikrotik_preloader/preloader.py:574-589 | Hotspot profile, server and walled garden, each with its fields, or the three menus untouched without a hotspot |
| PreloaderResult.SectorSpares | tools/mikrotik_preloader/preloader.py:529-594 | Users, groups, services, interface lists, filter rules, scripts and schedulers are left alone |
| PreloaderResult.SectorSucceedsIff | tools/mikrotik_preloader/preloader.py:529-594 | The sector configuration succeeds if and only if all required values and the webhook token are there, the hotspot has a name, the resolver setting exists, no other interface has the bridge's name and no port to be joined is in another bridge |
| OnboardResult.MgmtFirst | tools/mikrotik_preloader/preloader.py:342-350 | The management interface is that of the first row whose address is the management ip with a slash behind it, if the row names one |
| OnboardResult.DiscoveryFrom | tools/mikrotik_preloader/preloader.py:654-660 | Discovery is on the configured interfaces, or else on the management interface if there is one |
| OnboardResult.AccessResult | tools/mikrotik_preloader/preloader.py:638-651 | After a successful script: the identity, the API service enabled, the group with its policy, the user with password and group, found rows keeping their other fields |
| OnboardResult.DiscoveryResult | tools/mikrotik_preloader/preloader.py:102-120 | With an interface to discover on, the list exists and the three settings the router has name it |
| OnboardResult.ListResult | tools/mikrotik_preloader/preloader.py:102-120 | Each of these interfaces that exists is in the list, once; the memberships of all others are those from before |
| OnboardResult.NoDiscovery | tools/mikrotik_preloader/preloader.py:654-660 | Without such an interface, lists and members stay |
| OnboardResult.RulesResult | tools/mikrotik_preloader/preloader.py:123-169 | The whole rule list after the script, with the accepting and the dropping rule written out field by field |
| OnboardResult.NobodyAllowed | tools/mikrotik_preloader/preloader.py:663-668 | With no address allowed only the dropping rule is added, if there is none |
| OnboardResult.CallHomeResult | tools/mikrotik_preloader/preloader.py:424-445 | Call-home script and scheduler with all their fields; both menus untouched when off; incomplete settings never succeed |
| OnboardResult.SectorWithin | tools/mikrotik_preloader/preloader.py:597-695 | What the sector configuration finds and leaves is what the script finds and leaves in those menus, so its results are those of the script |
| OnboardResult.OnboardSucceedsIff | tools/mikrotik_preloader/preloader.py:597-695 | The script succeeds if and only if the router has an identity and an API service, fits the sector configuration if that is applied, and call-home is complete |
| FirewallOrder.FirewallResult | tools/mikrotik_preloader/preloader.py:663-668 | The rule list after the firewall step on any prior rules: one allow rule for the first address at most, then the drop rule |
| FirewallOrder.FreshFirewall | tools/mikrotik_preloader/preloader.py:123-169 | Without earlier rules of its own: exactly one allow rule for the first address, on top if rules can move, drop last, all others in place |
| FirewallOrder.AllowAheadIff | tools/mikrotik_preloader/preloader.py:123-169 | Afterwards the allow rule is ahead of the drop rule if and only if rules can move, or it was ahead, or there was no drop rule |
| FirewallOrder.FlakyAheadIff | tools/mikrotik_preloader/preloader.py:141-152 | When each move has its own fate, a first run ends with the allow rule ahead if and only if it was, or an allowed address met no drop rule or a move that worked |
| FirewallOrder.EachAdmittedIff | tools/mikrotik_preloader/preloader.py:663-665 | Every allowed address has its rule afterwards if and only if it had before, where an allow rule was, and else if and only if no two different addresses are allowed |
| FirewallOrder.StaysAhead | tools/mikrotik_preloader/preloader.py:141-152 | Over any number of later runs with any addresses and any failing moves the allow rule stays ahead |
| FirewallOrder.FirewallIdempotent | tools/mikrotik_preloader/preloader.py:663-668 | Repeating the firewall step changes no rule |
| FirewallOrder.ForeignKept | tools/mikrotik_preloader/preloader.py:663-668 | Whatever rules there were, all that are not the script's own are kept unchanged and in their order |
| ConfigMerge.MergeDict | tools/mikrotik_preloader/preloader.py:778-786 | The recursive merge in any key order raises exactly when, and yields exactly what, the pure merge says; a raise leaves each value old, done or partly merged |
| ConfigMerge.SourceLeafWins | tools/mikrotik_preloader/preloader.py:778-786 | At every path where the source has a leaf, the result has that leaf |
| ConfigMerge.OldValueStays | tools/mikrotik_preloader/preloader.py:780-781 | Wherever the source is silent or null, the old value stays |
| ConfigMerge.MergeIdempotent | tools/mikrotik_preloader/preloader.py:778-786 | A merge that succeeds succeeds again and changes nothing more |
| ConfigMerge.MergeAssociativeIff | tools/mikrotik_preloader/preloader.py:778-786 | For any first and second configuration, the grouping does not matter for any third if and only if the second is harmless to the first, or raises on a first that is no dictionary |
| ConfigMerge.HarmlessAssociative | tools/mikrotik_preloader/preloader.py:778-786 | Over a harmless second operand both groupings give the same result or both raise |
| ConfigMerge.Discord | tools/mikrotik_preloader/preloader.py:780-784 | Otherwise some third configuration tells the groupings apart, and this one does |
| ConfigMerge.Saved | tools/mikrotik_preloader/preloader.py:782-786 | Where the first merge raises on a dictionary, a third configuration makes the other grouping succeed |
| ConfigMerge.MergeAssociative | tools/mikrotik_preloader/preloader.py:778-786 | In particular, with a null-free second operand whose merge succeeds the grouping does not matter |
| ConfigMerge.NullsBreakAssociativity | tools/mikrotik_preloader/preloader.py:780-784 | A concrete null in the middle for which one grouping succeeds and the other raises |
| ConfigMerge.ShapesBreakAssociativity | tools/mikrotik_preloader/preloader.py:782-786 | Three configurations without any null of which one grouping raises and the other succeeds |
| ConfigMerge.PreloaderConfig.MergePreconfig | tools/mikrotik_preloader/preloader.py:789-816 | The seven sections in turn yield the configuration as a whole, or raise exactly when it is undefined; a raise at one key leaves the earlier keys done, that one partly merged and the later ones untouched |
| ConfigMerge.EarlierKept | tools/mikrotik_preloader/preloader.py:828-834 | What an earlier key brought is kept by a raise |
| HalfMerge.RaiseHarmlessIff | tools/mikrotik_preloader/preloader.py:789-816 | A raise leaves the local configuration as it was, in any order of the payload's keys, if and only if every earlier key brought nothing new and the raising section has nothing new for any place it can reach |
| HalfMerge.RaisesThere | tools/mikrotik_preloader/preloader.py:789-816 | Merging can raise at one key only, the first that cannot be taken |
| HalfMerge.KeptIff | tools/mikrotik_preloader/preloader.py:792-816 | Taking one key changes nothing if and only if it is there and brings nothing new, the router section's `config` compared as a whole |
| HalfMerge.StaleIff | tools/mikrotik_preloader/preloader.py:778-786 | A merge that succeeds changes nothing if and only if every value of the source that is not null is there already |
| HalfMerge.HalfMergedStays | tools/mikrotik_preloader/preloader.py:828-834 | With an empty call_home section in the local file the payload's login stays in the configuration, although the merge raises and the script goes on with what it calls the local configuration |
| HalfMerge.HalfMergedRaises | tools/mikrotik_preloader/preloader.py:807-810 | For every such local configuration and payload the merge does raise, at that section |
| HalfMerge.AdminBecomesNoc | tools/mikrotik_preloader/preloader.py:825-834 | Two such configurations with every section read before the merge and every section the payload builder makes: the login changes from admin to noc |
| ConfigMerge.PreconfigFollowsMerge | tools/mikrotik_preloader/preloader.py:789-816 | At every path outside the router section's `config` the result is the deep merge of the keys taken |
| ConfigMerge.ConfigReplaced | tools/mikrotik_preloader/preloader.py:804-805 | The router section's `config` becomes exactly the payload's |
| PayloadMerge.PayloadLeafWins | tools/mikrotik_preloader/preloader.py:789-816 | After a successful merge every leaf of the payload's five sections, the router's `config` apart, is in the result |
| PayloadMerge.PayloadSilentStays | tools/mikrotik_preloader/preloader.py:789-816 | Wherever such a section is missing, null or silent, the old value stays |
| PayloadMerge.UnsetStays | tools/mikrotik_preloader/preloader.py:789-816 | A key the payload lacks, has null or empty, or that is none of the seven, keeps its value |
| PayloadMerge.TextsTaken | tools/mikrotik_preloader/preloader.py:792-795 | A non-empty subnet and any target MAC are taken over |
| PayloadMerge.PayloadConfigWins | tools/mikrotik_preloader/preloader.py:800-805 | The router's `config` is the payload's wherever its section has one |
| PayloadMerge.PreconfiguredIff | tools/mikrotik_preloader/preloader.py:789-816 | The merge succeeds if and only if each section that is set merges into the one there, or into an empty one, and `config` has a dictionary to go into |
| Csv.ParseJoin | addons/isp_mikrotik/models/preconfig.py:92-97 | Parsing the joined text of any trimmed, comma-free, non-empty names gives the names back |
| Csv.ParseJoinParse | addons/isp_mikrotik/models/preconfig.py:92-97 | For any text, parse after join after parse is parse, and all names parsed are clean |
| Csv.CleanIff | addons/isp_mikrotik/models/preconfig.py:96-97 | The names that survive alone are exactly the clean ones |
| Csv.ParseCells | addons/isp_mikrotik/models/preconfig.py:92-97 | From names with white space around them and empty cells in between, parsing yields exactly the names, in order |
| Text.StripTrims | addons/isp_core/models/mac_profile.py:26-29 | Stripping yields trimmed text of the same characters and leaves trimmed text alone |
| Text.StripPadded | addons/isp_core/models/mac_profile.py:26-29 | Stripping takes off exactly the white space around a text |
| Text.Padding | addons/isp_core/models/mac_profile.py:26-29 | Every text is white space, its stripped form, and white space |
| Calendar.OrdinalOrder | addons/isp_billing/models/subscription.py:45 | Day numbers order dates exactly as year, month and day do |
| Calendar.OrdinalOfDate | addons/isp_billing/models/subscription.py:45 | Every day number from 1 on belongs to a date |
| Calendar.MonthGap | addons/isp_billing/models/subscription.py:45 | One month later is 28 to 31 days later |
| Calendar.AddMonthsClosed | addons/isp_billing/models/subscription.py:45 | After n additions: n months on, at the smallest of the starting day and all lengths of months passed |
| Billing.InvoiceDownOn | addons/isp_billing/models/subscription.py:54-62 | One cron run gives each due subscription one invoice and one month, every other none, and changes nothing else |
| SystemHistory.InvoicesMatchMonths | addons/isp_billing/models/subscription.py:14-62 | Over any run of the whole system the invoices a subscription got are the months its next date advanced, one for each time it was due or billed by hand: none skipped, none billed twice, whatever happens in between |
| Billing.CatchUp | addons/isp_billing/models/subscription.py:54-62 | Run daily, a lag of L days is made up within L/27 + 1 runs |
| Billing.OneJobPerInvoice | addons/isp_billing/models/subscription.py:65-82 | The suspension cron queues exactly one job per qualifying invoice of each subscription |
| Billing.OnlySuspendJobs | addons/isp_billing/models/subscription.py:65-82 | It queues nothing but suspensions, each for a subscription with a qualifying invoice |
| Billing.ReconnectJobsExact | addons/isp_billing/models/subscription.py:85-94 | The reconnection cron queues exactly one job for each suspended subscription without an open invoice |
| BillingRules.SuspendsIff | addons/isp_billing/models/subscription.py:65-82 | The cron queues a suspension of a subscription if and only if it is active and some posted, unpaid invoice of it is n days past its due date, else its own date; n is the plan's waiting time, or the standard where that is 0; as many as there are such invoices, and nothing else |
| BillingRules.ReconnectsIff | addons/isp_billing/models/subscription.py:85-94 | One reconnection if and only if the subscription is suspended and all its posted invoices are paid, and nothing else |
| BillingRules.NewInvoices | addons/isp_billing/models/subscription.py:18-51 | Every new invoice is dated and due today, not paid, posted if it could be, and for an active subscription whose next date has come |
| BillingRules.BillsIff | addons/isp_billing/models/subscription.py:54-62 | A subscription gets an invoice and its next date moves a month if and only if it is active and that date has come |
| BillingRules.BilledByHand | addons/isp_billing/models/subscription.py:14-51 | Billing by hand adds one invoice and moves the next date 28 to 31 days on, from today where there was none |
| Arrears.CountIn | addons/isp_billing/models/dashboard.py:91-102 | One invoice raises its subscription's status to the worse of the two and touches no other |
| Arrears.StatusMap | addons/isp_billing/models/dashboard.py:78-103 | The dashboard's loop computes, for each active subscription, the worst status over all its open invoices |
| Arrears.CountsSum | addons/isp_billing/models/dashboard.py:38-43 | The three counts add up to the number of active subscriptions |
| Arrears.PortalStatus | addons/isp_billing/models/subscription.py:96-129 | The portal's loop: grace if any debt is within grace, else arrears if any is past it, else up to date |
| Arrears.ComputationsAgreeIff | addons/isp_billing/models/dashboard.py:78-103 | Dashboard and portal agree on an active subscription if and only if it does not have both a debt within grace and one past it |
| Arrears.MixedDebtsDisagree | addons/isp_billing/models/dashboard.py:97-102 | One debt due today and one past grace: in arrears on the dashboard, within grace on the portal |
| Arrears.OrderIrrelevant | addons/isp_billing/models/dashboard.py:91-102 | The status does not depend on the order or repetition of invoices |
| Arrears.StatusRules | addons/isp_billing/models/dashboard.py:78-103 | In terms of invoices: in arrears with a debt more than grace days past due, within grace with only younger ones; on the portal a younger one decides |
| Arrears.QualifyingInArrears | addons/isp_billing/models/subscription.py:65-82 | If suspension waits longer than grace, whoever qualifies through a due-dated invoice is in arrears on the dashboard |
| Arrears.ThresholdExact | addons/isp_billing/models/subscription.py:81-82 | Suspension comes after grace on every day if and only if it waits more days than grace |
| PlanChanges.ApplyOne | addons/isp_core/models/plan_change_request.py:108-122 | Applying a request sets the plan, ensures credentials, queues one job, closes the request and changes nothing else |
| PlanChanges.ApplyDownRequests | addons/isp_core/models/plan_change_request.py:125-133 | One cron run applies exactly the due approved requests |
| PlanChanges.ApplyDownJobs | addons/isp_core/models/plan_change_request.py:125-133 | It queues exactly one plan change job per request applied, and no other |
| PlanChanges.ApplyDownPlans | addons/isp_core/models/plan_change_request.py:10-10 | A subscription with several due requests ends on the plan of the lowest one, others keep theirs |
| SystemHistory.NeverEarly | addons/isp_core/models/plan_change_request.py:81-133 | Over any run of the whole system in which days do not run backwards, no request is applied before its effective date but by hand |
| PlanChanges.CronAppliesDue | addons/isp_core/models/plan_change_request.py:125-133 | The first run on or after the effective date applies an approved request, and afterwards none is due |
| PlanChangeRules.DateRule | addons/isp_core/models/plan_change_request.py:44-54 | A given date is kept; else an immediate request has today, one for the next cycle the next invoice date or a month from today, a custom one none |
| PlanChangeRules.CreateRule | addons/isp_core/models/plan_change_request.py:44-54 | A new request is stored with the date of that rule |
| PlanChangeRules.SubmitRule | addons/isp_core/models/plan_change_request.py:68-79 | Submission succeeds unless the request is immediate and the user unprivileged, sets stage and date only, and changes nothing when refused |
| PlanChangeRules.RejectRule | addons/isp_core/models/plan_change_request.py:96-106 | Rejection succeeds with a reason, sets the stage only, and changes nothing without one |
| PlanChangeRules.ApplyRule | addons/isp_core/models/plan_change_request.py:108-122 | Application gives the subscription the plan and missing credentials, queues one plan change with three attempts, and touches no other record |
| PlanChangeRules.ApproveRule | addons/isp_core/models/plan_change_request.py:81-94 | Approval dates the request by the rule and applies it exactly if that date has come; before, only stage and date change |
| PlanChangeRules.NextCycleWaits | addons/isp_core/models/plan_change_request.py:81-94 | An undated request for the next cycle waits, plans and jobs as they were, exactly until the next invoice date |
| PlanChangeRules.ImmediateApplies | addons/isp_core/models/plan_change_request.py:81-94 | An undated immediate request is applied when it is approved |
| PlanChangeRules.CronRule | addons/isp_core/models/plan_change_request.py:125-133 | A run applies exactly the approved requests whose date has come; the earliest of a subscription's decides its plan, all others keep theirs |
| Provisioning.StoreApart | addons/isp_mikrotik/models/provisioning_job.py:37-132 | Rows under keys of their own are neither seen nor changed by each other's commands, in either order |
| Provisioning.HandleKeepsIdentity | addons/isp_mikrotik/models/provisioning_job.py:161-218 | A handler changes nothing of a subscription but state, start date and credentials |
| Provisioning.HandleKeepsKeyless | addons/isp_mikrotik/models/provisioning_job.py:161-218 | A handler leaves rows alone that the subscription's service has no key for |
| Provisioning.HandleKeepsFlag | addons/isp_mikrotik/models/provisioning_job.py:161-218 | A job that succeeds over any connection, the last command landing unanswered or not, leaves the router serving exactly active subscriptions if and only if it lands: every command with something to switch reached the router, and a plan change met no cut-off subscription with something to enable |
| Provisioning.HandleState | addons/isp_mikrotik/models/provisioning_job.py:161-218 | The state each successful job leaves, from whatever state it found |
| Provisioning.HealthySucceeds | addons/isp_mikrotik/models/provisioning_job.py:161-218 | Jobs of a located subscription with a router cannot fail over a healthy connection |
| Provisioning.SuspensionOverLink | addons/isp_mikrotik/models/provisioning_job.py:58-65 | A suspension succeeds however few commands reach the router, and really stops service if and only if those with a row to disable did, answered or not |
| Provisioning.TerminationOverLink | addons/isp_mikrotik/models/provisioning_job.py:127-132 | A termination succeeds likewise, and really stops service if and only if the commands with a row to disable or remove reached the router |
| Provisioning.ReconnectionOverLink | addons/isp_mikrotik/models/provisioning_job.py:188-197 | A reconnection succeeds exactly when the queue could be ensured or there is none to be, and then serves if and only if the secret was enabled or the enabling reached the router |
| Provisioning.DeadSuspension | addons/isp_mikrotik/models/provisioning_job.py:177-186 | Over a dead connection a PPPoE suspension succeeds and the secret stays enabled |
| Provisioning.DeadReconnection | addons/isp_mikrotik/models/provisioning_job.py:188-197 | Over a dead connection the reconnection of a PPPoE subscription without address succeeds and the secret stays disabled |
| Provisioning.HandleLimit | addons/isp_mikrotik/models/provisioning_job.py:96-115 | No job sets a queue row to a limit other than the plan's, and a successful plan change sets it to the plan's |
| JobEffects.ActivationLeaves | addons/isp_mikrotik/models/provisioning_job.py:161-175 | Over any connection and rows, exactly when an activation succeeds, and then: secret with password, profile and enabled; lease enabled with the name; queue with the plan's limit; state, start date and credentials |
| JobEffects.PlanChangeLeaves | addons/isp_mikrotik/models/provisioning_job.py:210-218 | The same for a plan change, which leaves subscription and lease alone |
| JobEffects.SuspensionLeaves | addons/isp_mikrotik/models/provisioning_job.py:177-186 | Exactly when a suspension succeeds, and what it leaves: secret and queue switched off as far as the connection reached |
| JobEffects.TerminationLeaves | addons/isp_mikrotik/models/provisioning_job.py:199-208 | The same for a termination, which removes the queue row |
| JobEffects.ReconnectionLeaves | addons/isp_mikrotik/models/provisioning_job.py:188-197 | The same for a reconnection, which needs coordinates and the queue row written |
| JobEffects.FailureLeaves | addons/isp_mikrotik/models/provisioning_job.py:161-218 | A job that raises leaves state and start date; only an activation has filled in credentials |
| JobEffects.ActionLeaves | addons/isp_core/models/subscription.py:129-165 | An action queues one job with three attempts; activation first fills in user name, password and profile where missing |
| JobEffects.ExecutionFollows | addons/isp_core/models/provisioning_job.py:63-84 | An execution succeeds exactly if its handler returns and leaves the handler's records; a job without a subscription raises |
| JobEffects.ActivatedRecords | addons/isp_mikrotik/models/provisioning_job.py:37-75 | The router tables after an activation: secret under the user name, lease under the address, queue under the name, nothing else |
| JobEffects.ChangedRecords | addons/isp_mikrotik/models/provisioning_job.py:37-56 | The router tables after a plan change |
| JobEffects.SuspendedRecords | addons/isp_mikrotik/models/provisioning_job.py:177-186 | The records and tables after a suspension |
| JobEffects.TerminatedRecords | addons/isp_mikrotik/models/provisioning_job.py:199-208 | The records and tables after a termination |
| JobEffects.ReconnectedRecords | addons/isp_mikrotik/models/provisioning_job.py:188-197 | The records and tables after a reconnection |
| JobQueue.ExecuteValid | addons/isp_core/models/provisioning_job.py:63-84 | An execution changes no other job, no plan, invoice or request, and no subscription's identity |
| JobQueue.ExecuteDone | addons/isp_core/models/provisioning_job.py:63-84 | The job's state and attempts after an execution, in all four cases |
| JobQueue.RunDiscipline | addons/isp_core/models/provisioning_job.py:54-61 | A list of queued jobs is completed in order up to and including the first that raises; all others are untouched |
| JobQueue.WorkerDiscipline | addons/isp_core/models/provisioning_job.py:54-57 | The same for the worker's own list, the at most twenty oldest queued jobs |
| SystemHistory.HandlerEnteredAtMostOnce | addons/isp_core/models/provisioning_job.py:54-84 | Over any run of the whole system a job's handler is entered at most once, rolled back entries aside, attempts count the entries, and success and failure are final |
| SystemHistory.NoRetry | addons/isp_core/models/provisioning_job.py:65-66 | A failed job never changes and is never entered again |
| SystemHistory.AttemptsBounded | addons/isp_core/models/provisioning_job.py:67-69 | Attempts never exceed the maximum |
| SystemHistory.RollbackReenters | addons/isp_core/models/provisioning_job.py:59-84 | After a rollback the handler of a job that was entered is entered again |
| JobOrder.BatchIsPrefix | addons/isp_core/models/provisioning_job.py:54-61 | Any one list of jobs, queued or not, is executed up to and including the first that raises |
| Batching.RunsTakeFront | addons/isp_core/models/provisioning_job.py:54-57 | Any number of worker runs of any sizes, a raise ending its run, execute exactly the first jobs of the queue in order and leave the rest waiting |
| Batching.BatchingsAgree | addons/isp_core/models/provisioning_job.py:54-57 | Two ways of splitting the work into batches that both empty the queue end in the same records and router tables |
| JobOrder.ExecutionsCommute | addons/isp_mikrotik/models/provisioning_job.py:161-218 | Two executions for different subscriptions give the same records and tables in either order |
| JobOrder.InterleavingsAgree | addons/isp_core/models/provisioning_job.py:54-57 | Any two interleavings that keep each subscription's own order end in the same records and router tables |
| JobOrder.OtherSubscriptionsUntouched | addons/isp_mikrotik/models/provisioning_job.py:37-132 | No execution touches another subscription's record or rows |
| ServiceFlag.ExecutionKeepsFlagsIff | addons/isp_mikrotik/models/provisioning_job.py:161-218 | An execution that succeeds over any connection keeps every subscription's service flag if and only if it lands |
| ServiceFlag.ServiceFollowsLifecycle | addons/isp_mikrotik/models/provisioning_job.py:161-218 | Over every run of successful jobs, nothing enabled for suspended or terminated, nothing disabled for active and no queue row for terminated, all along, if and only if every job lands |
| ServiceFlag.HealthyIsEffective | addons/isp_mikrotik/models/provisioning_job.py:37-132 | Over a healthy connection every job lands, a plan change if its subscription is not cut off |
| ServiceFlag.PlanChangeReenables | addons/isp_mikrotik/models/provisioning_job.py:210-218 | A run of a suspension and a plan change, both successful over healthy connections, that loses the flag |
| SystemRuns.AdvanceAgrees | addons/isp_core/models/plan_change_request.py:108-133 | Every step of the system, runs that are rolled back included, keeps router limits equal to the plan's or a plan change pending |
| SystemRuns.RollbackAgrees | addons/isp_core/models/provisioning_job.py:79-84 | A run whose records are restored while the routers stay as it left them keeps the agreement |
| SystemRuns.AgreementModuloPending | addons/isp_core/models/plan_change_request.py:108-133 | In every reachable state each queue row carries the live plan's limit, or a plan change job for it is queued or failed |
| SystemRuns.AgreementWhenDone | addons/isp_mikrotik/models/provisioning_job.py:210-218 | Once all jobs have succeeded every queue row carries the live plan's limit |
| SystemRuns.RunKeepsInvoices | addons/isp_billing/models/subscription.py:18-82 | Over any run invoices are only added and paid |
| SystemRuns.QualifyingLasts | addons/isp_billing/models/subscription.py:65-82 | Over any run a qualifying invoice goes on qualifying on later days exactly while it is unpaid and its subscription active, unless a new plan waits longer |
| Payment.RunsDrain | addons/isp_core/models/provisioning_job.py:54-57 | ceil(Q/20) worker runs in which no job raises empty a queue of Q suspensions and reconnections, whatever other subscriptions are like |
| Payment.CronBrings | addons/isp_billing/models/subscription.py:85-94 | The reconnection cron on an empty queue leaves a paid-up subscription active or with a reconnection as its only job |
| Payment.PaymentConverges | addons/isp_billing/models/subscription.py:65-94 | From any such queue whose jobs succeed, stale and duplicate ones included, ceil(Q/20) runs, one cron and ceil(S/20) runs leave a paid-up subscription active, and no cron queues more for it |
| Payment.HealthyPaymentConverges | addons/isp_billing/models/subscription.py:65-94 | Over healthy connections the jobs do succeed if whoever has a queued job or is suspended has coordinates and a router; unrelated drafts do not matter |
| IspSystem.Isp.Cmd | addons/isp_mikrotik/models/provisioning_job.py:37-132 | One command on the stored tables is the command on the subscription's rows, nothing else moves |
| IspSystem.Isp.CmdElse | addons/isp_mikrotik/models/provisioning_job.py:39-56 | Add, and set if that raises |
| IspSystem.Isp.HandleActivate | addons/isp_mikrotik/models/provisioning_job.py:161-175 | Activation on the stored records equals its effect on one subscription, written back |
| IspSystem.Isp.HandleSuspend | addons/isp_mikrotik/models/provisioning_job.py:177-186 | Suspension, likewise |
| IspSystem.Isp.HandleReconnect | addons/isp_mikrotik/models/provisioning_job.py:188-197 | Reconnection, likewise |
| IspSystem.Isp.HandleTerminate | addons/isp_mikrotik/models/provisioning_job.py:199-208 | Termination, likewise |
| IspSystem.Isp.HandleChangePlan | addons/isp_mikrotik/models/provisioning_job.py:210-218 | Plan change, likewise |
| IspSystem.Isp.WriteCredentials | addons/isp_core/models/subscription.py:66-75 | Missing PPPoE credentials are filled in, given ones kept |
| IspSystem.Isp.WriteState | addons/isp_core/models/subscription.py:112-116 | A state is entered, or refused for going live without coordinates |
| IspSystem.Isp.ExecuteJob | addons/isp_core/models/provisioning_job.py:63-84 | State, attempts and effect of one execution, whichever branch it takes |
| IspSystem.Isp.ActionRun | addons/isp_core/models/provisioning_job.py:59-61 | A manual run executes its jobs until one raises |
| IspSystem.Isp.PendingJobs | addons/isp_core/models/provisioning_job.py:54-55 | The search finds exactly the at most twenty oldest queued jobs |
| IspSystem.Isp.CronRunPendingJobs | addons/isp_core/models/provisioning_job.py:54-57 | A worker run |
| IspSystem.Isp.Enqueue | addons/isp_core/models/subscription.py:129-144 | Queueing adds one job and changes nothing else |
| IspSystem.Isp.TakeAction | addons/isp_core/models/subscription.py:146-165 | A lifecycle action queues its job, activation after filling in missing credentials |
| IspSystem.Isp.CronGenerateInvoices | addons/isp_billing/models/subscription.py:54-62 | The invoice cron's loop |
| IspSystem.Isp.CronSuspendOverdue | addons/isp_billing/models/subscription.py:65-82 | The suspension cron's loop |
| IspSystem.Isp.CronReconnectOnPayment | addons/isp_billing/models/subscription.py:85-94 | The reconnection cron's loop |
| IspSystem.Isp.Submit | addons/isp_core/models/plan_change_request.py:68-79 | Submission, refused for immediate changes without permission |
| IspSystem.Isp.SetEffectiveDate | addons/isp_core/models/plan_change_request.py:44-54 | A missing effective date is set by mode, a given one kept |
| IspSystem.Isp.Approve | addons/isp_core/models/plan_change_request.py:81-94 | Approval, with application at once when due |
| IspSystem.Isp.Reject | addons/isp_core/models/plan_change_request.py:96-106 | Rejection, refused without a reason |
| IspSystem.Isp.ApplyOneRequest | addons/isp_core/models/plan_change_request.py:108-122 | Application of one request |
| IspSystem.Isp.CronApplyPlanChanges | addons/isp_core/models/plan_change_request.py:125-133 | The plan change cron's loop, newest request first |
| OnuAssignment.TouchedChecksDecide | addons/isp_onu/models/assignment.py:38-60 | On a matching, the checks on the touched records pass exactly when the whole store is still a matching |
| OnuAssignment.CreatedRows | addons/isp_onu/models/assignment.py:21-26 | New assignments are stored as given, active ones with the time where none was given |
| OnuAssignment.WrittenRows | addons/isp_onu/models/assignment.py:28-36 | A write sets the given fields of the named records only, and the time of assignment or of its end where activity is given and that time is missing |
| OnuAssignment.Store.Create | addons/isp_onu/models/assignment.py:21-26 | A batch is accepted exactly if the store stays a matching; a refused batch changes nothing |
| OnuAssignment.Store.Write | addons/isp_onu/models/assignment.py:28-36 | A batch write likewise, with dates set when activity changes |
| OnuAssignment.Store.Others | addons/isp_onu/models/assignment.py:39-60 | The two counts tell exactly whether another active assignment has the ONU or the subscription |
| MacOnboarding.Controller.UpsertProfile | addons/isp_core/controllers/mac_onboarding.py:28-52 | The profile of the MAC is updated or created |
| MacOnboarding.Controller.EnsureSubscription | addons/isp_core/controllers/mac_onboarding.py:54-87 | The automatic draft subscription, or refusal without a sector |
| MacOnboarding.Controller.EnsureCaptive | addons/isp_core/controllers/mac_onboarding.py:89-114 | The captive user and its job, if there is none of the name |
| MacOnboarding.Controller.Handle | addons/isp_core/controllers/mac_onboarding.py:19-116 | The whole call on the stored records, with its reply |
| MacOnboarding.OnboardSingle | addons/isp_core/controllers/mac_onboarding.py:28-114 | Every call keeps one profile per MAC, one automatic subscription per profile, one captive user per name |
| MacOnboarding.AlwaysSingle | addons/isp_core/controllers/mac_onboarding.py:28-114 | The same over every sequence of calls |
| MacOnboarding.OneSubscriptionPerMac | addons/isp_core/controllers/mac_onboarding.py:54-87 | No MAC has two automatic subscriptions |
| MacOnboarding.RepeatChangesOnlyTime | addons/isp_core/controllers/mac_onboarding.py:28-114 | A repeated call gets the same reply and changes only the time of last sight, whether it was accepted or refused |
| MacOnboarding.OldSectorNeverRescues | addons/isp_core/controllers/mac_onboarding.py:60-62 | A call without a known sector is refused exactly when it would have to create a subscription, whatever sector the profile had |
| MacRules.NoMac | addons/isp_core/controllers/mac_onboarding.py:25-26 | A call is turned away for its MAC exactly if it has none, and then changes nothing |
| MacRules.ProfileRule | addons/isp_core/controllers/mac_onboarding.py:28-52 | Refused or not, a call writes address, host, time, sector and presence into the profile of its MAC and no other; offline exactly if it says 0, false or no |
| MacRules.SubscriptionRule | addons/isp_core/controllers/mac_onboarding.py:54-87 | A draft subscription with customer, plan, sector, MAC, address and router exactly where one is wanted and the call's sector is known; refused exactly where wanted and unknown; else nothing of it changes |
| MacRules.CaptiveRule | addons/isp_core/controllers/mac_onboarding.py:89-114 | A captive user with name, password, profile and router, and its job, exactly where that is on, the call was not refused and the name is new |
| MacRules.WithoutJoins | addons/isp_core/controllers/mac_onboarding.py:91 | Taking a character out of a text leaves all the others in order |
| MacRules.NormalForm | addons/isp_core/models/mac_profile.py:26-29 | A MAC with white space around it is stored as its capitals |
| MacOnboarding.SameUserIff | addons/isp_core/controllers/mac_onboarding.py:91-92 | Two MACs as they come in share a captive user if and only if their normal forms differ in colons only |
| MacOnboarding.UserNameInjective | addons/isp_core/controllers/mac_onboarding.py:91-92 | MACs with well-formed normal forms share a captive user if and only if they share a profile |

## Left out

- The check for a configured target MAC, the subnet scan, the RPC transport and the printed manual instructions.
- The texts of the lease and call-home scripts: opaque strings. The second, identical lookup that the set-by-id procedures make.
- Healthcheck, captive, disconnect and export jobs: one kind of job whose outcome the environment chooses and which leaves subscriptions and their rows alone. The job types that activate PPPoE, activate DHCP or ensure a queue alone are never queued by the code shown.
- Choice of a router for a subscription by device or sector: each subscription has its router.
- The repeated check, when the plan is applied, that the requested plan differs from the current one.
- Records created or deleted during a run, other than jobs, invoices, requests, profiles and assignments.
- Concurrent requests.
- Prices, taxes, invoice lines and payment states other than paid and not paid.
- Mail, audit entries, views, access rights and tokens.
- Bank transfers, fault tickets, walled garden, dry runs, export and registration.
- Dates beyond the year 9999, and letters outside ASCII in case mapping.
- Aliasing between nested dictionaries of the merged configuration: nested values are values, the top level is changed in place.
- Selection of a preconfiguration for a sector and the payload built from it: conditional copies of fields.
