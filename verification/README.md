# cf-local-helpers, modelled in Dafny

cf-local-helpers is a small dashboard that is mounted inside a Cloudflare
Worker during local development. It reads the Worker's environment
(`env`) and lets a developer inspect the bindings found there:

- browse and edit KV namespaces;
- walk R2 buckets folder by folder;
- run SQL against D1 databases;
- see a count of each kind of binding.

Everything starts from `getTypeOfEnvVariableValue`. It classifies a
runtime value by `typeof` and then by duck typing: an ordered chain of
probes for the methods each Cloudflare binding exposes. The request
handlers and pages then do the following:

- pick bindings of one kind in environment order;
- choose the selected one;
- call the storage (KV `list`/`get`/`put`/`delete`, R2 `list`/`head`/`get`,
  D1 `prepare(...).all()`);
- shape the answers into rows, breadcrumbs, result tables and counters.

The model follows the source file by file, one Dafny module each:

| module | file | what it holds |
|---|---|---|
| `Types` | `src/types.ts` | runtime values; the 22 `type` tags of `CloudflareEnvType` (12 Cloudflare kinds, then 10 JavaScript kinds) |
| `Utils` | `src/utils.ts` | the classifier as written (an if-chain), plus an independent "first fitting probe" definition |
| `Bindings` | `src/index.tsx`, `src/pages/*.tsx` | the names of one kind, the selection rule shared by the three pages, the index redirects |
| `Schemas` | `src/schemas.ts` | `kvEntrySchema` validation and its error text |
| `KvStore` | — | the KV namespace the handlers call, as a class whose `put`/`delete` change its keys and values |
| `KvRoutes` | `src/index.tsx` | the KV list/search, POST and DELETE handlers |
| `KvPage` | `src/pages/kv.tsx` | the KV page, its rows and the add/edit form |
| `R2Routes` | `src/index.tsx` | the R2 list, preview and raw handlers |
| `R2Page` | `src/pages/r2.tsx` | the R2 page, breadcrumbs, go-up, names and labels |
| `D1Routes` | `src/index.tsx` | the D1 table list and query handlers |
| `D1Page` | `src/pages/d1.tsx` | result states, cell formatting and the table list |
| `Dashboard` | `src/pages/dashboard.tsx` | the counting loop and the four cards |
| `Sidebar` | `src/components/sidebar_layout.tsx` | the active-item rule and the header title |
| `Strings`, `Wrappers` | — | JavaScript `split`/`join`/`startsWith`/`includes`, and `Option`/`Result` |

Calls into code that is not part of this model are parameters:

- `JSON.parse` succeeding is `isJson`;
- `Number(text)` being NaN is `isNaN`;
- `toLowerCase` is `lower`;
- `decodeURIComponent` is `decode`. It gives `None` where it would throw
  a `URIError` (a malformed escape such as `%E0%A4%A`); the handlers
  decode before their `try`, so that error reaches the framework
  uncaught.

The R2 bucket's `list`/`head`/`get` and the D1 statement runner are
function parameters. A throwing call is an `Err`. The KV namespace is a
class whose optional error fields make `list`, `get`, `put` and `delete`
throw.

Where the project's documentation and the code disagree, the model
follows the code:

- A D1-shaped object is not "D1Database regardless of other members".
  Every earlier probe still wins; a function `create` makes it a Workflow
  (`Utils.D1LosesToWorkflow`).
- When a delete or the relisting after it throws, the DELETE handler
  returns an empty fragment, not rows.
- `CloudflareEnvType` has 12 Cloudflare tags and 10 JavaScript tags, not
  12 and 12.

The header title is modelled as written (`Sidebar.TitleAsWritten`, used
by `Sidebar.LayoutOf`). The rule it evidently means to follow,
`Sidebar.SectionTitle`, is a separate definition; the lemmas about it
are the corrected half of the findings below, not properties of the
program.

## Model

| member | source | states |
|---|---|---|
| Types.TagRoundTrip | src/types.ts:21-51 | every kind's `type` tag reads back as that kind |
| Types.TagsDistinct | src/types.ts:21-51 | different kinds have different tags |
| Types.KindsPartition | src/types.ts:21-51 | there are 22 kinds; the first 12 in declaration order are exactly the Cloudflare ones |
| Utils.Classify | src/utils.ts:3-184 | the result carries the input value and a payload of the kind the tag promises; "Service" is never produced |
| Utils.ClassifyObjectIsFirstMatch | src/utils.ts:62-176 | the source's case chain equals "the first fitting probe in the fixed order, else object" |
| Utils.FirstMatchSpec | src/utils.ts:65-176 | from any position, probe j's kind results iff probe j fits and no probe between does |
| Utils.FirstMatchNone | src/utils.ts:178-184 | the fallback results iff no remaining probe fits |
| Utils.FirstMatchInProbeKinds | src/utils.ts:65-176 | the chain yields only a probe kind or "object" |
| Utils.ProbeOrder | src/utils.ts:65-176 | an object gets probe j's kind iff probe j fits and no earlier probe fits |
| Utils.ObjectFallback | src/utils.ts:178-184 | an object is "object" iff no probe fits |
| Utils.TypeofFirst | src/utils.ts:7-31 | strings, numbers, booleans and functions are tagged by `typeof`, whatever members they have |
| Utils.StructuralBeforeProbes | src/utils.ts:32-60 | null, undefined, arrays, dates and regexps are tagged before any probe |
| Utils.WorkflowWins | src/utils.ts:67-77 | any object with a function `create` is a Workflow |
| Utils.HyperdriveRule | src/utils.ts:79-85 | Hyperdrive iff `connectionString` is a string and `create` is not a function |
| Utils.RunFetchRule | src/utils.ts:99-117 | with `run` a function, a falsy `fetch` gives Ai, a function `fetch` gives Fetcher, and any other truthy `fetch` gives neither |
| Utils.AddingHeadMakesR2 | src/utils.ts:119-162 | a KV-classified object becomes an R2 bucket once it gains a function `head` |
| Utils.HeadDecidesR2OrKv | src/utils.ts:119-162 | with get/put/delete/list functions: a function `head` gives R2, a falsy `head` gives KV (when no D1 or Durable Object probe fits), and any other truthy `head` gives neither |
| Utils.D1Rule | src/utils.ts:141-148 | D1 iff `prepare`, `dump` and `batch` are functions and none of the seven earlier probes fits |
| Utils.D1LosesToWorkflow | src/utils.ts:67-77 | a D1-shaped object with a function `create` is a Workflow |
| Utils.CloudflareExactlyOnProbes | src/utils.ts:62-184 | `isCloudflareType` holds exactly when the value is an object and some probe fits |
| Bindings.NamesOfKindMembers | src/pages/kv.tsx:182-191 | a name is listed iff some environment entry with that name has that kind |
| Bindings.NamesOfKindAppend | src/index.tsx:40-45 | the listed names keep environment order |
| Bindings.FirstNameIsFirstEntry | src/index.tsx:40-51 | the first listed name belongs to the first entry of that kind |
| Bindings.Select | src/pages/kv.tsx:191-197 | the selected name is a member of the names; none iff there are none; a non-empty requested name that is present wins; otherwise the first name |
| Bindings.FirstBindingRoute | src/index.tsx:36-57 | redirect to the first binding of the kind when one exists, else the no-selection page |
| Bindings.SelectionExample | src/pages/r2.tsx:29-35 | worked selection cases: a present name, an absent one, and none given |
| Schemas.Validate | src/schemas.ts:3-22 | a rejection carries at least one issue; an accepted entry has non-empty key and value and metadata that is absent, empty or valid JSON |
| Schemas.ValidateExactlyAcceptable | src/schemas.ts:3-22 | validation succeeds iff every field rule holds, and then keeps the fields as given (the TTL as `Number(text)`) |
| Schemas.IssuesPerField | src/schemas.ts:4-21 | each rule's issue is reported iff that rule is broken |
| Schemas.ErrorText | src/index.tsx:188 | a non-empty issue list gives a non-empty error text |
| Schemas.Messages | src/index.tsx:188 | one message per issue, in order |
| Schemas.JoinContainsEach | src/index.tsx:188 | the joined text contains every part |
| Schemas.ErrorTextMentionsEachIssue | src/index.tsx:188 | every issue's message appears in the form's error text |
| Schemas.ValidationExamples | src/schemas.ts:4-21 | an empty key gives exactly "Key is required"; valid metadata passes; invalid metadata gives exactly the metadata issue |
| KvStore.Upsert | src/index.tsx:216-219 | the written key is present; it is the only entry with its name, so a stale entry of that name is gone; entries with other names are kept, and nothing else appears |
| KvStore.UpsertKeepsUnique | src/index.tsx:216-219 | a write keeps key names unique |
| KvStore.RemoveKeepsUnique | src/index.tsx:258 | a delete keeps key names unique |
| KvStore.Remove | src/index.tsx:258 | exactly the keys with a different name remain |
| KvStore.KvNamespace.List | src/index.tsx:88 | the current keys, or the listing's error |
| KvStore.KvNamespace.Get | src/index.tsx:101 | the value, `null` for a missing key, or that key's error |
| KvStore.KvNamespace.Put | src/index.tsx:216-219 | on failure nothing changes; otherwise the key is upserted with its TTL and metadata and the value is stored; unique names stay unique |
| KvStore.KvNamespace.Delete | src/index.tsx:258 | on failure nothing changes; otherwise the key and its value are gone; unique names stay unique |
| KvPage.ExpirationCellOf | src/pages/kv.tsx:37-39 | a dash iff the expiration is missing or zero |
| KvPage.KvRows | src/pages/kv.tsx:28-35 | one row per entry, in order, with its name, value and expiration cell |
| KvPage.KvPageOf | src/pages/kv.tsx:181-300 | the empty state iff there are no KV bindings, whatever `kvId` says; otherwise the selection rule; the table is shown iff the selected name is not empty, and a missing `kvData` then shows no rows |
| KvPage.KeyForm | src/pages/kv.tsx:71-173 | edit mode iff an entry is given; in edit mode the key is disabled and carried in a hidden field; titles and button labels per mode; the error is shown iff it is non-empty |
| KvRoutes.MatchingKeysMembers | src/index.tsx:91-95 | the search keeps exactly the keys whose lower-cased name contains the lower-cased term |
| KvRoutes.MatchingKeysAppend | src/index.tsx:91-95 | the search preserves listing order |
| KvRoutes.MatchingKeysLength | src/index.tsx:91-95 | the search never adds keys |
| KvRoutes.FilterKeysShape | src/index.tsx:91-95 | an absent or empty term keeps every key; otherwise only listed keys, never more |
| KvRoutes.LoadKvData | src/index.tsx:59-124 | no data iff `kvId` is not a KV binding; no rows when `list` throws; otherwise one row per kept key, in order, where a throwing `get` shows "[Error loading value]" and a missing value shows "null" |
| KvRoutes.ListingSurvivesOneFailingGet | src/index.tsx:99-118 | with three keys where the second `get` throws, the other two keep their values |
| KvRoutes.FirstGetError | src/index.tsx:224-232 | no error iff no listed key's `get` throws |
| KvRoutes.FirstGetErrorAt | src/index.tsx:224-232 | the reported error is the first throwing key's |
| KvRoutes.Relist | src/index.tsx:223-232 | the relisting as a loop equals its specification: the listing's error, or the first failing `get`, or one row per key where a non-text value shows "[binary/json]" |
| KvRoutes.PutThenRelistShowsEntry | src/index.tsx:216-232 | after a put, the relisting fails iff some key's `get` throws, and otherwise shows the written entry with its value |
| KvRoutes.DeleteThenRelistOmitsKey | src/index.tsx:258-270 | after a delete, a successful relisting no longer shows the key |
| KvRoutes.PostEntry | src/index.tsx:180-246 | an invalid form echoes the body with the joined messages and stores nothing; an unknown binding gives 404 "KV not found"; a throwing put gives a 500 "Error saving KV: …"; otherwise the entry is stored and the relisted rows, or the relisting's error, are returned |
| KvRoutes.DeleteEntry | src/index.tsx:248-280 | a key whose decoding throws escapes the handler and changes nothing; the binding is found by name only; a missing binding or a throwing delete changes nothing and gives an empty fragment; otherwise the decoded key is removed and the relisted rows are returned, or an empty fragment when the relisting throws |
| R2Routes.PrefixParam | src/index.tsx:309 | an absent or empty `prefix` becomes undefined; any other is kept |
| R2Routes.ListBucket | src/index.tsx:307-347 | lists with the request's prefix and delimiter "/"; objects and folders are both present iff the bucket is bound and `list` succeeds |
| R2Routes.PreviewMeta | src/index.tsx:349-389 | a path tail whose decoding throws escapes the handler; otherwise the key is the decoded tail, and metadata is present iff the bucket is bound and `head` finds the object |
| R2Routes.RawObject | src/index.tsx:391-424 | a path tail whose decoding throws escapes the handler; otherwise the object is served with `etag` = `httpEtag` iff the bucket is bound and `get` finds it, and every other case is 404 "File not found" |
| Strings.Split | src/pages/r2.tsx:135 | `split` on one character gives at least one piece, none containing the separator |
| Strings.JoinSplit | src/pages/r2.tsx:224-228 | joining the pieces of a split with the same character gives the string back |
| Strings.SplitJoin | src/pages/r2.tsx:135 | splitting separator-free pieces joined with the separator gives the pieces back |
| Strings.JoinSnoc | src/pages/r2.tsx:224-228 | joining one more piece appends the separator and that piece |
| Strings.NonEmpty | src/pages/r2.tsx:135 | `filter(Boolean)` keeps only non-empty pieces taken from the input, never more of them |
| Strings.NonEmptyAppend | src/pages/r2.tsx:135 | the filter works piecewise over a concatenation, keeping order |
| Strings.IncludesAt | src/index.tsx:91-95 | a string includes every piece found at some position in it |
| Strings.IncludesNeedsHead | src/components/sidebar_layout.tsx:47-50 | a string that includes a piece holds the piece's first character |
| Strings.IncludesExtend | src/components/sidebar_layout.tsx:47-50 | what a string includes, any longer string starting with it includes |
| Strings.StartsWithConcat | src/components/sidebar_layout.tsx:47-50 | a "/"-headed piece without other "/" starts `a + b`, where `b` starts with "/", iff it starts `a` |
| Strings.IncludesConcat | src/components/sidebar_layout.tsx:47-50 | such a piece occurs in `a + b` iff it occurs in `a` or in `b` |
| Strings.IncludesSlashHead | src/components/sidebar_layout.tsx:47-50 | in a string whose only "/" is its first character, such a piece occurs only at the start |
| Bindings.NamesOfKind | src/pages/kv.tsx:182-191 | never more names than environment entries |
| R2Page.PrefixOfJoin | src/pages/r2.tsx:135-140 | a folder prefix followed by a name is the segments joined with "/" |
| R2Page.SegmentsOfPrefix | src/pages/r2.tsx:135 | splitting a prefix built from segments gives the segments back |
| R2Page.Breadcrumbs | src/pages/r2.tsx:131-142 | the breadcrumbs are exactly the specified trail, and none without a selected bucket |
| R2Page.PushSegments | src/pages/r2.tsx:133-140 | the loop builds the bucket's crumb and then one crumb per segment at its accumulated path |
| R2Page.CrumbCount | src/pages/r2.tsx:131-142 | no crumbs without a selected bucket; otherwise one more crumb than segments, the first being the bucket at prefix "" |
| R2Page.PrefixOfGrows | src/pages/r2.tsx:137-139 | the accumulated path only grows |
| R2Page.CrumbPrefixesNest | src/pages/r2.tsx:131-142 | each crumb's prefix is a prefix of every later crumb's |
| R2Page.LastCrumbIsCurrentFolder | src/pages/r2.tsx:131-142 | for a canonical prefix, the last crumb is its last segment at exactly that prefix |
| R2Page.SplitOfPrefix | src/pages/r2.tsx:224-228 | a folder prefix splits into its segments and a final empty piece |
| R2Page.PrefixOfNonEmpty | src/pages/r2.tsx:224-230 | a non-empty folder prefix is its segments joined with "/", plus "/" |
| R2Page.UpFromParent | src/pages/r2.tsx:224-230 | dropping the last two pieces and re-joining gives the parent prefix |
| R2Page.GoUpIsParent | src/pages/r2.tsx:217-231 | from any canonical folder prefix, go-up gives the parent folder's prefix |
| R2Page.GoUpExamples | src/pages/r2.tsx:217-231 | "a/b/" goes to "a/"; "a/" goes to ""; "a/b" goes to "" |
| R2Page.DisplayName | src/pages/r2.tsx:289-293 | the current prefix followed by the shown name is the key when the key starts with the prefix; otherwise the whole key is shown |
| R2Page.DisplayNameRoundTrip | src/pages/r2.tsx:289-293 | a key under a folder shows the name relative to that folder |
| R2Page.FolderLabelOfPrefix | src/pages/r2.tsx:262 | a folder prefix is labelled with its last segment and "/" |
| R2Page.DownloadNameOfKey | src/pages/r2.tsx:101 | the download filename of a key under a folder is the key's own last name |
| R2Page.FolderLabelOfSlash | src/pages/r2.tsx:262 | the folder "/" is labelled "/" alone, because JSX renders the `undefined` of `pop()` as nothing |
| R2Page.ListingOf | src/pages/r2.tsx:192-338 | loading iff neither objects nor folders were given; "Folder is empty" iff objects is given and empty and there are no folders; otherwise a go-up row iff there is a current prefix, then the folder rows and file rows in order |
| R2Page.R2PageOf | src/pages/r2.tsx:19-144 | the empty state iff there are no R2 bindings; a preview iff bucket name, key and metadata are all present (an image iff the content type starts with "image/"); otherwise the selection, the trail, and a listing only under a non-empty selected name |
| D1Routes.KeysOf | src/index.tsx:527-528 | one key per entry, in order |
| D1Routes.ValuesOf | src/index.tsx:530 | one value per entry, in order |
| D1Routes.Shape | src/index.tsx:525-538 | no error; the row count is kept; the columns are the first row's keys, or none; row i holds result i's values |
| D1Routes.ShapeRoundTrip | src/index.tsx:525-538 | when all rows share the first row's keys, pairing the columns with row i gives back result i |
| D1Routes.LoadTables | src/index.tsx:450-482 | the catalog's tables when the database is bound and the catalog succeeds, else none |
| D1Routes.RunQuery | src/index.tsx:484-551 | a result exists iff the database is bound, the catalog succeeds and the query is non-empty; a throwing query gives only its message; otherwise the shaped result; a failing catalog leaves no tables and no result |
| D1Page.FormatCell | src/pages/d1.tsx:51-57 | null shows the null marker, an object its JSON text, anything else its text |
| D1Page.CellOf | src/pages/d1.tsx:49-58 | a column past the row's end shows "undefined" |
| D1Page.RenderRow | src/pages/d1.tsx:47-60 | one cell per column, cell j being the row's value j |
| D1Page.ResultsOf | src/pages/d1.tsx:29-73 | exactly one state: placeholder iff no result; error iff a non-empty error; table iff no error and some rows; otherwise no results |
| D1Page.ErrorBeatsRows | src/pages/d1.tsx:29-37 | an error is shown instead of any rows |
| D1Page.ShapedResultsDisplayFaithfully | src/pages/d1.tsx:41-59 | a shaped SQL answer shows result i's value for column j in row i, column j |
| D1Page.TableListOf | src/pages/d1.tsx:151-175 | loading iff no list; "No tables found" iff empty; otherwise one button per table, in order, with `SELECT * FROM <t> LIMIT 10` |
| D1Page.D1PageOf | src/pages/d1.tsx:94-226 | the empty state iff there are no D1 bindings; otherwise the selection rule, and under a non-empty selected name the table count, table list, last query and results |
| Dashboard.DashboardCards | src/pages/dashboard.tsx:13-64 | four cards in the order KV, R2, D1, Environment; each storage count is exactly the number of bindings of that kind; the Environment count is the number of keys |
| Dashboard.CountsPartitionEnv | src/pages/dashboard.tsx:18-33 | the KV, R2, D1 and "other" counts sum to the number of entries, with every other kind, Cloudflare or not, in "other" |
| Sidebar.RootOnlyExact | src/components/sidebar_layout.tsx:24-28 | the "/" item is active only on "/" itself |
| Sidebar.ActiveBelowOnly | src/components/sidebar_layout.tsx:24-28 | any other item is active on every path below it and not on a sibling with a longer name |
| Sidebar.PrefixCancel | src/components/sidebar_layout.tsx:24-28 | a shared leading base path does not change the prefix test |
| Sidebar.SectionsApart | src/components/sidebar_layout.tsx:68-101 | no item's href lies at or below another's |
| Sidebar.ExactlyOneActive | src/components/sidebar_layout.tsx:24-101 | on a section's page, exactly that section's item is active, under any base path |
| Sidebar.TitleAsWrittenChain | src/components/sidebar_layout.tsx:45-52 | each title is chosen iff its marker occurs in the active path and no earlier marker does; "Home" iff none occurs |
| Sidebar.IncludesAfterBase | src/components/sidebar_layout.tsx:45-52 | under a base path without a marker, a marker occurs in the path iff the page's "/"-headed section starts with it |
| Sidebar.TitleAsWrittenOfSection | src/components/sidebar_layout.tsx:45-52 | under a base path without any marker, each section's own page gets that section's title |
| Sidebar.TitleAsWrittenUnderEnvBase | src/components/sidebar_layout.tsx:45-52 | under a base path containing "/env" (such as "/env-admin"), every page is titled "Environment Variables" |
| Sidebar.NamespaceTailHoldsEnv | src/index.tsx:133 | "/kv/" + a slash-free name contains "/env" iff the name starts with "env" |
| Sidebar.NamespacePathHoldsEnv | src/index.tsx:133 | the same holds below a base path without "/env" |
| Sidebar.NamespacePathHoldsKv | src/index.tsx:133 | a KV namespace's path always contains "/kv" |
| Sidebar.TitleAsWrittenOfNamespacePage | src/index.tsx:133 | under a base path without "/env", the page of a KV namespace is titled "Environment Variables" iff its name starts with "env", and "KV Namespaces" otherwise |
| Sidebar.TitleAsWrittenMisreadsNamespace | src/components/sidebar_layout.tsx:45-52 | a KV namespace named "env_cache" is titled "Environment Variables" while the KV item is active |
| Sidebar.SectionTitleIsSection | src/components/sidebar_layout.tsx:24-28 | corrected rule (not the program's): titled by the item rule, each section's page gets its own title under any non-empty base path, and the dashboard gets "Home" |
| Sidebar.SectionTitleOfNamespacePage | src/components/sidebar_layout.tsx:24-28 | corrected rule (not the program's): a KV namespace's page is titled "KV Namespaces" whatever the namespace is called |
| Sidebar.SectionTitleReadsNamespace | src/components/sidebar_layout.tsx:24-28 | corrected rule (not the program's): the namespace "env_cache" under the default base path is titled "KV Namespaces" |
| Sidebar.LayoutOf | src/components/sidebar_layout.tsx:54-115 | five items in fixed order, each active as the item rule says, and the header title `getTitle()` as written |

## Left out

- The HTML itself is not modelled: markup, classes, icons, chips, links other than breadcrumb prefixes and titles, and the choice between a whole page and an htmx fragment (`HX-Request`).
- Hono routing and the handler factory are not modelled. This includes how `basePath` is applied twice, and how the path after `/view/` or `/raw/` is cut out of the request path; that tail is a parameter.
- KvStore.KvNamespace.List: returns every key. The runtime's page limit of 1000 keys and its cursor are not modelled, because the handlers never follow the cursor and the storage engine is not part of this model.
- KvStore.Upsert: the position of a new key in later listings is not modelled, because the runtime lists keys in its own order; only membership is stated.
- KvRoutes.Relist: the `get` calls of `Promise.all` run in listing order, so the error reported is the first failing key's. At run time it is whichever rejection settles first.
- KvRoutes.LoadKvData: the `get` calls run one after another rather than concurrently.
- KvStore.KvNamespace.Put: a TTL is recorded as `Number(text)`, not as an absolute expiry time, because there is no clock. Metadata keeps its JSON text instead of the parsed value.
- JSON parsing, `Number()`, `toLowerCase` and `decodeURIComponent` are parameters, not definitions. The schema library's built-in messages for a missing field ("Required") and a non-numeric TTL are fixed texts in the model.
- Floating point is not modelled: sizes shown as KB with `toFixed`, dates (`toLocaleString`), the D1 query duration and `meta`, and NaN or infinite numbers in values.
- The edit-form loader (`GET /kv/:kvId/entries/:key/edit`, via `getWithMetadata`) and the "new entry" form route are not modelled beyond `KvPage.KeyForm`, which they render.
- The environment page, `ChipsList` and `Head` are not part of this model.
- R2 objects keep their key, size, content type and etag. Upload time and body are not modelled, and neither is the runtime's 1000-object page limit.
- The dashboard computes an "other" count that no card shows. The loop keeps it so that every entry is counted once; `Dashboard.CountsPartitionEnv` states the partition.

## Findings

| source | as written | input that shows it | evidently intended | confidence | as-written member | corrected member |
|---|---|---|---|---|---|---|
| src/components/sidebar_layout.tsx:45-52 | the header title is taken from the first of "/env", "/kv", "/r2", "/d1" found anywhere in the active path | the page of a KV namespace named `env_cache` under the default base path: its active path `//kv/env_cache` (src/index.tsx:133) contains "/env", so it is titled "Environment Variables" while the sidebar highlights the KV item | the title of the section the path belongs to, by the same rule that highlights the sidebar item | not executed; high | Sidebar.TitleAsWrittenOfNamespacePage | Sidebar.SectionTitleOfNamespacePage |
| src/components/sidebar_layout.tsx:45-52 | the same substring test runs over the whole active path, base path included | a base path containing "/env", such as "/env-admin": the KV page `/env-admin/kv` is titled "Environment Variables", and so is every other page | the section's title whatever the base path is called | not executed; high | Sidebar.TitleAsWrittenUnderEnvBase | Sidebar.SectionTitleIsSection |
