# GitHub configuration store and file update, in Dafny

A model of `src/config/github.ts` from the navigation-link manager
`solar_nav_vue3`. The file holds two things:

- **The config store.** The in-memory `currentConfig` is a record with
  `owner`, `repo`, `path` and an optional `token`. The local-storage slot
  `github_config` holds its JSON text. Four operations act on this state:
  the initial load (saved keys spread over `defaultConfig`), the partial
  update (merge, then persist), the reset (defaults, then clear the slot)
  and the two getters for the token and the Contents API URL.
- **The update routine `updateGitHubFile`.** It is a fetch-then-write
  exchange with GitHub's Contents API. The GET yields the file's revision
  hash (`sha`), and the PUT hands that hash back. GitHub therefore refuses
  the write if the file changed in between (optimistic concurrency).

Every operation is a pure function:

| file | module | what it models |
|---|---|---|
| `wrappers.dfy` | `Wrappers` | `Option` (an absent key, `undefined`, `null`) and `Outcome` (returns or throws) |
| `config.dfy` | `GitHubConfig` | the record, `Partial<GitHubConfig>` as `Patch`, `defaultConfig`, the object-spread merge, `getGitHubToken`, `getGitHubApiUrl` and a parser that inverts the URL |
| `store.dfy` | `ConfigStore` | the storage slot as `Option<string>`, the JSON pair as an abstract `Codec`, `loadSavedConfig`, `updateGitHubConfig`, `resetGitHubConfig`, and reload coherence over any sequence of calls |
| `update.dfy` | `ContentsUpdate` | `updateGitHubFile` as a function from (config, content, encoder, server oracle) to (the requests issued, the outcome) |

Storage failures are parameters:

- `Read` says whether `getItem` threw;
- `saved` says whether `setItem` succeeded;
- `cleared` says whether `removeItem` succeeded.

The network is an oracle `server: Request -> Response`. A response is a
network failure, or a reply with an `ok` flag and a body. The body may not
be JSON, may be `null`, or may have `message` and `sha` members that are
possibly undefined.

`JSON.stringify` leaves out an undefined member. So a record whose token is
`undefined` comes back from a reload with the default token `''`.
`GitHubConfig.Normalize` captures this difference. The lemmas show that it
changes nothing observable: the token getter, the URL and the whole update
routine stay the same.

Two behaviours of the code worth noting:

- When `setItem` throws during an update, the in-memory record still takes
  the merged value. It does not fall back to the defaults.
- A network failure (a rejected `fetch`) carries no remote message. It is
  modelled as its own error kind.

## Model

| member | source | states |
|---|---|---|
| GitHubConfig.Merge | src/config/github.ts:34-35 | each key present in the partial update takes the new value; each absent key keeps the old one (for the token, an explicit `undefined` counts as present) |
| GitHubConfig.MergeIdentity | src/config/github.ts:34-35 | an empty partial update leaves the record unchanged; a partial update that has every key replaces the record |
| GitHubConfig.MergeCompose | src/config/github.ts:34-35 | two successive updates equal one update with the combined keys, the later one winning; the same update applied twice equals one application |
| GitHubConfig.GetToken | src/config/github.ts:59-61 | the result is never undefined; it is `''` exactly when the token is missing or empty, and otherwise it is the configured token |
| GitHubConfig.Normalize | src/config/github.ts:18-21 | turning an undefined token into `''` keeps the coordinates and the token getter's value, and leaves a record with a defined token unchanged |
| GitHubConfig.ApiUrl | src/config/github.ts:54-57 | the URL is `https://api.github.com/repos/`, then the owner, then `/`, the repository and `/contents/`, then the path, for every configuration |
| GitHubConfig.ApiUrlRoundTrip | src/config/github.ts:54-57 | when owner and repository contain no '/', parsing the URL gives back owner, repository and path |
| GitHubConfig.ParseApiUrlSound | src/config/github.ts:54-57 | every URL the parser accepts is exactly the URL built from the coordinates it returns, and those coordinates have no '/' in owner or repository |
| GitHubConfig.ApiUrlInjective | src/config/github.ts:54-57 | two configurations without '/' in owner or repository that give the same URL name the same owner, repository and path |
| ConfigStore.Load | src/config/github.ts:18-26 | the saved keys are spread over the defaults when the item is a non-empty string that parses; the result is exactly the defaults when the slot is empty or `''`, when reading throws, or when parsing throws |
| ConfigStore.Init | src/config/github.ts:28 | the store keeps the slot it read; from a readable slot it starts from exactly what a reload of that slot gives (saved keys over the defaults), and from an unreadable one from the defaults |
| ConfigStore.Update | src/config/github.ts:34-42 | the in-memory record becomes the merge whether or not the write succeeds; the slot holds the serialised merge after a successful write and is unchanged after a failed one |
| ConfigStore.Reset | src/config/github.ts:44-52 | the record becomes the defaults whether or not the removal succeeds; the slot is empty after a successful removal and unchanged after a failed one |
| ConfigStore.UpdateThenReload | src/config/github.ts:34-41 | with a round-tripping codec, a reload after a persisted update gives the updated record, exactly when its token is defined and with `''` for an undefined token |
| ConfigStore.UnsavedUpdateThenReload | src/config/github.ts:37-41 | after a failed write, a reload still gives what was persisted before the update |
| ConfigStore.ResetThenReload | src/config/github.ts:44-52 | after a reset that cleared the slot, a reload gives the defaults |
| ConfigStore.ResetTwice | src/config/github.ts:44-52 | two resets equal one reset in which either removal succeeded; after a clearing reset, a second reset changes nothing |
| ConfigStore.InitCoherent | src/config/github.ts:18-28 | a store freshly loaded from a readable slot reloads to its own in-memory record |
| ConfigStore.StepCoherent | src/config/github.ts:34-52 | after any update or reset whose storage write succeeded, a reload gives exactly the in-memory record, with an undefined token read as `''` |
| ConfigStore.ReplayCoherent | src/config/github.ts:18-52 | over every sequence of updates and resets whose storage writes succeed, a reload keeps reproducing the in-memory record |
| ContentsUpdate.UpdateFile | src/config/github.ts:63-112 | no token: fails with `TokenRequired` and issues no request (both directions). Otherwise the first request is the GET of the configured URL with the token, and at most two requests go out. The PUT follows exactly when the GET answered ok with a readable body. It goes to the same URL with the same token and carries the `sha` from the GET and the encoded content. A GET with no answer, a non-ok GET, and an ok GET whose body is not JSON or is `null` each fail without a PUT: with `NetworkError`, the remote message, and `MalformedBody` respectively. A PUT with no answer fails with `NetworkError`. Content the encoder rejects fails after the GET, without a PUT. A non-ok PUT fails with the remote message. Success holds exactly when the PUT answered ok |
| ContentsUpdate.DefaultCannotWrite | src/config/github.ts:63-67 | with `defaultConfig`, whose token is `''`, the routine fails with `TokenRequired` and issues no request |
| ContentsUpdate.ResetCannotWrite | src/config/github.ts:63-67 | after a reset, the routine issues no request |
| ContentsUpdate.NormalizeInvisible | src/config/github.ts:63-90 | turning an undefined token into `''` does not change the requests or the outcome |
| ContentsUpdate.ReloadUploadsAlike | src/config/github.ts:63-90 | for a coherent store, the reloaded record uploads exactly as the in-memory one does |
| ContentsUpdate.OptimisticWrite | src/config/github.ts:83-101 | against an endpoint that accepts a write only when it cites the current revision, a write with a token succeeds exactly when the content can be encoded and the file did not change between the GET and the PUT; a changed file makes it fail with the remote message |

## Left out

- `getGitHubConfig` (src/config/github.ts:30-32) is read as the field `Store.current`. The getter actually hands out the live, mutable `currentConfig` object, and the model, which has immutable records, does not model writes through it. A caller that assigns, say, `getGitHubConfig().token` changes what the token getter, the URL and the update routine see, with no storage write. `ConfigStore.StepCoherent`, `ConfigStore.ReplayCoherent` and `ContentsUpdate.ReloadUploadsAlike` therefore cover only changes made through `updateGitHubConfig` and `resetGitHubConfig`.
- `localStorage`, `JSON.parse` and `JSON.stringify` are not modelled. Storage is one `Option<string>` slot. The JSON pair is the abstract `Codec` under the `RoundTrips` hypothesis. The sample length-prefixed codec in `store.dfy` only shows that this hypothesis can be met.
- Parsed items with members that are not strings (numbers, `null`) are left out, because `Codec.parse` yields only string-valued keys. Extra keys that the record does not know are left out for the same reason.
- Partial updates that set `owner`, `repo` or `path` to `undefined` are left out as a modelling choice: `Patch` holds a string or nothing for these keys. `Partial<GitHubConfig>` does accept `{ owner: undefined }` without `exactOptionalPropertyTypes`. With it, the in-memory URL would read `.../repos/undefined/...`, `JSON.stringify` would drop the key, and a reload would restore the default owner. `ConfigStore.StepCoherent`, `ConfigStore.ReplayCoherent` and `ConfigStore.UpdateThenReload` hold for patches whose `owner`, `repo` and `path` keys are absent or strings, which is all a `Patch` can express.
- `btoa(unescape(encodeURIComponent(...)))` is the parameter `encode`. This is UTF-8 then Base64, section 4 of RFC 4648. Its result is `None` where it throws (`encodeURIComponent` throws a `URIError` on a lone surrogate), and the routine then fails after the GET without a PUT. Which strings it rejects is left to the parameter: Dafny strings hold only Unicode scalar values, so a content with a lone surrogate cannot itself be written in the model.
- The transport is an oracle, and async scheduling is not modelled. `getGitHubApiUrl()` is read again after the GET's `await`. A concurrent `updateGitHubConfig` could therefore redirect the PUT. The model fixes one configuration for the whole call, and races between overlapping calls are not modelled.
- Only the bearer token is kept from the request headers. The `Accept` and `Content-Type` headers are constant and are not modelled.
- The fallback to a generic error (src/config/github.ts:110) is not modelled. Every value thrown in the model is an `Error`, so the fallback is unreachable.
- `console.error` logging is not modelled. The text of the error messages is reduced to the error kind and the remote `message` member.
- GitHub's own server behaviour appears only in the sample endpoint `ContentsApi`, which has one revision check. Rate limits, authorisation and file creation are not modelled.
- `src/router/index.ts` (a route table) and `src/utils/request.ts` (HTTP client settings) contain no logic of this core. They are not part of this model.
