# Pear authentication, bet ledger and theme catalog — a Dafny model

This project models the sequential core of a small trading-game backend that talks to
the Pear Protocol API:

- **The authenticated request builder** (`pearFetch` and `getPearAccessToken`). It checks
  the `PEAR_API_BASE` and `PEAR_ACCESS_TOKEN` settings, in that order. It normalises the
  path and the base URL and joins them. It merges the caller's headers with a bearer
  `Authorization` header and a default JSON `Content-Type`. It then issues one `fetch`,
  which the model returns as a `FetchCall` record (`pear_client.dfy`).
- **The EIP-712 login script** (`main` of the setup script). It is a state machine
  `Idle → ChallengeFetched → Signed → Authenticated`, and any step may move to `Failed`.
  Each step records what it does in a trace: the challenge GET, the signing, the login POST.
  The HTTP replies, the wallet's address derivation and signing, `encodeURIComponent` and
  `Date.now()` are fields of a `World` input. Its function-typed fields act as
  uninterpreted functions (`pear_auth_setup.dfy`).
- **The bet ledger** (the bets router). POST runs a three-stage validation cascade and
  appends to a sequence-valued ledger. GET returns the ledger (`bets.dfy`).
- **The theme catalog** (the themes router). It holds the static catalog, does a first-match
  lookup by id, and has a GET handler (`themes.dfy`).

Shared pieces are in `results.dfy` (`Option`, `Result`), `strings.dfy` (prefix and suffix
tests, ASCII lower-casing) and `js.dfy`. `js.dfy` defines JSON values with JavaScript
truthiness, and the process environment as a map in which a setting counts as set when it
is present and non-empty.

Facts about the login script that shape the model:

- The challenge is one fixed `GET <base>/auth/eip712-message?address=…&clientId=…`, issued once.
- The login body carries only the signature in `details`. Nothing from the challenge message
  is copied into it.
- The settings are read from `PEAR_API_BASE`, `PEAR_CLIENT_ID`, `PEAR_USER_ADDRESS` and
  `PEAR_USER_PRIVATE_KEY`.
- The script uses `PEAR_API_BASE` as configured. It does not apply the request builder's
  trailing-slash normalisation.

## Model

| member | source | states |
|---|---|---|
| `PearClient.GetPearAccessToken` | backend/src/pearClient.ts:15-21 | The token is returned exactly when `PEAR_ACCESS_TOKEN` is present and non-empty, and it is returned unchanged. Otherwise the result is the access-token configuration error. |
| `PearClient.NormalizePath` | backend/src/pearClient.ts:43 | The normalised path always starts with `/`. A path that already starts with `/` is unchanged. Any other path gets exactly one `/` in front. |
| `PearClient.NormalizePathIdempotent` | backend/src/pearClient.ts:43 | Normalising an already normalised path changes nothing. |
| `PearClient.StripTrailingSlash` | backend/src/pearClient.ts:46 | A base ending in `/` loses exactly that one character. Any other base is unchanged. |
| `PearClient.JoinUrl` | backend/src/pearClient.ts:46-47 | The URL is the stripped base followed directly by the normalised path. |
| `PearClient.SlashPlacementIrrelevant` | backend/src/pearClient.ts:43-47 | For a base without a trailing `/` and a path without a leading `/`, `base/`+`path` and `base`+`/path` give the same URL, `base/path`, with a single separator. |
| `PearClient.ExampleUrls` | backend/src/pearClient.ts:43-47 | `https://api.example.com/` with `bets` and `https://api.example.com` with `/bets` both give `https://api.example.com/bets`. |
| `PearClient.OnlyOneSlashStripped` | backend/src/pearClient.ts:46 | The regular expression removes only one slash, so a base ending in `//` keeps one and the URL has a doubled slash. |
| `PearClient.AppendHeader` | backend/src/pearClient.ts:53 | Appending adds the lower-cased name. A name already present gets `", "` and the new value after its old value. A new name gets the value alone. Every other entry is unchanged. |
| `PearClient.BuildHeaders` | backend/src/pearClient.ts:53 | `new Headers(init)` holds exactly the lower-cased names of the caller's entries. Each name's value is the values the caller gave for that name in any letter case, in order, joined with `", "` (the reference `ValuesFor`/`JoinValues`). |
| `PearClient.RepeatedNameCombined` | backend/src/pearClient.ts:53 | `X-Trace: 1` followed by `x-trace: 2` gives the single entry `x-trace: 1, 2`. |
| `PearClient.HasBody` | backend/src/pearClient.ts:57 | A body counts as present iff it is given and, when it is a string, that string is truthy, so an empty string counts as no body. |
| `PearClient.BuiltNamesAreLowerCase` | backend/src/pearClient.ts:53 | Each caller entry is stored under its lower-cased name, and that name is already lower case. Names are therefore compared without regard to case. |
| `PearClient.MergeHeaders` | backend/src/pearClient.ts:53-59 | `Authorization` is exactly `Bearer <token>` whatever the caller sent. `Content-Type` is present iff the caller set one or a body is present. A caller's `Content-Type` is kept, and otherwise the added one is `application/json`. Every other caller header passes through with the same value, and no other header is added. |
| `PearClient.CallerContentTypeKept` | backend/src/pearClient.ts:57-59 | A `Content-Type` the caller spelled in any letter case is kept, even when a body is present. |
| `PearClient.PearFetch` | backend/src/pearClient.ts:33-68 | The call succeeds iff both settings are set. A missing base is reported before the token is read. On success there is one request: its URL is the stripped base followed by the normalised path, its headers are the merged ones with the bearer token, and its method, body and other options are the caller's, unchanged. |
| `PearClient.BaseUrlErrorReportedFirst` | backend/src/pearClient.ts:37-50 | With neither setting present, the reported error is the `PEAR_API_BASE` one, with its exact message. |
| `PearClient.NoBodyNoDefaultContentType` | backend/src/pearClient.ts:57-59 | With no body, or an empty-string body, the request has a `Content-Type` only if the caller supplied one. |
| `PearAuthSetup.ConfigReport` | scripts/pear-auth-setup.ts:61-66 | The diagnostic has one line per required setting, in the order `PEAR_API_BASE`, `PEAR_CLIENT_ID`, `PEAR_USER_ADDRESS`, `PEAR_USER_PRIVATE_KEY`. Each line is marked set iff that setting is present and non-empty. |
| `PearAuthSetup.ReadConfig` | scripts/pear-auth-setup.ts:56-68 | The configuration is read iff all four settings are present and non-empty, and it holds their exact values. Otherwise the failure carries the diagnostic, in which at least one setting is marked not set. |
| `PearAuthSetup.ChallengeUrl` | scripts/pear-auth-setup.ts:72-74 | The challenge URL starts with the configured base exactly as given, followed by `/auth/eip712-message?address=`. Everything after that prefix is exactly the encoded address, `&clientId=` and the encoded client id, with nothing in between. |
| `PearAuthSetup.NormalizeKey` | scripts/pear-auth-setup.ts:92-94 | The key given to the wallet always starts with `0x`. A key that already has the prefix is unchanged, and any other key gets `0x` in front. |
| `PearAuthSetup.NormalizeKeyIdempotent` | scripts/pear-auth-setup.ts:92-94 | Normalising a normalised key changes nothing. |
| `PearAuthSetup.LoginBody` | scripts/pear-auth-setup.ts:112-117 | The login body has method `eip712`, the configured address (not the wallet's), the configured client id and the given signature. |
| `PearAuthSetup.ExpiresAt` | scripts/pear-auth-setup.ts:141-145 | An expiry is computed iff `expiresIn` is present and non-zero, and it lies `expiresIn * 1000` ms after now. Whether that is a valid date is checked separately, by the step that formats it. |
| `PearAuthSetup.ExpiryExamples` | scripts/pear-auth-setup.ts:141-145 | `expiresIn = 3600` gives now + 3 600 000 ms. Zero or an absent value gives no expiry. `expiresIn = 10^13` with a non-negative now is not a valid date. |
| `PearAuthSetup.Step` | scripts/pear-auth-setup.ts:70-156 | A finished run (`Authenticated` or `Failed`) does not move. Any other phase advances exactly one stage along the happy path or fails. A step only appends to the trace, at most one effect at a time. |
| `PearAuthSetup.Run` | scripts/pear-auth-setup.ts:55-157 | Every run ends in `Authenticated` or `Failed` after at most three effects. |
| `PearAuthSetup.ExitStatus` | scripts/pear-auth-setup.ts:150-156 | The exit status is 0 exactly for an authenticated run and 1 exactly for a failed one. |
| `PearAuthSetup.MissingConfigAbortsBeforeNetwork` | scripts/pear-auth-setup.ts:61-68 | If any of the four settings is missing or empty, the run fails with the missing-configuration reason and exit status 1, and it has issued no request. |
| `PearAuthSetup.ChallengeRejectionAborts` | scripts/pear-auth-setup.ts:81-86 | A non-ok challenge reply fails the run with that reply's status and body text, with exit status 1. The only effect is the challenge GET, so there is no signing and no login. |
| `PearAuthSetup.SignsIffAddressMatches` | scripts/pear-auth-setup.ts:97-107 | Signing happens iff the configuration is complete, the challenge arrived and parsed, and the wallet's address equals `PEAR_USER_ADDRESS` up to case. Otherwise the trace holds only the GET, so there is no signing and no login. |
| `PearAuthSetup.AddressMismatchAborts` | scripts/pear-auth-setup.ts:97-101 | When the wallet's address differs from `PEAR_USER_ADDRESS`, ignoring case, the run fails with both addresses and exit status 1. The only effect is the challenge GET, so there is no signing and no login. |
| `PearAuthSetup.StepsInOrder` | scripts/pear-auth-setup.ts:71-126 | The trace is a prefix of: the challenge GET, then the signing, then the login POST to `PEAR_API_BASE + "/auth/login"`. |
| `PearAuthSetup.LoginBodyCarriesSignature` | scripts/pear-auth-setup.ts:103-126 | The signing covers the fetched domain, types and message, unmodified, with the normalised key. The login POST carries exactly the signature that signing produced, with the configured address and client id. |
| `PearAuthSetup.LoginRejectionAborts` | scripts/pear-auth-setup.ts:128-133 | A non-ok login reply fails the run with that reply's status and body text, with exit status 1, after the POST was sent. |
| `PearAuthSetup.ExpiryOutOfRangeAborts` | scripts/pear-auth-setup.ts:141-156 | An ok login whose expiry lies more than 8.64e15 ms from the epoch fails with exit status 1. The printed tokens are kept in the failure, because `toISOString` throws after they were printed. |
| `PearAuthSetup.SuccessfulRun` | scripts/pear-auth-setup.ts:119-156 | The run is authenticated iff every stage succeeds: complete configuration, an ok and parsed challenge, a matching address, a signature, an ok and parsed login reply, and a valid expiry date. Then it has exactly the provider's tokens, exit status 0 and three effects, and an expiry is reported iff `expiresIn` is truthy. |
| `Bets.SideOf` | backend/src/routes/bets.ts:27 | A side is recognised only when the value is exactly the string `left` or `right`, under strict equality. |
| `Bets.Validate` | backend/src/routes/bets.ts:21-33 | The request is accepted iff it satisfies the declarative `ValidBetRequest`. The missing-fields error is reported iff some field is falsy. A side error means the side is not `left` or `right`. A stake error means the side was valid but the stake is not a positive number. |
| `Bets.MakeBet` | backend/src/routes/bets.ts:35-42 | The bet built for an accepted request has the given id and timestamp, and the request's theme id, side and stake. Its theme id is truthy, its stake is positive and its status is `pending`. |
| `Bets.PostBet` | backend/src/routes/bets.ts:20-46 | The reply is 201 iff the request is valid. Otherwise it is 400, with the ledger unchanged and the message of the first failing stage. A 201 appends exactly one bet to the end. That bet has the given id, theme id, side, stake and timestamp, and status `pending`. POST preserves the ledger invariant. |
| `Bets.GetBets` | backend/src/routes/bets.ts:16-18 | GET answers 200 with the ledger as it stands, and leaves it unchanged. |
| `Bets.PostsAppendInOrder` | backend/src/routes/bets.ts:14-46 | After any series of POSTs, the ledger is the old ledger followed by the bets of the accepted requests, in arrival order. |
| `Bets.PostsPreserveInvariant` | backend/src/routes/bets.ts:14-46 | Every entry stays well formed through any series of POSTs: truthy theme id, positive stake, status `pending`. |
| `Bets.GetAfterPosts` | backend/src/routes/bets.ts:16-18 | Starting from an empty ledger, GET returns status 200 and exactly the accepted bets in insertion order, all well formed. It leaves the ledger unchanged. |
| `Bets.ZeroStakeIsMissing` | backend/src/routes/bets.ts:23-25 | A stake of `0` is falsy. It is reported as a missing field, and the ledger is unchanged. |
| `Bets.SideCheckedBeforeStake` | backend/src/routes/bets.ts:27-33 | A bad side together with a non-number stake reports the side error, because the stages run in order. |
| `Bets.UnknownThemeAccepted` | backend/src/routes/bets.ts:21-38 | A theme id that names no catalog theme is still accepted and stored. |
| `Themes.GetThemeById` | backend/src/routes/themes.ts:76-78 | A returned theme is a catalog entry whose id is the query. Nothing is returned iff no entry has that id. A returned entry is preceded only by entries with other ids, so it is the first match. |
| `Themes.CatalogIdsDistinct` | backend/src/routes/themes.ts:15-74 | The catalog has three themes, `ai-vs-meme`, `eth-vs-btc` and `sol-vs-l2s`, in that order, and their ids are pairwise distinct. |
| `Themes.LookupFindsEntry` | backend/src/routes/themes.ts:76-78 | In a catalog with distinct ids, looking up any entry's id returns that entry. |
| `Themes.UniqueMatch` | backend/src/routes/themes.ts:76-78 | With distinct ids, any entry carrying the queried id is the one returned. |
| `Themes.ListThemes` | backend/src/routes/themes.ts:80-82 | GET answers 200 with the catalog it is given, in order. |
| `Themes.ListedThemesResolve` | backend/src/routes/themes.ts:80-82 | GET returns status 200 and exactly `Catalog`. Looking up each listed id gives back that very entry, and an unknown id gives nothing. |

## Left out

- Network, JSON parsing and process I/O: `fetch` is not performed. `pearFetch` returns the
  request it would send. The script's replies are inputs, and `.json()` failing to parse is
  an absent value.
- Reply shapes: the script casts both replies without checking them. A reply that parses
  as JSON of another shape is not modelled. Examples are `{}` (printed as `undefined`
  tokens with exit 0) and a challenge domain with extra fields such as `salt`. The model
  represents only replies of the expected record shape.
- Console output: `console` output is not modelled. A failure is a structured reason plus
  exit status 1, and the reason carries the status and body text the message prints.
- Cryptography: `ethers.Wallet` address derivation and `signTypedData` are uninterpreted
  function inputs. Each returns no value when the library throws.
- `encodeURIComponent` and `Date.now()` are inputs, and so are the random bet id and the
  ISO `createdAt` timestamp, which are parameters of the POST.
- Case folding uses ASCII only. `toLowerCase` folds other letters too, but addresses are
  hexadecimal.
- `Headers` name and value validation: a `TypeError` for an illegal header name, and
  trimming of value whitespace.
- Basket weights in the theme catalog: they are floating-point numbers, and no code depends
  on them.
- `expiresIn` is modelled as an integer number of seconds, and the expiry sum as exact
  integer arithmetic. A non-integer or non-number value, and double rounding of a huge
  sum, are not modelled.
- Stakes are real numbers, and floating-point rounding is not modelled. A numeric literal
  too large for a double (such as `1e400`) parses to Infinity, which the handler accepts as
  a positive stake. That case is not represented.
- A request body that is not an object (`req.body` undefined) is not modelled.
- The React frontend and the express server wiring are not modelled. They are UI and I/O
  glue around the handlers.
