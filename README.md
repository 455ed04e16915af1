# IVASMS client session logic in Dafny

This project models the session-acquisition core of the IVASMS scraping client (`app.py`).
The client logs into an SMS-reception portal and keeps two fields, `logged_in` and
`csrf_token`, plus its cookie jar. The model covers four pieces:

- **Cookie loading** (`load_cookies`). The cookie text comes from a non-empty `COOKIES_JSON`
  environment value, otherwise from the cookie file. A JSON object is returned as it is. A JSON
  list is folded into a name-to-value map in a loop. Anything else, a missing file or invalid
  JSON gives `None`.
- **Response decoding** (`decompress_response`). The lower-cased `Content-Encoding` header picks
  gzip, brotli or no decompression. A failing decompressor falls back to the transport's text.
- **The two login attempts** (`login_with_cookies`, `direct_login`), as a class `Client` whose
  methods update `loggedIn`, `csrfToken` and `jar`. Each method is proved equal to a pure step
  function over a `Session` value, and the properties are stated on those functions.
- **Their ordering** (`initialize_client`, `before_request`). The credential login runs only
  after the cookie login fails. The guard runs `initialize_client` only while not logged in, so
  `logged_in`, once set, stays set and later requests change nothing.

Each HTTP exchange is an input `Reply`: the request raised, or a status code, final URL,
`Content-Encoding` header, raw body and text. JSON parsing, the HTML parser and the codecs are
function-typed fields of `Libraries`. The HTML parser is reduced to what the client looks for:
the `_token` input (with its possibly missing `value`) and a link whose `href` contains `logout`.

Two behaviours of the code are easy to miss:

- A credential login sets `logged_in` as soon as the POST lands on a URL containing `dashboard`
  or `portal`. If the received-SMS page then fails, the login still reports failure, leaving
  `logged_in` true (`Auth.LoggedInWithoutSuccess`).
- A cookie login that finds only a logout link keeps the previous `csrf_token`.

Files: `wrappers.dfy` (Option), `text.dfy` (substring test, lower-casing), `decoding.dfy`,
`cookies.dfy`, `auth.dfy`.

## Model

| member | source | states |
|---|---|---|
| `Text.ContainsMeansOccurs` | app.py:140 | The substring scan used for Python's `in` on strings holds exactly when the substring occurs at some index. |
| `Text.Lower` | app.py:41 | Lower-casing keeps the length and lowers each character on its own. |
| `Text.LowerEqualsLowerCase` | app.py:41-49 | Comparing a lower-cased header with a lower-case literal is a case-insensitive comparison. |
| `Decoding.SelectCodec` | app.py:41-49 | gzip is chosen exactly when the header equals `gzip` ignoring case, and brotli exactly when it equals `br` ignoring case. An absent header selects no decompression. |
| `Decoding.DecodeBody` | app.py:39-53 | With no decompression the raw body is decoded as UTF-8. With gzip or brotli the decompressed body is decoded when decompression succeeds, and the transport's text is returned when it fails. |
| `Decoding.GzipRoundTrip` | app.py:44-53 | A gzip body that decompresses to `plain` reads as the UTF-8 text of `plain`, whatever the header's case. A corrupted one yields the transport's text. |
| `Decoding.OtherEncodingsPassThrough` | app.py:41-50 | Any other encoding, or none, never consults the decompressors: the body is decoded as it is. |
| `Cookies.Action` | app.py:70-72 | Only an object record with `name` and `value` and a string name stores a cookie, and it stores exactly that name and value. An object lacking either entry is skipped. A record raises exactly when it is a number, boolean or null; a string containing both `name` and `value`; a list holding both strings; or an object whose `name` is a list or object. |
| `Cookies.FoldFailsIffAbort` | app.py:69-86 | Folding a cookie list yields `None` exactly when some element raises. |
| `Cookies.FoldKeys` | app.py:69-74 | A successful fold has exactly the names of the storing elements as keys. |
| `Cookies.FoldLastWins` | app.py:69-74 | A successful fold maps each name to the value of the last element storing that name. |
| `Cookies.Normalize` | app.py:65-77 | An object comes back unchanged. A list gives `None` iff an element raises; otherwise its keys are the stored names, with the last value winning. Any other JSON value gives `None`. |
| `Cookies.EnvTakesPrecedence` | app.py:57-59 | With a non-empty `COOKIES_JSON` the file never matters. Its parsed value is what gets normalised, and invalid JSON there gives `None`. |
| `Cookies.FileWhenEnvUnset` | app.py:57-83 | An empty `COOKIES_JSON` behaves as an unset one, and then the file's parsed contents are what gets normalised. A missing or unreadable file or invalid JSON gives `None`. |
| `Cookies.LoadCookies` | app.py:55-86 | The loop-based loader returns exactly the specified result, including the early `None` when an element raises mid-loop. |
| `Auth.CookieLoginStep` | app.py:163-202 | Absent or empty cookies: failure with the state untouched. Otherwise the jar is replaced by the non-null cookies. Success iff status 200 and the decoded page shows a token input or a logout link. `logged_in` becomes true on success. `csrf_token` is overwritten only when the token input is present. |
| `Auth.LoginForm` | app.py:107-127 | A form is posted iff the login page answered 200 with a `_token` input. The form carries exactly that input's value, the credentials and `remember=on`. |
| `Auth.DirectLoginStep` | app.py:101-161 | `logged_in` becomes true iff a form was posted and its reply landed (200, URL with `dashboard` or `portal`). Success iff it landed and the received-SMS page answered 200 with a token input. `csrf_token` changes only on success. The jar is untouched. |
| `Auth.LoggedInWithoutSuccess` | app.py:138-157 | When the POST lands but the received-SMS page fails, `direct_login` returns false with `logged_in` true and `csrf_token` unchanged. |
| `Auth.InitializeStep` | app.py:209-226 | A successful cookie login is the whole run. Otherwise the run is the credential login from the state the cookie login left, with the jar already replaced. The run succeeds iff either attempt does. `logged_in` is never cleared, and a successful run leaves it true. |
| `Auth.CredentialsOnlyAfterCookieFailure` | app.py:211-223 | When the cookie login succeeds, the run is exactly that cookie login, and the credential inputs make no difference. |
| `Auth.BeforeRequestStep` | app.py:233-239 | When logged in, the guard leaves the state as it is. Otherwise it is the state after `initialize_client`. |
| `Auth.LoggedInIsFinal` | app.py:236-239 | From a logged-in state, any number of guarded requests leaves the state unchanged. |
| `Auth.LoggedInNeverCleared` | app.py:233-239 | If `logged_in` holds after the first `k` requests, the state after all requests equals the state after those `k`. |
| `Text.Contains` | app.py:140 | Definition, no contract: Python's `in` on two strings, scanning start positions (its meaning is `Text.ContainsMeansOccurs`). |
| `Cookies.Fold` | app.py:69-74 | Definition, no contract: the map built by the list loop over a prefix of the records, or `None` once an element raised (its meaning is `FoldFailsIffAbort`, `FoldKeys`, `FoldLastWins`). |
| `Cookies.CookieText` | app.py:57-63 | Definition, no contract: a non-empty `COOKIES_JSON` value, else the file's text, else nothing. |
| `Cookies.Loaded` | app.py:55-86 | Definition, no contract: the result of `load_cookies`, against which `LoadCookies` is proved. |
| `Auth.Installed` | app.py:171-173 | Definition, no contract: the jar after clearing and setting each loaded cookie, where setting `None` removes instead. |
| `Auth.CookiePageMarks` | app.py:180-185 | Definition, no contract: what the HTML parser finds in the decompressed text of the cookie-login page. |
| `Auth.TokenOn` | app.py:112-113 | Definition, no contract: the `_token` input of a page that answered 200, read from its plain text (also app.py:145-147). |
| `Auth.Landed` | app.py:138-140 | Definition, no contract: the POST answered 200 at a final URL containing `dashboard` or `portal`. |
| `Auth.Serve` | app.py:233-239 | Definition, no contract: the before-request hook run once per inbound request, in order. |
| `Auth.Client.constructor` | app.py:18-22 | A new client is not logged in, has no token and an empty jar. |
| `Auth.Client.InstallCookies` | app.py:170-173 | After clearing and setting every cookie, the jar holds exactly the loaded cookies whose value is not null. |
| `Auth.Client.LoginWithCookies` | app.py:163-202 | Return value and new fields are those of `CookieLoginStep` on the old fields. |
| `Auth.Client.DirectLogin` | app.py:101-161 | Return value and new fields are those of `DirectLoginStep` on the old fields. Only `loggedIn` and `csrfToken` may change. |
| `Auth.Client.Initialize` | app.py:209-226 | Return value and new fields are those of `InitializeStep`. |
| `Auth.Client.BeforeRequest` | app.py:233-239 | The new fields are those of `BeforeRequestStep`. |

## Left out

- HTTP traffic through cloudscraper and its browser-impersonation headers (app.py:19-37): each exchange is an input `Reply`, and a raised request is the `Raised` reply.
- Cookies the server sets during a login are not modelled: the `jar` field holds only what `login_with_cookies` installs.
- HTML parsing with BeautifulSoup: replaced by the `scan` function, which reports the `_token` input and the presence of a logout link.
- gzip, brotli and UTF-8 decoding: replaced by the `Codecs` functions. A decompressor returns `None` where the library raises.
- JSON text parsing, reading `COOKIES_JSON` and opening the cookie file: inputs of the model. JSON numbers are integers; floating-point values are not modelled.
- Cookies.Action: a list record whose `name` is a number, boolean or null is skipped. Python would store it under a non-string key, which a name-to-value map of strings cannot hold. This also changes the cookie login: for `[{"name": 1, "value": "x"}]` Python gets a non-empty map, so it clears and refills the jar and requests the page (app.py:166-176). The model gets an empty map, so the login returns false with the jar untouched.
- Text.Lower: lowers ASCII letters only. Python's `str.lower` also lowers other scripts; this matters only if a non-ASCII header character lowered to exactly a letter of `gzip` or `br`.
- `save_cookies` (app.py:88-99) and its call after a credential login: best-effort file output whose errors are swallowed. It changes neither `logged_in` nor `csrf_token`.
- The Flask application, the start-up call in the app context, logging, and the default credentials read from the environment (app.py:206-231): the credentials are inputs of `CredentialInputs`.
- Concurrency: the model has one client and handles requests one at a time.
