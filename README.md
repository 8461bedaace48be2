# API access layer and menu-authority rule, modelled in Dafny

This project models two pieces of a Spring + Vue sample application.

- **The browser-side API access layer** (`vue/src/utils/apis.ts`). The six list/get/post/put/patch/delete calls each send one HTTP request. A call turns the response, or the transport error, into an `ApiDataResult` (`code`, `data`, `message`, `paginationTotalLength`). When the request resolved, the call also:
  - redirects to the login route when the result code says the session is invalid (`F004`, `F011`);
  - resets the shared inactivity timer;
  - for create/update/delete calls, and only when the caller asks, shows a success or error toast chosen by the code's first letter (`S` means success).

  A rejected request takes none of these steps. It goes only through `getErrorResult`.

  Two helpers cache reference data in the browser's key/value store: code lists under `code__<group>` and variables under `variable__<name>`. They send a request only when the key is missing. They return the bare data rather than an `ApiDataResult`: a list (`[]` on failure), or a text, `undefined` or `null`. A spreadsheet download sends one request and takes its file name from the `content-disposition` header. It has no try/catch, so a transport error reaches the caller as a rejection.
- **The checked-flag rule of the admin menu-authority service** (`AdminMenuAuthorityService.getItems`). Every menu is reported with a `checked` flag. Menu 1 is always checked. Any other menu is checked when the authority's stored `menuIdList` contains `^|<id>,`.

How the model is built:

- Module `Apis` (`apis.dfy`) is the API layer.
  - The HTTP client is not modelled. What a request ends in is an input, `Outcome` (a resolved body or an `AxiosError`), or `DownloadOutcome` for the download.
  - The router, the store's `timer` mutation, the toast plugin and the file download become `Event`s appended to a log.
  - `ApiClient` is a class. Its `storage` field is a `map` standing for `Vue.$storage`, and its `events` field is the log. Its methods are the exported calls.
  - Pure functions state what each call returns and logs: `ErrorResult`, `LogoutEvents`, `AlertEvents`, `CallEvents`, `CodeListStep`, `VariableStep`, `DownloadEvents`. Each method's `ensures` ties its result and new state to one of them, and the lemmas prove the layer's promises about those functions.
- Module `MenuAuthority` (`menu_authority.dfy`) is the checked-flag rule. It is a function from the list of menu ids and the optional `menuIdList` string to one `(id, checked)` item per menu. Java's null is `None`.
- Module `Strings` (`strings.dfy`) holds the text helpers both modules share:
  - the decimal text of an integer, with its inverse `ParseInt`;
  - substring search, as `StringUtils.contains` does it;
  - `'/'`-terminated segments;
  - "text after the last separator" and "remove every occurrence of a character".
- Module `JsValues` (`js_values.dfy`) holds `Option`, `string | number` keys, JavaScript truthiness, and the text `${x}` makes of a key.

Three behaviours of the code are easy to overlook. The model follows the code in each:

- The cached lookups run the session-expiry check on a miss whose request resolved: the response passes through `logoutChecker` (apis.ts:173, apis.ts:197), so such a miss can redirect to the login route and resets the timer. A miss whose request is rejected goes straight to the `catch` and returns `[]` or `null` without `logoutChecker` (apis.ts:180-183, apis.ts:204-207). `CodeListStep` and `VariableStep` log exactly these events.
- A delivered download commits `timer` (apis.ts:271), and `DownloadEvents` logs a `TimerReset` there.
- A resolved variable lookup returns `response.data.data`, which is `undefined` when the body carries no data (apis.ts:198-203); a rejected one returns `null` (apis.ts:204-207). `Nullable` keeps `Null` and `Undefined` apart.

One consequence of the code shows up in `CallSessionEffects`: a session-invalid code redirects only when the request *resolved*. If the server sends `F004` in the body of an error status, the HTTP client rejects the request. The rejected request goes through `getErrorResult`, which never redirects to the login route.

## Model

| member | source | states |
|---|---|---|
| `Apis.ErrorResult` | vue/src/utils/apis.ts:26-36 | With a response body whose message is non-empty: the body's code and message, verbatim. Otherwise: code `F000` and the transport error's message. Never any data or pagination. |
| `Apis.ApiClient.GetErrorResult` | vue/src/utils/apis.ts:21-37 | Returns `ErrorResult(error)`. Outside production it first logs a navigation to `/Code500`; in production it logs nothing. |
| `Apis.LogoutCheckerEffects` | vue/src/utils/apis.ts:219-224 | Logs at most one login navigation, and exactly one exactly when the code is `F004` or `F011`. Logs exactly one timer reset for every code. Shows no toast. |
| `Apis.ApiClient.LogoutChecker` | vue/src/utils/apis.ts:219-224 | Appends exactly `LogoutEvents(code)` to the log: the login navigation for session-invalid codes, then the timer reset. |
| `Apis.AlertFiresOneToast` | vue/src/utils/apis.ts:211-217 | Exactly one toast, carrying the result's message. It is a success toast if and only if the code starts with `S`, and an error toast otherwise. |
| `Apis.AlertExamples` | vue/src/utils/apis.ts:211-217 | `S001` gives a success toast. `F001` and the empty code give an error toast. |
| `Apis.ApiClient.AlertResponseMessage` | vue/src/utils/apis.ts:211-217 | Appends exactly `AlertEvents(data)` to the log. |
| `Apis.CallToasts` | vue/src/utils/apis.ts:78-161 | A call shows one toast if it asked for one and its request resolved, and none otherwise. So `alert = false` never toasts, and a rejected request never toasts. |
| `Apis.CallSessionEffects` | vue/src/utils/apis.ts:39-161 | A call redirects to `/login?need=login` once if its request resolved with `F004`/`F011`, and never otherwise. It resets the timer once if the request resolved, and never if it was rejected. |
| `Apis.CallSendsOneRequest` | vue/src/utils/apis.ts:39-161 | A call logs its request first and logs that request exactly once. |
| `Apis.ApiClient.Call` | vue/src/utils/apis.ts:40-48 | The shared try/catch. Logs the request and returns the body if it resolved, `ErrorResult` if rejected. The log grows by exactly `CallEvents`. |
| `Apis.ApiClient.GetList` | vue/src/utils/apis.ts:39-49 | Requests `GET <url>` with the url unchanged. Settles without toasts. |
| `Apis.ApiClient.GetData` | vue/src/utils/apis.ts:51-64 | Requests `GET api/<url><id>`, with nothing appended for a missing or zero id. Settles without toasts. |
| `Apis.DataUrlId` | vue/src/utils/apis.ts:57 | A missing or zero id leaves `api/<url>`. Any other id is appended as its decimal text, and parsing that suffix gives the id back. |
| `Apis.ApiClient.GetApi` | vue/src/utils/apis.ts:66-76 | Requests `GET api/<url>`. Settles without toasts. |
| `Apis.ApiClient.PostData` | vue/src/utils/apis.ts:78-97 | Requests `POST api/<url>`. Settles, with a toast when `alert` is set; `alert` defaults to `true`. |
| `Apis.ApiClient.PutData` | vue/src/utils/apis.ts:99-119 | Requests `PUT api/<url><makeUrlKey(key)>`. Settles, with a toast when `alert` is set; `alert` defaults to `true`. |
| `Apis.ApiClient.PatchData` | vue/src/utils/apis.ts:121-141 | Requests `PATCH api/<url><makeUrlKey(key)>`. Settles, with a toast when `alert` is set; `alert` defaults to `true`. |
| `Apis.ApiClient.DeleteData` | vue/src/utils/apis.ts:143-161 | Requests `DELETE api/<url><makeUrlKey(key)>`. Settles, with a toast when `alert` is set; `alert` defaults to `true`. |
| `Apis.MakeUrlKey` | vue/src/utils/apis.ts:226-239 | A plain key gives exactly its text followed by `/`. A composite key gives the `/`-terminated join of its present parts (`UrlKey`). |
| `Apis.UrlKeySegments` | vue/src/utils/apis.ts:227-235 | The segment ends in `/`. Cut at `/`, it gives back exactly the present parts: the key, then key2 if truthy, then key3 if non-empty, in that order, with no placeholder for an absent part. This holds when no part holds a `/` itself. |
| `Apis.NumericUrlKeySegments` | vue/src/utils/apis.ts:227-235 | For a key whose parts are numbers, with a key3 holding no `/`, cutting the segment at `/` always gives back exactly the present parts; the condition of `UrlKeySegments` holds by itself. |
| `Apis.UrlKeyExamples` | vue/src/utils/apis.ts:226-239 | `5` gives `5/`. `{key:1,key2:2}` gives `1/2/`. `{key:1,key3:"x"}` gives `1/x/`. A falsy key2 (`0`, `""`) or an empty key3 is omitted. |
| `Apis.CacheKeysDistinct` | vue/src/utils/apis.ts:166-190 | Code-list keys, variable keys and `accessToken` never collide. Each key names one group or one variable. |
| `Apis.CodeListStep` | vue/src/utils/apis.ts:163-185 | The lookup keeps the store well typed. It either leaves the store alone or writes only `code__<group>`, with the list it returns. |
| `Apis.CodeListHit` | vue/src/utils/apis.ts:166-167 | On a hit: returns the stored list, sends no request, and changes nothing. |
| `Apis.CodeListMiss` | vue/src/utils/apis.ts:168-183 | On a miss it sends exactly one `GET api/codes/<group>`, first. If the request is rejected: returns `[]`, logs nothing more and writes nothing. If it resolves: returns the data or `[]`. The key is stored if and only if the request resolved with a non-empty list. |
| `Apis.CodeListServedAfterSuccess` | vue/src/utils/apis.ts:163-185 | After a lookup that returned a non-empty list, the next lookup of that group returns the same list from the store, sends no request and changes nothing, whatever its own request would have done. |
| `Apis.CodeListRetriedAfterEmpty` | vue/src/utils/apis.ts:174-182 | A miss that returned `[]` (failed or empty) leaves the store unchanged, so the next lookup sends a request again. |
| `Apis.ApiClient.GetCodeList` | vue/src/utils/apis.ts:163-185 | The returned list, the new store and the appended events are exactly those of `CodeListStep` on the old store. The store stays well typed. |
| `Apis.VariableStep` | vue/src/utils/apis.ts:187-209 | The lookup keeps the store well typed. It either leaves the store alone or writes only `variable__<name>`, with the text it returns. |
| `Apis.VariableHit` | vue/src/utils/apis.ts:190-191 | On a hit: returns the stored text, sends no request, and changes nothing. |
| `Apis.VariableMiss` | vue/src/utils/apis.ts:192-207 | A miss sends exactly one `GET api/variables/<name>`, first. A rejected request returns null and writes nothing. A resolved one returns its data, or `undefined` when there is none. The key is stored if and only if the data is a non-empty string. |
| `Apis.VariableServedAfterSuccess` | vue/src/utils/apis.ts:187-209 | After a lookup that returned a non-empty string, the next lookup returns it from the store with no request and no change. |
| `Apis.ApiClient.GetVariable` | vue/src/utils/apis.ts:187-209 | The returned value, the new store and the appended events are exactly those of `VariableStep` on the old store. The store stays well typed. |
| `Apis.DownloadFileName` | vue/src/utils/apis.ts:261-265 | The file name never contains `=` or `;`. |
| `Apis.DownloadFileNameAfterLastEquals` | vue/src/utils/apis.ts:261-265 | For a header `p=x` where `x` holds no `=`, the name is `x` with every `;` removed, whatever `p` holds. |
| `Apis.DownloadFileNameWithoutEquals` | vue/src/utils/apis.ts:261-265 | A header without `=` gives the whole header with every `;` removed. |
| `Apis.DownloadFileNameExample` | vue/src/utils/apis.ts:261-265 | `attachment; filename=report.xlsx` gives `report.xlsx`. |
| `Apis.DownloadOutcomes` | vue/src/utils/apis.ts:241-273 | The file is delivered if and only if the response arrived with a content-disposition header. A transport error comes back as a rejection, not as an `ApiDataResult`. The timer is reset once on delivery and never otherwise. |
| `Apis.ApiClient.GetExcel` | vue/src/utils/apis.ts:241-273 | Logs the request with its base URL (`API_HOST` or `http://localhost:8080/`) and the stored access token. On delivery it then logs the file-save event and the timer reset. It returns `DownloadResultOf(o)`. |
| `MenuAuthority.CheckedItems` | src/main/java/com/github/bestheroz/sample/api/admin/menu/AdminMenuAuthorityService.java:22-26 | One item per menu, in order. Item `i` carries menu `i`'s id, checked exactly by the rule: id 1, or `^|<id>,` occurs in the list. |
| `MenuAuthority.FirstMenuAlwaysChecked` | src/main/java/com/github/bestheroz/sample/api/admin/menu/AdminMenuAuthorityService.java:24 | Menu 1 is checked whatever `menuIdList` holds. |
| `MenuAuthority.NoListOnlyFirstMenu` | src/main/java/com/github/bestheroz/sample/api/admin/menu/AdminMenuAuthorityService.java:21-24 | With no authority row the list is null, and a menu is checked if and only if it is menu 1. |
| `MenuAuthority.EncodedMembership` | src/main/java/com/github/bestheroz/sample/api/admin/menu/AdminMenuAuthorityService.java:24 | On a list made of `^|<id>,` entries, `^|<x>,` occurs if and only if `x` is one of the listed ids. The delimiters prevent partial matches. |
| `MenuAuthority.CheckedIffListed` | src/main/java/com/github/bestheroz/sample/api/admin/menu/AdminMenuAuthorityService.java:22-26 | With a stored list of ids, a menu is checked if and only if it is menu 1 or is listed. |
| `MenuAuthority.DelimitersExample` | src/main/java/com/github/bestheroz/sample/api/admin/menu/AdminMenuAuthorityService.java:24 | The list `^|12,` checks menu 12. It does not check menu 2, and it does not match menu 1's entry. |
| `Strings.ContainsOccurs` | src/main/java/com/github/bestheroz/sample/api/admin/menu/AdminMenuAuthorityService.java:24 | The recursive search holds if and only if the text occurs at some position of the string. |
| `Strings.IntTextInjective` | src/main/java/com/github/bestheroz/sample/api/admin/menu/AdminMenuAuthorityService.java:24 | Two ids have the same decimal text if and only if they are equal. |
| `Strings.ParseIntText` | vue/src/utils/apis.ts:57 | Parsing the decimal text of an integer gives the integer back. |

## Left out

- HTTP transport is not modelled: the axios instances, the base URL of the shared client, headers, the blob response type, timeouts. The outcome of each request is an input.
- Request bodies of post/put/patch are handed to the HTTP client unchanged. The log records only the method and the URL.
- A response without a JSON body is not modelled: a resolved response is always taken to carry an `ApiDataResult`. This matters for `deleteDataApi`, whose own comment expects an HTTP 204 (apis.ts:153). On a 204, `response.data` is `""`, so `logoutChecker` sees no code (no redirect, one timer reset), and with `alert` set `startsWith(undefined, 'S')` is false, so the delete shows an error toast with an undefined message. `Apis.ApiClient.DeleteData` describes only responses that carry a body.
- A resolved body whose `data` is JSON `null` (for example `Result.ok(value)` with an unset value) is not told apart from one with no `data`: both are `None`. So `VariableMiss` reports `undefined` where the code would return `null`; in both cases nothing is stored.
- `ErrorBody.code` is a string that is always present. A server body with a message but no code, which the code would copy through as `undefined`, is not modelled.
- Numbers are integers. Fractions, `NaN` and JavaScript's exponent notation for very large numbers are not modelled.
- `console.error` in `getErrorResult` is left out, because it has no effect on the contract. The `/Code500` redirect is kept, behind the `production` flag.
- DOM download mechanics are left out: object URLs, the temporary anchor, the click, the revoke. A delivered file is a `SaveFile(name)` event.
- Async/await interleaving is left out. Calls run one after another, and no concurrency guarantees exist in the source.
- The router, `store.commit` and the toast plugin are log entries, not effects. A redirect that itself fails is not modelled.
- `WellTypedStore`: the store is assumed to hold code lists under `code__` keys and text under `variable__` keys. That is what this layer writes. Values written there by other code, of another shape, are not modelled.
- `MenuService`, `TableMenuAuthorityRepository` and the field copying by `MapperUtils` are not part of this model. `getItems` takes the menu ids and the stored `menuIdList` string. A null menu id, which would throw, is not modelled.
- `vue/src/main.ts`, `vue/src/plugins/vue-toasted.ts`, `VariableController.java` and the Lombok/JPA data holders (`TableMenuVO`, `MenuVO`, `TableCodeGroupEntity`) are configuration or data only.
