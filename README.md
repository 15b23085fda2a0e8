# Dingolytics web SDK — event template and assembly

A Dafny model of the `DingolyticsSDK` class of the Dingolytics web SDK (`src/index.ts`).
The SDK builds analytics event records. At construction it lays the caller's options over
fixed defaults and builds an event template from the application key, the page address and
facts about the browser. `setUser` then updates the template's user identity in place.
Every tracking call assembles an event by spreading per-call data over the template;
`trackPageView` and `init` are built on that step. Two helpers classify the browser as
mobile and a link as external.

Files:

- `wrappers.dfy` — `Option`, for values that JavaScript may leave `undefined` or `null`.
- `js.dfy` — JavaScript values and plain objects (`map<string, Value>`), and object spread as `Merge`.
- `helpers.dfy` — `Helpers.isMobile` and `Helpers.isExternalLink`.
- `sdk.dfy` — options and their resolution, the `Event` record and its object form, the
  browser snapshot, and the class `SDK` with its `template` field.

Browser globals are not ambient state here. The constructor receives a `Browser` snapshot:
`location.href`, `document.referrer`, `navigator.userAgent`, and what the `platform` library
reports (browser name, user agent, version, OS family and OS version). `location.href` and
`navigator.userAgent` are always strings. The referrer and each of the `platform` facts may be absent.
`location.pathname` is a parameter of `Init`, because the source reads it when `init` runs.
`location.host` is a parameter of `IsExternalLink`, for the same reason.

`_track`, `trackPageView` and `init` return nothing in the source. The assembled event is only
handed to the debug log. In the model they return the event(s) they assemble, so that the
contracts can describe them.

The mobile pattern `/Android|webOS|iPhone|iPad|iPod|BlackBerry|IEMobile|Opera Mini/i` is modelled
as a case-insensitive substring test over the eight tokens, with ASCII case folding. This matches
the pattern exactly. The `i` flag of a non-Unicode JavaScript pattern never maps a non-ASCII
character onto an ASCII one, and every token is ASCII.

## Model

| member | source | states |
|---|---|---|
| `Js.MergeLaw` | src/index.ts:101-102 | The spread result has the keys of both objects; every key of the per-call data takes the data's value; every other key keeps the template's value. |
| `Helpers.ContainsFoldedIff` | src/index.ts:39-40 | The left-to-right scan finds a token exactly when the token occurs, ignoring case, at some position of the user agent. |
| `Helpers.AnyTokenIn` | src/index.ts:39-40 | The alternation holds exactly when some token of the list occurs, ignoring case, somewhere in the user agent. |
| `Helpers.IsMobile` | src/index.ts:38-41 | `isMobile` is true if and only if one of the eight tokens occurs, ignoring case, in the user agent. |
| `Helpers.IsMobileIgnoresCase` | src/index.ts:39 | Two user agents that differ only in letter case are classified alike. |
| `Helpers.TokenMakesMobile` | src/index.ts:39-40 | A user agent that contains any of the eight tokens, whatever surrounds it, is mobile. |
| `Helpers.IsExternalLink` | src/index.ts:34-36 | The result is the JavaScript truthiness of the value of `link && link.href && link.host && link.host !== location.host`. That holds if and only if the link exists, has a non-empty `href` and a non-empty `host`, and that host differs from the current page host. |
| `Helpers.ExternalLinkChainValue` | src/index.ts:34-36 | The value the helper returns is `true` for an external link. Otherwise it is the chain's first falsy operand: `null` for a missing link, `""` for an empty address or host, `false` for a link to the page's own host. |
| `Helpers.ExternalExactlyOffItsHost` | src/index.ts:34-36 | A link with an address and a host is external on every page host except its own. |
| `Dingolytics.Resolve` | src/index.ts:51-60 | Each toggle the caller supplies keeps the caller's value. Each toggle left out takes its default: `debug` false, `autoTrackPageViews` true, `autoTrackLinks` true, `autoTrackDownloads` false, `autoTrackForms` false. `app` and `dsn` come from the caller. |
| `Dingolytics.ResolveIsSpread` | src/index.ts:51-60 | Resolving field by field gives the same object as the spread `{...defaults, ...options}`. |
| `Dingolytics.OrEmpty` | src/index.ts:68-74 | The field is the JavaScript value of the logical-or fallback from the fact to `""` (`Js.Or`): the fact when present, `""` when absent. |
| `Dingolytics.UserId` | src/index.ts:88 | The stored user id is the JavaScript value of `userId ? userId : null`. It is present exactly when the given id is a non-empty string, and is then that id. |
| `Dingolytics.UserProps` | src/index.ts:89 | The stored user properties are the JavaScript value of `userProps ? userProps : {}`: the given object when one is given, `{}` otherwise. |
| `Dingolytics.EventObjectKeys` | src/index.ts:61-75 | Every template and event record has exactly the thirteen fields of the `Event` type. |
| `Dingolytics.PageViewIsRecordUpdate` | src/index.ts:97-102 | Spreading `{name: "page_view", path}` over a template is the record with only `name` and `path` replaced. |
| `Dingolytics.UserIdField` | src/index.ts:88 | Setting a record's user id changes its `user_id` key and no other key. |
| `Dingolytics.AssembledEventComplete` | src/index.ts:101-102 | Whatever the per-call data, an assembled event has every template field, and each field the data does not name keeps the template's value. |
| `Dingolytics.SDK.constructor` | src/index.ts:49-77 | The options are the resolved options. The template has `app` from the options, `name` `""`, `path` the current href, `props` `{}`, `user_id` `null` and `user_props` `{}`. Each browser, OS and referrer field is the supplied value, or `""` when absent. `is_mobile` is the classification of `navigator.userAgent`. |
| `Dingolytics.SDK.Init` | src/index.ts:79-85 | When `autoTrackPageViews` is on, exactly one page-view event is assembled, for the current pathname. Otherwise none is. The template does not change. |
| `Dingolytics.SDK.SetUser` | src/index.ts:87-91 | The template's `user_id` and `user_props` follow the truthiness rules. Every other template field and the options stay as they were. |
| `Dingolytics.SDK.TrackEvent` | src/index.ts:93-95 | `trackEvent` changes neither the options nor the template. |
| `Dingolytics.SDK.TrackPageView` | src/index.ts:97-99 | The event is the current template with `name` `"page_view"` and `path` the argument; every other field equals the template's. |
| `Dingolytics.SDK.Track` | src/index.ts:101-104 | The event is the template with the data spread over it. Every key of the data takes the data's value; every other template field keeps the template's value. The template is not modified. |
| `Dingolytics.IdentityScoping` | src/index.ts:87-102 | A page view assembled before `setUser` carries `user_id` `null`. The same page view assembled afterwards differs from it only in carrying the new user id. |

## Left out

- Debug logging (`_log`, `console.log`; src/index.ts:76, 80, 90, 94, 103) has no effect on the data and is not modelled. The `_log` field is therefore absent from `SDK`.
- `trackEvent` (src/index.ts:93-95) only writes to the debug log. `SDK.TrackEvent` does nothing and, having no `modifies` clause, changes nothing.
- The `platform` library is not part of this model. Its report enters as the optional strings of `Platform` and `Os`.
- `Helpers.IsExternalLink` returns a boolean, the truthiness of the source's return value. That value itself is `Helpers.ExternalLinkChain`, and `Helpers.ExternalLinkChainValue` states what it is. Nothing in `src/index.ts` calls the helper.
- A missing JavaScript value is modelled as `null` only. `undefined` behaves the same under `&&`, `||`, `?:` and truthiness, which is all the model applies to it.
- `Dingolytics.Resolve`: an option key that the caller supplies with the value `undefined` replaces the default with `undefined` in the source. The model has no such value (`None` is a key left out). Extra keys of the caller's options object are not kept either.
- Object identity is not modelled: `setUser` stores the caller's `userProps` object by reference, so later changes the caller makes to it show in the template. The model stores a value.
- The order of keys in the assembled objects, and numeric values, are not modelled.
- `autoTrackLinks`, `autoTrackDownloads` and `autoTrackForms` are resolved but never read by the source. There are no link, download or form listeners, no client identifier storage and no delivery to the collection endpoint in `src/index.ts`, so the model has none.
- `webpack.config.js` is build configuration with no run-time behaviour.
