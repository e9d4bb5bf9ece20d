# WebView shell: navigation decision and home-screen handlers

The application is a mobile shell that shows one website inside an embedded
browser. Its only logic lives in the home screen (`app/index.tsx`):

* **The navigation decision** (`handleShouldStartLoadWithRequest`). Before
  every load, the screen lowercases the requested URL. A URL that starts with
  neither `http://` nor `https://` loads in-app. A network URL loads in-app
  only if it contains the literal `tu-pagina-web.com` somewhere. Any other
  network URL is refused. A refused URL raises one confirmation prompt, and
  its "Abrir" button opens the URL as requested, with its original case, in
  the system browser.
* **The screen handlers.** Load-start and load-end set and clear `isLoading`,
  which starts `true`. Navigation-state events copy the reported `canGoBack`,
  which starts `false`. The hardware back button sends `goBack` and consumes
  the press only when `canGoBack` holds and the browser reference is set. A
  load error raises the connection alert. Its "Reintentar" button reloads the
  browser through the reference.

The project has three modules:

* `Strings` (`strings.dfy`) defines ASCII `toLowerCase`, `startsWith` and
  `includes` character by character. `ToLower` is characterised character by
  character; `StartsWith` and `Contains` are each proved equal to a
  definition over slices.
* `NavigationPolicy` (`navigation_policy.dfy`) holds the decision `Decide`,
  its full characterisation, and the consequences of the substring test.
* `HomeScreen` (`home_screen.dfy`) holds the events as a pure transition
  function `Step`, lemmas about whole traces (`Run`), and the class `Screen`.
  The class's fields are the flags. Its ghost `log` records every command,
  prompt and alert issued. Each handler method is proved to do what `Step`
  says.

The model follows the code on these points:

* The domain test is a substring test on the whole lowercased URL, not a
  comparison with the host. A lookalike host or a query string that mentions
  the domain is permitted (`LookalikeHostPermitted`, `DomainInQueryPermitted`).
* A URL counts as a network URL only when its lowercase form starts with
  `http://` or `https://`, so `ftp://` is permitted.
* The domain searched for is the literal on line 49, not `TARGET_URL`
  (line 17). `Decide` takes the domain as a parameter, and the screen passes
  `OwnDomain`.
* Retry calls `webViewRef.current?.reload()`. It issues one `Reload` when the
  reference is set, and nothing otherwise.
* The back press also requires the reference to be set (line 28).

## Model

| member | source | states |
|---|---|---|
| Strings.ToLower | app/index.tsx:45 | the lowercased URL has the same length, and each character is the ASCII case fold of the original one |
| Strings.ToLowerIdempotent | app/index.tsx:45 | lowercasing an already lowercased URL changes nothing |
| Strings.ToLowerOfSameIgnoringCase | app/index.tsx:45 | two strings that differ only in ASCII letter case have the same lowercase form |
| Strings.ToLowerOfLowercase | app/index.tsx:45 | a string without ASCII capitals is its own lowercase form |
| Strings.StartsWithIff | app/index.tsx:48 | `startsWith(p)` holds exactly when `p` is no longer than the string and equals its first `|p|` characters |
| Strings.ContainsIff | app/index.tsx:49 | `includes(t)` holds exactly when `t` occurs at some position of the string |
| Strings.MissingCharNotContained | app/index.tsx:49 | a string missing one character of `t` contains `t` nowhere |
| NavigationPolicy.Decide | app/index.tsx:44-69 | a refusal always carries the requested URL as written, not its lowercased form |
| NavigationPolicy.DecideIff | app/index.tsx:44-69 | permitted exactly when the lowercased URL lacks both network prefixes or mentions the domain somewhere; refused, with a prompt for the original URL, exactly otherwise |
| NavigationPolicy.NonNetworkUrlPermitted | app/index.tsx:45-68 | a URL whose lowercase form starts with neither `http://` nor `https://` is permitted, with no prompt |
| NavigationPolicy.UrlMentioningDomainPermitted | app/index.tsx:48-68 | a URL whose lowercase form contains the domain at any position is permitted, with no prompt |
| NavigationPolicy.ForeignNetworkUrlDenied | app/index.tsx:48-64 | a network URL whose lowercase form never contains the domain is refused, with a prompt for the original URL |
| NavigationPolicy.DecisionIgnoresCase | app/index.tsx:45-49 | two URLs that differ only in ASCII case get the same permit/deny answer |
| NavigationPolicy.DecisionOfLowercased | app/index.tsx:45 | lowercasing the URL beforehand does not change the answer |
| NavigationPolicy.LookalikeHostPermitted | app/index.tsx:49 | `https://tu-pagina-web.com` followed by anything (such as `.evil.org/login`) is permitted |
| NavigationPolicy.DomainInQueryPermitted | app/index.tsx:49 | any host is permitted when its query string names the domain |
| NavigationPolicy.OtherSchemesPermitted | app/index.tsx:48 | `mailto:`, `FTP://` and `about:` URLs are permitted whatever follows the scheme |
| NavigationPolicy.UppercaseSchemeDecidedAsLowercase | app/index.tsx:45-48 | `HTTPS://` + rest gets the same answer as `https://` + rest |
| NavigationPolicy.ExampleOwnPagePermitted | app/index.tsx:44-69 | with domain `example.com`, `https://example.com/page` is permitted |
| NavigationPolicy.ExampleForeignPageDenied | app/index.tsx:44-69 | with domain `example.com`, `https://evil.com/phish` is refused with a prompt for that URL |
| HomeScreen.Step | app/index.tsx:27-102 | `canGoBack` changes only on navigation-state events, `isLoading` only on load-start/end, and the reference only on its own event; at most one command per event; `GoBack` exactly on a back press with history and a reference; `Reload` exactly on retry with a reference; a prompt exactly on a refused load, for that URL |
| HomeScreen.CanGoBackMirrorsLastReport | app/index.tsx:79-81 | after any trace, `canGoBack` is the latest reported value, or its start value if none was reported |
| HomeScreen.IsLoadingFollowsLastLoadEvent | app/index.tsx:77-78 | after any trace, `isLoading` is true after the latest load-start, false after the latest load-end, or its start value if neither came |
| HomeScreen.InitialTraceFlags | app/index.tsx:21-22 | from mount, `canGoBack` is false until a report says otherwise, and `isLoading` is true until a load ends |
| HomeScreen.CommandsAccountedFor | app/index.tsx:27-102 | over any trace: no more `GoBack`s than back presses, no more `Reload`s than retries, and one prompt per refused load of a URL, none for a permitted one |
| HomeScreen.BackPressScenario | app/index.tsx:27-33 | with reports false, true, false, each followed by a back press, the presses are consumed no, yes, no, and the trace issues exactly one `GoBack` |
| HomeScreen.Screen.constructor | app/index.tsx:20-22 | on mount, loading, no history, no reference, empty log |
| HomeScreen.Screen.OnLoadStart | app/index.tsx:77 | `isLoading` becomes true; the other fields and the log are unchanged |
| HomeScreen.Screen.OnLoadEnd | app/index.tsx:78 | `isLoading` becomes false; the other fields and the log are unchanged |
| HomeScreen.Screen.OnNavigationStateChange | app/index.tsx:79-81 | `canGoBack` becomes the reported value; the other fields and the log are unchanged |
| HomeScreen.Screen.OnHandleChanged | app/index.tsx:74 | the reference becomes set or cleared; the flags and the log are unchanged |
| HomeScreen.Screen.OnBackPress | app/index.tsx:27-33 | consumed exactly when `canGoBack` held and the reference was set; then exactly one `GoBack` is logged, otherwise nothing; no flag changes |
| HomeScreen.Screen.OnShouldStartLoadWithRequest | app/index.tsx:44-69 | answers `Decide`'s verdict for the own domain; a refusal logs exactly one prompt for the original URL, a permit logs nothing; no flag changes |
| HomeScreen.Screen.OnOpenChosen | app/index.tsx:58-61 | after a prompt for a URL, "Abrir" logs exactly one external open of that URL |
| HomeScreen.Screen.OnError | app/index.tsx:95-103 | a load error logs the connection alert and nothing else; no flag changes |
| HomeScreen.Screen.OnRetryChosen | app/index.tsx:101 | retry logs exactly one `Reload` when the reference is set and nothing otherwise; no flag changes |

## Left out

- Strings.ToLower: folds only the ASCII letters `A`-`Z`. JavaScript's `toLowerCase` also folds other Unicode letters, some into several characters. Those cases are not modelled.
- Rendering and styling (`SafeAreaView`, `renderLoading`, the style sheet) have no logic.
- The embedded browser engine and its capability props are an external component. It appears only as the receiver of `GoBack` and `Reload`.
- Listener registration is left out. This covers `BackHandler.addEventListener`/`removeEventListener` and the re-registration on every `canGoBack` change, which the inner `useEffect` does through its dependency list `[canGoBack]`; `useFocusEffect` itself receives `useEffect`'s return value, `undefined`, rather than a callback, and is not modelled. The model's back handler reads the current `canGoBack` field, which is what the re-registration intends.
- Showing the alerts and `WebBrowser.openBrowserAsync` are foreign calls. They are recorded only as `ConfirmPrompt`, `ErrorAlert` and `OpenExternal` entries in the ghost log. Whether the system browser opens is not modelled.
- The "Cancelar" button of the prompt has no handler in the code. It changes nothing and issues nothing, so it has no event of its own.
- `console.warn` of the error payload is diagnostic output with no effect on control flow.
- The fallback screen `app/+not-found.tsx` is a static screen with one link and no logic.
- `TARGET_URL` is only the browser's start page. The decision does not use it.
