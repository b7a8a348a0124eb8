# E-Wallet frontend: session and wallet state holder, QR scan handling

This project models the client-side coordination core of a digital-wallet web
front end:

- **`AuthProvider`** (`src/context/AuthContext.jsx`) holds the session and wallet
  state. That state is the bearer `token` and its copy in local storage, the
  signed-in `user`, the cached `walletBalance`, the peer directory `users`, the
  `selectedReceiver`, the generated `qrCode` and the `scannedQrData`. The
  provider's operations are `register`, `login`, `logout`, `fetchProfile`,
  `fetchUsers`, `topUpWallet`, `transferFunds`, `generateQR` and `payWithQr`.
  Each one changes that state by fixed rules around a backend call.
- **The QR scanner component** (`src/components/QrScannerModule/QrScannerModule.jsx`)
  has a scan callback, a camera-error callback and a pay handler. The scan
  callback validates a decoded payload and stores it in the provider. The pay
  handler pays through the provider. `src/pages/Wallet.jsx:40-55` repeats the
  same scan rule word for word, so `QrScanner.ValidateScan` covers it too.

How it is modelled:

- The provider is the class `AuthContext.AuthProvider`. Its fields are the state
  above, and `storedToken` stands for `localStorage["token"]`.
- Each `async` operation is one atomic method. The method takes the backend's
  replies as parameters (`Gateway.Reply`: `Answered(body)` or `Failed(reason)`).
- The requests the provider issues go into a ghost log, `sent`. Each request
  records its path, its body and the `Authorization` header it carries. "Fails
  before any request" then means that `Snapshot()`, which includes the log, is
  unchanged.
- Each method's contract states the whole new state as an update of the old
  one. The object invariant `Valid()` says two things. The in-memory token is
  always the persisted one. No wallet, user-list or QR request ever goes out
  without a token.
- JavaScript values are `JsValue.Json`, with its truthiness (`Truthy`) and its
  property reads (`Prop`). Reading a property of `null` throws, which is why
  `JSON.parse("null")` gets the format error.
- `getAuthHeader` closes over the token of the render that created it. In
  `login`, `fetchProfile(userToken)` therefore falls back to the token from
  before the login when the backend returns an empty token. `AuthProvider.Login`
  keeps this: its header is `AuthHeader(t, old(token))`.

Facts about the component code that the model keeps:

- The component destructures `qrData` (`QrScannerModule.jsx:8`), but the
  context offers `scannedQrData` and no `qrData` (`AuthContext.jsx:171-192`).
  As written, `qrData` is always undefined. The pay button is never rendered
  (line 87), and `handlePayQr` would stop at its guard (line 41).
  `AuthProvider.ContextEntry("qrData")` is `undefined`
  (`QrDataIsNeverProvided`). `Scenarios.ScanThenPayAsWritten` shows that after
  a scan, `HandlePayQr` on that entry returns `InvalidQr` and sends nothing.
- The scan rule requires `userId` and `amount`, but the payment sends
  `qrData.id` (line 44). An accepted payload need not carry an `id`. Paying
  such a payload sends an undefined `qrCodeData`
  (`AcceptedPayloadNeedNotCarryId`). `Scenarios.ScanThenPay` shows this under
  the assumption that `qrData` is the scanned payload, which it never is as
  written.

Other behaviour of the code worth knowing:

- `topUpWallet` and `generateQR` have no check that the amount is positive.
  Of their callers, only `TopUpCard.jsx:12` checks for a positive amount.
  `Wallet.jsx:65` (top-up), `Wallet.jsx:90` and `GenerateQRModule.jsx:14`
  (QR generation) only check that the field is not empty.
- `transferFunds` does not check the receiver or the amount.
- `fetchProfile` logs out on every failure, not only on a rejected credential.
- The scan payload is a JSON `{userId, amount}` object that the client parses and checks itself.
- `generateQR` opens no realtime subscription: the provider never calls `src/services/websocketService.js`.

## Model

| member | source | states |
|---|---|---|
| AuthContext.AuthHeader | src/context/AuthContext.jsx:24-26 | The header carries the override token when one is given, otherwise the current token; the credential read back from it is exactly that token. |
| AuthContext.WithoutId | src/context/AuthContext.jsx:87 | Filtering by id keeps exactly the entries whose id differs, and keeps them in their original order (a subsequence). |
| AuthContext.WithoutIdLength | src/context/AuthContext.jsx:87 | The filtered list is shorter than the server's by exactly the number of entries carrying the caller's id. |
| AuthContext.WithoutIdIdempotent | src/context/AuthContext.jsx:87 | Filtering an already filtered directory again changes nothing. |
| AuthContext.Directory | src/context/AuthContext.jsx:87 | With no user loaded the list is kept whole; with a user, an entry is kept iff its id differs from the user's; order is preserved. |
| AuthContext.LoggedOut | src/context/AuthContext.jsx:58-64 | Logging out empties the token and its stored copy, clears the user, zeroes the balance, and leaves users, selected receiver, QR code and scanned data as they were. |
| AuthContext.LogoutIdempotent | src/context/AuthContext.jsx:58-64 | Logging out twice gives the same state as logging out once. |
| AuthContext.AuthProvider.constructor | src/context/AuthContext.jsx:9-21 | A mounted provider takes its token from storage ("" when nothing or "" is stored) and starts with no user, balance 0, no users, no QR state. |
| AuthContext.AuthProvider.Register | src/context/AuthContext.jsx:34-41 | Registration only issues the request and passes the reply through; no state changes. |
| AuthContext.AuthProvider.Logout | src/context/AuthContext.jsx:58-64 | The new state is the logged-out state of the old one, and the token stays equal to the stored one. |
| AuthContext.AuthProvider.FetchProfileWith | src/context/AuthContext.jsx:67-80 | On success user and balance both come from the one response; on failure the state is the logged-out one and the error is rethrown. |
| AuthContext.AuthProvider.FetchProfile | src/context/AuthContext.jsx:67-80 | The profile is fetched with the override token or else the current one; success copies user and balance from the response; failure always leaves token "" and no user, so no session survives a rejected fetch. |
| AuthContext.AuthProvider.Login | src/context/AuthContext.jsx:44-56 | A rejected login changes nothing but the request log; otherwise token and stored token both become the returned token, the profile is fetched with it as override, and a failed fetch ends with the session logged out and login failing. |
| AuthContext.AuthProvider.FetchUsers | src/context/AuthContext.jsx:83-96 | Without a token it fails with "No token available" before any request and changes nothing; on success it stores and returns the server list minus the caller's own entry; on failure nothing but the log changes. |
| AuthContext.AuthProvider.TopUpWallet | src/context/AuthContext.jsx:100-113 | Without a token it fails before any request and changes nothing; on success the balance becomes the server's figure with no local arithmetic; on failure the balance is unchanged and the error rethrown. |
| AuthContext.AuthProvider.TransferFunds | src/context/AuthContext.jsx:116-129 | Without a token it fails before any request; on success the balance is the previous balance minus exactly the amount; on failure the balance is unchanged. |
| AuthContext.AuthProvider.GenerateQr | src/context/AuthContext.jsx:132-142 | Without a token it fails before any request; on success the minted QR request becomes `qrCode`; on failure nothing but the log changes. |
| AuthContext.AuthProvider.PayWithQr | src/context/AuthContext.jsx:145-168 | Fails before any request without a token or without a truthy user id; otherwise pays as the user, and on success takes the balance from the refreshed profile (never by subtracting) and then clears the scan; on any failure the scan is kept, and a failed refresh logs out. |
| AuthContext.AuthProvider.ContextEntry | src/context/AuthContext.jsx:171-192 | Reading a name the context value does not offer gives undefined; reading `scannedQrData` gives the scanned payload, or null before a scan. |
| AuthContext.AuthProvider.SetScannedQrData | src/context/AuthContext.jsx:21 | The exported setter replaces the scanned data and nothing else. |
| AuthContext.AuthProvider.SetSelectedReceiver | src/context/AuthContext.jsx:17 | The exported setter replaces the selected receiver and nothing else. |
| QrScanner.ValidateScan | src/components/QrScannerModule/QrScannerModule.jsx:19-33 | A string that does not parse, or parses to null, is a format error; a value without truthy userId and amount misses fields; exactly the remaining values are accepted, unchanged. |
| QrScanner.ZeroAmountRejected | src/components/QrScannerModule/QrScannerModule.jsx:23-26 | A payload whose amount is 0 is rejected as missing fields. |
| QrScanner.EmptyUserIdRejected | src/components/QrScannerModule/QrScannerModule.jsx:23-26 | A payload whose userId is the empty string is rejected as missing fields. |
| QrScanner.WellFormedPayloadAccepted | src/components/QrScannerModule/QrScannerModule.jsx:28-29 | A payload with a non-empty userId and a non-zero amount is accepted as it is. |
| QrScanner.AcceptedPayloadNeedNotCarryId | src/components/QrScannerModule/QrScannerModule.jsx:21-44 | A `{userId, amount}` payload passes the scan rule yet has no `id`, the field the pay handler sends. |
| QrScanner.QrDataIsNeverProvided | src/components/QrScannerModule/QrScannerModule.jsx:8 | The context offers `scannedQrData` but no `qrData`, so the `qrData` the component reads from any provider is undefined. |
| QrScanner.QrScannerModule.constructor | src/components/QrScannerModule/QrScannerModule.jsx:9 | The component starts with no scan error. |
| QrScanner.QrScannerModule.OnScanSuccess | src/components/QrScannerModule/QrScannerModule.jsx:19-33 | A rejected scan sets the rule's message and leaves the provider untouched; an accepted one clears the error and stores the payload as the scanned data, nothing else. |
| QrScanner.QrScannerModule.OnScanError | src/components/QrScannerModule/QrScannerModule.jsx:34 | A camera error sets "Camera error: " followed by the error and leaves the provider, and so the scanned payload, unchanged. |
| QrScanner.QrScannerModule.HandlePayQr | src/components/QrScannerModule/QrScannerModule.jsx:40-49 | With a falsy qrData nothing is sent and the notice is "Invalid QR"; otherwise the payment is requested with exactly `qrData.id`, and for each outcome (guard failure, rejected payment, rejected refresh, success) the notice carries that outcome's error and the provider's whole new state is given. |
| Scenarios.LoginThenReload | src/context/AuthContext.jsx:44-56 | After a successful login, a provider remounted from storage starts with the same token. |
| Scenarios.LoginWithRejectedProfile | src/context/AuthContext.jsx:44-80 | A login whose profile fetch fails reports the fetch's error and leaves no token, no stored token and no user. |
| Scenarios.TransferThenRefresh | src/context/AuthContext.jsx:116-129 | A transfer lowers the balance by exactly its amount, and the next profile fetch replaces that optimistic figure with the server's. |
| Scenarios.ScanThenPayAsWritten | src/components/QrScannerModule/QrScannerModule.jsx:8-49 | After a `{userId, amount}` payload is scanned, paying with the `qrData` the component actually reads gives "Invalid QR", sends no request and keeps the scanned payload. |
| Scenarios.ScanThenPay | src/components/QrScannerModule/QrScannerModule.jsx:18-49 | Assuming `qrData` were the scanned payload (as written it never is): paying a `{userId, amount}` payload sends an undefined `qrCodeData` under the user's token; on success the balance is the refreshed profile's and the scan is cleared. |

## Left out

- The effect that fetches the profile whenever the token changes (`AuthContext.jsx:29-31`) is not modelled. It is scheduled by React, and each operation is modelled as one atomic step. Concurrent operations that interleave are not modelled either.
- Logging to the console is not modelled.
- HTTP transport is not modelled. The `err.response?.data || err` unwrapping is one abstract `Remote(reason)`, and the replies are inputs.
- A `res.data` that is not an array, so that `filter` throws, is not modelled. The reply is typed as a list.
- `JSON.parse` itself, the camera and the QR decoding libraries are not modelled. The scan callback takes the parse result, which is `None` when the parse throws.
- Ids are compared structurally. JavaScript's `!==` compares objects and arrays by reference, but ids are strings or numbers in practice.
- Amounts and balances are exact `real`s. IEEE rounding, `Number(...)` and `toFixed` are display concerns.
- An absent `overrideToken` is written `""`. Both are falsy, so they behave the same.
- Profiles carry only `id`, `name`, `email` and `walletBalance`. The other fields are copied wholesale and play no part in any rule.
- `src/services/websocketService.js`, `src/api/index.jsx`, the pages and form components, and the routing are not modelled. They are a STOMP wrapper, unused axios helpers, and UI that only collects input and calls the provider.
- `src/pages/QRScanner.jsx` is not modelled. It calls a setter the context does not provide and imports a name that is not exported.
- `alert` is modelled as the returned `PayNotice`. Its text is `QrScanner.AlertText`.
