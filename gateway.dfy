/**
 * The backend as the session holder sees it: the requests it issues (path,
 * body and Authorization header) and the replies it gets back. Transport,
 * status codes and the axios error shape are abstracted into `Reply`.
 */
module Gateway {
  import opened JsValue

  /** Body of POST /api/auth/register. */
  datatype Registration = Registration(name: string, email: string, password: string, phone: string)

  /** Body of GET /api/auth/profile: the user record together with its wallet balance. */
  datatype Profile = Profile(id: Field, name: string, email: string, walletBalance: real)

  /** One entry of GET /api/auth/users. */
  datatype UserSummary = UserSummary(id: Field, name: string, email: string)

  /** Body of POST /api/wallet/topup: the authoritative balance after the top-up. */
  datatype TopUpReceipt = TopUpReceipt(walletBalance: real)

  /** Body of POST /api/qr/generate: the minted payment request. */
  datatype QrCode = QrCode(id: Field, qrCodeData: string)

  /** A request as issued, with the Authorization header where one is attached. */
  datatype Request =
    | PostRegister(form: Registration)                                               // POST /api/auth/register
    | PostLogin(email: string, password: string)                                     // POST /api/auth/login
    | GetProfile(authorization: string)                                              // GET  /api/auth/profile
    | GetUsers(authorization: string)                                                // GET  /api/auth/users
    | PostTopUp(amount: real, authorization: string)                                 // POST /api/wallet/topup
    | PostTransfer(receiverId: Json, amount: real, password: string, authorization: string) // POST /api/wallet/transfer
    | PostGenerateQr(amount: real, authorization: string)                            // POST /api/qr/generate
    | PostPayQr(qrCodeData: Field, payerId: Json, authorization: string)             // POST /api/qr/pay

  /** The backend's answer to one request: the decoded body, or the error it was rejected with. */
  datatype Reply<+T> = Answered(body: T) | Failed(reason: string)

  /** The requests the session holder only issues after checking that a token is present. */
  predicate NeedsToken(r: Request) {
    r.GetUsers? || r.PostTopUp? || r.PostTransfer? || r.PostGenerateQr? || r.PostPayQr?
  }
}
