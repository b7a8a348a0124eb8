/**
 * Flows through a freshly mounted provider that chain several operations,
 * showing what a caller can rely on from the operations' contracts alone.
 */
module Scenarios {
  import opened Wrappers
  import opened JsValue
  import opened Gateway
  import opened AuthContext
  import opened QrScanner

  /** A token obtained at login is persisted, so remounting from storage resumes the same session token. */
  method LoginThenReload(stored: Option<string>, email: string, password: string, t: string, p: Profile)
    returns (resumed: string)
    ensures resumed == t
  {
    var session := new AuthProvider(stored);
    var _ := session.Login(email, password, Answered(t), Answered(p));
    var reloaded := new AuthProvider(session.storedToken);
    resumed := reloaded.token;
  }

  /** A login whose profile fetch is rejected fails and leaves no token, stored or in memory, and no user. */
  method LoginWithRejectedProfile(stored: Option<string>, email: string, password: string, t: string, why: string)
    returns (r: Result<string>, token: string, storedToken: Option<string>, user: Option<Profile>)
    ensures r == Err(Remote(why)) && token == "" && storedToken == None && user == None
  {
    var session := new AuthProvider(stored);
    r := session.Login(email, password, Answered(t), Failed(why));
    token, storedToken, user := session.token, session.storedToken, session.user;
  }

  /**
   * A transfer lowers the cached balance by exactly its amount, and the next
   * profile fetch replaces that optimistic figure with the server's.
   */
  method TransferThenRefresh(email: string, password: string, t: string, before: Profile,
                             receiverId: Json, amount: real, transferPassword: string, after: Profile)
    returns (optimistic: real, reconciled: real)
    requires t != ""
    ensures optimistic == before.walletBalance - amount
    ensures reconciled == after.walletBalance
  {
    var session := new AuthProvider(None);
    var _ := session.Login(email, password, Answered(t), Answered(before));
    var _ := session.TransferFunds(receiverId, amount, transferPassword, Answered(JNull));
    optimistic := session.walletBalance;
    var _ := session.FetchProfile("", Answered(after));
    reconciled := session.walletBalance;
  }

  /**
   * Scanning a `{userId, amount}` payload and paying it as written: the
   * component's `qrData` is read from a context that does not offer it, so
   * the pay handler answers "Invalid QR", sends nothing and the scan stays.
   */
  method ScanThenPayAsWritten(email: string, password: string, t: string, payer: Profile,
                              payReply: Reply<Json>, profileReply: Reply<Profile>)
    returns (notice: PayNotice, remaining: Option<Json>, ghost sentBefore: seq<Request>, ghost sentAfter: seq<Request>)
    requires t != "" && IsTruthy(payer.id)
    ensures notice == InvalidQr
    ensures sentAfter == sentBefore
    ensures remaining == Some(JObject(map["userId" := JStr("u2"), "amount" := JNum(500.0)]))
  {
    var session := new AuthProvider(None);
    var _ := session.Login(email, password, Answered(t), Answered(payer));
    var scanner := new QrScannerModule(session);
    var payload := JObject(map["userId" := JStr("u2"), "amount" := JNum(500.0)]);
    scanner.OnScanSuccess(Some(payload));
    sentBefore := session.sent;
    notice := scanner.HandlePayQr(session.ContextEntry("qrData"), payReply, profileReply);
    sentAfter := session.sent;
    remaining := session.scannedQrData;
  }

  /**
   * The same flow if the component's `qrData` were the scanned payload
   * (as written it never is): the payment is asked for with an undefined
   * `qrCodeData` (the payload has no `id`), the balance is the refreshed
   * profile's and not the old one minus the amount, and the scan is forgotten.
   */
  method ScanThenPay(email: string, password: string, t: string, payer: Profile, refreshed: Profile, receipt: Json)
    returns (notice: PayNotice, balance: real, remaining: Option<Json>, ghost payment: Request)
    requires t != "" && IsTruthy(payer.id)
    ensures notice == PaymentSucceeded
    ensures balance == refreshed.walletBalance
    ensures remaining == None
    ensures payment.PostPayQr? && payment.qrCodeData == Undefined && Credential(payment.authorization) == Some(t)
  {
    var session := new AuthProvider(None);
    var _ := session.Login(email, password, Answered(t), Answered(payer));
    var scanner := new QrScannerModule(session);
    var payload := JObject(map["userId" := JStr("u2"), "amount" := JNum(500.0)]);
    scanner.OnScanSuccess(Some(payload));
    assert session.scannedQrData == Some(payload);
    ghost var before := |session.sent|;
    notice := scanner.HandlePayQr(session.ContextEntry("scannedQrData"), Answered(receipt), Answered(refreshed));
    payment := session.sent[before];
    balance, remaining := session.walletBalance, session.scannedQrData;
  }
}
