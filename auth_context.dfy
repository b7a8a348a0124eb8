/**
 * The session and wallet state holder (`AuthProvider`): the bearer token and
 * its persisted copy, the signed-in user, the cached wallet balance, the peer
 * directory and the QR state, and the operations that change them. Each
 * asynchronous operation is one atomic step that takes the backend's replies
 * as parameters.
 */
module AuthContext {
  import opened Wrappers
  import opened JsValue
  import opened Gateway

  /** What an operation throws: a client-side guard's Error, or the backend's rejection. */
  datatype Error = Guard(message: string) | Remote(reason: string)

  datatype Result<+T> = Ok(value: T) | Err(error: Error)

  /** Thrown by `fetchUsers` without a token. */
  const NoToken := "No token available"
  /** Thrown by the wallet and QR operations without a token. */
  const NoTokenForAuthorization := "No token available for authorization"
  /** Thrown by `payWithQr` when the user has no id. */
  const NotAuthenticated := "User not authenticated"

  const BearerPrefix := "Bearer "

  /** The names the provider's context value offers to its consumers. */
  const ContextKeys: set<string> := {
    "token", "user", "walletBalance", "users", "selectedReceiver", "setSelectedReceiver",
    "qrCode", "scannedQrData", "setScannedQrData", "register", "login", "logout",
    "fetchProfile", "fetchUsers", "topUpWallet", "transferFunds", "generateQR", "payWithQr"
  }

  /** The credential a server reads back from an Authorization header. */
  function Credential(header: string): (credential: Option<string>) {
    if BearerPrefix <= header then Some(header[|BearerPrefix|..]) else None
  }

  /**
   * `getAuthHeader(overrideToken)`: a bearer header carrying the override
   * token when it is non-empty, and otherwise the token the closure sees.
   * An absent override is written "" (both are falsy).
   */
  function AuthHeader(overrideToken: string, token: string): (header: string)
    ensures overrideToken != "" ==> Credential(header) == Some(overrideToken)
    ensures overrideToken == "" ==> Credential(header) == Some(token)
  {
    BearerPrefix + (if overrideToken != "" then overrideToken else token)
  }

  /** The token `useState(() => localStorage.getItem("token") || "")` starts from. */
  function Persisted(stored: Option<string>): (token: string) {
    if stored.Some? then stored.value else ""
  }

  /** `a` is `b` with some entries left out and the rest in their original order. */
  ghost predicate IsSubsequence<T>(a: seq<T>, b: seq<T>)
    decreases |b|
  {
    if a == [] then true
    else if b == [] then false
    else if a[0] == b[0] then IsSubsequence(a[1..], b[1..])
    else IsSubsequence(a, b[1..])
  }

  /** Every sequence keeps all of itself in order. */
  lemma {:induction false} SubsequenceReflexive<T>(s: seq<T>)
    ensures IsSubsequence(s, s)
    decreases |s|
  {
    if s != [] {
      SubsequenceReflexive(s[1..]);
    }
  }

  /** `users.filter(u => u.id !== id)`. */
  function WithoutId(users: seq<UserSummary>, id: Field): (r: seq<UserSummary>)
    ensures forall u :: u in r ==> u in users && u.id != id
    ensures forall u :: u in users && u.id != id ==> u in r
    ensures IsSubsequence(r, users)
    decreases |users|
  {
    if users == [] then []
    else if users[0].id != id then [users[0]] + WithoutId(users[1..], id)
    else WithoutId(users[1..], id)
  }

  /** How many entries of `users` carry `id`. */
  function Occurrences(users: seq<UserSummary>, id: Field): (count: nat)
    decreases |users|
  {
    if users == [] then 0
    else (if users[0].id == id then 1 else 0) + Occurrences(users[1..], id)
  }

  /** Exactly the entries carrying `id` are dropped: the count falls by their number. */
  lemma {:induction false} WithoutIdLength(users: seq<UserSummary>, id: Field)
    ensures |WithoutId(users, id)| + Occurrences(users, id) == |users|
    decreases |users|
  {
    if users != [] {
      WithoutIdLength(users[1..], id);
    }
  }

  /** Filtering a directory that is already filtered changes nothing. */
  lemma {:induction false} WithoutIdIdempotent(users: seq<UserSummary>, id: Field)
    ensures WithoutId(WithoutId(users, id), id) == WithoutId(users, id)
    decreases |users|
  {
    if users != [] {
      WithoutIdIdempotent(users[1..], id);
    }
  }

  /**
   * The peer directory `fetchUsers` stores: the server's list with the
   * caller's own entry removed, or the list as it came when no user is loaded.
   */
  function Directory(list: seq<UserSummary>, user: Option<Profile>): (r: seq<UserSummary>)
    ensures user.None? ==> r == list
    ensures user.Some? ==> forall u :: u in r <==> u in list && u.id != user.value.id
    ensures IsSubsequence(r, list)
  {
    SubsequenceReflexive(list);
    if user.Some? then WithoutId(list, user.value.id) else list
  }

  /** `user?.id` is truthy. */
  predicate SignedIn(user: Option<Profile>) {
    user.Some? && IsTruthy(user.value.id)
  }

  /** Every request that needs a token carries a non-empty credential. */
  ghost predicate TokenGuarded(sent: seq<Request>) {
    forall i :: 0 <= i < |sent| && NeedsToken(sent[i]) ==> Credential(sent[i].authorization) != Some("")
  }

  /** The provider's whole state, with the requests issued so far. */
  datatype State = State(
    token: string,
    storedToken: Option<string>,
    user: Option<Profile>,
    walletBalance: real,
    users: seq<UserSummary>,
    selectedReceiver: Option<Json>,
    qrCode: Option<QrCode>,
    scannedQrData: Option<Json>,
    sent: seq<Request>)

  /** The state `logout` leaves: no token, nothing stored, no user, a zero balance; the rest as it was. */
  function LoggedOut(s: State): (t: State)
    ensures t.token == "" && t.storedToken == None && t.user == None && t.walletBalance == 0.0
    ensures t.users == s.users && t.selectedReceiver == s.selectedReceiver
    ensures t.qrCode == s.qrCode && t.scannedQrData == s.scannedQrData && t.sent == s.sent
  {
    s.(token := "", storedToken := None, user := None, walletBalance := 0.0)
  }

  /** Logging out twice leaves the same state as logging out once. */
  lemma LogoutIdempotent(s: State)
    ensures LoggedOut(LoggedOut(s)) == LoggedOut(s)
  {
  }

  class AuthProvider {
    var token: string
    /** `localStorage["token"]`. */
    var storedToken: Option<string>
    var user: Option<Profile>
    var walletBalance: real
    var users: seq<UserSummary>
    var selectedReceiver: Option<Json>
    /** The last generated QR payment request. */
    var qrCode: Option<QrCode>
    /** The last accepted scan payload. */
    var scannedQrData: Option<Json>
    /** The requests issued to the backend, oldest first. */
    ghost var sent: seq<Request>

    ghost function Snapshot(): State
      reads this
    {
      State(token, storedToken, user, walletBalance, users, selectedReceiver, qrCode, scannedQrData, sent)
    }

    /**
     * Reading `key` from the context value, for the two names the QR
     * components ask for: a name the value does not offer reads as `undefined`,
     * and `scannedQrData` reads as the scanned payload (`null` before a scan).
     */
    function ContextEntry(key: string): (entry: Field)
      reads this
      requires key == "qrData" || key == "scannedQrData"
      ensures key !in ContextKeys ==> entry == Undefined
      ensures key == "scannedQrData" ==> entry == Defined(if scannedQrData.Some? then scannedQrData.value else JNull)
    {
      if key !in ContextKeys then Undefined
      else if scannedQrData.Some? then Defined(scannedQrData.value)
      else Defined(JNull)
    }

    /** The in-memory token is the persisted one, and no guarded request went out without a token. */
    ghost predicate Valid()
      reads this
    {
      token == Persisted(storedToken) && TokenGuarded(sent)
    }

    /** Mounting the provider with `stored` in local storage. */
    constructor (stored: Option<string>)
      ensures Valid()
      ensures Snapshot() == State(Persisted(stored), stored, None, 0.0, [], None, None, None, [])
    {
      token := Persisted(stored);
      storedToken := stored;
      user := None;
      walletBalance := 0.0;
      users := [];
      selectedReceiver := None;
      qrCode := None;
      scannedQrData := None;
      sent := [];
    }

    /** `register`: a passthrough that changes no state. */
    method Register(form: Registration, reply: Reply<Json>) returns (r: Result<Json>)
      requires Valid()
      modifies this
      ensures Valid()
      ensures Snapshot() == old(Snapshot()).(sent := old(sent) + [PostRegister(form)])
      ensures r == if reply.Answered? then Ok(reply.body) else Err(Remote(reply.reason))
    {
      sent := sent + [PostRegister(form)];
      match reply
      case Answered(body) => r := Ok(body);
      case Failed(why) => r := Err(Remote(why));
    }

    /** `logout`: clears the token, its stored copy, the user and the balance. */
    method Logout()
      requires Valid()
      modifies this
      ensures Valid()
      ensures Snapshot() == LoggedOut(old(Snapshot()))
    {
      token := "";
      user := None;
      walletBalance := 0.0;
      storedToken := None;
    }

    /** The body of `fetchProfile` once its Authorization header is fixed. */
    method FetchProfileWith(header: string, reply: Reply<Profile>) returns (r: Result<Profile>)
      requires Valid()
      modifies this
      ensures Valid()
      ensures match reply
        case Answered(p) =>
          r == Ok(p) &&
          Snapshot() == old(Snapshot()).(user := Some(p), walletBalance := p.walletBalance,
                                         sent := old(sent) + [GetProfile(header)])
        case Failed(why) =>
          r == Err(Remote(why)) &&
          Snapshot() == LoggedOut(old(Snapshot()).(sent := old(sent) + [GetProfile(header)]))
    {
      sent := sent + [GetProfile(header)];
      match reply
      case Answered(p) =>
        user := Some(p);
        walletBalance := p.walletBalance;
        r := Ok(p);
      case Failed(why) =>
        Logout();
        r := Err(Remote(why));
    }

    /**
     * `fetchProfile(overrideToken)`: on success the user and the balance both
     * come from the one response; on failure the session is torn down and the
     * error is rethrown.
     */
    method FetchProfile(overrideToken: string, reply: Reply<Profile>) returns (r: Result<Profile>)
      requires Valid()
      modifies this
      ensures Valid()
      ensures match reply
        case Answered(p) =>
          r == Ok(p) &&
          Snapshot() == old(Snapshot()).(user := Some(p), walletBalance := p.walletBalance,
                                         sent := old(sent) + [GetProfile(AuthHeader(overrideToken, old(token)))])
        case Failed(why) =>
          r == Err(Remote(why)) && token == "" && user == None &&
          Snapshot() == LoggedOut(old(Snapshot()).(sent := old(sent) + [GetProfile(AuthHeader(overrideToken, old(token)))]))
    {
      r := FetchProfileWith(AuthHeader(overrideToken, token), reply);
    }

    /**
     * `login`: stores and persists the returned token, then fetches the profile
     * with it as the override. The header's fallback is the token of the
     * closure, which is still the token from before the login.
     */
    method Login(email: string, password: string, loginReply: Reply<string>, profileReply: Reply<Profile>)
      returns (r: Result<string>)
      requires Valid()
      modifies this
      ensures Valid()
      ensures match loginReply
        case Failed(why) =>
          r == Err(Remote(why)) && Snapshot() == old(Snapshot()).(sent := old(sent) + [PostLogin(email, password)])
        case Answered(t) =>
          var signedIn := old(Snapshot()).(token := t, storedToken := Some(t),
                                           sent := old(sent) + [PostLogin(email, password), GetProfile(AuthHeader(t, old(token)))]);
          match profileReply
          case Answered(p) => r == Ok(t) && Snapshot() == signedIn.(user := Some(p), walletBalance := p.walletBalance)
          case Failed(why) => r == Err(Remote(why)) && Snapshot() == LoggedOut(signedIn)
    {
      sent := sent + [PostLogin(email, password)];
      match loginReply
      case Failed(why) =>
        r := Err(Remote(why));
      case Answered(t) =>
        var closureToken := token;
        token := t;
        storedToken := Some(t);
        var fetched := FetchProfileWith(AuthHeader(t, closureToken), profileReply);
        r := if fetched.Ok? then Ok(t) else Err(fetched.error);
    }

    /** `fetchUsers`: stores and returns the server's list without the caller's own entry. */
    method FetchUsers(reply: Reply<seq<UserSummary>>) returns (r: Result<seq<UserSummary>>)
      requires Valid()
      modifies this
      ensures Valid()
      ensures old(token) == "" ==> r == Err(Guard(NoToken)) && Snapshot() == old(Snapshot())
      ensures old(token) != "" ==>
        var issued := old(Snapshot()).(sent := old(sent) + [GetUsers(AuthHeader("", old(token)))]);
        match reply
        case Answered(list) => r == Ok(Directory(list, old(user))) && Snapshot() == issued.(users := Directory(list, old(user)))
        case Failed(why) => r == Err(Remote(why)) && Snapshot() == issued
    {
      if token == "" {
        r := Err(Guard(NoToken));
        return;
      }
      sent := sent + [GetUsers(AuthHeader("", token))];
      match reply
      case Answered(list) =>
        var filtered := Directory(list, user);
        users := filtered;
        r := Ok(filtered);
      case Failed(why) =>
        r := Err(Remote(why));
    }

    /** `topUpWallet`: the balance becomes the server's figure; no local arithmetic. */
    method TopUpWallet(amount: real, reply: Reply<TopUpReceipt>) returns (r: Result<TopUpReceipt>)
      requires Valid()
      modifies this
      ensures Valid()
      ensures old(token) == "" ==> r == Err(Guard(NoTokenForAuthorization)) && Snapshot() == old(Snapshot())
      ensures old(token) != "" ==>
        var issued := old(Snapshot()).(sent := old(sent) + [PostTopUp(amount, AuthHeader("", old(token)))]);
        match reply
        case Answered(receipt) => r == Ok(receipt) && walletBalance == receipt.walletBalance && Snapshot() == issued.(walletBalance := receipt.walletBalance)
        case Failed(why) => r == Err(Remote(why)) && walletBalance == old(walletBalance) && Snapshot() == issued
    {
      if token == "" {
        r := Err(Guard(NoTokenForAuthorization));
        return;
      }
      sent := sent + [PostTopUp(amount, AuthHeader("", token))];
      match reply
      case Answered(receipt) =>
        walletBalance := receipt.walletBalance;
        r := Ok(receipt);
      case Failed(why) =>
        r := Err(Remote(why));
    }

    /** `transferFunds`: once the server accepts, the balance drops by exactly `amount` (optimistically). */
    method TransferFunds(receiverId: Json, amount: real, password: string, reply: Reply<Json>) returns (r: Result<Json>)
      requires Valid()
      modifies this
      ensures Valid()
      ensures old(token) == "" ==> r == Err(Guard(NoTokenForAuthorization)) && Snapshot() == old(Snapshot())
      ensures old(token) != "" ==>
        var issued := old(Snapshot()).(sent := old(sent) + [PostTransfer(receiverId, amount, password, AuthHeader("", old(token)))]);
        match reply
        case Answered(body) => r == Ok(body) && walletBalance == old(walletBalance) - amount && Snapshot() == issued.(walletBalance := old(walletBalance) - amount)
        case Failed(why) => r == Err(Remote(why)) && walletBalance == old(walletBalance) && Snapshot() == issued
    {
      if token == "" {
        r := Err(Guard(NoTokenForAuthorization));
        return;
      }
      sent := sent + [PostTransfer(receiverId, amount, password, AuthHeader("", token))];
      match reply
      case Answered(body) =>
        walletBalance := walletBalance - amount;
        r := Ok(body);
      case Failed(why) =>
        r := Err(Remote(why));
    }

    /** `generateQR`: keeps the minted payment request. */
    method GenerateQr(amount: real, reply: Reply<QrCode>) returns (r: Result<QrCode>)
      requires Valid()
      modifies this
      ensures Valid()
      ensures old(token) == "" ==> r == Err(Guard(NoTokenForAuthorization)) && Snapshot() == old(Snapshot())
      ensures old(token) != "" ==>
        var issued := old(Snapshot()).(sent := old(sent) + [PostGenerateQr(amount, AuthHeader("", old(token)))]);
        match reply
        case Answered(code) => r == Ok(code) && Snapshot() == issued.(qrCode := Some(code))
        case Failed(why) => r == Err(Remote(why)) && Snapshot() == issued
    {
      if token == "" {
        r := Err(Guard(NoTokenForAuthorization));
        return;
      }
      sent := sent + [PostGenerateQr(amount, AuthHeader("", token))];
      match reply
      case Answered(code) =>
        qrCode := Some(code);
        r := Ok(code);
      case Failed(why) =>
        r := Err(Remote(why));
    }

    /**
     * `payWithQr`: pays as the signed-in user, then refreshes the profile
     * instead of subtracting anything, and only then forgets the scan.
     */
    method PayWithQr(qrCodeData: Field, payReply: Reply<Json>, profileReply: Reply<Profile>) returns (r: Result<Json>)
      requires Valid()
      modifies this
      ensures Valid()
      ensures old(token) == "" ==> r == Err(Guard(NoTokenForAuthorization)) && Snapshot() == old(Snapshot())
      ensures old(token) != "" && !SignedIn(old(user)) ==> r == Err(Guard(NotAuthenticated)) && Snapshot() == old(Snapshot())
      ensures old(token) != "" && SignedIn(old(user)) ==>
        var pay := PostPayQr(qrCodeData, old(user).value.id.value, AuthHeader("", old(token)));
        var refreshed := old(Snapshot()).(sent := old(sent) + [pay, GetProfile(AuthHeader("", old(token)))]);
        match payReply
        case Failed(why) => r == Err(Remote(why)) && Snapshot() == old(Snapshot()).(sent := old(sent) + [pay])
        case Answered(body) =>
          match profileReply
          case Answered(p) =>
            r == Ok(body) && walletBalance == p.walletBalance && scannedQrData == None &&
            Snapshot() == refreshed.(user := Some(p), walletBalance := p.walletBalance, scannedQrData := None)
          case Failed(why) =>
            r == Err(Remote(why)) && scannedQrData == old(scannedQrData) && Snapshot() == LoggedOut(refreshed)
    {
      if token == "" {
        r := Err(Guard(NoTokenForAuthorization));
        return;
      }
      if !SignedIn(user) {
        r := Err(Guard(NotAuthenticated));
        return;
      }
      sent := sent + [PostPayQr(qrCodeData, user.value.id.value, AuthHeader("", token))];
      match payReply
      case Failed(why) =>
        r := Err(Remote(why));
      case Answered(body) =>
        var refreshed := FetchProfile("", profileReply);
        if refreshed.Err? {
          r := Err(refreshed.error);
          return;
        }
        scannedQrData := None;
        r := Ok(body);
    }

    /** The exported setter `setScannedQrData`. */
    method SetScannedQrData(data: Option<Json>)
      requires Valid()
      modifies this
      ensures Valid()
      ensures Snapshot() == old(Snapshot()).(scannedQrData := data)
    {
      scannedQrData := data;
    }

    /** The exported setter `setSelectedReceiver`. */
    method SetSelectedReceiver(receiver: Option<Json>)
      requires Valid()
      modifies this
      ensures Valid()
      ensures Snapshot() == old(Snapshot()).(selectedReceiver := receiver)
    {
      selectedReceiver := receiver;
    }
  }
}
