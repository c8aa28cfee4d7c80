/** The SSH reachability probe (inventory/sshtest/sshtest.go): the checks
    `TryConnect` makes before connecting, the choice of authentication method,
    the classification of the connection error into an exit code and text,
    and the JSON report with the password masked. The SSH transport, key
    parsing and sha256 are uninterpreted: they arrive as function values. */
module SshTest {
  import opened Wrappers
  import opened Text

  /** A Go `error` as the classifier sees it: its text (`fmt.Sprint(err)`)
      and the answers of `os.IsTimeout(err)`, `errors.Is(err, ECONNREFUSED)`
      and `errors.Is(err, dnsError)`. */
  datatype Error = Error(text: string, isTimeout: bool, isConnRefused: bool, isDnsTarget: bool)

  // ----- keyword matching -----

  const AuthKeywords: seq<string> := ["authentication failed", "invalid credentials", "unable to authenticate", "no supported methods remain"]
  const DnsKeywords: seq<string> := ["no such host"]

  /** The lower-cased text contains the lower-cased form of one of the keywords. */
  predicate MentionsAny(text: string, keywords: seq<string>) {
    exists j :: 0 <= j < |keywords| && Contains(ToLower(text), ToLower(keywords[j]))
  }

  /** The keyword loop of `isAuthenticationError` and `isDNSError`: the first
      keyword found ends the search. */
  method MentionsKeyword(text: string, keywords: seq<string>) returns (r: bool)
    ensures r <==> MentionsAny(text, keywords)
    ensures r <==> exists j, i :: 0 <= j < |keywords| && OccursAt(ToLower(text), ToLower(keywords[j]), i)
  {
    var lower := ToLower(text);
    var j := 0;
    while j < |keywords|
      invariant 0 <= j <= |keywords|
      invariant forall j' :: 0 <= j' < j ==> !Contains(lower, ToLower(keywords[j']))
    {
      if Contains(lower, ToLower(keywords[j])) {
        ContainsIffOccurs(lower, ToLower(keywords[j]));
        var i :| OccursAt(lower, ToLower(keywords[j]), i);
        assert OccursAt(ToLower(text), ToLower(keywords[j]), i);
        assert exists j0, i0 :: 0 <= j0 < |keywords| && OccursAt(ToLower(text), ToLower(keywords[j0]), i0);
        assert MentionsAny(text, keywords);
        return true;
      }
      j := j + 1;
    }
    forall j', i | 0 <= j' < |keywords| ensures !OccursAt(lower, ToLower(keywords[j']), i) {
      ContainsIffOccurs(lower, ToLower(keywords[j']));
    }
    return false;
  }

  predicate IsAuthError(e: Error) {
    MentionsAny(e.text, AuthKeywords)
  }

  predicate IsDnsError(e: Error) {
    MentionsAny(e.text, DnsKeywords)
  }

  method IsAuthenticationError(e: Error) returns (r: bool)
    ensures r <==> IsAuthError(e)
  {
    r := MentionsKeyword(e.text, AuthKeywords);
  }

  method IsDNSError(e: Error) returns (r: bool)
    ensures r <==> IsDnsError(e)
  {
    r := MentionsKeyword(e.text, DnsKeywords);
  }

  /** Some keyword appears in `text` at index `i`, in any mix of cases. */
  predicate KeywordAt(text: string, keywords: seq<string>, j: int, i: int) {
    0 <= j < |keywords| && 0 <= i && i + |keywords[j]| <= |text| && EqualFold(text[i..i + |keywords[j]|], keywords[j])
  }

  /** The lower-cased search finds a keyword exactly when some stretch of the
      text equals a keyword up to case. */
  lemma MentionsAnyIffKeywordAt(text: string, keywords: seq<string>)
    ensures MentionsAny(text, keywords) <==> exists j, i :: KeywordAt(text, keywords, j, i)
  {
    var lower := ToLower(text);
    if MentionsAny(text, keywords) {
      var j :| 0 <= j < |keywords| && Contains(lower, ToLower(keywords[j]));
      ContainsIffOccurs(lower, ToLower(keywords[j]));
      var i :| OccursAt(lower, ToLower(keywords[j]), i);
      ToLowerSlice(text, i, i + |keywords[j]|);
      assert KeywordAt(text, keywords, j, i);
    }
    if exists j, i :: KeywordAt(text, keywords, j, i) {
      var j, i :| KeywordAt(text, keywords, j, i);
      ToLowerSlice(text, i, i + |keywords[j]|);
      assert OccursAt(lower, ToLower(keywords[j]), i);
      ContainsIffOccurs(lower, ToLower(keywords[j]));
    }
  }

  /** Whatever the host name, Go's resolver message for an unknown host is a
      DNS error. */
  lemma UnknownHostIsDnsError(host: string)
    ensures IsDnsError(Error("lookup " + host + ": no such host", false, false, false))
  {
    var text := "lookup " + host + ": no such host";
    assert text[|host| + 9..|host| + 21] == DnsKeywords[0];
    assert KeywordAt(text, DnsKeywords, 0, |host| + 9);
    MentionsAnyIffKeywordAt(text, DnsKeywords);
  }

  /** A text shorter than every authentication keyword is no authentication
      error. */
  lemma ShortTextIsNoAuthError(e: Error)
    requires |e.text| < 19
    ensures !IsAuthError(e)
  {
    forall j | 0 <= j < |AuthKeywords| ensures !Contains(ToLower(e.text), ToLower(AuthKeywords[j])) {
      assert |ToLower(AuthKeywords[j])| == |AuthKeywords[j]| >= 19;
    }
  }

  // ----- classification -----

  /** The `(ErrCode, ErrText)` pair `handleExit` assigns. */
  datatype Verdict = Verdict(code: int, text: string)

  /** The codes classification can produce; code 4 (no route to host),
      listed in the source's comment, is never produced. */
  const ExitCodes: set<int> := {0, 1, 2, 3, 5, 6, 255}

  /** `handleExit`: no error is success; otherwise the first test that holds,
      in the order authentication, timeout, connection refused, the
      `errors.Is` DNS test, the "no such host" keyword, decides. */
  function Classify(errRaw: Option<Error>): (v: Verdict)
    ensures v.code in ExitCodes && v.code != 4
    ensures v.code == 0 <==> errRaw.None?
    ensures v.code == 255 ==> v.text == errRaw.value.text
  {
    match errRaw
    case None => Verdict(0, "success")
    case Some(e) =>
      if IsAuthError(e) then Verdict(1, "authentication failure")
      else if e.isTimeout then Verdict(2, "timeout")
      else if e.isConnRefused then Verdict(3, "connection refused")
      else if e.isDnsTarget then Verdict(5, "DNS Lookup error 2")
      else if IsDnsError(e) then Verdict(6, "DNS Lookup error")
      else Verdict(255, e.text)
  }

  /** Each code is produced exactly when its test holds and no earlier test does. */
  lemma ClassifyPrecedence(errRaw: Option<Error>)
    ensures Classify(errRaw) == Verdict(0, "success") <==> errRaw.None?
    ensures Classify(errRaw).code == 1 <==> errRaw.Some? && IsAuthError(errRaw.value)
    ensures Classify(errRaw).code == 2 <==> errRaw.Some? && !IsAuthError(errRaw.value) && errRaw.value.isTimeout
    ensures Classify(errRaw).code == 3 <==>
      (errRaw.Some? && !IsAuthError(errRaw.value) && !errRaw.value.isTimeout && errRaw.value.isConnRefused)
    ensures Classify(errRaw).code == 5 <==>
      (errRaw.Some? && !IsAuthError(errRaw.value) && !errRaw.value.isTimeout &&
       !errRaw.value.isConnRefused && errRaw.value.isDnsTarget)
    ensures Classify(errRaw).code == 6 <==>
      (errRaw.Some? && !IsAuthError(errRaw.value) && !errRaw.value.isTimeout &&
       !errRaw.value.isConnRefused && !errRaw.value.isDnsTarget && IsDnsError(errRaw.value))
    ensures Classify(errRaw).code == 255 <==>
      (errRaw.Some? && !IsAuthError(errRaw.value) && !errRaw.value.isTimeout &&
       !errRaw.value.isConnRefused && !errRaw.value.isDnsTarget && !IsDnsError(errRaw.value))
  {
  }

  /** An error whose text names both an authentication failure and an
      unknown host counts as an authentication failure. */
  lemma AuthenticationWinsOverEverything(e: Error)
    requires IsAuthError(e)
    ensures Classify(Some(e)) == Verdict(1, "authentication failure")
  {
  }

  // ----- authentication and the transport -----

  /** What reading and parsing the private key file gives: `readFile` ends
      the process when the file cannot be opened, `ParsePrivateKey` may reject
      its contents. */
  datatype KeyFile = Unreadable(message: string) | Malformed | Usable

  datatype AuthMethod = PublicKeys(keyPath: string) | PasswordAuth(password: string)

  /** One `ssh.Dial` to `address` as `user`, with a single auth method. */
  datatype Request = Request(address: string, user: string, auth: AuthMethod)

  /** What a dial leads to: the dial fails, the session cannot be opened, or
      the session runs `ls -l /` with the given error (None when it succeeds). */
  datatype SessionOutcome = DialFailed(dialErr: Error) | SessionFailed(sessionErr: Error) | Opened(commandErr: Option<Error>)

  const BothEmptyMessage := "Both key and password are empty.  One must be provided."

  /** `SSHConnect`'s choice of auth method: the key wins when present. */
  function AuthFor(key: string, password: string, keyFile: string -> KeyFile): (r: Outcome<AuthMethod>)
    ensures key == "" && password == "" ==> r == Halted(BothEmptyMessage)
    ensures r.Halted? <==> (key == "" && password == "") || (key != "" && keyFile(key) != Usable)
    ensures key != "" && keyFile(key).Unreadable? ==> r == Halted(keyFile(key).message)
    ensures key != "" && keyFile(key) == Usable ==> r == Returned(PublicKeys(key))
    ensures key != "" && keyFile(key) == Malformed ==> r == Halted("Bad key: " + key)
    ensures key == "" && password != "" ==> r == Returned(PasswordAuth(password))
    ensures r.Returned? ==> (r.value.PasswordAuth? <==> key == "")
  {
    if |password| == 0 && |key| == 0 then Halted(BothEmptyMessage)
    else if |key| > 0 then
      match keyFile(key)
      case Unreadable(m) => Halted(m)
      case Malformed => Halted("Bad key: " + key)
      case Usable => Returned(PublicKeys(key))
    else Returned(PasswordAuth(password))
  }

  /** `net.JoinHostPort`: a host containing a colon is bracketed. */
  function JoinHostPort(host: string, port: string): (r: string)
    ensures Contains(host, ":") ==> r == "[" + host + "]:" + port
    ensures !Contains(host, ":") ==> r == host + ":" + port
  {
    if Contains(host, ":") then "[" + host + "]:" + port else host + ":" + port
  }

  /** The SSH transport: key files and dial answers are fixed functions;
      `attempts` logs each dial made. */
  class Network {
    const keyFile: string -> KeyFile
    const dial: Request -> SessionOutcome
    var attempts: seq<Request>

    constructor (keyFile: string -> KeyFile, dial: Request -> SessionOutcome)
      ensures this.keyFile == keyFile && this.dial == dial && attempts == []
    {
      this.keyFile := keyFile;
      this.dial := dial;
      attempts := [];
    }

    method Dial(req: Request) returns (o: SessionOutcome)
      modifies this`attempts
      ensures attempts == old(attempts) + [req] && o == dial(req)
    {
      attempts := attempts + [req];
      o := dial(req);
    }
  }

  // ----- TryConnect -----

  /** The abort `TryConnect` makes before any connection attempt, if any. */
  function Preflight(key: string, password: string, host: string): (r: Option<string>)
    ensures r.None? <==> (key == "" <==> password != "") && host != ""
  {
    if |key| == 0 && |password| == 0 then Some("No key or password provided.")
    else if |key| > 0 && |password| > 0 then Some("Application does not yet support passwords AND keys both.")
    else if |host| == 0 then Some("No host provided.")
    else None
  }

  /** The connect step's error, which `TryConnect` stores in `ErrRaw`. */
  function ConnectError(o: SessionOutcome): Option<Error> {
    match o
    case DialFailed(e) => Some(e)
    case SessionFailed(e) => Some(e)
    case Opened(_) => None
  }

  /** What one `TryConnect` call does: the dial it makes (if any), the new
      `ErrRaw` and its outcome. */
  datatype Attempt = Attempt(request: Option<Request>, errRaw: Option<Error>, outcome: Outcome<bool>)

  function TryConnectSpec(host: string, port: string, user: string, key: string, password: string,
                          oldErrRaw: Option<Error>, keyFile: string -> KeyFile, dial: Request -> SessionOutcome): Attempt
  {
    match Preflight(key, password, host)
    case Some(m) => Attempt(None, oldErrRaw, Halted(m))
    case None =>
      match AuthFor(key, password, keyFile)
      case Halted(m) => Attempt(None, oldErrRaw, Halted(m))
      case Returned(auth) =>
        var req := Request(JoinHostPort(host, port), user, auth);
        var o := dial(req);
        Attempt(Some(req), ConnectError(o), Returned(o == Opened(None)))
  }

  /** A failed precondition aborts before any dial and leaves `ErrRaw` alone. */
  lemma PreflightBeforeDial(host: string, port: string, user: string, key: string, password: string,
                            oldErrRaw: Option<Error>, keyFile: string -> KeyFile, dial: Request -> SessionOutcome)
    requires (key == "" && password == "") || (key != "" && password != "") || host == ""
    ensures var a := TryConnectSpec(host, port, user, key, password, oldErrRaw, keyFile, dial);
      a.request.None? && a.errRaw == oldErrRaw && a.outcome.Halted?
  {
  }

  /** `TryConnect` reports true only when the dial, the session and the
      command all succeed; a failing command leaves `ErrRaw` nil. Key and
      password are never both used: the dial uses the key exactly when one
      is given. */
  lemma TryConnectResult(host: string, port: string, user: string, key: string, password: string,
                         oldErrRaw: Option<Error>, keyFile: string -> KeyFile, dial: Request -> SessionOutcome)
    ensures var a := TryConnectSpec(host, port, user, key, password, oldErrRaw, keyFile, dial);
      && (a.outcome == Returned(true) <==> a.request.Some? && dial(a.request.value) == Opened(None))
      && (a.request.Some? ==> a.errRaw == ConnectError(dial(a.request.value)))
      && (a.request.Some? && dial(a.request.value).Opened? ==> a.errRaw.None?)
      && (a.request.Some? ==> a.request.value.address == JoinHostPort(host, port) && a.request.value.user == user)
      && (a.request.Some? ==> (a.request.value.auth == PublicKeys(key) <==> key != ""))
      && (a.request.Some? ==> (a.request.value.auth == PasswordAuth(password) <==> key == ""))
  {
  }

  // ----- the probe record -----

  /** The record `GetJson` serialises. */
  datatype JsonView = JsonView(host: string, port: string, user: string, password: string, key: string, errCode: int, errText: string)

  class ConnectionInfo {
    var host: string
    var user: string
    var port: string
    var key: string
    var password: string
    var errCode: int
    var errText: string
    var errRaw: Option<Error>

    constructor (host: string, user: string, port: string, key: string, password: string)
      ensures this.host == host && this.user == user && this.port == port && this.key == key && this.password == password
      ensures errCode == 0 && errText == "" && errRaw == None
    {
      this.host := host;
      this.user := user;
      this.port := port;
      this.key := key;
      this.password := password;
      errCode := 0;
      errText := "";
      errRaw := None;
    }

    /** Choose the auth method and dial; a bad or missing key, or neither key
        nor password, ends the process before the dial. */
    method SSHConnect(net: Network) returns (r: Outcome<SessionOutcome>)
      modifies net`attempts
      ensures AuthFor(key, password, net.keyFile).Halted? ==>
        r == Halted(AuthFor(key, password, net.keyFile).message) && net.attempts == old(net.attempts)
      ensures AuthFor(key, password, net.keyFile).Returned? ==>
        var req := Request(JoinHostPort(host, port), user, AuthFor(key, password, net.keyFile).value);
        net.attempts == old(net.attempts) + [req] && r == Returned(net.dial(req))
    {
      var auth := AuthFor(key, password, net.keyFile);
      if auth.Halted? {
        return Halted(auth.message);
      }
      var o := net.Dial(Request(JoinHostPort(host, port), user, auth.value));
      r := Returned(o);
    }

    /** Check the preconditions, connect and run `ls -l /`. */
    method TryConnect(net: Network) returns (r: Outcome<bool>)
      modifies this`errRaw, net`attempts
      ensures var a := TryConnectSpec(old(host), old(port), old(user), old(key), old(password), old(errRaw), net.keyFile, net.dial);
        && r == a.outcome && errRaw == a.errRaw
        && net.attempts == old(net.attempts) + (if a.request.Some? then [a.request.value] else [])
    {
      var pre := Preflight(key, password, host);
      if pre.Some? {
        return Halted(pre.value);
      }
      var o := SSHConnect(net);
      if o.Halted? {
        return Halted(o.message);
      }
      errRaw := ConnectError(o.value);
      if errRaw.Some? {
        return Returned(false);
      }
      r := Returned(o.value == Opened(None));
    }

    /** The report, with the password replaced by its hash. */
    function GetJson(sha256: string -> string): (j: JsonView)
      reads this
      ensures j.host == host && j.port == port && j.user == user && j.key == key
      ensures j.errCode == errCode && j.errText == errText
      ensures password == "" ==> j.password == ""
      ensures password != "" ==> j.password == "Hash: " + sha256(password)
    {
      JsonView(host, port, user, if |password| == 0 then "" else "Hash: " + sha256(password), key, errCode, errText)
    }

    /** Assign the exit code and text; return the exit code and the report
        `handleExit` prints. */
    method HandleExit(sha256: string -> string) returns (exitCode: int, report: JsonView)
      modifies this`errCode, this`errText
      ensures Verdict(errCode, errText) == Classify(errRaw)
      ensures exitCode == errCode && report == GetJson(sha256)
    {
      if errRaw.None? {
        errCode, errText := 0, "success";
      } else {
        var e := errRaw.value;
        var auth := IsAuthenticationError(e);
        var dns := IsDNSError(e);
        if auth {
          errCode, errText := 1, "authentication failure";
        } else if e.isTimeout {
          errCode, errText := 2, "timeout";
        } else if e.isConnRefused {
          errCode, errText := 3, "connection refused";
        } else if e.isDnsTarget {
          errCode, errText := 5, "DNS Lookup error 2";
        } else if dns {
          errCode, errText := 6, "DNS Lookup error";
        } else {
          errCode, errText := 255, e.text;
        }
      }
      exitCode := errCode;
      report := GetJson(sha256);
    }
  }

  /** The report depends on the password only through its hash and whether it
      is empty: two records that differ only in passwords with equal hashes
      give the same report, so the report never reveals more than the hash. */
  lemma JsonRevealsOnlyHash(a: ConnectionInfo, b: ConnectionInfo, sha256: string -> string)
    requires a.host == b.host && a.port == b.port && a.user == b.user && a.key == b.key
    requires a.errCode == b.errCode && a.errText == b.errText
    requires (a.password == "") == (b.password == "")
    requires a.password != "" ==> sha256(a.password) == sha256(b.password)
    ensures a.GetJson(sha256) == b.GetJson(sha256)
  {
  }
}
