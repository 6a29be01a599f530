/** The EIP-712 login script of scripts/pear-auth-setup.ts as a state machine:
    configuration check, challenge GET, key normalisation, address check,
    typed-data signing, login POST and the token report. The network replies,
    the wallet's address derivation and signing, `encodeURIComponent` and the
    clock are inputs of the run. */
module PearAuthSetup {
  import opened Results
  import opened Strings
  import opened Js

  const ApiBaseVar := "PEAR_API_BASE"
  const ClientIdVar := "PEAR_CLIENT_ID"
  const UserAddressVar := "PEAR_USER_ADDRESS"
  const PrivateKeyVar := "PEAR_USER_PRIVATE_KEY"

  /** The four settings the script requires, in the order it reports them. */
  const RequiredVars: seq<string> := [ApiBaseVar, ClientIdVar, UserAddressVar, PrivateKeyVar]

  datatype Config = Config(apiBase: string, clientId: string, userAddress: string, privateKey: string)

  /** The diagnostic printed when a setting is missing: one line per required
      setting, in the order above, each marked set or not set. */
  function ConfigReport(env: Env): (report: seq<(string, bool)>)
    ensures |report| == |RequiredVars|
    ensures forall i :: 0 <= i < |report| ==>
              report[i].0 == RequiredVars[i] && (report[i].1 <==> IsSet(env, RequiredVars[i]))
  {
    seq(|RequiredVars|, i requires 0 <= i < |RequiredVars| => (RequiredVars[i], IsSet(env, RequiredVars[i])))
  }

  /** The configuration check: all four settings, or the diagnostic, in which
      at least one setting is marked as not set. */
  function ReadConfig(env: Env): (r: Result<Config, seq<(string, bool)>>)
    ensures r.Success? <==> IsSet(env, ApiBaseVar) && IsSet(env, ClientIdVar)
                            && IsSet(env, UserAddressVar) && IsSet(env, PrivateKeyVar)
    ensures r.Success? ==> r.value == Config(env[ApiBaseVar], env[ClientIdVar],
                                             env[UserAddressVar], env[PrivateKeyVar])
    ensures r.Failure? ==>
              && r.error == ConfigReport(env)
              && exists i :: 0 <= i < |r.error| && !r.error[i].1
  {
    if IsSet(env, ApiBaseVar) && IsSet(env, ClientIdVar) && IsSet(env, UserAddressVar) && IsSet(env, PrivateKeyVar)
    then Success(Config(env[ApiBaseVar], env[ClientIdVar], env[UserAddressVar], env[PrivateKeyVar]))
    else
      var report := ConfigReport(env);
      assert !report[0].1 || !report[1].1 || !report[2].1 || !report[3].1;
      Failure(report)
  }

  // ---------------------------------------------------------------------------
  // Data exchanged with the provider

  datatype Domain = Domain(name: string, version: string, chainId: int, verifyingContract: string)
  datatype TypedField = TypedField(name: string, fieldType: string)

  /** The EIP-712 challenge as the provider returns it. */
  datatype Challenge = Challenge(
    domain: Domain,
    types: map<string, seq<TypedField>>,
    message: map<string, JsValue>,
    primaryType: string)

  datatype LoginDetails = LoginDetails(signature: string)

  /** The login request body; `authMethod` is its JSON field `method`. */
  datatype LoginRequest = LoginRequest(authMethod: string, address: string, clientId: string, details: LoginDetails)

  /** The login reply; `expiresIn` is absent when the provider omits it. */
  datatype LoginResponse = LoginResponse(accessToken: string, refreshToken: string, expiresIn: Option<int>)

  /** What a `fetch` produced: a transport failure, or a response whose body
      `.json()` turns into a value (none when it does not parse). */
  datatype HttpOutcome<T> =
    | NetworkError
    | Response(status: nat, text: string, json: Option<T>)
  {
    /** `response.ok`: a status in the range 200-299. */
    predicate Ok() requires Response? {
      200 <= status <= 299
    }
  }

  /** Everything the run depends on that is not its own logic. */
  datatype World = World(
    challengeReply: HttpOutcome<Challenge>,
    loginReply: HttpOutcome<LoginResponse>,
    /** `encodeURIComponent` */
    encode: string -> string,
    /** `new ethers.Wallet(key).address`, none when the constructor throws. */
    walletAddress: string -> Option<string>,
    /** `wallet.signTypedData(domain, types, message)`, none when it throws. */
    signTypedData: (string, Domain, map<string, seq<TypedField>>, map<string, JsValue>) -> Option<string>,
    /** `Date.now()` in milliseconds. */
    now: int)

  // ---------------------------------------------------------------------------
  // Pure steps

  /** The key given to the wallet: a `0x` prefix is added when missing. */
  function NormalizeKey(key: string): (r: string)
    ensures StartsWith(r, "0x")
    ensures StartsWith(key, "0x") ==> r == key
    ensures !StartsWith(key, "0x") ==> r[2..] == key
  {
    if StartsWith(key, "0x") then key else "0x" + key
  }

  lemma NormalizeKeyIdempotent(key: string)
    ensures NormalizeKey(NormalizeKey(key)) == NormalizeKey(key)
  {
  }

  const ChallengePath := "/auth/eip712-message?address="

  /** The challenge URL: the base exactly as configured (no slash
      normalisation), then the encoded address and the encoded client id as
      query parameters. */
  function ChallengeUrl(cfg: Config, encode: string -> string): (url: string)
    ensures StartsWith(url, cfg.apiBase + ChallengePath)
    ensures var start := |cfg.apiBase + ChallengePath|;
            && start + |encode(cfg.userAddress)| <= |url|
            && url[start..start + |encode(cfg.userAddress)|] == encode(cfg.userAddress)
    ensures EndsWith(url, "&clientId=" + encode(cfg.clientId))
    ensures url[|cfg.apiBase + ChallengePath|..] == encode(cfg.userAddress) + "&clientId=" + encode(cfg.clientId)
  {
    cfg.apiBase + ChallengePath + encode(cfg.userAddress) + "&clientId=" + encode(cfg.clientId)
  }

  function LoginUrl(cfg: Config): string {
    cfg.apiBase + "/auth/login"
  }

  /** The login body: the configured address and client id, and the signature. */
  function LoginBody(cfg: Config, signature: string): (b: LoginRequest)
    ensures b.authMethod == "eip712"
    ensures b.address == cfg.userAddress && b.clientId == cfg.clientId
    ensures b.details.signature == signature
  {
    LoginRequest("eip712", cfg.userAddress, cfg.clientId, LoginDetails(signature))
  }

  /** The expiry report: printed only when `expiresIn` is truthy, as now plus
      that many seconds, in milliseconds. */
  function ExpiresAt(expiresIn: Option<int>, now: int): (r: Option<int>)
    ensures r.Some? <==> expiresIn.Some? && expiresIn.value != 0
    ensures r.Some? ==> r.value - now == expiresIn.value * 1000
  {
    match expiresIn
    case Some(e) => if e != 0 then Some(now + e * 1000) else None
    case None => None
  }

  /** The largest distance from the epoch, in milliseconds, that a `Date` can
      hold; beyond it the date is invalid and `toISOString` throws. */
  const MaxTimeValue: int := 8_640_000_000_000_000

  /** The expiry, when reported, is a valid date. */
  predicate ExpiryRepresentable(expiresIn: Option<int>, now: int) {
    var at := ExpiresAt(expiresIn, now);
    at.Some? ==> -MaxTimeValue <= at.value <= MaxTimeValue
  }

  /** An `expiresIn` of 3600 seconds is reported one hour after now; 0 is not reported. */
  lemma ExpiryExamples(now: int)
    ensures ExpiresAt(Some(3600), now) == Some(now + 3600000)
    ensures ExpiresAt(Some(0), now) == None
    ensures ExpiresAt(None, now) == None
    ensures 0 <= now ==> !ExpiryRepresentable(Some(10_000_000_000_000), now)
  {
  }

  // ---------------------------------------------------------------------------
  // The state machine

  /** Why the run ended with exit status 1. */
  datatype AbortReason =
    | MissingConfig(report: seq<(string, bool)>)
    | TransportFailed
    | ChallengeRejected(status: nat, text: string)
    | ChallengeUnreadable
    | InvalidKey
    | AddressMismatch(wallet: string, configured: string)
    | SigningFailed
    | LoginRejected(status: nat, text: string)
    | LoginUnreadable
    /** The tokens were printed, then formatting the expiry date threw. */
    | ExpiryOutOfRange(tokens: LoginResponse)

  datatype Phase =
    | Idle
    | ChallengeFetched(cfg: Config, challenge: Challenge)
    | Signed(cfg: Config, signature: string)
    | Authenticated(tokens: LoginResponse, expiresAt: Option<int>)
    | Failed(reason: AbortReason)
  {
    predicate Terminal() {
      Authenticated? || Failed?
    }

    /** How far along the happy path the phase lies. */
    function Rank(): nat {
      match this
      case Idle => 0
      case ChallengeFetched(_, _) => 1
      case Signed(_, _) => 2
      case Authenticated(_, _) => 3
      case Failed(_) => 3
    }
  }

  /** The outside-visible actions, in the order they happen. */
  datatype Effect =
    | HttpGet(url: string, headers: seq<(string, string)>)
    | Sign(key: string, domain: Domain, types: map<string, seq<TypedField>>, message: map<string, JsValue>)
    | HttpPost(url: string, headers: seq<(string, string)>, body: LoginRequest)

  datatype Machine = Machine(phase: Phase, trace: seq<Effect>)

  const GetHeaders: seq<(string, string)> := [("Accept", "application/json")]
  const PostHeaders: seq<(string, string)> := [("Content-Type", "application/json"), ("Accept", "application/json")]

  /** From `Idle`: the configuration check, then the challenge GET. */
  function FetchChallenge(env: Env, w: World, trace: seq<Effect>): Machine {
    match ReadConfig(env)
    case Failure(report) => Machine(Failed(MissingConfig(report)), trace)
    case Success(cfg) =>
      var trace' := trace + [HttpGet(ChallengeUrl(cfg, w.encode), GetHeaders)];
      match w.challengeReply
      case NetworkError => Machine(Failed(TransportFailed), trace')
      case Response(status, text, json) =>
        if !w.challengeReply.Ok() then Machine(Failed(ChallengeRejected(status, text)), trace')
        else if json.None? then Machine(Failed(ChallengeUnreadable), trace')
        else Machine(ChallengeFetched(cfg, json.value), trace')
  }

  /** From `ChallengeFetched`: key normalisation, the address check, then signing. */
  function SignChallenge(w: World, cfg: Config, ch: Challenge, trace: seq<Effect>): Machine {
    var key := NormalizeKey(cfg.privateKey);
    match w.walletAddress(key)
    case None => Machine(Failed(InvalidKey), trace)
    case Some(address) =>
      if AsciiLower(address) != AsciiLower(cfg.userAddress) then
        Machine(Failed(AddressMismatch(address, cfg.userAddress)), trace)
      else
        var trace' := trace + [Sign(key, ch.domain, ch.types, ch.message)];
        match w.signTypedData(key, ch.domain, ch.types, ch.message)
        case None => Machine(Failed(SigningFailed), trace')
        case Some(signature) => Machine(Signed(cfg, signature), trace')
  }

  /** From `Signed`: the login POST and the token report. */
  function Login(w: World, cfg: Config, signature: string, trace: seq<Effect>): Machine {
    var trace' := trace + [HttpPost(LoginUrl(cfg), PostHeaders, LoginBody(cfg, signature))];
    match w.loginReply
    case NetworkError => Machine(Failed(TransportFailed), trace')
    case Response(status, text, json) =>
      if !w.loginReply.Ok() then Machine(Failed(LoginRejected(status, text)), trace')
      else if json.None? then Machine(Failed(LoginUnreadable), trace')
      else if !ExpiryRepresentable(json.value.expiresIn, w.now) then
        Machine(Failed(ExpiryOutOfRange(json.value)), trace')
      else Machine(Authenticated(json.value, ExpiresAt(json.value.expiresIn, w.now)), trace')
  }

  /** One transition. Each step records at most one effect and then either
      advances along the happy path or moves to `Failed`. */
  function Step(env: Env, w: World, m: Machine): (r: Machine)
    ensures m.phase.Terminal() ==> r == m
    ensures !m.phase.Terminal() ==> r.phase.Rank() == m.phase.Rank() + 1 || r.phase.Failed?
    ensures m.trace <= r.trace && |r.trace| <= |m.trace| + 1
  {
    match m.phase
    case Idle => FetchChallenge(env, w, m.trace)
    case ChallengeFetched(cfg, ch) => SignChallenge(w, cfg, ch, m.trace)
    case Signed(cfg, signature) => Login(w, cfg, signature, m.trace)
    case Authenticated(_, _) => m
    case Failed(_) => m
  }

  /** The whole run of `main`: three steps from `Idle`. */
  function Run(env: Env, w: World): (r: Machine)
    ensures r.phase.Terminal()
    ensures |r.trace| <= 3
  {
    var m1 := Step(env, w, Machine(Idle, []));
    var m2 := Step(env, w, m1);
    Step(env, w, m2)
  }

  /** The process exit status of a finished run. */
  function ExitStatus(p: Phase): (code: int)
    requires p.Terminal()
    ensures code == 0 <==> p.Authenticated?
    ensures code == 1 <==> p.Failed?
  {
    if p.Authenticated? then 0 else 1
  }

  // ---------------------------------------------------------------------------
  // Properties of a run

  /** The condition under which signing takes place. */
  predicate ReachesSigning(env: Env, w: World) {
    && ReadConfig(env).Success?
    && w.challengeReply.Response?
    && w.challengeReply.Ok()
    && w.challengeReply.json.Some?
    && w.walletAddress(NormalizeKey(env[PrivateKeyVar])).Some?
    && SameIgnoringCase(w.walletAddress(NormalizeKey(env[PrivateKeyVar])).value, env[UserAddressVar])
  }

  /** Signing was reached and produced a signature. */
  predicate SignatureProduced(env: Env, w: World) {
    && ReachesSigning(env, w)
    && var ch := w.challengeReply.json.value;
       w.signTypedData(NormalizeKey(env[PrivateKeyVar]), ch.domain, ch.types, ch.message).Some?
  }

  /** Every stage succeeds: a signature, an ok and parsable login reply, and
      an expiry (if any) that is a valid date. */
  predicate RunSucceeds(env: Env, w: World) {
    && SignatureProduced(env, w)
    && w.loginReply.Response?
    && w.loginReply.Ok()
    && w.loginReply.json.Some?
    && ExpiryRepresentable(w.loginReply.json.value.expiresIn, w.now)
  }

  /** A missing or empty setting ends the run with status 1 before any request. */
  lemma MissingConfigAbortsBeforeNetwork(env: Env, w: World)
    requires !IsSet(env, ApiBaseVar) || !IsSet(env, ClientIdVar)
          || !IsSet(env, UserAddressVar) || !IsSet(env, PrivateKeyVar)
    ensures Run(env, w).phase.Failed? && Run(env, w).phase.reason.MissingConfig?
    ensures ExitStatus(Run(env, w).phase) == 1
    ensures Run(env, w).trace == []
  {
  }

  /** A non-ok challenge reply aborts with its status and body text; nothing
      is signed and no login is sent. */
  lemma ChallengeRejectionAborts(env: Env, w: World)
    requires ReadConfig(env).Success?
    requires w.challengeReply.Response? && !w.challengeReply.Ok()
    ensures Run(env, w).phase == Failed(ChallengeRejected(w.challengeReply.status, w.challengeReply.text))
    ensures ExitStatus(Run(env, w).phase) == 1
    ensures Run(env, w).trace == [HttpGet(ChallengeUrl(ReadConfig(env).value, w.encode), GetHeaders)]
  {
  }

  /** Signing happens exactly when the challenge arrived and the wallet's
      address equals the configured one up to case; otherwise neither signing
      nor login takes place. */
  lemma SignsIffAddressMatches(env: Env, w: World)
    ensures (exists i :: 0 <= i < |Run(env, w).trace| && Run(env, w).trace[i].Sign?) <==> ReachesSigning(env, w)
    ensures !ReachesSigning(env, w) ==>
              forall i :: 0 <= i < |Run(env, w).trace| ==> Run(env, w).trace[i].HttpGet?
  {
    var m1 := Step(env, w, Machine(Idle, []));
    var m2 := Step(env, w, m1);
    if ReachesSigning(env, w) {
      assert m1.phase.ChallengeFetched?;
      assert m2.trace[1].Sign?;
      assert Run(env, w).trace[1] == m2.trace[1];
    }
  }

  /** A wallet address that differs from `PEAR_USER_ADDRESS` (ignoring case)
      ends the run with status 1 after the challenge GET, before signing. */
  lemma AddressMismatchAborts(env: Env, w: World)
    requires ReadConfig(env).Success?
    requires w.challengeReply.Response? && w.challengeReply.Ok() && w.challengeReply.json.Some?
    requires w.walletAddress(NormalizeKey(env[PrivateKeyVar])).Some?
    requires !SameIgnoringCase(w.walletAddress(NormalizeKey(env[PrivateKeyVar])).value, env[UserAddressVar])
    ensures Run(env, w).phase
         == Failed(AddressMismatch(w.walletAddress(NormalizeKey(env[PrivateKeyVar])).value, env[UserAddressVar]))
    ensures ExitStatus(Run(env, w).phase) == 1
    ensures Run(env, w).trace == [HttpGet(ChallengeUrl(ReadConfig(env).value, w.encode), GetHeaders)]
  {
  }

  /** The steps occur in order: challenge GET, then signing, then login POST. */
  lemma StepsInOrder(env: Env, w: World)
    ensures var t := Run(env, w).trace;
            && (|t| > 0 ==> t[0].HttpGet?)
            && (|t| > 1 ==> t[1].Sign?)
            && (|t| > 2 ==> t[2].HttpPost? && t[2].url == ReadConfig(env).value.apiBase + "/auth/login")
  {
  }

  /** The signature covers the fetched domain, types and message unmodified,
      and the login body carries that same signature with the configured
      address and client id. */
  lemma LoginBodyCarriesSignature(env: Env, w: World)
    requires |Run(env, w).trace| == 3
    ensures var cfg := ReadConfig(env).value;
            var ch := w.challengeReply.json.value;
            var key := NormalizeKey(cfg.privateKey);
            var t := Run(env, w).trace;
            && w.challengeReply.Response? && w.challengeReply.json.Some?
            && t[1] == Sign(key, ch.domain, ch.types, ch.message)
            && w.signTypedData(key, ch.domain, ch.types, ch.message).Some?
            && t[2] == HttpPost(cfg.apiBase + "/auth/login", PostHeaders,
                 LoginRequest("eip712", cfg.userAddress, cfg.clientId,
                   LoginDetails(w.signTypedData(key, ch.domain, ch.types, ch.message).value)))
  {
  }

  /** A non-ok login reply ends the run with status 1, its status and its body. */
  lemma LoginRejectionAborts(env: Env, w: World)
    requires SignatureProduced(env, w)
    requires w.loginReply.Response? && !w.loginReply.Ok()
    ensures Run(env, w).phase == Failed(LoginRejected(w.loginReply.status, w.loginReply.text))
    ensures ExitStatus(Run(env, w).phase) == 1
    ensures |Run(env, w).trace| == 3 && Run(env, w).trace[2].HttpPost?
  {
  }

  /** An ok login whose expiry is not a valid date ends with status 1 after
      the tokens were printed. */
  lemma ExpiryOutOfRangeAborts(env: Env, w: World)
    requires SignatureProduced(env, w)
    requires w.loginReply.Response? && w.loginReply.Ok() && w.loginReply.json.Some?
    requires !ExpiryRepresentable(w.loginReply.json.value.expiresIn, w.now)
    ensures Run(env, w).phase == Failed(ExpiryOutOfRange(w.loginReply.json.value))
    ensures ExitStatus(Run(env, w).phase) == 1
  {
  }

  /** The run is authenticated exactly when every stage succeeds. Then it has
      three effects, the tokens exactly as the provider sent them, exit status
      0, and an expiry only for a truthy `expiresIn`. */
  lemma SuccessfulRun(env: Env, w: World)
    ensures Run(env, w).phase.Authenticated? <==> RunSucceeds(env, w)
    ensures RunSucceeds(env, w) ==>
            var tokens := w.loginReply.json.value;
            && Run(env, w).phase.tokens == tokens
            && ExitStatus(Run(env, w).phase) == 0
            && |Run(env, w).trace| == 3
            && (Run(env, w).phase.expiresAt.Some? <==> tokens.expiresIn.Some? && tokens.expiresIn.value != 0)
            && (Run(env, w).phase.expiresAt.Some? ==>
                  Run(env, w).phase.expiresAt.value == w.now + tokens.expiresIn.value * 1000)
  {
  }
}
