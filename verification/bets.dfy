/** The in-memory bet ledger of backend/src/routes/bets.ts: the POST handler's
    three-stage validation and append, and the GET handler. */
module Bets {
  import opened Results
  import opened Js
  import Themes

  datatype Side = Left | Right
  datatype BetStatus = Pending | Open | Closed

  /** A stored bet. `themeId` holds whatever truthy value the request carried:
      the handler never checks its type. */
  datatype Bet = Bet(
    id: string,
    themeId: JsValue,
    side: Side,
    stake: real,
    status: BetStatus,
    createdAt: string)

  /** The module-level `bets` array, oldest first. */
  type Ledger = seq<Bet>

  /** `req.body` as parsed by `express.json()`. */
  type RequestBody = map<string, JsValue>

  /** Destructuring `req.body`: an absent field reads as `undefined`. */
  function Field(body: RequestBody, name: string): JsValue {
    if name in body then body[name] else Undefined
  }

  /** The three rejections, in the order the handler tests them. */
  datatype PostError = MissingFields | InvalidSide | InvalidStake {
    function Message(): string {
      match this
      case MissingFields => "Missing required fields: themeId, side, stake"
      case InvalidSide => "side must be \"left\" or \"right\""
      case InvalidStake => "stake must be a positive number"
    }
  }

  /** The side a value names under strict equality, if any. */
  function SideOf(v: JsValue): (r: Option<Side>)
    ensures r == Some(Left) <==> v == Str("left")
    ensures r == Some(Right) <==> v == Str("right")
  {
    if v == Str("left") then Some(Left)
    else if v == Str("right") then Some(Right)
    else None
  }

  /** `typeof stake === 'number' && stake > 0` */
  predicate PositiveNumber(v: JsValue) {
    v.Num? && v.n > 0.0
  }

  /** Declarative acceptance condition: a truthy theme id, a side that is
      exactly "left" or "right", and a positive number as stake. */
  predicate ValidBetRequest(body: RequestBody) {
    && Truthy(Field(body, "themeId"))
    && (Field(body, "side") == Str("left") || Field(body, "side") == Str("right"))
    && PositiveNumber(Field(body, "stake"))
  }

  /** The handler's validation cascade; the first failing stage decides the error. */
  function Validate(body: RequestBody): (r: Result<(JsValue, Side, real), PostError>)
    ensures r.Success? <==> ValidBetRequest(body)
    ensures r.Failure? && r.error == MissingFields <==>
              !Truthy(Field(body, "themeId")) || !Truthy(Field(body, "side")) || !Truthy(Field(body, "stake"))
    ensures r.Failure? && r.error == InvalidSide ==> SideOf(Field(body, "side")).None?
    ensures r.Failure? && r.error == InvalidStake ==>
              SideOf(Field(body, "side")).Some? && !PositiveNumber(Field(body, "stake"))
    ensures r.Success? ==>
              && r.value.0 == Field(body, "themeId")
              && Some(r.value.1) == SideOf(Field(body, "side"))
              && Field(body, "stake") == Num(r.value.2)
  {
    var themeId, side, stake := Field(body, "themeId"), Field(body, "side"), Field(body, "stake");
    if !Truthy(themeId) || !Truthy(side) || !Truthy(stake) then Failure(MissingFields)
    else match SideOf(side)
      case None => Failure(InvalidSide)
      case Some(s) =>
        if !stake.Num? || stake.n <= 0.0 then Failure(InvalidStake)
        else Success((themeId, s, stake.n))
  }

  /** The handler's response: a status code and its JSON payload. */
  datatype Payload = ErrorPayload(error: string) | BetPayload(bet: Bet) | LedgerPayload(bets: seq<Bet>)
  datatype Reply = Reply(status: nat, payload: Payload)

  /** What every ledger entry satisfies. */
  predicate WellFormed(b: Bet) {
    Truthy(b.themeId) && b.stake > 0.0 && b.status == Pending
  }

  predicate LedgerInvariant(ledger: Ledger) {
    forall i :: 0 <= i < |ledger| ==> WellFormed(ledger[i])
  }

  /** The bet the handler stores for a request it accepts. `id` and `createdAt`
      come from the clock and random source and are parameters here. */
  function MakeBet(body: RequestBody, id: string, createdAt: string): (b: Bet)
    requires ValidBetRequest(body)
    ensures WellFormed(b)
    ensures b.id == id && b.createdAt == createdAt
    ensures b.themeId == Field(body, "themeId")
    ensures Field(body, "side") == Str(if b.side == Left then "left" else "right")
    ensures Field(body, "stake") == Num(b.stake)
  {
    var v := Validate(body).value;
    Bet(id, v.0, v.1, v.2, Pending, createdAt)
  }

  /** The POST handler: 400 with the first failing stage's message and the
      ledger untouched, or 201 with one new bet appended at the end. */
  function PostBet(ledger: Ledger, body: RequestBody, id: string, createdAt: string): (r: (Ledger, Reply))
    ensures r.1.status == 201 <==> ValidBetRequest(body)
    ensures r.1.status != 201 ==>
              && r.1.status == 400
              && r.0 == ledger
              && r.1.payload == ErrorPayload(Validate(body).error.Message())
    ensures r.1.status == 201 ==>
              && r.1.payload.BetPayload?
              && r.0 == ledger + [r.1.payload.bet]
              && r.1.payload.bet.id == id
              && r.1.payload.bet.themeId == Field(body, "themeId")
              && SideOf(Field(body, "side")) == Some(r.1.payload.bet.side)
              && Field(body, "stake") == Num(r.1.payload.bet.stake)
              && r.1.payload.bet.status == Pending
              && r.1.payload.bet.createdAt == createdAt
    ensures LedgerInvariant(ledger) ==> LedgerInvariant(r.0)
  {
    match Validate(body)
    case Failure(e) => (ledger, Reply(400, ErrorPayload(e.Message())))
    case Success(_) =>
      var bet := MakeBet(body, id, createdAt);
      (ledger + [bet], Reply(201, BetPayload(bet)))
  }

  /** The GET handler: `res.json(bets)`, leaving the ledger as it is. */
  function GetBets(ledger: Ledger): (r: (Ledger, Reply))
    ensures r.0 == ledger
    ensures r.1.status == 200 && r.1.payload.LedgerPayload? && r.1.payload.bets == ledger
  {
    (ledger, Reply(200, LedgerPayload(ledger)))
  }

  /** One POST as it reaches the server, with the id and timestamp the
      handler would draw for it. */
  datatype PostInput = PostInput(body: RequestBody, id: string, createdAt: string)

  /** The ledger after a series of POSTs, handled one after another. */
  function ApplyPosts(ledger: Ledger, posts: seq<PostInput>): Ledger
    decreases |posts|
  {
    if |posts| == 0 then ledger
    else ApplyPosts(PostBet(ledger, posts[0].body, posts[0].id, posts[0].createdAt).0, posts[1..])
  }

  /** Reference definition: the bets of the accepted POSTs, in arrival order. */
  function AcceptedBets(posts: seq<PostInput>): seq<Bet>
    decreases |posts|
  {
    if |posts| == 0 then []
    else
      var p := posts[0];
      (if ValidBetRequest(p.body) then [MakeBet(p.body, p.id, p.createdAt)] else [])
        + AcceptedBets(posts[1..])
  }

  /** One POST, seen from the ledger: it appends the bet `MakeBet` builds,
      or nothing. */
  lemma PostLedgerEffect(ledger: Ledger, p: PostInput)
    ensures PostBet(ledger, p.body, p.id, p.createdAt).0
         == ledger + (if ValidBetRequest(p.body) then [MakeBet(p.body, p.id, p.createdAt)] else [])
  {
  }

  /** A series of POSTs keeps earlier entries and appends the accepted bets
      in the order their requests arrived. */
  lemma {:induction false} PostsAppendInOrder(ledger: Ledger, posts: seq<PostInput>)
    ensures ApplyPosts(ledger, posts) == ledger + AcceptedBets(posts)
    decreases |posts|
  {
    if |posts| > 0 {
      var p := posts[0];
      var added := if ValidBetRequest(p.body) then [MakeBet(p.body, p.id, p.createdAt)] else [];
      PostLedgerEffect(ledger, p);
      PostsAppendInOrder(ledger + added, posts[1..]);
      assert AcceptedBets(posts) == added + AcceptedBets(posts[1..]);
      assert ledger + added + AcceptedBets(posts[1..]) == ledger + (added + AcceptedBets(posts[1..]));
    }
  }

  /** The ledger invariant survives any series of POSTs. */
  lemma {:induction false} PostsPreserveInvariant(ledger: Ledger, posts: seq<PostInput>)
    requires LedgerInvariant(ledger)
    ensures LedgerInvariant(ApplyPosts(ledger, posts))
    decreases |posts|
  {
    if |posts| > 0 {
      var p := posts[0];
      PostsPreserveInvariant(PostBet(ledger, p.body, p.id, p.createdAt).0, posts[1..]);
    }
  }

  /** Starting from the empty ledger, GET returns exactly the accepted bets in
      insertion order, each well formed, and leaves the ledger as it was. */
  lemma GetAfterPosts(posts: seq<PostInput>)
    ensures var ledger := ApplyPosts([], posts);
            && GetBets(ledger).0 == ledger
            && GetBets(ledger).1 == Reply(200, LedgerPayload(AcceptedBets(posts)))
            && LedgerInvariant(GetBets(ledger).1.payload.bets)
  {
    PostsAppendInOrder([], posts);
    PostsPreserveInvariant([], posts);
    assert [] + AcceptedBets(posts) == AcceptedBets(posts);
  }

  /** A stake of 0 is falsy and is reported as a missing field, not as a bad stake. */
  lemma ZeroStakeIsMissing(ledger: Ledger, id: string, createdAt: string)
    ensures var body := map["themeId" := Str("eth-vs-btc"), "side" := Str("left"), "stake" := Num(0.0)];
            PostBet(ledger, body, id, createdAt) == (ledger, Reply(400, ErrorPayload(MissingFields.Message())))
  {
  }

  /** The side stage runs before the stake stage: a bad side with a string
      stake reports the side. */
  lemma SideCheckedBeforeStake(ledger: Ledger, id: string, createdAt: string)
    ensures var body := map["themeId" := Str("eth-vs-btc"), "side" := Str("LEFT"), "stake" := Str("5")];
            PostBet(ledger, body, id, createdAt) == (ledger, Reply(400, ErrorPayload(InvalidSide.Message())))
  {
  }

  /** The theme id is not checked against the catalog: an id no theme has is
      accepted and stored. */
  lemma UnknownThemeAccepted(ledger: Ledger, id: string, createdAt: string)
    ensures Themes.GetThemeById(Themes.Catalog, "no-such-theme").None?
    ensures var body := map["themeId" := Str("no-such-theme"), "side" := Str("right"), "stake" := Num(10.0)];
            var r := PostBet(ledger, body, id, createdAt);
            r.1.status == 201 && r.0 == ledger + [Bet(id, Str("no-such-theme"), Right, 10.0, Pending, createdAt)]
  {
  }
}
