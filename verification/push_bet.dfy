/**
  The push-bet-data webhook (POST /v1/api/seamless/pushbetdata) of the GPlus
  seamless wallet integration: it validates a batch of betting transactions
  pushed by the provider and upserts one ledger row per wager code.

  The database is a map from `transaction_id` to row, the user table is the
  set of known user names, and the JSON response is its code, message and
  the two balances.
 */
module PushBet {
  import opened Options
  import opened Php

  /** One element of the request's `transactions` array; every key may be absent or null. */
  datatype Transaction = Transaction(
    memberAccount: Option<string>,
    wagerCode: Option<string>,
    productCode: Option<int>,
    betAmount: Option<int>,
    wagerType: Option<string>,
    wagerStatus: Option<string>,
    roundId: Option<string>,
    gameType: Option<string>,
    channelCode: Option<string>,
    currency: Option<string>,
    gameCode: Option<string>,
    settledAt: Option<int>,     // provider epoch milliseconds
    createdAt: Option<int>)     // provider epoch milliseconds

  /** A `push_bets` row; timestamps are epoch seconds, `meta` is the raw transaction it was last written from. */
  datatype Record = Record(
    transactionId: string,
    memberAccount: string,
    productCode: int,
    amount: int,
    action: string,
    status: string,
    meta: Transaction,
    wagerStatus: string,
    roundId: string,
    gameType: string,
    channelCode: string,
    operatorCode: string,
    requestTime: Option<int>,
    settleAt: Option<int>,
    createdAtProvider: Option<int>,
    currency: string,
    gameCode: string)

  /** The ledger table, keyed by `transaction_id`. */
  type Store = map<string, Record>

  datatype Request = Request(
    operatorCode: Option<string>,
    requestTime: Option<nat>,
    transactions: Option<seq<Transaction>>)

  /** The three `SeamlessWalletCode` cases the endpoint answers with. */
  datatype Code = Success | MemberNotExist | InternalServerError

  datatype Response = Response(code: Code, message: string, beforeBalance: int, balance: int)

  /** The request-level values written into every row of the batch. */
  datatype Context = Context(operatorCode: string, requestTime: Option<int>)

  /** The outcome of the transaction loop: how it ended and the store it left behind. */
  datatype Outcome = Outcome(code: Code, store: Store)

  /** The new store and the response of one call of the endpoint. */
  datatype Reply = Reply(response: Response, store: Store)

  /** Every row is filed under its own `transaction_id`. */
  ghost predicate WellKeyed(s: Store) {
    forall k | k in s :: s[k].transactionId == k
  }

  // ---------------------------------------------------------------- validation

  /** `operator_code: required|string`, `request_time: required`, `transactions: required|array|min:1`. */
  predicate Validates(req: Request) {
    && RequiredString(req.operatorCode)
    && req.requestTime.Some?
    && req.transactions.Some?
    && |req.transactions.value| >= 1
  }

  // ---------------------------------------------------------------- timestamps

  /** `!empty($ms) ? floor($ms / 1000) : null`; the result may be 0. */
  function MsToSeconds(ms: Option<int>): Option<int> {
    if EmptyInt(ms) then None else Some(FloorSeconds(ms.value))
  }

  /** `$request->request_time ? floor($request->request_time) : null`. */
  function RequestSeconds(rt: Option<nat>): Option<int> {
    if rt.Some? && rt.value != 0 then Some(rt.value) else None
  }

  /** `$t ? now()->setTimestamp($t) : $fallback`: a null or zero `$t` leaves the fallback. */
  function Stamp(t: Option<int>, fallback: Option<int>): Option<int> {
    if t.Some? && t.value != 0 then t else fallback
  }

  /**
    A provider timestamp as stored: absent, 0, or in 0..999 milliseconds counts
    as absent and leaves `prior`; anything else becomes its floor in seconds.
   */
  function ProviderStamp(ms: Option<int>, prior: Option<int>): (r: Option<int>)
    ensures (ms.None? || 0 <= ms.value < 1000) ==> r == prior
    ensures ms.Some? && !(0 <= ms.value < 1000) ==>
              r.Some? && r.value != 0 && r.value * 1000 <= ms.value < r.value * 1000 + 1000
  {
    Stamp(MsToSeconds(ms), prior)
  }

  // ---------------------------------------------------------------- upsert

  /** The transaction passes the guard of the loop: truthy `member_account` and `wager_code`. */
  predicate Admitted(tx: Transaction) {
    PresentAndTruthy(tx.memberAccount) && PresentAndTruthy(tx.wagerCode)
  }

  function Key(tx: Transaction): string
    requires Admitted(tx)
  {
    tx.wagerCode.value
  }

  /** The update path: present fields replace, absent ones keep the stored value. */
  function Update(r: Record, ctx: Context, tx: Transaction): (u: Record)
    requires Admitted(tx)
    ensures u.transactionId == r.transactionId
    ensures u.memberAccount == tx.memberAccount.value && u.operatorCode == ctx.operatorCode && u.meta == tx
    ensures tx.productCode.Some? ==> u.productCode == tx.productCode.value
    ensures tx.productCode.None? ==> u.productCode == r.productCode
    ensures tx.betAmount.Some? ==> u.amount == tx.betAmount.value
    ensures tx.betAmount.None? ==> u.amount == r.amount
    ensures tx.wagerType.Some? ==> u.action == tx.wagerType.value
    ensures tx.wagerType.None? ==> u.action == r.action
    ensures tx.wagerStatus.Some? ==> u.status == tx.wagerStatus.value && u.wagerStatus == tx.wagerStatus.value
    ensures tx.wagerStatus.None? ==> u.status == r.status && u.wagerStatus == r.wagerStatus
    ensures tx.roundId.Some? ==> u.roundId == tx.roundId.value
    ensures tx.roundId.None? ==> u.roundId == r.roundId
    ensures tx.gameType.Some? ==> u.gameType == tx.gameType.value
    ensures tx.gameType.None? ==> u.gameType == r.gameType
    ensures tx.channelCode.Some? ==> u.channelCode == tx.channelCode.value
    ensures tx.channelCode.None? ==> u.channelCode == r.channelCode
    ensures tx.currency.Some? ==> u.currency == tx.currency.value
    ensures tx.currency.None? ==> u.currency == r.currency
    ensures tx.gameCode.Some? ==> u.gameCode == tx.gameCode.value
    ensures tx.gameCode.None? ==> u.gameCode == r.gameCode
    ensures ctx.requestTime.Some? && ctx.requestTime.value != 0 ==> u.requestTime == ctx.requestTime
    ensures ctx.requestTime.None? || ctx.requestTime.value == 0 ==> u.requestTime == r.requestTime
    ensures u.settleAt == ProviderStamp(tx.settledAt, r.settleAt)
    ensures u.createdAtProvider == ProviderStamp(tx.createdAt, r.createdAtProvider)
  {
    r.(memberAccount := tx.memberAccount.value,
       productCode := Coalesce(tx.productCode, r.productCode),
       amount := Coalesce(tx.betAmount, r.amount),
       action := Coalesce(tx.wagerType, r.action),
       status := Coalesce(tx.wagerStatus, r.status),
       meta := tx,
       wagerStatus := Coalesce(tx.wagerStatus, r.wagerStatus),
       roundId := Coalesce(tx.roundId, r.roundId),
       gameType := Coalesce(tx.gameType, r.gameType),
       channelCode := Coalesce(tx.channelCode, r.channelCode),
       operatorCode := ctx.operatorCode,
       requestTime := Stamp(ctx.requestTime, r.requestTime),
       settleAt := Stamp(MsToSeconds(tx.settledAt), r.settleAt),
       createdAtProvider := Stamp(MsToSeconds(tx.createdAt), r.createdAtProvider),
       currency := Coalesce(tx.currency, r.currency),
       gameCode := Coalesce(tx.gameCode, r.gameCode))
  }

  /** The insert path: absent numbers become 0, absent strings '', absent timestamps null. */
  function Insert(ctx: Context, tx: Transaction): (n: Record)
    requires Admitted(tx)
    ensures n.transactionId == tx.wagerCode.value
    ensures n.memberAccount == tx.memberAccount.value && n.operatorCode == ctx.operatorCode && n.meta == tx
    ensures n.productCode == (if tx.productCode.Some? then tx.productCode.value else 0)
    ensures n.amount == (if tx.betAmount.Some? then tx.betAmount.value else 0)
    ensures n.action == (if tx.wagerType.Some? then tx.wagerType.value else "")
    ensures n.status == n.wagerStatus == (if tx.wagerStatus.Some? then tx.wagerStatus.value else "")
    ensures n.roundId == (if tx.roundId.Some? then tx.roundId.value else "")
    ensures n.gameType == (if tx.gameType.Some? then tx.gameType.value else "")
    ensures n.channelCode == (if tx.channelCode.Some? then tx.channelCode.value else "")
    ensures n.currency == (if tx.currency.Some? then tx.currency.value else "")
    ensures n.gameCode == (if tx.gameCode.Some? then tx.gameCode.value else "")
    ensures n.requestTime.None? <==> (ctx.requestTime.None? || ctx.requestTime.value == 0)
    ensures n.requestTime == (if ctx.requestTime.Some? && ctx.requestTime.value != 0 then ctx.requestTime else None)
    ensures n.settleAt.None? <==> (tx.settledAt.None? || 0 <= tx.settledAt.value < 1000)
    ensures n.createdAtProvider.None? <==> (tx.createdAt.None? || 0 <= tx.createdAt.value < 1000)
    ensures n.settleAt == ProviderStamp(tx.settledAt, None)
    ensures n.createdAtProvider == ProviderStamp(tx.createdAt, None)
  {
    Record(
      transactionId := tx.wagerCode.value,
      memberAccount := tx.memberAccount.value,
      productCode := Coalesce(tx.productCode, 0),
      amount := Coalesce(tx.betAmount, 0),
      action := Coalesce(tx.wagerType, ""),
      status := Coalesce(tx.wagerStatus, ""),
      meta := tx,
      wagerStatus := Coalesce(tx.wagerStatus, ""),
      roundId := Coalesce(tx.roundId, ""),
      gameType := Coalesce(tx.gameType, ""),
      channelCode := Coalesce(tx.channelCode, ""),
      operatorCode := ctx.operatorCode,
      requestTime := Stamp(ctx.requestTime, None),
      settleAt := Stamp(MsToSeconds(tx.settledAt), None),
      createdAtProvider := Stamp(MsToSeconds(tx.createdAt), None),
      currency := Coalesce(tx.currency, ""),
      gameCode := Coalesce(tx.gameCode, ""))
  }

  /** Find-or-create by `transaction_id`: the key's row is updated or inserted, every other row is left alone. */
  function Upsert(s: Store, ctx: Context, tx: Transaction): (s': Store)
    requires Admitted(tx)
    ensures s'.Keys == s.Keys + {Key(tx)}
    ensures forall k | k in s && k != Key(tx) :: s'[k] == s[k]
    ensures Key(tx) in s ==> s'[Key(tx)] == Update(s[Key(tx)], ctx, tx)
    ensures Key(tx) !in s ==> s'[Key(tx)] == Insert(ctx, tx)
    ensures WellKeyed(s) ==> WellKeyed(s')
  {
    var k := Key(tx);
    s[k := if k in s then Update(s[k], ctx, tx) else Insert(ctx, tx)]
  }

  // ---------------------------------------------------------------- the batch

  /** The wager codes of the admitted transactions of a batch. */
  function WagerCodes(txs: seq<Transaction>): set<string> {
    if |txs| == 0 then {}
    else (if Admitted(txs[0]) then {Key(txs[0])} else {}) + WagerCodes(txs[1..])
  }

  /** No admitted transaction names an unknown member. */
  predicate MembersKnown(txs: seq<Transaction>, users: set<string>) {
    forall i | 0 <= i < |txs| :: Admitted(txs[i]) ==> txs[i].memberAccount.value in users
  }

  /**
    The `foreach` over the batch: skip an unadmitted transaction, stop with
    MemberNotExist at the first unknown member (keeping what was written
    before), otherwise upsert and go on.
   */
  function Process(ctx: Context, users: set<string>, txs: seq<Transaction>, s: Store): (o: Outcome)
    ensures o.code == Success <==> MembersKnown(txs, users)
    ensures o.code != InternalServerError
    ensures s.Keys <= o.store.Keys <= s.Keys + WagerCodes(txs)
    ensures forall k | k in s && k !in WagerCodes(txs) :: o.store[k] == s[k]
    ensures o.code == Success ==> WagerCodes(txs) <= o.store.Keys
    ensures WellKeyed(s) ==> WellKeyed(o.store)
    decreases |txs|
  {
    if |txs| == 0 then
      Outcome(Success, s)
    else
      var tx := txs[0];
      assert forall i | 1 <= i < |txs| :: txs[i] == txs[1..][i - 1];
      if !Admitted(tx) then
        Process(ctx, users, txs[1..], s)
      else if tx.memberAccount.value !in users then
        Outcome(MemberNotExist, s)
      else
        Process(ctx, users, txs[1..], Upsert(s, ctx, tx))
  }

  function Respond(code: Code): (r: Response)
    ensures r.code == code && r.beforeBalance == 0 && r.balance == 0
  {
    match code
    case Success => Response(Success, "", 0, 0)
    case MemberNotExist => Response(MemberNotExist, "Member not found", 0, 0)
    case InternalServerError => Response(InternalServerError, "Validation failed", 0, 0)
  }

  /** The request-level context of a validated request. */
  function ContextOf(req: Request): Context
    requires Validates(req)
  {
    Context(req.operatorCode.value, RequestSeconds(req.requestTime))
  }

  /** `PushBetDataController::pushBetData`. */
  function PushBetData(req: Request, users: set<string>, s: Store): (r: Reply)
    ensures r.response.code == InternalServerError <==> !Validates(req)
    ensures !Validates(req) ==> r.store == s
    ensures r.response.code == Success <==> Validates(req) && MembersKnown(req.transactions.value, users)
    ensures r.response.beforeBalance == 0 && r.response.balance == 0
    ensures s.Keys <= r.store.Keys
    ensures WellKeyed(s) ==> WellKeyed(r.store)
  {
    if !Validates(req) then
      Reply(Respond(InternalServerError), s)
    else
      var o := Process(ContextOf(req), users, req.transactions.value, s);
      Reply(Respond(o.code), o.store)
  }
}
