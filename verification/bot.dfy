/** Pure pieces of the Telegram bot: splitting the premium report into message-sized chunks,
    and choosing the replies to /redeem and /buy from what the payment server answered. */
module Bot {
  import opened Optional
  import Ledger
  import OrderIds

  /** The largest piece of a report the bot sends in one message. */
  const ChunkSize: nat := 4000

  const NoPremiumReply: string := "No active premium found. Use /buy to purchase."
  const ActivePremiumReply: string := "You have active premium — generating your full report."
  const AskForTextReply: string := "Send the text you want the report on."
  const CheckoutPrompt: string := "Open checkout to pay for premium report:"
  const RedeemHint: string := "After payment, use /redeem to receive your full report."
  const PaymentErrorPrefix: string := "Payment creation error: "

  /** The plan the /buy command always requests. */
  const PurchasedPlan: string := "premium"

  function Min(a: int, b: int): int {
    if a <= b then a else b
  }

  // ---------------------------------------------------------------------------------------
  // Chunking the report

  /** How many chunks a report of `n` characters yields: `n / ChunkSize` rounded up. */
  function ChunkCount(n: nat): nat {
    (n + ChunkSize - 1) / ChunkSize
  }

  /** Python's `report[i:i+4000]`: a slice whose end is clamped to the report's length. */
  function Slice(report: string, i: nat): string
    requires i <= |report|
  {
    report[i .. Min(i + ChunkSize, |report|)]
  }

  /** The chunks produced for `range(0, len(report), 4000)`. */
  function Chunks(report: string): (cs: seq<string>)
    ensures |cs| * ChunkSize >= |report| > (|cs| - 1) * ChunkSize
    ensures forall k :: 0 <= k < |cs| ==> 0 < |cs[k]| <= ChunkSize
    ensures forall k :: 0 <= k < |cs| - 1 ==> |cs[k]| == ChunkSize
    ensures cs == [] <==> |report| == 0
  {
    seq(ChunkCount(|report|), k requires 0 <= k < ChunkCount(|report|) => Slice(report, k * ChunkSize))
  }

  /** The text the chunks spell out when sent one after another. */
  function Concat(cs: seq<string>): string {
    if |cs| == 0 then [] else Concat(cs[..|cs| - 1]) + cs[|cs| - 1]
  }

  lemma {:induction false} ChunksPrefix(report: string, k: nat)
    requires k <= ChunkCount(|report|)
    ensures Concat(Chunks(report)[..k]) == report[..Min(k * ChunkSize, |report|)]
  {
    var cs := Chunks(report);
    if k > 0 {
      ChunksPrefix(report, k - 1);
      assert cs[..k][..k - 1] == cs[..k - 1];
      var a := (k - 1) * ChunkSize;
      var b := Min(k * ChunkSize, |report|);
      assert cs[k - 1] == report[a .. b];
      assert report[..a] + report[a .. b] == report[..b];
    }
  }

  /** Sending the chunks in order delivers the report exactly. */
  lemma ChunksRoundTrip(report: string)
    ensures Concat(Chunks(report)) == report
  {
    var cs := Chunks(report);
    ChunksPrefix(report, |cs|);
    assert cs[..|cs|] == cs;
  }

  lemma {:induction false} FullChunksLength(cs: seq<string>)
    requires forall k :: 0 <= k < |cs| ==> |cs[k]| == ChunkSize
    ensures |Concat(cs)| == |cs| * ChunkSize
  {
    if |cs| > 0 {
      FullChunksLength(cs[..|cs| - 1]);
    }
  }

  /** The chunking is the only way to cut a report into non-empty pieces of at most
      `ChunkSize` characters in which every piece but the last is full. */
  lemma {:induction false} ChunksUnique(report: string, cs: seq<string>)
    requires Concat(cs) == report
    requires forall k :: 0 <= k < |cs| ==> 0 < |cs[k]| <= ChunkSize
    requires forall k :: 0 <= k < |cs| - 1 ==> |cs[k]| == ChunkSize
    ensures cs == Chunks(report)
    decreases |cs|
  {
    if |cs| > 0 {
      var n := |cs|;
      var init := cs[..n - 1];
      var r0 := Concat(init);
      assert report == r0 + cs[n - 1];
      ChunksUnique(r0, init);
      FullChunksLength(init);
      var all := Chunks(report);
      assert |all| == n;
      forall k | 0 <= k < n
        ensures all[k] == cs[k]
      {
        if k < n - 1 {
          assert all[k] == report[k * ChunkSize .. (k + 1) * ChunkSize];
          assert Chunks(r0)[k] == r0[k * ChunkSize .. (k + 1) * ChunkSize];
        } else {
          assert all[k] == report[(n - 1) * ChunkSize ..];
        }
      }
    }
  }

  /** The comprehension as a loop, one slice per iteration. */
  method SplitReport(report: string) returns (cs: seq<string>)
    ensures Concat(cs) == report
    ensures cs == Chunks(report)
  {
    cs := [];
    var i := 0;
    while i < |report|
      invariant i == |cs| * ChunkSize
      invariant |cs| <= ChunkCount(|report|)
      invariant cs == Chunks(report)[..|cs|]
      invariant Concat(cs) == report[..Min(i, |report|)]
    {
      var c := Slice(report, i);
      assert report[..i] + c == report[..Min(i + ChunkSize, |report|)];
      assert (cs + [c])[..|cs|] == cs;
      cs := cs + [c];
      i := i + ChunkSize;
    }
    assert report[..|report|] == report;
  }

  // ---------------------------------------------------------------------------------------
  // /redeem

  /** Python truthiness of an optional string: present and non-empty. */
  predicate Truthy(s: Option<string>) {
    s.Some? && |s.value| > 0
  }

  /** The bot's reading of the status JSON: a `premium` key that is true. */
  predicate HasPremium(status: Option<Ledger.UserRecord>) {
    status.Some? && status.value.premium
  }

  datatype RedeemPlan = NoPremium | AskForText | Generate(text: string)

  /** What /redeem does given the server's status answer and the last text the user sent. */
  function RedeemDecision(status: Option<Ledger.UserRecord>, lastText: Option<string>)
    : (p: RedeemPlan)
    ensures p == NoPremium <==> !HasPremium(status)
    ensures p == AskForText <==> HasPremium(status) && !Truthy(lastText)
    ensures p.Generate? ==> lastText == Some(p.text) && |p.text| > 0
  {
    if !HasPremium(status) then NoPremium
    else if !Truthy(lastText) then AskForText
    else Generate(lastText.value)
  }

  /** The messages /redeem sends. `generate` stands for the external report generator. */
  function RedeemReplies(status: Option<Ledger.UserRecord>, lastText: Option<string>,
                         generate: string -> string): (msgs: seq<string>)
    ensures !HasPremium(status) ==> msgs == [NoPremiumReply]
    ensures HasPremium(status) && !Truthy(lastText) ==>
      msgs == [ActivePremiumReply, AskForTextReply]
    ensures HasPremium(status) && Truthy(lastText) ==>
      && |msgs| >= 1
      && msgs[0] == ActivePremiumReply
      && Concat(msgs[1..]) == generate(lastText.value)
      && (forall k :: 1 <= k < |msgs| ==> 0 < |msgs[k]| <= ChunkSize)
      && msgs[1..] == Chunks(generate(lastText.value))
  {
    match RedeemDecision(status, lastText)
    case NoPremium => [NoPremiumReply]
    case AskForText => [ActivePremiumReply, AskForTextReply]
    case Generate(text) =>
      var report := generate(text);
      ChunksRoundTrip(report);
      assert ([ActivePremiumReply] + Chunks(report))[1..] == Chunks(report);
      [ActivePremiumReply] + Chunks(report)
  }

  // ---------------------------------------------------------------------------------------
  // /buy

  datatype BuyReply = OfferCheckout(url: string) | ReportError(text: string)

  /** `body` is the JSON rendering of the server's answer, shown verbatim on failure. */
  function BuyDecision(statusCode: int, checkoutUrl: Option<string>, body: string): (b: BuyReply)
    ensures b.OfferCheckout? <==> statusCode == 200 && Truthy(checkoutUrl)
    ensures b.OfferCheckout? ==> b.url == checkoutUrl.value
    ensures b.ReportError? ==> b.text == PaymentErrorPrefix + body
  {
    if statusCode == 200 && Truthy(checkoutUrl) then OfferCheckout(checkoutUrl.value)
    else ReportError(PaymentErrorPrefix + body)
  }

  /** One chat message, with the URL its inline button opens when it has one. */
  datatype Message = Message(text: string, button: Option<string>)

  /** The messages /buy sends. */
  function BuyReplies(b: BuyReply): (msgs: seq<Message>)
    ensures (exists k :: 0 <= k < |msgs| && msgs[k].button.Some?) <==> b.OfferCheckout?
    ensures forall k :: 0 <= k < |msgs| && msgs[k].button.Some? ==> msgs[k].button.value == b.url
    ensures b.OfferCheckout? ==>
      msgs == [Message(CheckoutPrompt, Some(b.url)), Message(RedeemHint, None)]
    ensures b.ReportError? ==> msgs == [Message(b.text, None)]
  {
    match b
    case OfferCheckout(url) =>
      var msgs := [Message(CheckoutPrompt, Some(url)), Message(RedeemHint, None)];
      assert msgs[0].button.Some?;
      msgs
    case ReportError(text) => [Message(text, None)]
  }

  /** The HTTP status the server gives each reply to a checkout request. */
  function StatusCode(r: Ledger.CreateReply): int {
    match r
    case BadSecret => 403
    case InvalidPrice => 500
    case CheckoutReady(_, _) => 200
    case CheckoutError(_) => 500
  }

  function CheckoutUrlOf(r: Ledger.CreateReply): Option<string> {
    match r
    case CheckoutReady(url, _) => Some(url)
    case _ => None
  }

  /** The body /buy posts: the user's id, the premium plan, the bot's copy of the secret and
      the price 3.99. */
  function PurchaseRequest(botSecret: string, telegramId: string): Ledger.CreateRequest {
    Ledger.CreateRequest(Some(botSecret), Some(telegramId), Some(PurchasedPlan), None,
                         Ledger.NumericPrice)
  }

  // ---------------------------------------------------------------------------------------
  // The bot and the server together

  /** With matching secrets and no Stripe, /buy always offers the demo payment page of the order
      it just created. That order is pending, belongs to the user, and is for the premium plan
      in dollars. */
  lemma BuyOffersPayStub(cfg: Ledger.Config, db: Ledger.Db, telegramId: string,
                         uuid: OrderIds.UuidHex, now: int, session: Ledger.SessionResult,
                         body: string)
    requires !cfg.stripeEnabled
    ensures var t := Ledger.CreateOrder(cfg, db, PurchaseRequest(cfg.serverSecret, telegramId),
                                        uuid, now, session);
            && BuyDecision(StatusCode(t.reply), CheckoutUrlOf(t.reply), body)
               == OfferCheckout(cfg.baseUrl + Ledger.PayStubPath + OrderIds.NewOrderId(uuid))
            && BuyReplies(BuyDecision(StatusCode(t.reply), CheckoutUrlOf(t.reply), body))[0].button
               == Some(cfg.baseUrl + Ledger.PayStubPath + OrderIds.NewOrderId(uuid))
            && |t.db.orders| == |db.orders| + 1
            && t.db.orders[|db.orders|].telegramId == telegramId
            && t.db.orders[|db.orders|].plan == PurchasedPlan
            && t.db.orders[|db.orders|].currency == "usd"
            && t.db.orders[|db.orders|].status == Ledger.Pending
  {
  }

  /** When the bot's secret differs from the server's, /buy reports an error and the server
      stores nothing. */
  lemma BuyWithWrongSecretFails(cfg: Ledger.Config, db: Ledger.Db, botSecret: string,
                                telegramId: string, uuid: OrderIds.UuidHex, now: int,
                                session: Ledger.SessionResult, body: string)
    requires botSecret != cfg.serverSecret
    ensures var t := Ledger.CreateOrder(cfg, db, PurchaseRequest(botSecret, telegramId),
                                        uuid, now, session);
            && BuyDecision(StatusCode(t.reply), CheckoutUrlOf(t.reply), body)
               == ReportError(PaymentErrorPrefix + body)
            && t.db == db
  {
  }

  /** Against a consistent store, /redeem's premium check succeeds exactly for the users that
      have a stored record. The clock is never consulted, so an expired record still counts. */
  lemma RedeemSeesEveryStoredEntitlement(db: Ledger.Db, telegramId: string,
                                         lastText: Option<string>)
    requires Ledger.Consistent(db)
    ensures RedeemDecision(Ledger.UserStatus(db, telegramId), lastText) == NoPremium
            <==> telegramId !in db.users
  {
    if telegramId in db.users {
      assert Ledger.Backed(db.orders, db.users[telegramId]);
    }
  }

  /** After a simulated payment for an order, its owner passes /redeem's premium check. */
  lemma RedeemAfterSimulatedPayment(db: Ledger.Db, orderId: string, now: int,
                                    lastText: Option<string>)
    requires !Ledger.NoMatch(db.orders, orderId)
    ensures var o := Ledger.GetOrder(db, orderId).value;
            var db' := Ledger.SimulateWebhook(db, Some(orderId), true, now).db;
            RedeemDecision(Ledger.UserStatus(db', o.telegramId), lastText) != NoPremium
  {
  }
}
