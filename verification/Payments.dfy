/** EPUSDT callbacks: validation of a paid callback and the order state machine. */
module Payments {
  import opened Text
  import opened Signing

  datatype Order = Order(
    wallet: string, providerTradeId: string, amount: string, credits: int, status: string, paidAt: Option<int>)

  datatype Config = Config(pid: string, currency: string, token: string, network: string)

  /** epusdtPaymentStatusName */
  function StatusName(status: int): string {
    match status
    case 1 => "pending"
    case 2 => "paid"
    case 3 => "expired"
    case _ => "callback_" + Itoa(status)
  }

  /** Only status 2 is called paid. */
  lemma OnlyPaidIsPaid(status: int)
    ensures StatusName(status) == "paid" <==> status == 2
  {
    if status != 1 && status != 2 && status != 3 {
      assert StatusName(status)[0] == 'c';
    }
  }

  function Without(s: string, c: char): string {
    if s == "" then "" else if s[0] == c then Without(s[1..], c) else [s[0]] + Without(s[1..], c)
  }

  function NormalNetwork(s: string): string {
    var n := Without(Without(ToLower(TrimSpace(s)), '-'), '_');
    if n == "trc20" then "tron" else if n == "erc20" then "ethereum" else n
  }

  predicate HasValue(payload: Payload, key: string) {
    key in payload && TextField(payload, key) != ""
  }

  /** optionalCallbackFieldMatches */
  predicate FieldMatches(payload: Payload, key: string, expected: string) {
    if TrimSpace(expected) == "" || !HasValue(payload, key) then true
    else if key == "network" then NormalNetwork(TextField(payload, key)) == NormalNetwork(expected)
    else ToLower(TextField(payload, key)) == ToLower(TrimSpace(expected))
  }

  /** decimalStringEqual, with the reading of decimals as a parameter */
  predicate DecimalEqual(a: string, b: string, read: string -> Option<real>) {
    var x := if TrimSpace(a) == "" then None else read(TrimSpace(a));
    var y := if TrimSpace(b) == "" then None else read(TrimSpace(b));
    x.Some? && y.Some? && x.value == y.value
  }

  /** validateEPUSDTCallbackAmount */
  predicate AmountMatches(order: Order, payload: Payload, read: string -> Option<real>) {
    if HasValue(payload, "amount") then DecimalEqual(StringValue(payload["amount"]), order.amount, read)
    else HasValue(payload, "actual_amount") && DecimalEqual(StringValue(payload["actual_amount"]), order.amount, read)
  }

  /** validateEPUSDTPaidCallback */
  predicate ValidPaid(order: Order, payload: Payload, cfg: Config, read: string -> Option<real>) {
    && IntValue(Field(payload, "status")) == 2
    && AmountMatches(order, payload, read)
    && FieldMatches(payload, "pid", cfg.pid) && FieldMatches(payload, "currency", cfg.currency)
    && FieldMatches(payload, "token", cfg.token) && FieldMatches(payload, "network", cfg.network)
    && (TrimSpace(order.providerTradeId) == "" || TextField(payload, "trade_id") == ""
        || TextField(payload, "trade_id") == TrimSpace(order.providerTradeId))
  }

  predicate IsPaidCallback(payload: Payload) {
    IntValue(Field(payload, "status")) == 2
  }

  /** COALESCE(NULLIF(new, ''), old) */
  function NewTradeId(order: Order, payload: Payload): string {
    if TextField(payload, "trade_id") != "" then TextField(payload, "trade_id") else order.providerTradeId
  }

  predicate Accepted(order: Order, payload: Payload, cfg: Config, read: string -> Option<real>) {
    IsPaidCallback(payload) ==> ValidPaid(order, payload, cfg, read)
  }

  /** The order after a verified callback; a rejected one rolls back. */
  function After(order: Order, payload: Payload, cfg: Config, read: string -> Option<real>, now: int): Order {
    if !Accepted(order, payload, cfg, read) then order
    else if IsPaidCallback(payload) then
      order.(providerTradeId := NewTradeId(order, payload), status := "paid",
             paidAt := if order.paidAt.Some? then order.paidAt else Some(now))
    else order.(providerTradeId := NewTradeId(order, payload), status := StatusName(IntValue(Field(payload, "status"))))
  }

  /** What the wallet of the order gains from it. */
  function Gain(order: Order, payload: Payload, cfg: Config, read: string -> Option<real>): int {
    if IsPaidCallback(payload) && ValidPaid(order, payload, cfg, read) && order.status != "paid"
    then order.credits else 0
  }

  lemma {:induction false} WithoutDrops(s: string, c: char)
    ensures c !in Without(s, c) && (c !in s ==> Without(s, c) == s)
  {
    if s != "" {
      WithoutDrops(s[1..], c);
      assert s == [s[0]] + s[1..];
    }
  }

  lemma {:induction false} WithoutJoins(a: string, b: string, c: char)
    ensures Without(a + [c] + b, c) == Without(a, c) + Without(b, c)
  {
    var s := a + [c] + b;
    if a == "" {
      assert s[1..] == b;
    } else {
      assert s[1..] == a[1..] + [c] + b;
      WithoutJoins(a[1..], b, c);
    }
  }

  /** Networks agree up to case, dashes, underscores and two aliases. */
  lemma NetworksAgree(s: string, t: string)
    requires Trimmed(s)
    ensures var a, b := Without(Without(ToLower(s), '-'), '_'), Without(Without(ToLower(TrimSpace(t)), '-'), '_');
      NormalNetwork(s) == NormalNetwork(t) <==>
        || a == b
        || (a in {"trc20", "tron"} && b in {"trc20", "tron"})
        || (a in {"erc20", "ethereum"} && b in {"erc20", "ethereum"})
  {
    TrimSpaceTrims(s);
  }

  /** The amount is in the first of two fields that is not blank. */
  lemma AmountAgrees(order: Order, payload: Payload, read: string -> Option<real>)
    ensures var amount := TextField(payload, "amount");
      var reported := if amount != "" then amount else TextField(payload, "actual_amount");
      var due := TrimSpace(order.amount);
      AmountMatches(order, payload, read) <==>
        reported != "" && due != "" && read(reported).Some? && read(reported) == read(due)
  {
    TrimSpaceTrims("");
  }

  lemma FieldAgrees(payload: Payload, key: string, expected: string)
    requires key != "network"
    ensures var actual := TextField(payload, key);
      FieldMatches(payload, key, expected) <==>
        actual == "" || TrimSpace(expected) == "" || ToLower(actual) == ToLower(TrimSpace(expected))
  {
    TrimSpaceTrims("");
  }

  lemma NetworkAgrees(payload: Payload, expected: string)
    ensures var actual := TextField(payload, "network");
      FieldMatches(payload, "network", expected) <==>
        actual == "" || TrimSpace(expected) == "" || NormalNetwork(actual) == NormalNetwork(expected)
  {
    TrimSpaceTrims("");
  }

  /** When a callback is accepted: one that reports payment names an amount that reads as the same number
      as the order's; and merchant, currency, token, network and trade id agree wherever both sides name
      one. */
  lemma AcceptedMeans(order: Order, payload: Payload, cfg: Config, read: string -> Option<real>)
    ensures var amount := TextField(payload, "amount");
      var reported := if amount != "" then amount else TextField(payload, "actual_amount");
      var due := TrimSpace(order.amount);
      var pid, currency := TextField(payload, "pid"), TextField(payload, "currency");
      var token, network := TextField(payload, "token"), TextField(payload, "network");
      var trade := TextField(payload, "trade_id");
      Accepted(order, payload, cfg, read) <==>
        || IntValue(Field(payload, "status")) != 2
        || (&& reported != "" && due != "" && read(reported).Some? && read(reported) == read(due)
            && (pid == "" || TrimSpace(cfg.pid) == "" || ToLower(pid) == ToLower(TrimSpace(cfg.pid)))
            && (currency == "" || TrimSpace(cfg.currency) == ""
                || ToLower(currency) == ToLower(TrimSpace(cfg.currency)))
            && (token == "" || TrimSpace(cfg.token) == "" || ToLower(token) == ToLower(TrimSpace(cfg.token)))
            && (network == "" || TrimSpace(cfg.network) == "" || NormalNetwork(network) == NormalNetwork(cfg.network))
            && (trade == "" || TrimSpace(order.providerTradeId) == "" || trade == TrimSpace(order.providerTradeId)))
  {
    AmountAgrees(order, payload, read);
    FieldAgrees(payload, "pid", cfg.pid);
    FieldAgrees(payload, "currency", cfg.currency);
    FieldAgrees(payload, "token", cfg.token);
    NetworkAgrees(payload, cfg.network);
  }

  /** What an accepted callback does: the order takes the name of the status and a trade id that is not
      blank; payment sets the payment time once and credits an order that was not marked paid. */
  lemma AcceptedDoes(order: Order, payload: Payload, cfg: Config, read: string -> Option<real>, now: int)
    ensures var trade, status := TextField(payload, "trade_id"), IntValue(Field(payload, "status"));
      var name := if status == 1 then "pending" else if status == 2 then "paid" else if status == 3 then "expired"
                  else "callback_" + Itoa(status);
      && (Accepted(order, payload, cfg, read) ==>
            After(order, payload, cfg, read, now)
            == order.(providerTradeId := if trade != "" then trade else order.providerTradeId, status := name,
                      paidAt := if status == 2 && order.paidAt.None? then Some(now) else order.paidAt))
      && Gain(order, payload, cfg, read)
         == if Accepted(order, payload, cfg, read) && status == 2 && order.status != "paid" then order.credits else 0
  {
  }

  datatype Event = Event(payload: Payload, now: int)

  /** A history so far: the order, what the wallet gained, and for each accepted callback whether it
      reported payment. */
  datatype History = History(order: Order, gained: int, paid: seq<bool>)

  function Next(h: History, e: Event, cfg: Config, read: string -> Option<real>): History {
    History(After(h.order, e.payload, cfg, read, e.now),
            h.gained + Gain(h.order, e.payload, cfg, read),
            if Accepted(h.order, e.payload, cfg, read) then h.paid + [IsPaidCallback(e.payload)] else h.paid)
  }

  /** All callbacks of an order, in the sequence the row lock serialises them. */
  function Replay(order: Order, events: seq<Event>, cfg: Config, read: string -> Option<real>): History {
    if events == [] then History(order, 0, [])
    else Next(Replay(order, events[..|events| - 1], cfg, read), events[|events| - 1], cfg, read)
  }

  predicate BlockBegins(paid: seq<bool>, i: int) {
    0 <= i < |paid| && paid[i] && (i > 0 ==> !paid[i - 1])
  }

  /** The places where a maximal block of consecutive paid callbacks begins. */
  function BlockStarts(paid: seq<bool>): set<int> {
    set i | 0 <= i < |paid| && BlockBegins(paid, i)
  }

  lemma BlockStartsOfLonger(paid: seq<bool>, b: bool)
    ensures |BlockStarts(paid + [b])|
         == |BlockStarts(paid)| + (if b && (paid == [] || !paid[|paid| - 1]) then 1 else 0)
  {
    var n := |paid|;
    forall i | 0 <= i < n ensures BlockBegins(paid + [b], i) <==> BlockBegins(paid, i) {
    }
    if b && (n == 0 || !paid[n - 1]) {
      assert BlockStarts(paid + [b]) == BlockStarts(paid) + {n};
    } else {
      assert BlockStarts(paid + [b]) == BlockStarts(paid);
    }
  }

  /** The order is marked paid exactly when the last accepted callback reported payment, and the
      wallet gained the order's credits once per block. */
  ghost predicate Settled(h: History, credits: int) {
    && h.gained == credits * |BlockStarts(h.paid)|
    && (h.order.status == "paid" <==> h.paid != [] && h.paid[|h.paid| - 1])
    && h.order.credits == credits
  }

  /** What a callback does to the mark of the order and to the wallet. */
  lemma CallbackMarks(order: Order, payload: Payload, cfg: Config, read: string -> Option<real>, now: int)
    ensures var after := After(order, payload, cfg, read, now);
      var paid := IsPaidCallback(payload);
      && after.credits == order.credits
      && (!Accepted(order, payload, cfg, read) ==> after == order)
      && (Accepted(order, payload, cfg, read) ==> (after.status == "paid" <==> paid))
      && Gain(order, payload, cfg, read)
         == (if Accepted(order, payload, cfg, read) && paid && order.status != "paid" then order.credits else 0)
  {
    OnlyPaidIsPaid(IntValue(Field(payload, "status")));
  }

  lemma OneBlockMore(credits: int, gained: int, blocks: nat, more: nat, gain: int)
    requires gained == credits * blocks && more <= 1 && gain == (if more == 1 then credits else 0)
    ensures gained + gain == credits * (blocks + more)
  {
  }

  lemma SettledMore(h: History, after: Order, paid: bool, gain: int, credits: int)
    requires Settled(h, credits) && after.credits == credits && (after.status == "paid" <==> paid)
    requires gain == (if paid && h.order.status != "paid" then credits else 0)
    ensures Settled(History(after, h.gained + gain, h.paid + [paid]), credits)
  {
    BlockStartsOfLonger(h.paid, paid);
    OneBlockMore(credits, h.gained, |BlockStarts(h.paid)|, if paid && h.order.status != "paid" then 1 else 0, gain);
  }

  lemma NextIsSettled(h: History, e: Event, credits: int, cfg: Config, read: string -> Option<real>)
    requires Settled(h, credits)
    ensures Settled(Next(h, e, cfg, read), credits)
  {
    CallbackMarks(h.order, e.payload, cfg, read, e.now);
    if Accepted(h.order, e.payload, cfg, read) {
      SettledMore(h, After(h.order, e.payload, cfg, read, e.now), IsPaidCallback(e.payload),
                  Gain(h.order, e.payload, cfg, read), credits);
    }
  }

  /** Over every history of callbacks the wallet gains the order's credits exactly once per maximal
      block of consecutive paid callbacks. */
  lemma {:induction false} OncePerBlock(order: Order, events: seq<Event>, cfg: Config, read: string -> Option<real>)
    requires order.status != "paid"
    ensures Settled(Replay(order, events, cfg, read), order.credits)
    decreases |events|
  {
    if events == [] {
      assert BlockStarts([]) == {};
    } else {
      OncePerBlock(order, events[..|events| - 1], cfg, read);
      NextIsSettled(Replay(order, events[..|events| - 1], cfg, read), events[|events| - 1], order.credits, cfg, read);
    }
  }

  lemma SameProduct(credits: int, n: int)
    requires credits != 0
    ensures credits * n == credits <==> n == 1
  {
  }

  /** Exactly one credit: with a non-zero amount the wallet is credited once if and only if the paid
      callbacks form a single block. */
  lemma CreditedOnce(order: Order, events: seq<Event>, cfg: Config, read: string -> Option<real>)
    requires order.status != "paid" && order.credits != 0
    ensures var h := Replay(order, events, cfg, read);
      h.gained == order.credits <==> |BlockStarts(h.paid)| == 1
  {
    OncePerBlock(order, events, cfg, read);
    SameProduct(order.credits, |BlockStarts(Replay(order, events, cfg, read).paid)|);
  }

  lemma SingleBlock(paid: seq<bool>, first: nat)
    requires first < |paid| && forall i :: 0 <= i < |paid| ==> (paid[i] <==> first <= i)
    ensures |BlockStarts(paid)| == 1
  {
    forall i ensures i in BlockStarts(paid) <==> i == first {
      assert BlockBegins(paid, i) <==> i == first;
    }
    assert BlockStarts(paid) == {first};
  }

  /** In particular when no other callback is accepted after the first paid one. */
  lemma CreditedOnceWhenPaidLast(order: Order, events: seq<Event>, cfg: Config, read: string -> Option<real>,
                                 first: nat)
    requires order.status != "paid"
    requires var paid := Replay(order, events, cfg, read).paid;
      first < |paid| && forall i :: 0 <= i < |paid| ==> (paid[i] <==> first <= i)
    ensures Replay(order, events, cfg, read).gained == order.credits
  {
    OncePerBlock(order, events, cfg, read);
    SingleBlock(Replay(order, events, cfg, read).paid, first);
  }

  // ---- signed reports ----

  /** What the payment service sends about an order, before it signs it. */
  function PaidReport(oid: string, amount: string): Payload {
    map["order_id" := Str(oid), "status" := Number("2", 2), "amount" := Str(amount)]
  }

  function ExpiryReport(oid: string): Payload {
    map["order_id" := Str(oid), "status" := Number("3", 3)]
  }

  ghost function Signed(report: Payload, secret: string, digest: string -> string): Payload {
    report["signature" := Str(Signature(report, secret, digest))]
  }

  predicate Readable(amount: string, read: string -> Option<real>) {
    TrimSpace(amount) != "" && read(TrimSpace(amount)).Some?
  }

  /** A signed report passes the checks before the order is looked up. */
  lemma SignedReportArrives(report: Payload, oid: string, secret: string, digest: string -> string)
    requires PrintsAsHex(digest) && Trimmed(oid) && Field(report, "order_id") == Str(oid)
    ensures Verifies(Signed(report, secret, digest), secret, digest)
    ensures TextField(Signed(report, secret, digest), "order_id") == oid
  {
    SignedPayloadVerifies(report, secret, digest);
    TrimSpaceTrims(oid);
  }

  /** What the callback handler finds in a report, whatever its signature. */
  predicate IsPaidReport(payload: Payload, amount: string) {
    && Field(payload, "status") == Number("2", 2) && "amount" in payload && payload["amount"] == Str(amount)
    && payload.Keys !! {"trade_id", "pid", "currency", "token", "network"}
  }

  predicate IsExpiryReport(payload: Payload) {
    Field(payload, "status") == Number("3", 3) && "trade_id" !in payload
  }

  lemma ReportFields(oid: string, amount: string, signature: string)
    ensures IsPaidReport(PaidReport(oid, amount)["signature" := Str(signature)], amount)
    ensures IsExpiryReport(ExpiryReport(oid)["signature" := Str(signature)])
    ensures Field(PaidReport(oid, amount), "order_id") == Str(oid) && Field(ExpiryReport(oid), "order_id") == Str(oid)
  {
  }

  lemma ReportMatches(order: Order, payload: Payload, cfg: Config, read: string -> Option<real>)
    requires Readable(order.amount, read) && IsPaidReport(payload, order.amount)
    ensures ValidPaid(order, payload, cfg, read) && NewTradeId(order, payload) == order.providerTradeId
  {
    assert TextField(payload, "trade_id") == "" && HasValue(payload, "amount");
  }

  /** A paid report marks the order paid and credits it unless it is marked already. */
  lemma ReportPays(order: Order, payload: Payload, cfg: Config, read: string -> Option<real>, now: int)
    requires Readable(order.amount, read) && IsPaidReport(payload, order.amount)
    ensures IsPaidCallback(payload) && Accepted(order, payload, cfg, read)
    ensures After(order, payload, cfg, read, now)
         == order.(status := "paid", paidAt := if order.paidAt.Some? then order.paidAt else Some(now))
    ensures Gain(order, payload, cfg, read) == (if order.status != "paid" then order.credits else 0)
  {
    ReportMatches(order, payload, cfg, read);
  }

  /** An expiry report takes the mark away again. */
  lemma ReportExpires(order: Order, payload: Payload, cfg: Config, read: string -> Option<real>, now: int)
    requires IsExpiryReport(payload)
    ensures !IsPaidCallback(payload) && Accepted(order, payload, cfg, read)
    ensures After(order, payload, cfg, read, now) == order.(status := "expired")
    ensures Gain(order, payload, cfg, read) == 0
  {
    assert TextField(payload, "trade_id") == "";
  }

  /** A payment, a later report that the order expired, and the payment again. */
  ghost function PaidExpiredPaid(order: Order, oid: string, secret: string, digest: string -> string): (e: seq<Event>)
    ensures |e| == 3
  {
    var paid := Signed(PaidReport(oid, order.amount), secret, digest);
    [Event(paid, 0), Event(Signed(ExpiryReport(oid), secret, digest), 1), Event(paid, 2)]
  }

  /** The callback is signed and names the order. */
  ghost predicate Arrives(e: Event, oid: string, secret: string, digest: string -> string) {
    Verifies(e.payload, secret, digest) && TextField(e.payload, "order_id") == oid
  }

  lemma PaidExpiredPaidArrive(order: Order, oid: string, secret: string, digest: string -> string)
    requires PrintsAsHex(digest) && Trimmed(oid)
    ensures var e := PaidExpiredPaid(order, oid, secret, digest);
      Arrives(e[0], oid, secret, digest) && Arrives(e[1], oid, secret, digest) && Arrives(e[2], oid, secret, digest)
  {
    ReportFields(oid, order.amount, "");
    SignedReportArrives(PaidReport(oid, order.amount), oid, secret, digest);
    SignedReportArrives(ExpiryReport(oid), oid, secret, digest);
  }

  lemma ThreeEvents(order: Order, e: seq<Event>, cfg: Config, read: string -> Option<real>)
    requires |e| == 3
    ensures var one := Next(History(order, 0, []), e[0], cfg, read);
      Replay(order, e, cfg, read) == Next(Next(one, e[1], cfg, read), e[2], cfg, read)
  {
    assert e[..2] == [e[0], e[1]] && e[..2][..1] == [e[0]] && [e[0]][..0] == [];
    assert Replay(order, [e[0]], cfg, read) == Next(History(order, 0, []), e[0], cfg, read);
    assert Replay(order, e[..2], cfg, read) == Next(Replay(order, [e[0]], cfg, read), e[1], cfg, read);
  }

  /** "Credited once" is false of some histories: after an expiry report in between, the same signed
      payment is credited a second time. */
  lemma PaidTwiceAfterExpiry(order: Order, oid: string, secret: string, digest: string -> string, cfg: Config,
                             read: string -> Option<real>)
    requires PrintsAsHex(digest) && Trimmed(oid)
    requires order.status != "paid" && Readable(order.amount, read)
    ensures var e := PaidExpiredPaid(order, oid, secret, digest);
      && Arrives(e[0], oid, secret, digest) && Arrives(e[1], oid, secret, digest) && Arrives(e[2], oid, secret, digest)
      && Replay(order, e, cfg, read).gained == 2 * order.credits
  {
    var e := PaidExpiredPaid(order, oid, secret, digest);
    PaidExpiredPaidArrive(order, oid, secret, digest);
    ReportFields(oid, order.amount, Signature(PaidReport(oid, order.amount), secret, digest));
    ReportFields(oid, order.amount, Signature(ExpiryReport(oid), secret, digest));
    PaidTwice(order, e, cfg, read);
  }

  lemma PaidTwice(order: Order, e: seq<Event>, cfg: Config, read: string -> Option<real>)
    requires |e| == 3 && order.status != "paid" && Readable(order.amount, read)
    requires IsPaidReport(e[0].payload, order.amount) && IsExpiryReport(e[1].payload)
    requires IsPaidReport(e[2].payload, order.amount)
    ensures Replay(order, e, cfg, read).gained == 2 * order.credits
  {
    ThreeEvents(order, e, cfg, read);
    ReportPays(order, e[0].payload, cfg, read, e[0].now);
    var paid := After(order, e[0].payload, cfg, read, e[0].now);
    ReportExpires(paid, e[1].payload, cfg, read, e[1].now);
    ReportPays(After(paid, e[1].payload, cfg, read, e[1].now), e[2].payload, cfg, read, e[2].now);
  }

  /** The payment time never changes once set. */
  lemma {:induction false} PaidAtIsFirst(order: Order, events: seq<Event>, i: nat, cfg: Config,
                                         read: string -> Option<real>)
    requires i <= |events| && Replay(order, events[..i], cfg, read).order.paidAt.Some?
    ensures Replay(order, events, cfg, read).order.paidAt == Replay(order, events[..i], cfg, read).order.paidAt
    decreases |events|
  {
    if i < |events| {
      assert events[..|events| - 1][..i] == events[..i];
      PaidAtIsFirst(order, events[..|events| - 1], i, cfg, read);
    } else {
      assert events[..i] == events;
    }
  }
}
