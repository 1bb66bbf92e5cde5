/** internal/trader: a Trader turns a listened transaction into an
    arbitrage opportunity, refuses opportunities whose expected profit is above
    the configured maximum, builds and signs a transaction paid by its own key,
    hands it to the Jito relay and, only when the relay accepts it, records
    the opportunity as executed. */
module Trader {
  import opened Base
  import Solana
  import Jito
  import Listener

  /** config.TraderConfig. */
  datatype TraderConfig = TraderConfig(privateKeyPath: string, maxTransactionAmount: real)

  /** A Trader never changes after NewTrader builds it. */
  datatype Trader = Trader(
    config: TraderConfig,
    solanaClient: Solana.Client,
    jitoClient: Jito.Client,
    privateKey: Solana.PrivateKey)

  /** NewTrader: a missing Solana client is reported first, then a missing
      Jito client, then a failure to load the key file named in the
      configuration (`loadPrivateKey` stands for LoadPrivateKeyFromFile). */
  function NewTrader(
    config: TraderConfig,
    solanaClient: Option<Solana.Client>,
    jitoClient: Option<Jito.Client>,
    loadPrivateKey: string -> Result<Solana.PrivateKey, string>): (r: Result<Trader, string>)
    ensures r.Success? <==>
      solanaClient.Some? && jitoClient.Some? && loadPrivateKey(config.privateKeyPath).Success?
    ensures solanaClient.None? ==> r == Failure("solana client is required")
    ensures solanaClient.Some? && jitoClient.None? ==> r == Failure("jito client is required")
    ensures solanaClient.Some? && jitoClient.Some? && loadPrivateKey(config.privateKeyPath).Failure? ==>
      r == Failure("failed to load private key: " + loadPrivateKey(config.privateKeyPath).error)
    ensures r.Success? ==>
      r.value.config == config && r.value.solanaClient == solanaClient.value
      && r.value.jitoClient == jitoClient.value && r.value.privateKey == loadPrivateKey(config.privateKeyPath).value
  {
    if solanaClient.None? then Failure("solana client is required")
    else if jitoClient.None? then Failure("jito client is required")
    else
      match loadPrivateKey(config.privateKeyPath)
      case Failure(e) => Failure("failed to load private key: " + e)
      case Success(key) => Success(Trader(config, solanaClient.value, jitoClient.value, key))
  }

  // ---------------------------------------------------------------------
  // The opportunity record and analyzeTransaction

  /** ArbitrageOpportunity. The core only ever changes its execution status
      and executed transaction, so the other fields are constants here. */
  class ArbitrageOpportunity {
    const id: string
    const sourceTx: string
    const expectedProfit: real
    const actualProfit: real
    var executionStatus: string
    var executedTx: string

    constructor (id: string, sourceTx: string, expectedProfit: real, executionStatus: string)
      ensures this.id == id && this.sourceTx == sourceTx && this.expectedProfit == expectedProfit
      ensures this.executionStatus == executionStatus && executedTx == "" && actualProfit == 0.0
    {
      this.id := id;
      this.sourceTx := sourceTx;
      this.expectedProfit := expectedProfit;
      this.actualProfit := 0.0;
      this.executionStatus := executionStatus;
      this.executedTx := "";
    }
  }

  /** A reading of the wall clock, in the local calendar. */
  datatype Clock = Clock(year: nat, month: nat, day: nat, hour: nat, minute: nat, second: nat)

  /** A reading whose fields lie in their calendar ranges, with a four-digit year. */
  predicate ValidClock(c: Clock) {
    c.year < 10000 && 1 <= c.month <= 12 && 1 <= c.day <= 31
    && c.hour < 24 && c.minute < 60 && c.second < 60
  }

  function Pow10(w: nat): (p: nat)
    ensures p >= 1
  {
    if w == 0 then 1 else 10 * Pow10(w - 1)
  }

  function DigitChar(d: int): char
    requires 0 <= d < 10
  {
    ('0' as int + d) as char
  }

  /** The decimal digits of `n`, padded with leading zeros to at least
      `width` digits, as Go's time formatting prints a numeric field. */
  function Decimal(n: nat, width: nat): (s: string)
    ensures |s| >= 1 && |s| >= width
    ensures forall k :: 0 <= k < |s| ==> '0' <= s[k] <= '9'
    decreases n + width
  {
    if n < 10 && width <= 1 then [DigitChar(n)]
    else Decimal(n / 10, if width == 0 then 0 else width - 1) + [DigitChar(n % 10)]
  }

  /** The number a string of decimal digits stands for. */
  function ParseDecimal(s: string): nat {
    if s == [] then 0
    else
      var d := s[|s| - 1] as int - '0' as int;
      ParseDecimal(s[..|s| - 1]) * 10 + (if 0 <= d < 10 then d else 0)
  }

  /** Reading the printed digits back gives the number. */
  lemma {:induction false} DecimalRoundTrip(n: nat, width: nat)
    ensures ParseDecimal(Decimal(n, width)) == n
    decreases n + width
  {
    var s := Decimal(n, width);
    if !(n < 10 && width <= 1) {
      var w' := if width == 0 then 0 else width - 1;
      assert s[..|s| - 1] == Decimal(n / 10, w');
      DecimalRoundTrip(n / 10, w');
    }
  }

  /** A number below 10^width is printed in exactly `width` digits. */
  lemma {:induction false} DecimalLength(n: nat, width: nat)
    requires width >= 1 && n < Pow10(width)
    ensures |Decimal(n, width)| == width
    decreases width
  {
    if !(n < 10 && width <= 1) {
      DecimalLength(n / 10, width - 1);
    }
  }

  /** time.Format with the layout "20060102-150405". */
  function FormatStamp(c: Clock): (s: string) {
    Decimal(c.year, 4) + (Decimal(c.month, 2) + (Decimal(c.day, 2) + ("-"
      + (Decimal(c.hour, 2) + (Decimal(c.minute, 2) + Decimal(c.second, 2))))))
  }

  /** A valid reading is printed in fifteen characters, with the dash ninth. */
  lemma StampShape(c: Clock)
    requires ValidClock(c)
    ensures |FormatStamp(c)| == 15 && FormatStamp(c)[8] == '-'
  {
    DecimalLength(c.year, 4);
    DecimalLength(c.month, 2);
    DecimalLength(c.day, 2);
    DecimalLength(c.hour, 2);
    DecimalLength(c.minute, 2);
    DecimalLength(c.second, 2);
  }

  /** The ID analyzeTransaction gives an opportunity detected at `now`. */
  function OpportunityId(now: Clock): (id: string)
    ensures |id| >= 4 && id[..4] == "arb-"
    ensures ValidClock(now) ==> |id| == 19 && id[12] == '-'
  {
    var id := "arb-" + FormatStamp(now);
    if ValidClock(now) then StampShape(now); id else id
  }

  /** The clock reading an opportunity ID was printed from: after "arb-",
      four digits of year, two each of month and day, a dash, and two each of
      hour, minute and second. */
  function ParseOpportunityId(id: string): (c: Clock)
    requires |id| == 19
  {
    var s0 := id[4..];
    var s1 := s0[4..];
    var s2 := s1[2..];
    var s3 := s2[3..];
    var s4 := s3[2..];
    Clock(ParseDecimal(s0[..4]), ParseDecimal(s1[..2]), ParseDecimal(s2[..2]),
          ParseDecimal(s3[..2]), ParseDecimal(s4[..2]), ParseDecimal(s4[2..]))
  }

  lemma SplitConcat(x: string, rest: string)
    ensures (x + rest)[..|x|] == x && (x + rest)[|x|..] == rest
  {
  }

  /** Parsing a valid reading's opportunity ID gives the reading back. */
  lemma OpportunityIdRoundTrip(c: Clock)
    requires ValidClock(c)
    ensures |OpportunityId(c)| == 19 && ParseOpportunityId(OpportunityId(c)) == c
  {
    var y, mo, d := Decimal(c.year, 4), Decimal(c.month, 2), Decimal(c.day, 2);
    var h, mi, s := Decimal(c.hour, 2), Decimal(c.minute, 2), Decimal(c.second, 2);
    DecimalLength(c.year, 4);
    DecimalLength(c.month, 2);
    DecimalLength(c.day, 2);
    DecimalLength(c.hour, 2);
    DecimalLength(c.minute, 2);
    DecimalLength(c.second, 2);
    var r4 := mi + s;
    var r3 := h + r4;
    var r2 := "-" + r3;
    var r1 := d + r2;
    var r0 := mo + r1;
    var stamp := y + r0;
    var id := "arb-" + stamp;
    assert id == OpportunityId(c);
    SplitConcat("arb-", stamp);
    SplitConcat(y, r0);
    SplitConcat(mo, r1);
    SplitConcat(d, r2);
    assert r2[1..] == r3;
    assert r1[3..] == r3;
    SplitConcat(h, r4);
    SplitConcat(mi, s);
    DecimalRoundTrip(c.year, 4);
    DecimalRoundTrip(c.month, 2);
    DecimalRoundTrip(c.day, 2);
    DecimalRoundTrip(c.hour, 2);
    DecimalRoundTrip(c.minute, 2);
    DecimalRoundTrip(c.second, 2);
  }

  /** Two valid clock readings give the same opportunity ID exactly when they
      are the same second: the ID depends on nothing but the clock. */
  lemma OpportunityIdInjective(a: Clock, b: Clock)
    requires ValidClock(a) && ValidClock(b)
    ensures OpportunityId(a) == OpportunityId(b) <==> a == b
  {
    OpportunityIdRoundTrip(a);
    OpportunityIdRoundTrip(b);
  }

  /** The profit analyzeTransaction estimates for every transaction. */
  const PlaceholderProfit: real := 0.1

  /** analyzeTransaction: always finds an opportunity, for the transaction's
      signature, pending, with the placeholder profit and a clock-based ID.
      The clock reading `now` is a parameter. */
  method AnalyzeTransaction(tx: Listener.Transaction, now: Clock) returns (r: Result<Option<ArbitrageOpportunity>, string>)
    ensures r.Success? && r.value.Some?
    ensures var o := r.value.value;
      fresh(o) && o.id == OpportunityId(now) && o.sourceTx == tx.signature
      && o.expectedProfit == PlaceholderProfit && o.executionStatus == "pending" && o.executedTx == ""
  {
    var o := new ArbitrageOpportunity(OpportunityId(now), tx.signature, PlaceholderProfit, "pending");
    return Success(Some(o));
  }

  // ---------------------------------------------------------------------
  // buildArbitrageTransaction and its signer callback

  /** The callback buildArbitrageTransaction passes to Sign: the trader's own
      key for its own public key, nothing for any other key. */
  function SignerFor(t: Trader, key: Solana.PublicKey): (r: Option<Solana.PrivateKey>)
    ensures r.Some? <==> key == t.privateKey.publicKey
    ensures r.Some? ==> r.value == t.privateKey
  {
    if key == t.privateKey.publicKey then Some(t.privateKey) else None
  }

  /** buildArbitrageTransaction: a transaction paid by the trader's public key,
      signed for its one signer, the fee payer, with the key the callback
      returns. `signing` is what the signature primitive produces for that key. */
  function BuildArbitrageTransaction(t: Trader, signing: Result<Solana.Signature, string>): (r: Result<Solana.Transaction, string>)
    ensures r.Success? <==> signing.Success?
    ensures r.Success? ==> r.value.feePayer == t.privateKey.publicKey && r.value.signatures == [signing.value]
    ensures r.Failure? ==> r.error == "failed to sign transaction: " + signing.error
  {
    var tx := Solana.Transaction(t.privateKey.publicKey, []);
    match SignerFor(t, tx.feePayer)
    case None => Failure("failed to sign transaction: signer key not found")
    case Some(_) =>
      match signing
      case Failure(e) => Failure("failed to sign transaction: " + e)
      case Success(sig) => Success(tx.(signatures := [sig]))
  }

  // ---------------------------------------------------------------------
  // ExecuteArbitrage

  /** What analysis yielded, as far as the pipeline looks at it. */
  datatype Analysis = AnalysisFailed(message: string) | NoOpportunity | Found(expectedProfit: real)

  /** What one run of the pipeline does: the error it returns, the transaction
      it hands to the relay (if any) and the signature it records (if any). */
  datatype Outcome = Outcome(err: Option<string>, sent: Option<Solana.Transaction>, executedTx: Option<Solana.Signature>)

  /** The decisions of ExecuteArbitrage after analysis. `signing` and
      `sending` are the signature primitive's and the relay's answers. */
  function Pipeline(t: Trader, analysis: Analysis, signing: Result<Solana.Signature, string>, sending: Result<Solana.Signature, string>): (o: Outcome)
    ensures o.sent.Some? <==>
      analysis.Found? && analysis.expectedProfit <= t.config.maxTransactionAmount && signing.Success?
    ensures o.sent.Some? ==>
      o.sent.value.feePayer == t.privateKey.publicKey && o.sent.value.signatures == [signing.value]
    ensures o.executedTx.Some? <==> o.sent.Some? && sending.Success?
    ensures o.executedTx.Some? ==> o.executedTx.value == sending.value
    ensures o.err.None? <==>
      analysis.NoOpportunity? || (analysis.Found? && analysis.expectedProfit > t.config.maxTransactionAmount)
      || o.executedTx.Some?
    ensures analysis.AnalysisFailed? ==> o.err == Some("failed to analyze transaction: " + analysis.message)
    ensures o.sent.None? && signing.Failure? && analysis.Found? && analysis.expectedProfit <= t.config.maxTransactionAmount ==>
      o.err == Some("failed to build arbitrage transaction: " + ("failed to sign transaction: " + signing.error))
    ensures o.sent.Some? && sending.Failure? ==> o.err == Some("failed to send transaction to Jito: " + sending.error)
  {
    match analysis
    case AnalysisFailed(e) => Outcome(Some("failed to analyze transaction: " + e), None, None)
    case NoOpportunity => Outcome(None, None, None)
    case Found(profit) =>
      if profit > t.config.maxTransactionAmount then Outcome(None, None, None)
      else
        match BuildArbitrageTransaction(t, signing)
        case Failure(e) => Outcome(Some("failed to build arbitrage transaction: " + e), None, None)
        case Success(tx) =>
          match sending
          case Failure(e) => Outcome(Some("failed to send transaction to Jito: " + e), Some(tx), None)
          case Success(sig) => Outcome(None, Some(tx), Some(sig))
  }

  function View(analysis: Result<Option<ArbitrageOpportunity>, string>): Analysis {
    match analysis
    case Failure(e) => AnalysisFailed(e)
    case Success(None) => NoOpportunity
    case Success(Some(o)) => Found(o.expectedProfit)
  }

  /** The opportunity object analysis produced, if any. */
  function Produced(analysis: Result<Option<ArbitrageOpportunity>, string>): set<ArbitrageOpportunity> {
    if analysis.Success? && analysis.value.Some? then {analysis.value.value} else {}
  }

  /** ExecuteArbitrage after its call to analyzeTransaction, whose answer is
      `analysis`. Returns the error and the transaction handed to the relay;
      the opportunity is marked executed only after the relay accepts. */
  method ExecuteOpportunity(
    t: Trader,
    analysis: Result<Option<ArbitrageOpportunity>, string>,
    signing: Result<Solana.Signature, string>,
    sending: Result<Solana.Signature, string>) returns (err: Option<string>, sent: Option<Solana.Transaction>)
    modifies Produced(analysis)
    ensures var o := Pipeline(t, View(analysis), signing, sending); err == o.err && sent == o.sent
    ensures analysis.Success? && analysis.value.Some? ==>
      var opportunity := analysis.value.value;
      var executed := Pipeline(t, View(analysis), signing, sending).executedTx;
      if executed.Some? then opportunity.executionStatus == "executed" && opportunity.executedTx == executed.value
      else opportunity.executionStatus == old(opportunity.executionStatus) && opportunity.executedTx == old(opportunity.executedTx)
  {
    if analysis.Failure? {
      return Some("failed to analyze transaction: " + analysis.error), None;
    }
    if analysis.value.None? {
      return None, None;
    }
    var opportunity := analysis.value.value;
    if opportunity.expectedProfit > t.config.maxTransactionAmount {
      return None, None;
    }
    var arbitrageTx := BuildArbitrageTransaction(t, signing);
    if arbitrageTx.Failure? {
      return Some("failed to build arbitrage transaction: " + arbitrageTx.error), None;
    }
    sent := Some(arbitrageTx.value);
    if sending.Failure? {
      return Some("failed to send transaction to Jito: " + sending.error), sent;
    }
    opportunity.executionStatus := "executed";
    opportunity.executedTx := sending.value;
    err := None;
  }

  /** ExecuteArbitrage as written: analyzeTransaction followed by the pipeline.
      With the placeholder analysis, the relay is used exactly when the
      placeholder profit is within the maximum and signing succeeds. */
  method ExecuteArbitrage(
    t: Trader,
    tx: Listener.Transaction,
    now: Clock,
    signing: Result<Solana.Signature, string>,
    sending: Result<Solana.Signature, string>) returns (err: Option<string>, sent: Option<Solana.Transaction>)
    ensures var o := Pipeline(t, Found(PlaceholderProfit), signing, sending); err == o.err && sent == o.sent
    ensures sent.Some? <==> PlaceholderProfit <= t.config.maxTransactionAmount && signing.Success?
  {
    var analysis := AnalyzeTransaction(tx, now);
    err, sent := ExecuteOpportunity(t, analysis, signing, sending);
  }

  // ---------------------------------------------------------------------
  // What the pipeline guarantees

  /** The ceiling is strict: a profit equal to the maximum goes on to build and send. */
  lemma CeilingIsStrict(t: Trader, signing: Result<Solana.Signature, string>, sending: Result<Solana.Signature, string>)
    ensures Pipeline(t, Found(t.config.maxTransactionAmount), signing, sending).sent.Some? <==> signing.Success?
  {
  }

  /** A profit above the maximum returns no error and never reaches the relay. */
  lemma AboveCeilingNeverSent(t: Trader, profit: real, signing: Result<Solana.Signature, string>, sending: Result<Solana.Signature, string>)
    requires profit > t.config.maxTransactionAmount
    ensures Pipeline(t, Found(profit), signing, sending) == Outcome(None, None, None)
  {
  }

  /** Failed analysis and "no opportunity" build nothing, send nothing and record nothing. */
  lemma NoOpportunityNothingHappens(t: Trader, analysis: Analysis, signing: Result<Solana.Signature, string>, sending: Result<Solana.Signature, string>)
    requires !analysis.Found?
    ensures Pipeline(t, analysis, signing, sending).sent.None?
    ensures Pipeline(t, analysis, signing, sending).executedTx.None?
    ensures analysis.NoOpportunity? <==> Pipeline(t, analysis, signing, sending).err.None?
  {
  }
}
