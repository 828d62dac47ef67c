/**
 * The holders service: which quote-summary module each holder type asks for,
 * and how the loosely typed payload becomes typed holder records.
 */
module Holders {
  import opened Wrappers
  import opened Text
  import Json
  import opened Seqs
  import opened HolderValues
  import opened FinanceErrors

  datatype HolderType =
    | Major
    | Institutional
    | MutualFund
    | InsiderTransactions
    | InsiderPurchases
    | InsiderRoster

  datatype MajorHoldersBreakdown = MajorHoldersBreakdown(breakdownData: map<string, Json.Value>)

  /** One entry of an `ownershipList`; institutional and mutual-fund holders have this same shape. */
  datatype OwnershipHolder = OwnershipHolder(
    holder: string,
    shares: int,
    dateReported: Timestamp,
    percentOut: Option<real>,
    value: Option<int>)

  type InstitutionalHolder = OwnershipHolder
  type MutualFundHolder = OwnershipHolder

  datatype InsiderTransaction = InsiderTransaction(
    startDate: Timestamp,
    insider: string,
    position: string,
    transaction: string,
    shares: Option<int>,
    value: Option<int>,
    ownership: Option<string>)

  datatype InsiderPurchase = InsiderPurchase(
    period: string,
    purchasesShares: Option<int>,
    purchasesTransactions: Option<int>,
    salesShares: Option<int>,
    salesTransactions: Option<int>,
    netShares: Option<int>,
    netTransactions: Option<int>,
    totalInsiderShares: Option<int>,
    netPercentInsiderShares: Option<real>,
    buyPercentInsiderShares: Option<real>,
    sellPercentInsiderShares: Option<real>)

  datatype InsiderRosterMember = InsiderRosterMember(
    name: string,
    position: string,
    mostRecentTransaction: Option<string>,
    latestTransactionDate: Option<Timestamp>,
    sharesOwnedDirectly: Option<int>,
    sharesOwnedIndirectly: Option<int>,
    positionDirectDate: Option<Timestamp>)

  datatype HoldersOverview = HoldersOverview(
    symbol: string,
    majorBreakdown: Option<MajorHoldersBreakdown>,
    institutionalHolders: Option<seq<InstitutionalHolder>>,
    mutualfundHolders: Option<seq<MutualFundHolder>>,
    insiderTransactions: Option<seq<InsiderTransaction>>,
    insiderPurchases: Option<InsiderPurchase>,
    insiderRoster: Option<seq<InsiderRosterMember>>)

  // ---------------------------------------------------------------- fetching

  /** The quote-summary modules requested for each holder type. */
  function ModulesFor(holderType: HolderType): (modules: seq<string>)
    ensures |modules| == 1
    ensures holderType.InsiderTransactions? || holderType.InsiderPurchases? <==> modules == ["insiderTransactions"]
  {
    match holderType
    case Major => ["majorHoldersBreakdown"]
    case Institutional => ["institutionOwnership"]
    case MutualFund => ["fundOwnership"]
    case InsiderTransactions | InsiderPurchases => ["insiderTransactions"]
    case InsiderRoster => ["insiderHolders"]
  }

  /** `data.get("quoteSummary").and_then(|q| q.get("result")).and_then(|r| r.get(0))`. */
  function FirstResult(data: Json.Value): Option<Json.Value> {
    Json.Get(data, "quoteSummary").Bind(q => Json.Get(q, "result")).Bind(r => Json.At(r, 0))
  }

  /** The fetch and the location of `result[0]`, before any payload is parsed. */
  function LocateResult(
    symbol: string, holderType: HolderType,
    quoteSummary: (string, seq<string>) -> Result<Json.Value, YahooError>): (r: Result<Json.Value, YahooError>)
    ensures quoteSummary(symbol, ModulesFor(holderType)).Failure? ==>
              r == Failure(quoteSummary(symbol, ModulesFor(holderType)).error)
    ensures quoteSummary(symbol, ModulesFor(holderType)).Success? ==>
              (r.Success? <==> FirstResult(quoteSummary(symbol, ModulesFor(holderType)).value).Some?)
    ensures r.Failure? && quoteSummary(symbol, ModulesFor(holderType)).Success? ==>
              r.error == ParseError("missing quoteSummary.result")
  {
    match quoteSummary(symbol, ModulesFor(holderType))
    case Failure(e) => Failure(e)
    case Success(data) =>
      match FirstResult(data)
      case None => Failure(ParseError("missing quoteSummary.result"))
      case Some(result) => Success(result)
  }

  /** Exactly the payload field chosen by the holder type may be present. */
  predicate OnlySelected(o: HoldersOverview, holderType: HolderType) {
    && (!holderType.Major? ==> o.majorBreakdown.None?)
    && (!holderType.Institutional? ==> o.institutionalHolders.None?)
    && (!holderType.MutualFund? ==> o.mutualfundHolders.None?)
    && (!holderType.InsiderTransactions? ==> o.insiderTransactions.None?)
    && (!holderType.InsiderPurchases? ==> o.insiderPurchases.None?)
    && (!holderType.InsiderRoster? ==> o.insiderRoster.None?)
  }

  /** The overview `fetch_holders` builds from `result[0]`. */
  function OverviewOf(symbol: string, holderType: HolderType, result: Json.Value): (o: HoldersOverview)
    ensures o.symbol == ToUpper(symbol)
    ensures OnlySelected(o, holderType)
    ensures holderType.InsiderPurchases? ==> o.insiderPurchases == PurchasesOf(TransactionsOf(result))
  {
    HoldersOverview(
      ToUpper(symbol),
      if holderType.Major? then MajorBreakdownOf(result) else None,
      if holderType.Institutional? then OwnershipHoldersOf(result, "institutionOwnership") else None,
      if holderType.MutualFund? then OwnershipHoldersOf(result, "fundOwnership") else None,
      if holderType.InsiderTransactions? then TransactionsOf(result) else None,
      if holderType.InsiderPurchases? then PurchasesOf(TransactionsOf(result)) else None,
      if holderType.InsiderRoster? then RosterOf(result) else None)
  }

  /**
   * `fetch_holders`: ask for the module of the holder type, locate
   * `quoteSummary.result[0]`, start from an overview with every payload
   * absent and fill in the one the holder type selects.
   */
  method FetchHolders(
    symbol: string, holderType: HolderType,
    quoteSummary: (string, seq<string>) -> Result<Json.Value, YahooError>)
    returns (r: Result<HoldersOverview, YahooError>)
    ensures LocateResult(symbol, holderType, quoteSummary).Failure? ==>
              r == Failure(LocateResult(symbol, holderType, quoteSummary).error)
    ensures LocateResult(symbol, holderType, quoteSummary).Success? ==>
              r == Success(OverviewOf(symbol, holderType, LocateResult(symbol, holderType, quoteSummary).value))
  {
    var modules := ModulesFor(holderType);
    var data := quoteSummary(symbol, modules);
    if data.Failure? {
      return Failure(data.error);
    }
    var found := FirstResult(data.value);
    if found.None? {
      return Failure(ParseError("missing quoteSummary.result"));
    }
    var result := found.value;

    var overview := HoldersOverview(ToUpper(symbol), None, None, None, None, None, None);
    match holderType {
      case Major =>
        overview := overview.(majorBreakdown := MajorBreakdownOf(result));
      case Institutional =>
        var holders := ParseOwnershipHolders(result, "institutionOwnership");
        overview := overview.(institutionalHolders := holders);
      case MutualFund =>
        var holders := ParseOwnershipHolders(result, "fundOwnership");
        overview := overview.(mutualfundHolders := holders);
      case InsiderTransactions | InsiderPurchases =>
        var txs := ParseInsiderTransactions(result);
        if holderType == InsiderTransactions {
          overview := overview.(insiderTransactions := txs);
        }
        if holderType == InsiderPurchases {
          var purchases := ParseInsiderPurchases(txs);
          overview := overview.(insiderPurchases := purchases);
        }
      case InsiderRoster =>
        var roster := ParseInsiderRoster(result);
        overview := overview.(insiderRoster := roster);
    }
    return Success(overview);
  }

  // ------------------------------------------------------ field readers

  /** `.and_then(|s| s.as_str()).unwrap_or("")`. */
  function StrOrEmpty(v: Option<Json.Value>): string {
    if v.Some? && v.value.JStr? then v.value.s else ""
  }

  function ReadI64(v: Option<Json.Value>): Option<int> { v.Bind(ValueToI64) }
  function ReadF64(v: Option<Json.Value>): Option<real> { v.Bind(ValueToF64) }
  function ReadTimestamp(v: Option<Json.Value>): Option<Timestamp> { v.Bind(ParseTimestamp) }
  function ReadStr(v: Option<Json.Value>): Option<string> { v.Bind(Json.AsStr) }

  // ------------------------------------------------------ major breakdown

  /** `parse_major_breakdown`: a copy of the `majorHoldersBreakdown` object, if it is one. */
  function MajorBreakdownOf(result: Json.Value): (r: Option<MajorHoldersBreakdown>)
    ensures r.Some? <==> Json.Get(result, "majorHoldersBreakdown").Some? && Json.Get(result, "majorHoldersBreakdown").value.JObj?
    ensures r.Some? ==> r.value.breakdownData == Json.Get(result, "majorHoldersBreakdown").value.fields
  {
    match Json.Get(result, "majorHoldersBreakdown").Bind(Json.AsObject)
    case None => None
    case Some(obj) => Some(MajorHoldersBreakdown(ObjectToMap(obj)))
  }

  // ------------------------------------------- institutional and fund holders

  /** `result.<module>.ownershipList`, when it is an array. */
  function OwnershipList(result: Json.Value, moduleKey: string): Option<seq<Json.Value>> {
    Json.Get(result, moduleKey).Bind(v => Json.Get(v, "ownershipList")).Bind(Json.AsArray)
  }

  /** One pass of the ownership loop body: None is the `continue`. */
  function OwnershipEntry(item: Json.Value): (r: Option<OwnershipHolder>)
    ensures r.None? <==> StrOrEmpty(Json.Get(item, "organization")) == ""
    ensures r.Some? ==> r.value.holder == StrOrEmpty(Json.Get(item, "organization"))
    ensures r.Some? ==> r.value.shares == ReadI64(Json.Get(item, "position")).GetOr(0)
    ensures r.Some? && ReadTimestamp(Json.Get(item, "reportDate")).None? ==> r.value.dateReported == Epoch
    ensures r.Some? && ReadF64(Json.Get(item, "pctHeld")).Some? ==> r.value.percentOut == ReadF64(Json.Get(item, "pctHeld"))
    ensures r.Some? && ReadF64(Json.Get(item, "pctHeld")).None? ==> r.value.percentOut == ReadF64(Json.Get(item, "percentOut"))
  {
    var holder := StrOrEmpty(Json.Get(item, "organization"));
    if holder == "" then None
    else
      var percentOut := match ReadF64(Json.Get(item, "pctHeld"))
        case Some(p) => Some(p)
        case None => ReadF64(Json.Get(item, "percentOut"));
      Some(OwnershipHolder(
        holder,
        ReadI64(Json.Get(item, "position")).GetOr(0),
        ReadTimestamp(Json.Get(item, "reportDate")).GetOr(Epoch),
        percentOut,
        ReadI64(Json.Get(item, "value"))))
  }

  /** What `parse_institutional_holders` (module "institutionOwnership") and `parse_mutualfund_holders` ("fundOwnership") return. */
  function OwnershipHoldersOf(result: Json.Value, moduleKey: string): Option<seq<OwnershipHolder>> {
    OwnershipList(result, moduleKey).Bind(list => NonEmpty(FilterMap(list, OwnershipEntry)))
  }

  /** The shared body of `parse_institutional_holders` and `parse_mutualfund_holders`. */
  method ParseOwnershipHolders(result: Json.Value, moduleKey: string) returns (r: Option<seq<OwnershipHolder>>)
    ensures r == OwnershipHoldersOf(result, moduleKey)
  {
    var list := OwnershipList(result, moduleKey);
    if list.None? {
      return None;
    }
    var holders := Collect(list.value, OwnershipEntry);
    r := NonEmpty(holders);
  }

  /**
   * No holders are reported exactly when the list is absent (or not an array)
   * or when every item lacks a non-empty string `organization`.
   */
  lemma OwnershipNoneIff(result: Json.Value, moduleKey: string)
    ensures OwnershipHoldersOf(result, moduleKey).None? <==>
              || OwnershipList(result, moduleKey).None?
              || forall i :: 0 <= i < |OwnershipList(result, moduleKey).value| ==>
                   StrOrEmpty(Json.Get(OwnershipList(result, moduleKey).value[i], "organization")) == ""
  {
    if OwnershipList(result, moduleKey).Some? {
      FilterMapEmpty(OwnershipList(result, moduleKey).value, OwnershipEntry);
    }
  }

  /** Every reported holder has a name and is the conversion of some list item. */
  lemma OwnershipSurvivor(result: Json.Value, moduleKey: string, j: nat)
    requires OwnershipHoldersOf(result, moduleKey).Some? && j < |OwnershipHoldersOf(result, moduleKey).value|
    ensures OwnershipHoldersOf(result, moduleKey).value[j].holder != ""
    ensures exists i :: 0 <= i < |OwnershipList(result, moduleKey).value| &&
              OwnershipEntry(OwnershipList(result, moduleKey).value[i]) == Some(OwnershipHoldersOf(result, moduleKey).value[j])
  {
    FilterMapFrom(OwnershipList(result, moduleKey).value, OwnershipEntry, j);
  }

  // -------------------------------------------------- insider transactions

  function TransactionList(result: Json.Value): Option<seq<Json.Value>> {
    Json.Get(result, "insiderTransactions").Bind(v => Json.Get(v, "transactions")).Bind(Json.AsArray)
  }

  /** One pass of the transactions loop body: None is the `continue`. */
  function InsiderEntry(item: Json.Value): (r: Option<InsiderTransaction>)
    ensures r.None? <==> StrOrEmpty(Json.GetFirst(item, "filerName", "insider")) == ""
    ensures r.Some? ==> r.value.insider == StrOrEmpty(Json.GetFirst(item, "filerName", "insider"))
    ensures r.Some? ==> r.value.position == StrOrEmpty(Json.GetFirst(item, "filerRelation", "position"))
    ensures r.Some? ==> r.value.transaction == StrOrEmpty(Json.GetFirst(item, "transactionText", "transaction"))
    ensures r.Some? ==> r.value.ownership == ReadStr(Json.GetFirst(item, "ownership", "filerRelation"))
    ensures r.Some? && ReadTimestamp(Json.Get(item, "startDate")).None? ==> r.value.startDate == Epoch
  {
    var insider := StrOrEmpty(Json.GetFirst(item, "filerName", "insider"));
    if insider == "" then None
    else
      Some(InsiderTransaction(
        ReadTimestamp(Json.Get(item, "startDate")).GetOr(Epoch),
        insider,
        StrOrEmpty(Json.GetFirst(item, "filerRelation", "position")),
        StrOrEmpty(Json.GetFirst(item, "transactionText", "transaction")),
        ReadI64(Json.Get(item, "shares")),
        ReadI64(Json.Get(item, "value")),
        ReadStr(Json.GetFirst(item, "ownership", "filerRelation"))))
  }

  /** What `parse_insider_transactions` returns. */
  function TransactionsOf(result: Json.Value): Option<seq<InsiderTransaction>> {
    TransactionList(result).Bind(list => NonEmpty(FilterMap(list, InsiderEntry)))
  }

  method ParseInsiderTransactions(result: Json.Value) returns (r: Option<seq<InsiderTransaction>>)
    ensures r == TransactionsOf(result)
  {
    var list := TransactionList(result);
    if list.None? {
      return None;
    }
    var out := Collect(list.value, InsiderEntry);
    r := NonEmpty(out);
  }

  /**
   * A present `filerName` that is not a string is not replaced by `insider`:
   * the fallback key is read only when the first one is absent.
   */
  lemma InsiderFallbackOnlyOnAbsence(item: Json.Value)
    requires item.JObj? && "filerName" in item.fields && !item.fields["filerName"].JStr?
    ensures InsiderEntry(item) == None
  {
  }

  /** No transactions are reported exactly when the list is absent or every item lacks an insider name. */
  lemma TransactionsNoneIff(result: Json.Value)
    ensures TransactionsOf(result).None? <==>
              || TransactionList(result).None?
              || forall i :: 0 <= i < |TransactionList(result).value| ==>
                   StrOrEmpty(Json.GetFirst(TransactionList(result).value[i], "filerName", "insider")) == ""
  {
    if TransactionList(result).Some? {
      FilterMapEmpty(TransactionList(result).value, InsiderEntry);
    }
  }

  // ----------------------------------------------------- insider purchases

  datatype TxKind = Purchase | Sale | Neither

  /** Lower-cased text: "buy" or "purchase" makes a purchase, else "sell" or "sale" a sale. */
  function Classify(text: string): TxKind {
    var lower := ToLower(text);
    if Contains(lower, "buy") || Contains(lower, "purchase") then Purchase
    else if Contains(lower, "sell") || Contains(lower, "sale") then Sale
    else Neither
  }

  /** The four counters of `parse_insider_purchases`. */
  datatype Tally = Tally(purchasesShares: int, purchasesTx: nat, salesShares: int, salesTx: nat)

  function Count(t: Tally, tx: InsiderTransaction): Tally {
    var shares := tx.shares.GetOr(0);
    match Classify(tx.transaction)
    case Purchase => t.(purchasesShares := t.purchasesShares + shares, purchasesTx := t.purchasesTx + 1)
    case Sale => t.(salesShares := t.salesShares + shares, salesTx := t.salesTx + 1)
    case Neither => t
  }

  /** The counters after the loop has seen `txs`, in order. */
  function TallyOf(txs: seq<InsiderTransaction>): Tally {
    if txs == [] then Tally(0, 0, 0, 0) else Count(TallyOf(txs[..|txs| - 1]), txs[|txs| - 1])
  }

  function Summary(t: Tally): (p: InsiderPurchase)
    ensures p.purchasesShares.Some? && p.salesShares.Some? && p.purchasesTransactions.Some? && p.salesTransactions.Some?
    ensures p.netShares == Some(p.purchasesShares.value - p.salesShares.value)
    ensures p.netTransactions == Some(p.purchasesTransactions.value - p.salesTransactions.value)
  {
    InsiderPurchase(
      "recent",
      Some(t.purchasesShares), Some(t.purchasesTx),
      Some(t.salesShares), Some(t.salesTx),
      Some(t.purchasesShares - t.salesShares), Some(t.purchasesTx - t.salesTx),
      None, None, None, None)
  }

  /** What `parse_insider_purchases` returns. */
  function PurchasesOf(txs: Option<seq<InsiderTransaction>>): (r: Option<InsiderPurchase>)
    ensures r.None? <==> txs.None? || txs.value == []
    ensures r.Some? ==> r.value.period == "recent" && r.value.totalInsiderShares.None?
    ensures r.Some? ==> r.value.netPercentInsiderShares.None? && r.value.buyPercentInsiderShares.None? && r.value.sellPercentInsiderShares.None?
  {
    match txs
    case None => None
    case Some(list) => if list == [] then None else Some(Summary(TallyOf(list)))
  }

  /** `parse_insider_purchases`: fold the transactions into purchase and sale buckets. */
  method ParseInsiderPurchases(txs: Option<seq<InsiderTransaction>>) returns (r: Option<InsiderPurchase>)
    ensures r == PurchasesOf(txs)
  {
    if txs.None? {
      return None;
    }
    var list := txs.value;
    if list == [] {
      return None;
    }
    var purchasesShares, purchasesTx, salesShares, salesTx := 0, 0, 0, 0;
    for i := 0 to |list|
      invariant Tally(purchasesShares, purchasesTx, salesShares, salesTx) == TallyOf(list[..i])
    {
      assert list[..i + 1][..i] == list[..i];
      var text := ToLower(list[i].transaction);
      var shares := list[i].shares.GetOr(0);
      if Contains(text, "buy") || Contains(text, "purchase") {
        purchasesShares := purchasesShares + shares;
        purchasesTx := purchasesTx + 1;
      } else if Contains(text, "sell") || Contains(text, "sale") {
        salesShares := salesShares + shares;
        salesTx := salesTx + 1;
      }
    }
    assert list[..|list|] == list;
    r := Some(Summary(Tally(purchasesShares, purchasesTx, salesShares, salesTx)));
  }

  /** Each transaction lands in at most one bucket. */
  lemma {:induction false} TallyBound(txs: seq<InsiderTransaction>)
    ensures TallyOf(txs).purchasesTx + TallyOf(txs).salesTx <= |txs|
  {
    if txs != [] {
      TallyBound(txs[..|txs| - 1]);
    }
  }

  /** The buckets of a concatenation are the sums of the buckets of its parts. */
  lemma {:induction false} TallyAppend(a: seq<InsiderTransaction>, b: seq<InsiderTransaction>)
    ensures TallyOf(a + b).purchasesShares == TallyOf(a).purchasesShares + TallyOf(b).purchasesShares
    ensures TallyOf(a + b).purchasesTx == TallyOf(a).purchasesTx + TallyOf(b).purchasesTx
    ensures TallyOf(a + b).salesShares == TallyOf(a).salesShares + TallyOf(b).salesShares
    ensures TallyOf(a + b).salesTx == TallyOf(a).salesTx + TallyOf(b).salesTx
  {
    if b == [] {
      assert a + b == a;
    } else {
      assert (a + b)[..|a + b| - 1] == a + b[..|b| - 1];
      TallyAppend(a, b[..|b| - 1]);
    }
  }

  /** A text naming both a buy and a sale counts as a purchase. */
  lemma BuyBeatsSale(text: string)
    requires Contains(ToLower(text), "buy") && Contains(ToLower(text), "sale")
    ensures Classify(text) == Purchase
  {
  }

  function Tx(text: string, shares: int): InsiderTransaction {
    InsiderTransaction(Epoch, "insider", "", text, Some(shares), None, None)
  }

  lemma ClassifyExamples()
    ensures Classify("buy") == Purchase && Classify("sale") == Sale && Classify("hold") == Neither
  {
    assert ToLower("buy") == "buy";
    assert ToLower("sale") == "sale";
    assert ToLower("hold") == "hold";
    assert OccursAt("buy", "buy", 0);
    assert OccursAt("sale", "sale", 0);
    assert !Contains("sale", "buy") by {
      MismatchRulesOut("sale", "buy", 0, 0);
      MismatchRulesOut("sale", "buy", 1, 0);
    }
    assert !Contains("hold", "buy") by {
      MismatchRulesOut("hold", "buy", 0, 0);
      MismatchRulesOut("hold", "buy", 1, 0);
    }
    assert !Contains("hold", "sell") by {
      MismatchRulesOut("hold", "sell", 0, 0);
    }
    assert !Contains("hold", "sale") by {
      MismatchRulesOut("hold", "sale", 0, 0);
    }
  }

  /** buy 100, sale 40, hold 10: 100 shares in one purchase, 40 in one sale, net 60; "hold" counts nowhere. */
  lemma PurchasesExample()
    ensures PurchasesOf(Some([Tx("buy", 100), Tx("sale", 40), Tx("hold", 10)])) ==
              Some(InsiderPurchase("recent", Some(100), Some(1), Some(40), Some(1), Some(60), Some(0),
                                   None, None, None, None))
  {
    ClassifyExamples();
    var txs := [Tx("buy", 100), Tx("sale", 40), Tx("hold", 10)];
    assert txs[..1] == [Tx("buy", 100)] && txs[..1][..0] == [];
    assert TallyOf(txs[..1]) == Tally(100, 1, 0, 0);
    assert txs[..2][..1] == txs[..1];
    assert TallyOf(txs[..2]) == Tally(100, 1, 40, 1);
    assert txs[..3][..2] == txs[..2] && txs[..3] == txs;
    assert TallyOf(txs) == Tally(100, 1, 40, 1);
  }

  // ---------------------------------------------------------- insider roster

  function RosterList(result: Json.Value): Option<seq<Json.Value>> {
    Json.Get(result, "insiderHolders").Bind(v => Json.Get(v, "holders")).Bind(Json.AsArray)
  }

  /** One pass of the roster loop body: None is the `continue`. */
  function RosterEntry(item: Json.Value): (r: Option<InsiderRosterMember>)
    ensures r.None? <==> StrOrEmpty(Json.Get(item, "name")) == ""
    ensures r.Some? ==> r.value.name == StrOrEmpty(Json.Get(item, "name"))
    ensures r.Some? ==> r.value.position == StrOrEmpty(Json.GetFirst(item, "relation", "position"))
    ensures r.Some? ==> r.value.sharesOwnedDirectly == ReadI64(Json.GetFirst(item, "positionDirect", "sharesOwnedDirectly"))
  {
    var name := StrOrEmpty(Json.Get(item, "name"));
    if name == "" then None
    else
      Some(InsiderRosterMember(
        name,
        StrOrEmpty(Json.GetFirst(item, "relation", "position")),
        ReadStr(Json.GetFirst(item, "transactionDescription", "mostRecentTransaction")),
        ReadTimestamp(Json.GetFirst(item, "latestTransDate", "latestTransactionDate")),
        ReadI64(Json.GetFirst(item, "positionDirect", "sharesOwnedDirectly")),
        ReadI64(Json.GetFirst(item, "positionIndirect", "sharesOwnedIndirectly")),
        ReadTimestamp(Json.Get(item, "positionDirectDate"))))
  }

  /** What `parse_insider_roster` returns. */
  function RosterOf(result: Json.Value): Option<seq<InsiderRosterMember>> {
    RosterList(result).Bind(list => NonEmpty(FilterMap(list, RosterEntry)))
  }

  method ParseInsiderRoster(result: Json.Value) returns (r: Option<seq<InsiderRosterMember>>)
    ensures r == RosterOf(result)
  {
    var list := RosterList(result);
    if list.None? {
      return None;
    }
    var out := Collect(list.value, RosterEntry);
    r := NonEmpty(out);
  }

  /** No roster is reported exactly when the list is absent or every item lacks a name. */
  lemma RosterNoneIff(result: Json.Value)
    ensures RosterOf(result).None? <==>
              || RosterList(result).None?
              || forall i :: 0 <= i < |RosterList(result).value| ==> StrOrEmpty(Json.Get(RosterList(result).value[i], "name")) == ""
  {
    if RosterList(result).Some? {
      FilterMapEmpty(RosterList(result).value, RosterEntry);
    }
  }
}
