/**
 * `SHOWCUSTOMERACCOUNTBALANCESCollector`: the debt of a customer and, per
 * sub-account, its balance, designated amount, credit amount and their
 * total, fetched with the BSS SDK.
 */
module AccountBalances {
  import opened Wrappers
  import opened Text
  import opened PyValue
  import opened BaseCollector
  import opened Metrics
  import opened Gauges
  import opened SdkCollector

  const DebtAmount := "huaweicloud_bss_debt_amount"
  const AccountBalance := "huaweicloud_bss_account_balance"
  const DesignatedAmount := "huaweicloud_bss_account_designated_amount"
  const CreditAmount := "huaweicloud_bss_account_credit_amount"
  const TotalAmount := "huaweicloud_bss_account_total_amount"

  const DefaultRegion := "cn-north-1"

  /** The response field holding the per-account list. */
  const ListKey := "account_balances"

  // ---------------------------------------------------------------- account types

  /** The account types the collector names. */
  const AccountTypes: map<int, string> := map[1 := "balance", 2 := "credit", 5 := "bonus", 7 := "deposit"]

  /** `_get_account_type_name`: a dict lookup with an `unknown_type_<n>` default; a list or dict raises. */
  function AccountTypeName(accountType: Value): (r: Option<string>)
    ensures r.None? <==> !Hashable(accountType)
    ensures r.Some? ==> r.value in AccountTypes.Values || (|r.value| >= 13 && r.value[..13] == "unknown_type_")
  {
    var default := "unknown_type_" + PyStr(accountType);
    assert default[..13] == "unknown_type_";
    LookupInt(AccountTypes, accountType, default)
  }

  /** A type equal to a table key gets its name (`2`, `2.0` and `True == 1` included). */
  lemma AccountTypeKnown(accountType: Value, n: int)
    requires Hashable(accountType) && NumEq(accountType, n) && n in AccountTypes
    ensures AccountTypeName(accountType) == Some(AccountTypes[n])
  {
    LookupIntEqualKeys(AccountTypes, accountType, "unknown_type_" + PyStr(accountType), n);
  }

  /** Any other hashable type is `unknown_type_` followed by its text; an unhashable one raises. */
  lemma AccountTypeOther(accountType: Value)
    requires forall n :: n in AccountTypes ==> !NumEq(accountType, n)
    ensures Hashable(accountType) ==> AccountTypeName(accountType) == Some("unknown_type_" + PyStr(accountType))
    ensures !Hashable(accountType) ==> AccountTypeName(accountType).None?
  {
    if Hashable(accountType) && IntKey(accountType).Some? {
      IntKeyExact(accountType, IntKey(accountType).value);
    }
  }

  /** A missing type reads as 0: `unknown_type_0`. */
  lemma MissingTypeIsUnknownZero(f: map<string, Value>)
    requires "account_type" !in f
    ensures AccountTypeName(Get(f, "account_type", Int(0))) == Some("unknown_type_0")
  {
    assert IntKey(Int(0)) == Some(0) && 0 !in AccountTypes;
    assert DigitChar(0) == '0';
    assert PyStr(Int(0)) == "0";
    assert "unknown_type_" + "0" == "unknown_type_0";
  }

  // ---------------------------------------------------------------- one account

  /**
   * What the collector reads from one account object: the label tuple
   * shared by its four gauges and the three raw amounts (each 0 when
   * missing).
   */
  datatype Balance = Balance(labels: seq<string>, amount: Value, designated: Value, credit: Value)

  /** The label tuple: account, account id (`'unknown'` when missing), type name and currency (`'CNY'` when missing). */
  function BalanceLabels(account: string, f: map<string, Value>, typeName: string): seq<string> {
    [account, PyStr(Get(f, "account_id", Str("unknown"))), typeName, PyStr(Get(f, "currency", Str("CNY")))]
  }

  function ReadBalance(account: string, f: map<string, Value>, typeName: string): Balance {
    Balance(BalanceLabels(account, f, typeName),
            Get(f, "amount", Int(0)), Get(f, "designated_amount", Int(0)), Get(f, "credit_amount", Int(0)))
  }

  /** `amount + designated_amount + credit_amount` with Python's `+`, then set: either step can raise. */
  function TotalPiece(labels: seq<string>, amount: Value, designated: Value, credit: Value): Effect {
    match PyAdd(amount, designated)
    case None => Aborted
    case Some(partial) =>
      match PyAdd(partial, credit)
      case None => Aborted
      case Some(total) => SetNumber(Series(TotalAmount, labels), total)
  }

  /** The writes for one account, in the collector's order; each `set` calls `float()` and can raise. */
  function BalancePieces(b: Balance): seq<Effect> {
    [SetNumber(Series(AccountBalance, b.labels), b.amount),
     SetNumber(Series(DesignatedAmount, b.labels), b.designated),
     SetNumber(Series(CreditAmount, b.labels), b.credit),
     TotalPiece(b.labels, b.amount, b.designated, b.credit)]
  }

  /** The metrics each piece writes. */
  const PieceMetrics: seq<set<string>> := [{AccountBalance}, {DesignatedAmount}, {CreditAmount}, {TotalAmount}]

  /** One account: not an object, or an unhashable type, raises before anything is written. */
  function BalanceEffect(account: string, x: Value): (e: Effect)
    ensures !x.Dict? || !Hashable(Get(x.fields, "account_type", Int(0))) ==> e == Aborted
    ensures Avoids(e.ops, DebtAmount)
  {
    if !x.Dict? then Aborted
    else match AccountTypeName(Get(x.fields, "account_type", Int(0)))
      case None => Aborted
      case Some(typeName) =>
        PiecesAvoidDebt(ReadBalance(account, x.fields, typeName));
        Chain(BalancePieces(ReadBalance(account, x.fields, typeName)))
  }

  function BalanceFn(account: string): Value -> Effect {
    x => BalanceEffect(account, x)
  }

  // ---------------------------------------------------------------- collect

  /** The debt series: the account and the top-level currency (`'CNY'` when missing). */
  function DebtSeries(account: string, data: map<string, Value>): Series {
    Series(DebtAmount, [account, PyStr(Get(data, "currency", Str("CNY")))])
  }

  /**
   * The response data: the debt (`debt_amount`, default 0), then each
   * account.  An empty list only logs: there is no early return, and the
   * loop writes nothing.
   */
  function ResponseEffect(account: string, data: map<string, Value>): (e: Effect)
    ensures LastGauge(e.ops, DebtSeries(account, data)) == ToFloat(Get(data, "debt_amount", Int(0)))
    ensures "debt_amount" !in data && "currency" !in data ==> LastGauge(e.ops, Series(DebtAmount, [account, "CNY"])) == Some(0.0)
    ensures e.completed ==> ToFloat(Get(data, "debt_amount", Int(0))).Some?
  {
    HeadWrittenFirst(DebtSeries(account, data), Get(data, "debt_amount", Int(0)), Get(data, ListKey, List([])), BalanceFn(account));
    NumberThenList(DebtSeries(account, data), Get(data, "debt_amount", Int(0)), Get(data, ListKey, List([])), BalanceFn(account))
  }

  /** `collect`: nothing without a client; the request has no parameters; `respond` is the SDK call. */
  function CollectEffect(base: Base, client: Option<SdkClient>, respond: SdkClient -> Option<map<string, Value>>): Effect {
    CallEffect(client, Some(()), (c: SdkClient, _: ()) => respond(c), data => ResponseEffect(base.name, data))
  }

  class AccountBalancesCollector {
    const base: Base
    const client: Option<SdkClient>

    /** `__init__`: the BSS client, built from the configured or environment AK/SK in `cn-north-1` by default. */
    constructor(base: Base, env: map<string, string>, knownRegion: Value -> bool)
      ensures this.base == base
      ensures client == NewSdkClient(base, env, DefaultRegion, knownRegion)
    {
      this.base := base;
      client := NewSdkClient(base, env, DefaultRegion, knownRegion);
    }

    /** `collect` against the registry; `requested` says whether the SDK was called. */
    method Collect(reg: Registry, respond: SdkClient -> Option<map<string, Value>>) returns (requested: bool)
      modifies reg
      ensures requested <==> client.Some?
      ensures reg.State() == Apply(old(reg.State()), CollectEffect(base, client, respond).ops)
    {
      if client.None? {
        return false;
      }
      requested := true;
      var data := respond(client.value);
      if data.None? {
        return;
      }
      var _ := RunNumberThenList(reg, DebtSeries(base.name, data.value), Get(data.value, "debt_amount", Int(0)),
                                 Get(data.value, ListKey, List([])), BalanceFn(base.name));
    }
  }

  // ---------------------------------------------------------------- one account, as read

  /** Each piece writes only its own metric. */
  lemma PiecesWrite(b: Balance)
    ensures forall j :: 0 <= j < 4 ==> Writes(BalancePieces(b)[j].ops, PieceMetrics[j])
  {
  }

  /** The four gauges of one account carry the same label tuple. */
  lemma PiecesShareLabels(b: Balance)
    ensures forall i :: 0 <= i < |Chain(BalancePieces(b)).ops| ==> Chain(BalancePieces(b)).ops[i].series.labels == b.labels
  {
    var es := BalancePieces(b);
    ChainAll(es, (op: Op) => op.series.labels == b.labels);
  }

  /** The balance gauge holds `float()` of the amount and is not written when that raises. */
  lemma AmountPiece(b: Balance)
    ensures LastGauge(Chain(BalancePieces(b)).ops, Series(AccountBalance, b.labels)) == ToFloat(b.amount)
  {
    var es := BalancePieces(b);
    PiecesWrite(b);
    ChainGauge(es, PieceMetrics, 0, Series(AccountBalance, b.labels));
    if es[0].completed {
      SingleGauge(Series(AccountBalance, b.labels), ToFloat(b.amount).value);
    }
  }

  /** Once the balance is written, the designated amount gauge holds `float()` of its value, if that converts. */
  lemma DesignatedPiece(b: Balance)
    requires ToFloat(b.amount).Some?
    ensures LastGauge(Chain(BalancePieces(b)).ops, Series(DesignatedAmount, b.labels)) == ToFloat(b.designated)
  {
    var es := BalancePieces(b);
    PiecesWrite(b);
    ChainGauge(es, PieceMetrics, 1, Series(DesignatedAmount, b.labels));
    if es[1].completed {
      SingleGauge(Series(DesignatedAmount, b.labels), ToFloat(b.designated).value);
    }
  }

  /** Once the first two are written, the credit gauge holds `float()` of the credit amount, if that converts. */
  lemma CreditPiece(b: Balance)
    requires ToFloat(b.amount).Some? && ToFloat(b.designated).Some?
    ensures LastGauge(Chain(BalancePieces(b)).ops, Series(CreditAmount, b.labels)) == ToFloat(b.credit)
  {
    var es := BalancePieces(b);
    PiecesWrite(b);
    ChainGauge(es, PieceMetrics, 2, Series(CreditAmount, b.labels));
    if es[2].completed {
      SingleGauge(Series(CreditAmount, b.labels), ToFloat(b.credit).value);
    }
  }

  /** With three numeric amounts, the total gauge is their sum. */
  lemma SumPiece(b: Balance)
    requires NumberOf(b.amount).Some? && NumberOf(b.designated).Some? && NumberOf(b.credit).Some?
    ensures LastGauge(Chain(BalancePieces(b)).ops, Series(TotalAmount, b.labels))
              == Some(NumberOf(b.amount).value + NumberOf(b.designated).value + NumberOf(b.credit).value)
  {
    var es := BalancePieces(b);
    PiecesWrite(b);
    assert es[0].completed && es[1].completed && es[2].completed;
    ChainGauge(es, PieceMetrics, 3, Series(TotalAmount, b.labels));
    var partial := PyAdd(b.amount, b.designated).value;
    var total := PyAdd(partial, b.credit).value;
    assert ToFloat(total) == NumberOf(total);
    SingleGauge(Series(TotalAmount, b.labels), NumberOf(total).value);
  }

  /** Three numeric amounts: the account's writes run to their end. */
  lemma NumbersComplete(b: Balance)
    requires NumberOf(b.amount).Some? && NumberOf(b.designated).Some? && NumberOf(b.credit).Some?
    ensures Chain(BalancePieces(b)).completed
  {
    var es := BalancePieces(b);
    var total := PyAdd(PyAdd(b.amount, b.designated).value, b.credit).value;
    assert ToFloat(total) == NumberOf(total);
    ChainCompleted(es);
    assert es[0].completed && es[1].completed && es[2].completed && es[3].completed;
  }

  // ---------------------------------------------------------------- what collect writes

  /** Without credentials there is no client, and `collect` returns before writing anything. */
  lemma MissingCredentialsWriteNothing(base: Base, env: map<string, string>, knownRegion: Value -> bool,
                                       respond: SdkClient -> Option<map<string, Value>>)
    requires !Truthy(base.ak) && "CLOUD_SDK_AK" !in env
    ensures CollectEffect(base, NewSdkClient(base, env, DefaultRegion, knownRegion), respond) == Done([])
  {
  }

  /** The writes for one account never touch the debt. */
  lemma PiecesAvoidDebt(b: Balance)
    ensures Avoids(Chain(BalancePieces(b)).ops, DebtAmount)
  {
    PiecesWrite(b);
    assert forall i :: 0 <= i < |PieceMetrics| ==> DebtAmount !in PieceMetrics[i];
    ChainAvoids(BalancePieces(b), PieceMetrics, DebtAmount);
  }

  /** An empty or missing account list: the debt is still written, and nothing else. */
  lemma NoBalancesOnlyDebt(account: string, data: map<string, Value>)
    requires ToFloat(Get(data, "debt_amount", Int(0))).Some?
    requires ListKey !in data || data[ListKey] == List([])
    ensures ResponseEffect(account, data) == Done([SetGauge(DebtSeries(account, data), ToFloat(Get(data, "debt_amount", Int(0))).value)])
  {
    var op := SetGauge(DebtSeries(account, data), ToFloat(Get(data, "debt_amount", Int(0))).value);
    assert [op] + [] == [op];
  }

  /** The balance gauge holds `float()` of the amount (0 when missing). */
  lemma AmountWritten(account: string, f: map<string, Value>, typeName: string)
    requires AccountTypeName(Get(f, "account_type", Int(0))) == Some(typeName)
    ensures LastGauge(BalanceEffect(account, Dict(f)).ops, Series(AccountBalance, BalanceLabels(account, f, typeName)))
              == ToFloat(Get(f, "amount", Int(0)))
  {
    AmountPiece(ReadBalance(account, f, typeName));
  }

  /** Once the balance is written, the designated and credit gauges hold their amounts (0 when missing). */
  lemma AmountsWritten(account: string, f: map<string, Value>, typeName: string)
    requires AccountTypeName(Get(f, "account_type", Int(0))) == Some(typeName)
    requires ToFloat(Get(f, "amount", Int(0))).Some?
    ensures var ops := BalanceEffect(account, Dict(f)).ops;
            var labels := BalanceLabels(account, f, typeName);
            && LastGauge(ops, Series(DesignatedAmount, labels)) == ToFloat(Get(f, "designated_amount", Int(0)))
            && (ToFloat(Get(f, "designated_amount", Int(0))).Some? ==>
                  LastGauge(ops, Series(CreditAmount, labels)) == ToFloat(Get(f, "credit_amount", Int(0))))
  {
    var b := ReadBalance(account, f, typeName);
    DesignatedPiece(b);
    if ToFloat(b.designated).Some? {
      CreditPiece(b);
    }
  }

  /** With numeric amounts (each 0 when missing) the total gauge is balance + designated + credit. */
  lemma TotalIsSum(account: string, f: map<string, Value>, typeName: string)
    requires AccountTypeName(Get(f, "account_type", Int(0))) == Some(typeName)
    requires NumberOf(Get(f, "amount", Int(0))).Some?
    requires NumberOf(Get(f, "designated_amount", Int(0))).Some?
    requires NumberOf(Get(f, "credit_amount", Int(0))).Some?
    ensures LastGauge(BalanceEffect(account, Dict(f)).ops, Series(TotalAmount, BalanceLabels(account, f, typeName)))
              == Some(NumberOf(Get(f, "amount", Int(0))).value + NumberOf(Get(f, "designated_amount", Int(0))).value
                      + NumberOf(Get(f, "credit_amount", Int(0))).value)
    ensures BalanceEffect(account, Dict(f)).completed
  {
    var b := ReadBalance(account, f, typeName);
    SumPiece(b);
    NumbersComplete(b);
  }

  /** Only a balance is given: designated and credit read as 0 and the total equals the balance. */
  lemma BalanceOnlyTotal(account: string, f: map<string, Value>, typeName: string, x: real)
    requires AccountTypeName(Get(f, "account_type", Int(0))) == Some(typeName)
    requires "amount" in f && f["amount"] == Float(x)
    requires "designated_amount" !in f && "credit_amount" !in f
    ensures LastGauge(BalanceEffect(account, Dict(f)).ops, Series(TotalAmount, BalanceLabels(account, f, typeName))) == Some(x)
  {
    TotalIsSum(account, f, typeName);
  }

  /** The four gauges of an account share its label tuple. */
  lemma LabelsShared(account: string, f: map<string, Value>, typeName: string)
    requires AccountTypeName(Get(f, "account_type", Int(0))) == Some(typeName)
    ensures var ops := BalanceEffect(account, Dict(f)).ops;
            forall i :: 0 <= i < |ops| ==> ops[i].series.labels == BalanceLabels(account, f, typeName)
  {
    PiecesShareLabels(ReadBalance(account, f, typeName));
  }

}
