/**
 * `LISTSTOREDVALUECARDSCollector`: the stored value cards of an account,
 * fetched with the BSS SDK; per card a status, its face value and balance
 * (in CNY), an info series and two timestamps.
 */
module StoredValueCards {
  import opened Wrappers
  import opened Text
  import opened PyValue
  import opened BaseCollector
  import opened Metrics
  import opened Gauges
  import opened SdkCollector

  const TotalCount := "huaweicloud_bss_stored_value_card_total_count"
  const CardStatus := "huaweicloud_bss_stored_value_card_status"
  const FaceValue := "huaweicloud_bss_stored_value_card_face_value"
  const Balance := "huaweicloud_bss_stored_value_card_balance"
  const EffectiveTime := "huaweicloud_bss_stored_value_card_effective_timestamp"
  const ExpireTime := "huaweicloud_bss_stored_value_card_expire_timestamp"
  const CardInfo := "huaweicloud_bss_stored_value_card"

  const DefaultRegion := "cn-north-1"

  /** The response field holding the card list. */
  const ListKey := "stored_value_cards"

  /** The currency label of the amounts: always `CNY`. */
  const Currency := "CNY"

  // ---------------------------------------------------------------- one card

  /**
   * What the collector reads from one card object: its labels, the raw
   * status, the two amounts after conversion, the info dict and the two
   * date fields.  Reading them cannot raise; only `float()` of the status
   * can, when the status gauge is set.
   */
  datatype Card = Card(labels: seq<string>, status: Value, faceValue: real, balance: real,
                       info: map<string, Value>, effective: Value, expire: Value)

  /** The labels of a card: account, card id and card name (`'unknown'` when missing). */
  function CardLabels(account: string, f: map<string, Value>): seq<string> {
    [account, PyStr(Get(f, "card_id", Str("unknown"))), PyStr(Get(f, "card_name", Str("unknown")))]
  }

  /** The status as the info shows it: its `str()` text, `''` when missing. */
  function InfoStatus(f: map<string, Value>): Value {
    Or(Str(PyStr(Get(f, "status", Str("")))), Str(""))
  }

  /** The info dict of a card: the status through `str()`, the other fields as given; missing or falsy become `''`. */
  function CardInfoFields(f: map<string, Value>): map<string, Value> {
    map[
      "status" := InfoStatus(f),
      "face_value" := Or(Get(f, "face_value", Str("")), Str("")),
      "balance" := Or(Get(f, "balance", Str("")), Str("")),
      "effective_time" := Or(Get(f, "effective_time", Str("")), Str("")),
      "expire_time" := Or(Get(f, "expire_time", Str("")), Str(""))]
  }

  /**
   * A card object as read: the amounts are `float()` of the field
   * (default `'0'`), `0.0` when that raises; the status is kept raw
   * (default `0`).
   */
  function ReadCard(account: string, f: map<string, Value>): Card {
    Card(CardLabels(account, f), Get(f, "status", Int(0)),
         FloatOrZero(Get(f, "face_value", Str("0"))), FloatOrZero(Get(f, "balance", Str("0"))),
         CardInfoFields(f), Get(f, "effective_time", Null), Get(f, "expire_time", Null))
  }

  /**
   * The writes for one card, in the collector's order: status, face value
   * and balance (labelled `CNY`), info, effective and expiry times.  Only
   * the status write can raise.
   */
  function CardPieces(conv: string -> Option<real>, c: Card): seq<Effect> {
    [SetNumber(Series(CardStatus, c.labels), c.status),
     Done([SetGauge(Series(FaceValue, c.labels + [Currency]), c.faceValue),
           SetGauge(Series(Balance, c.labels + [Currency]), c.balance)]),
     Done([Op.SetInfo(Series(CardInfo, c.labels), c.info)]),
     Done(TimestampOps(Series(EffectiveTime, c.labels), conv, c.effective)
          + TimestampOps(Series(ExpireTime, c.labels), conv, c.expire))]
  }

  /** The metrics each piece writes. */
  const PieceMetrics: seq<set<string>> := [{CardStatus}, {FaceValue, Balance}, {CardInfo}, {EffectiveTime, ExpireTime}]

  /** One card: a value that is not an object raises at its first `get`, before anything is written. */
  function CardEffect(account: string, conv: string -> Option<real>, card: Value): (e: Effect)
    ensures e.completed <==> card.Dict? && ToFloat(Get(card.fields, "status", Int(0))).Some?
    ensures !card.Dict? ==> e == Aborted
    ensures Avoids(e.ops, TotalCount) && All(e.ops, CnyLabel)
  {
    match card
    case Dict(f) =>
      var c := ReadCard(account, f);
      PiecesComplete(conv, c);
      PiecesWrite(conv, c);
      ChainAvoids(CardPieces(conv, c), PieceMetrics, TotalCount);
      PiecesCny(conv, c);
      Chain(CardPieces(conv, c))
    case _ => Aborted
  }

  function CardFn(account: string, conv: string -> Option<real>): Value -> Effect {
    c => CardEffect(account, conv, c)
  }

  // ---------------------------------------------------------------- collect

  /** The response data: the total, then, unless the card list is empty, each card. */
  function ResponseEffect(account: string, conv: string -> Option<real>, data: map<string, Value>): (e: Effect)
    ensures LastGauge(e.ops, Series(TotalCount, [account])) == ToFloat(Get(data, "total_count", Int(0)))
    ensures e.completed ==> ToFloat(Get(data, "total_count", Int(0))).Some?
  {
    TotalWrittenFirst(Series(TotalCount, [account]), data, ListKey, CardFn(account, conv));
    TotalThenList(Series(TotalCount, [account]), data, ListKey, CardFn(account, conv))
  }

  /**
   * `collect`: nothing without a client; the configured params the
   * request has attributes for are set on it; `respond` is the SDK call
   * (`None` when it raises, which the collector catches and logs).
   */
  function CollectEffect(base: Base, client: Option<SdkClient>, attributes: set<string>,
                         respond: (SdkClient, map<string, Value>) -> Option<map<string, Value>>,
                         conv: string -> Option<real>): Effect {
    CallEffect(client, CopyParams(base.params, attributes), respond, data => ResponseEffect(base.name, conv, data))
  }

  class StoredValueCardsCollector {
    const base: Base
    const client: Option<SdkClient>

    /** `__init__`: the BSS client, built from the configured or environment AK/SK in `cn-north-1` by default. */
    constructor(base: Base, env: map<string, string>, knownRegion: Value -> bool)
      ensures this.base == base
      ensures client == NewSdkClient(base, env, DefaultRegion, knownRegion)
    {
      this.base := base;
      client := NewSdkClient(base, env, DefaultRegion, knownRegion);
    }

    /** `collect` against the registry; `request` holds the attributes set on the request sent, if one was. */
    method Collect(reg: Registry, attributes: set<string>,
                   respond: (SdkClient, map<string, Value>) -> Option<map<string, Value>>,
                   conv: string -> Option<real>) returns (request: Option<map<string, Value>>)
      modifies reg
      ensures request == (if client.Some? then CopyParams(base.params, attributes) else None)
      ensures reg.State() == Apply(old(reg.State()), CollectEffect(base, client, attributes, respond, conv).ops)
    {
      if client.None? {
        return None;
      }
      request := CopyParams(base.params, attributes);
      if request.None? {
        return;
      }
      var data := respond(client.value, request.value);
      if data.None? {
        return;
      }
      var _ := RunTotalThenList(reg, Series(TotalCount, [base.name]), data.value, ListKey, CardFn(base.name, conv));
    }
  }

  // ---------------------------------------------------------------- one card, as read

  /** Each piece writes only its own metrics. */
  lemma PiecesWrite(conv: string -> Option<real>, c: Card)
    ensures forall j :: 0 <= j < 4 ==> Writes(CardPieces(conv, c)[j].ops, PieceMetrics[j])
  {
    TimestampPairWritten(Series(EffectiveTime, c.labels), c.effective, Series(ExpireTime, c.labels), c.expire, conv);
  }

  /** The status gauge holds `float()` of the status and is not written when that raises. */
  lemma StatusPiece(conv: string -> Option<real>, c: Card)
    ensures LastGauge(Chain(CardPieces(conv, c)).ops, Series(CardStatus, c.labels)) == ToFloat(c.status)
  {
    var es := CardPieces(conv, c);
    PiecesWrite(conv, c);
    ChainGauge(es, PieceMetrics, 0, Series(CardStatus, c.labels));
    if es[0].completed {
      SingleGauge(Series(CardStatus, c.labels), ToFloat(c.status).value);
    }
  }

  /** Once the status is written, the two amounts are, each under the currency `CNY`. */
  lemma AmountsPiece(conv: string -> Option<real>, c: Card)
    requires ToFloat(c.status).Some?
    ensures var ops := Chain(CardPieces(conv, c)).ops;
            && LastGauge(ops, Series(FaceValue, c.labels + [Currency])) == Some(c.faceValue)
            && LastGauge(ops, Series(Balance, c.labels + [Currency])) == Some(c.balance)
  {
    var es := CardPieces(conv, c);
    var ops := es[1].ops;
    PiecesWrite(conv, c);
    ChainGauge(es, PieceMetrics, 1, ops[0].series);
    ChainGauge(es, PieceMetrics, 1, ops[1].series);
    assert ops == [] + [ops[0]] + [ops[1]];
    LastGaugeOf([], ops[0].series, ops[0].value, [ops[1]]);
    LastGaugeOf([ops[0]], ops[1].series, ops[1].value, []);
  }

  /** Once the status is written, the info series holds the info dict. */
  lemma InfoPiece(conv: string -> Option<real>, c: Card)
    requires ToFloat(c.status).Some?
    ensures LastInfo(Chain(CardPieces(conv, c)).ops, Series(CardInfo, c.labels)) == Some(c.info)
  {
    PiecesWrite(conv, c);
    ChainInfo(CardPieces(conv, c), PieceMetrics, 2, Series(CardInfo, c.labels));
    SingleInfo(Series(CardInfo, c.labels), c.info);
  }

  /** Once the status is written, each timestamp holds the conversion of its non-empty date string. */
  lemma DatesPiece(conv: string -> Option<real>, c: Card)
    requires ToFloat(c.status).Some?
    ensures var ops := Chain(CardPieces(conv, c)).ops;
            && LastGauge(ops, Series(EffectiveTime, c.labels)) == (if c.effective.Str? && c.effective.s != [] then conv(c.effective.s) else None)
            && LastGauge(ops, Series(ExpireTime, c.labels)) == (if c.expire.Str? && c.expire.s != [] then conv(c.expire.s) else None)
  {
    var s1, s2 := Series(EffectiveTime, c.labels), Series(ExpireTime, c.labels);
    PiecesWrite(conv, c);
    ChainGauge(CardPieces(conv, c), PieceMetrics, 3, s1);
    ChainGauge(CardPieces(conv, c), PieceMetrics, 3, s2);
    TimestampPairWritten(s1, c.effective, s2, c.expire, conv);
  }

  /** The card's writes run to their end exactly when the status converts. */
  lemma PiecesComplete(conv: string -> Option<real>, c: Card)
    ensures Chain(CardPieces(conv, c)).completed <==> ToFloat(c.status).Some?
  {
    var es := CardPieces(conv, c);
    ChainCompleted(es);
    assert es[1].completed && es[2].completed && es[3].completed;
  }

  /** The face value and balance writes carry the currency `CNY` after the card labels. */
  predicate CnyLabel(op: Op) {
    op.series.metric in {FaceValue, Balance} ==> |op.series.labels| == 4 && op.series.labels[3] == Currency
  }

  lemma PiecesCny(conv: string -> Option<real>, c: Card)
    requires |c.labels| == 3
    ensures All(Chain(CardPieces(conv, c)).ops, CnyLabel)
  {
    var es := CardPieces(conv, c);
    PiecesWrite(conv, c);
    forall j | 0 <= j < |es| ensures All(es[j].ops, CnyLabel) {
      if j != 1 {
        forall i | 0 <= i < |es[j].ops| ensures CnyLabel(es[j].ops[i]) {
          assert es[j].ops[i].series.metric in PieceMetrics[j];
        }
      }
    }
    ChainAll(es, CnyLabel);
  }

  // ---------------------------------------------------------------- what collect writes

  /** Without credentials there is no client, and `collect` returns before writing anything. */
  lemma MissingCredentialsWriteNothing(base: Base, env: map<string, string>, knownRegion: Value -> bool, attributes: set<string>,
                                       respond: (SdkClient, map<string, Value>) -> Option<map<string, Value>>,
                                       conv: string -> Option<real>)
    requires !Truthy(base.ak) && "CLOUD_SDK_AK" !in env
    ensures CollectEffect(base, NewSdkClient(base, env, DefaultRegion, knownRegion), attributes, respond, conv) == Done([])
  {
  }

  /** With no card list, or an empty one, the total is the only write. */
  lemma NoCardsOnlyTotal(account: string, conv: string -> Option<real>, data: map<string, Value>)
    requires ToFloat(Get(data, "total_count", Int(0))).Some?
    requires ListKey !in data || data[ListKey] == List([])
    ensures ResponseEffect(account, conv, data) == Done([SetGauge(Series(TotalCount, [account]), ToFloat(Get(data, "total_count", Int(0))).value)])
  {
    EmptyListOnlyTotal(Series(TotalCount, [account]), data, ListKey, CardFn(account, conv));
  }

  /**
   * The status gauge holds `float()` of the raw status (`0.0` when it is
   * missing) and is not written when `float()` raises.
   */
  lemma StatusWritten(account: string, conv: string -> Option<real>, f: map<string, Value>)
    ensures LastGauge(CardEffect(account, conv, Dict(f)).ops, Series(CardStatus, CardLabels(account, f)))
              == ToFloat(Get(f, "status", Int(0)))
  {
    StatusPiece(conv, ReadCard(account, f));
  }

  /**
   * Once the status is written, the face value and balance gauges hold
   * `float()` of their fields, `0.0` when that raises, under the
   * currency `CNY`.
   */
  lemma AmountsWritten(account: string, conv: string -> Option<real>, f: map<string, Value>)
    requires ToFloat(Get(f, "status", Int(0))).Some?
    ensures var ops := CardEffect(account, conv, Dict(f)).ops;
            var labels := CardLabels(account, f) + ["CNY"];
            && LastGauge(ops, Series(FaceValue, labels)) == Some(FloatOrZero(Get(f, "face_value", Str("0"))))
            && LastGauge(ops, Series(Balance, labels)) == Some(FloatOrZero(Get(f, "balance", Str("0"))))
  {
    AmountsPiece(conv, ReadCard(account, f));
  }

  /** A missing face value or balance reads as the default `'0'`: the gauge holds `0.0`. */
  lemma MissingAmountsZero(account: string, conv: string -> Option<real>, f: map<string, Value>)
    requires ToFloat(Get(f, "status", Int(0))).Some?
    requires "face_value" !in f && "balance" !in f
    ensures var ops := CardEffect(account, conv, Dict(f)).ops;
            var labels := CardLabels(account, f) + ["CNY"];
            && LastGauge(ops, Series(FaceValue, labels)) == Some(0.0)
            && LastGauge(ops, Series(Balance, labels)) == Some(0.0)
  {
    AmountsWritten(account, conv, f);
    NatText(0);
  }

  /** Once the status is written, the info series holds the card's info dict. */
  lemma InfoWritten(account: string, conv: string -> Option<real>, f: map<string, Value>)
    requires ToFloat(Get(f, "status", Int(0))).Some?
    ensures LastInfo(CardEffect(account, conv, Dict(f)).ops, Series(CardInfo, CardLabels(account, f))) == Some(CardInfoFields(f))
  {
    InfoPiece(conv, ReadCard(account, f));
  }

  /** A card without the info fields has `''` for each of them. */
  lemma MissingInfoFields(f: map<string, Value>)
    requires forall key :: key in f ==> key !in {"status", "face_value", "balance", "effective_time", "expire_time"}
    ensures forall key :: key in CardInfoFields(f) ==> CardInfoFields(f)[key] == Str("")
  {
    assert "status" !in f && "face_value" !in f && "balance" !in f && "effective_time" !in f && "expire_time" !in f;
  }

  /** The info status is the text of the status: an integer status `n` is shown as its decimal digits. */
  lemma InfoStatusDigits(f: map<string, Value>, n: int)
    requires "status" in f && f["status"] == Int(n)
    ensures CardInfoFields(f)["status"] == Str(IntStr(n))
  {
  }

  /**
   * Once the status is written, the effective and expiry timestamps hold
   * the conversion of a non-empty date string and are not written
   * otherwise.
   */
  lemma DatesWritten(account: string, conv: string -> Option<real>, f: map<string, Value>)
    requires ToFloat(Get(f, "status", Int(0))).Some?
    ensures var ops := CardEffect(account, conv, Dict(f)).ops;
            var effective := Get(f, "effective_time", Null);
            var expire := Get(f, "expire_time", Null);
            && LastGauge(ops, Series(EffectiveTime, CardLabels(account, f))) == (if effective.Str? && effective.s != [] then conv(effective.s) else None)
            && LastGauge(ops, Series(ExpireTime, CardLabels(account, f))) == (if expire.Str? && expire.s != [] then conv(expire.s) else None)
  {
    DatesPiece(conv, ReadCard(account, f));
  }

  /** Every face value and balance written, over the whole response, is labelled `CNY`. */
  lemma CurrencyAlwaysCny(account: string, conv: string -> Option<real>, data: map<string, Value>)
    ensures All(ResponseEffect(account, conv, data).ops, CnyLabel)
  {
    ListAll(Get(data, ListKey, List([])), CardFn(account, conv), CnyLabel);
    var head := SetNumber(Series(TotalCount, [account]), Get(data, "total_count", Int(0)));
    if head.completed {
      AllConcat(head.ops, ListEffect(Get(data, ListKey, List([])), CardFn(account, conv)).ops, CnyLabel);
    }
  }
}
