/**
 * helpers.go of the root package: the hand-written form builders for trade
 * and logistics requests. Each fills a fresh `url.Values` by a fixed
 * sequence of `Set` calls. That sequence is written down once as a table of
 * entries; each builder is proved to produce the form the table describes,
 * and the form is proved to hold every entry and nothing else.
 */
module RootHelpers {
  import opened GoStrings
  import opened Strconv
  import opened Sorting
  import opened NetUrl
  import opened Signer

  /** `ECPayTrade` of ecpay_trade.go (Go `int` fields are unbounded here). */
  datatype Trade = Trade(
    merchantID: Bytes, merchantTradeNo: Bytes, merchantTradeDate: Bytes, paymentType: Bytes,
    totalAmount: int, tradeDesc: Bytes, itemName: Bytes, returnURL: Bytes, choosePayment: Bytes,
    checkMacValue: Bytes, encryptType: int,
    storeID: Bytes, clientBackURL: Bytes, itemURL: Bytes, remark: Bytes, chooseSubPayment: Bytes,
    orderResultURL: Bytes, needExtraPaidInfo: Bytes, ignorePayment: Bytes, platformID: Bytes,
    customField1: Bytes, customField2: Bytes, customField3: Bytes, customField4: Bytes, language: Bytes)

  /** `ECPayLogistics` of ecpay_logistics.go. */
  datatype Logistics = Logistics(
    merchantID: Bytes, merchantTradeNo: Bytes, merchantTradeDate: Bytes, logisticsType: Bytes,
    logisticsSubType: Bytes, goodsAmount: int, collectionAmount: int, isCollection: Bytes,
    goodsName: Bytes, senderName: Bytes, senderPhone: Bytes, senderCellPhone: Bytes,
    receiverName: Bytes, receiverPhone: Bytes, receiverCellPhone: Bytes, receiverEmail: Bytes,
    receiverStoreID: Bytes, returnStoreID: Bytes, tradeDesc: Bytes, serverReplyURL: Bytes,
    clientReplyURL: Bytes, remark: Bytes, platformID: Bytes, checkMacValue: Bytes,
    rtnCode: Bytes, rtnMsg: Bytes, allPayLogisticsID: Bytes, updateStatusDate: Bytes,
    receiverAddress: Bytes, cvsPaymentNo: Bytes, cvsValidationNo: Bytes, bookingNote: Bytes)

  // The form keys the builders write (`CheckMacKey` is the signer's).
  const MerchantIDKey: Bytes := "MerchantID"
  const MerchantTradeNoKey: Bytes := "MerchantTradeNo"
  const MerchantTradeDateKey: Bytes := "MerchantTradeDate"
  const PaymentTypeKey: Bytes := "PaymentType"
  const TotalAmountKey: Bytes := "TotalAmount"
  const TradeDescKey: Bytes := "TradeDesc"
  const ItemNameKey: Bytes := "ItemName"
  const ReturnURLKey: Bytes := "ReturnURL"
  const ChoosePaymentKey: Bytes := "ChoosePayment"
  const EncryptTypeKey: Bytes := "EncryptType"
  const StoreIDKey: Bytes := "StoreID"
  const ClientBackURLKey: Bytes := "ClientBackURL"
  const ItemURLKey: Bytes := "ItemURL"
  const RemarkKey: Bytes := "Remark"
  const ChooseSubPaymentKey: Bytes := "ChooseSubPayment"
  const OrderResultURLKey: Bytes := "OrderResultURL"
  const NeedExtraPaidInfoKey: Bytes := "NeedExtraPaidInfo"
  const IgnorePaymentKey: Bytes := "IgnorePayment"
  const PlatformIDKey: Bytes := "PlatformID"
  const CustomField1Key: Bytes := "CustomField1"
  const CustomField2Key: Bytes := "CustomField2"
  const CustomField3Key: Bytes := "CustomField3"
  const CustomField4Key: Bytes := "CustomField4"
  const LanguageKey: Bytes := "Language"
  const LogisticsTypeKey: Bytes := "LogisticsType"
  const LogisticsSubTypeKey: Bytes := "LogisticsSubType"
  const GoodsAmountKey: Bytes := "GoodsAmount"
  const CollectionAmountKey: Bytes := "CollectionAmount"
  const IsCollectionKey: Bytes := "IsCollection"
  const GoodsNameKey: Bytes := "GoodsName"
  const SenderNameKey: Bytes := "SenderName"
  const SenderPhoneKey: Bytes := "SenderPhone"
  const SenderCellPhoneKey: Bytes := "SenderCellPhone"
  const ReceiverNameKey: Bytes := "ReceiverName"
  const ReceiverPhoneKey: Bytes := "ReceiverPhone"
  const ReceiverCellPhoneKey: Bytes := "ReceiverCellPhone"
  const ReceiverEmailKey: Bytes := "ReceiverEmail"
  const ReceiverStoreIDKey: Bytes := "ReceiverStoreID"
  const ReturnStoreIDKey: Bytes := "ReturnStoreID"
  const ServerReplyURLKey: Bytes := "ServerReplyURL"
  const ClientReplyURLKey: Bytes := "ClientReplyURL"
  const RtnCodeKey: Bytes := "RtnCode"
  const RtnMsgKey: Bytes := "RtnMsg"
  const AllPayLogisticsIDKey: Bytes := "AllPayLogisticsID"
  const UpdateStatusDateKey: Bytes := "UpdateStatusDate"
  const ReceiverAddressKey: Bytes := "ReceiverAddress"
  const CVSPaymentNoKey: Bytes := "CVSPaymentNo"
  const CVSValidationNoKey: Bytes := "CVSValidationNo"
  const BookingNoteKey: Bytes := "BookingNote"

  /**
   * One write of a builder: the key, the text written under it, and whether
   * the write is guarded by `text != ""`.
   */
  datatype Entry = Entry(key: Bytes, text: Bytes, optional: bool)

  function KeysOf(entries: seq<Entry>): (keys: seq<Bytes>)
    ensures |keys| == |entries|
    ensures forall i | 0 <= i < |entries| :: keys[i] == entries[i].key
  {
    seq(|entries|, i requires 0 <= i < |entries| => entries[i].key)
  }

  /** What `if value != "" { form.Set(key, value) }` leaves in a form. */
  function WithOptional(values: Values, key: Bytes, value: Bytes): Values {
    if value == [] then values else values[key := [value]]
  }

  /** The form after one more write. */
  function Apply(values: Values, e: Entry): Values {
    if e.optional then WithOptional(values, e.key, e.text) else values[e.key := [e.text]]
  }

  /** The form that the writes `entries`, in order, leave in an empty form. */
  function Fill(entries: seq<Entry>): Values {
    if entries == [] then map[] else Apply(Fill(entries[..|entries| - 1]), entries[|entries| - 1])
  }

  /** The form holds what `e` promises: its one text, or nothing for an empty optional write. */
  ghost predicate Carries(values: Values, e: Entry) {
    if e.optional && e.text == [] then e.key !in values else e.key in values && values[e.key] == [e.text]
  }

  /** Only the keys of the entries are in the form. */
  lemma {:induction false} FillKeys(entries: seq<Entry>)
    ensures forall k | k in Fill(entries) :: k in KeysOf(entries)
  {
    if entries != [] {
      var init := entries[..|entries| - 1];
      FillKeys(init);
      forall k | k in KeysOf(init) ensures k in KeysOf(entries) {
        var j :| 0 <= j < |init| && KeysOf(init)[j] == k;
        assert KeysOf(entries)[j] == k;
      }
      assert KeysOf(entries)[|entries| - 1] == entries[|entries| - 1].key;
    }
  }

  /** With pairwise distinct keys, the form carries every entry. */
  lemma {:induction false} FillCarries(entries: seq<Entry>)
    requires Distinct(KeysOf(entries))
    ensures forall e | e in entries :: Carries(Fill(entries), e)
  {
    if entries != [] {
      var n := |entries| - 1;
      var init := entries[..n];
      var last := entries[n];
      assert Distinct(KeysOf(init)) by {
        forall i, j | 0 <= i < j < |init| ensures KeysOf(init)[i] != KeysOf(init)[j] {
          assert KeysOf(entries)[i] != KeysOf(entries)[j];
        }
      }
      FillCarries(init);
      FillKeys(init);
      forall j | 0 <= j < |init| ensures KeysOf(init)[j] != last.key {
        assert KeysOf(entries)[j] != KeysOf(entries)[n];
      }
      assert last.key !in Fill(init);
      forall e | e in entries ensures Carries(Fill(entries), e) {
        if e != last {
          var j :| 0 <= j < n && entries[j] == e;
          assert e in init;
          assert KeysOf(entries)[j] != KeysOf(entries)[n];
        }
      }
    }
  }

  /** `form.Set(key, text)`, as the next write after `done`. */
  method Put(form: Form, key: Bytes, text: Bytes, ghost done: seq<Entry>) returns (ghost done': seq<Entry>)
    requires form.entries == Fill(done)
    modifies form
    ensures done' == done + [Entry(key, text, false)]
    ensures form.entries == Fill(done')
  {
    form.Set(key, text);
    done' := done + [Entry(key, text, false)];
    assert done'[..|done'| - 1] == done;
  }

  /** `if text != "" { form.Set(key, text) }`, as the next write after `done`. */
  method PutOptional(form: Form, key: Bytes, text: Bytes, ghost done: seq<Entry>) returns (ghost done': seq<Entry>)
    requires form.entries == Fill(done)
    modifies form
    ensures done' == done + [Entry(key, text, true)]
    ensures form.entries == Fill(done')
  {
    if text != [] {
      form.Set(key, text);
    }
    done' := done + [Entry(key, text, true)];
    assert done'[..|done'| - 1] == done;
  }

  /**
   * The writes of `tradeToFormValues`, in source order: ten unconditional
   * ones (the two counts through `strconv.Itoa`) and fourteen guarded by a
   * non-empty field.
   */
  function TradeEntries(t: Trade): seq<Entry> {
    []
    + [Entry(MerchantIDKey, t.merchantID, false)]
    + [Entry(MerchantTradeNoKey, t.merchantTradeNo, false)]
    + [Entry(MerchantTradeDateKey, t.merchantTradeDate, false)]
    + [Entry(PaymentTypeKey, t.paymentType, false)]
    + [Entry(TotalAmountKey, FormatInt(t.totalAmount), false)]
    + [Entry(TradeDescKey, t.tradeDesc, false)]
    + [Entry(ItemNameKey, t.itemName, false)]
    + [Entry(ReturnURLKey, t.returnURL, false)]
    + [Entry(ChoosePaymentKey, t.choosePayment, false)]
    + [Entry(EncryptTypeKey, FormatInt(t.encryptType), false)]
    + [Entry(StoreIDKey, t.storeID, true)]
    + [Entry(ClientBackURLKey, t.clientBackURL, true)]
    + [Entry(ItemURLKey, t.itemURL, true)]
    + [Entry(RemarkKey, t.remark, true)]
    + [Entry(ChooseSubPaymentKey, t.chooseSubPayment, true)]
    + [Entry(OrderResultURLKey, t.orderResultURL, true)]
    + [Entry(NeedExtraPaidInfoKey, t.needExtraPaidInfo, true)]
    + [Entry(IgnorePaymentKey, t.ignorePayment, true)]
    + [Entry(PlatformIDKey, t.platformID, true)]
    + [Entry(CustomField1Key, t.customField1, true)]
    + [Entry(CustomField2Key, t.customField2, true)]
    + [Entry(CustomField3Key, t.customField3, true)]
    + [Entry(CustomField4Key, t.customField4, true)]
    + [Entry(LanguageKey, t.language, true)]
  }

  /** The keys of `TradeEntries`, in the same order. */
  const TradeKeys: seq<Bytes> := [
    MerchantIDKey, MerchantTradeNoKey, MerchantTradeDateKey, PaymentTypeKey, TotalAmountKey,
    TradeDescKey, ItemNameKey, ReturnURLKey, ChoosePaymentKey, EncryptTypeKey, StoreIDKey,
    ClientBackURLKey, ItemURLKey, RemarkKey, ChooseSubPaymentKey, OrderResultURLKey,
    NeedExtraPaidInfoKey, IgnorePaymentKey, PlatformIDKey, CustomField1Key, CustomField2Key,
    CustomField3Key, CustomField4Key, LanguageKey
  ]

  /** The writes of `logisticsToFormValues`: all 32 fields, unconditionally. */
  function LogisticsEntries(l: Logistics): seq<Entry> {
    []
    + [Entry(MerchantIDKey, l.merchantID, false)]
    + [Entry(MerchantTradeNoKey, l.merchantTradeNo, false)]
    + [Entry(MerchantTradeDateKey, l.merchantTradeDate, false)]
    + [Entry(LogisticsTypeKey, l.logisticsType, false)]
    + [Entry(LogisticsSubTypeKey, l.logisticsSubType, false)]
    + [Entry(GoodsAmountKey, FormatInt(l.goodsAmount), false)]
    + [Entry(CollectionAmountKey, FormatInt(l.collectionAmount), false)]
    + [Entry(IsCollectionKey, l.isCollection, false)]
    + [Entry(GoodsNameKey, l.goodsName, false)]
    + [Entry(SenderNameKey, l.senderName, false)]
    + [Entry(SenderPhoneKey, l.senderPhone, false)]
    + [Entry(SenderCellPhoneKey, l.senderCellPhone, false)]
    + [Entry(ReceiverNameKey, l.receiverName, false)]
    + [Entry(ReceiverPhoneKey, l.receiverPhone, false)]
    + [Entry(ReceiverCellPhoneKey, l.receiverCellPhone, false)]
    + [Entry(ReceiverEmailKey, l.receiverEmail, false)]
    + [Entry(ReceiverStoreIDKey, l.receiverStoreID, false)]
    + [Entry(ReturnStoreIDKey, l.returnStoreID, false)]
    + [Entry(TradeDescKey, l.tradeDesc, false)]
    + [Entry(ServerReplyURLKey, l.serverReplyURL, false)]
    + [Entry(ClientReplyURLKey, l.clientReplyURL, false)]
    + [Entry(RemarkKey, l.remark, false)]
    + [Entry(PlatformIDKey, l.platformID, false)]
    + [Entry(CheckMacKey, l.checkMacValue, false)]
    + [Entry(RtnCodeKey, l.rtnCode, false)]
    + [Entry(RtnMsgKey, l.rtnMsg, false)]
    + [Entry(AllPayLogisticsIDKey, l.allPayLogisticsID, false)]
    + [Entry(UpdateStatusDateKey, l.updateStatusDate, false)]
    + [Entry(ReceiverAddressKey, l.receiverAddress, false)]
    + [Entry(CVSPaymentNoKey, l.cvsPaymentNo, false)]
    + [Entry(CVSValidationNoKey, l.cvsValidationNo, false)]
    + [Entry(BookingNoteKey, l.bookingNote, false)]
  }

  /** The keys of `LogisticsEntries`, in the same order. */
  const LogisticsKeys: seq<Bytes> := [
    MerchantIDKey, MerchantTradeNoKey, MerchantTradeDateKey, LogisticsTypeKey,
    LogisticsSubTypeKey, GoodsAmountKey, CollectionAmountKey, IsCollectionKey, GoodsNameKey,
    SenderNameKey, SenderPhoneKey, SenderCellPhoneKey, ReceiverNameKey, ReceiverPhoneKey,
    ReceiverCellPhoneKey, ReceiverEmailKey, ReceiverStoreIDKey, ReturnStoreIDKey, TradeDescKey,
    ServerReplyURLKey, ClientReplyURLKey, RemarkKey, PlatformIDKey, CheckMacKey, RtnCodeKey,
    RtnMsgKey, AllPayLogisticsIDKey, UpdateStatusDateKey, ReceiverAddressKey, CVSPaymentNoKey,
    CVSValidationNoKey, BookingNoteKey
  ]

  lemma TradeKeysOf(t: Trade)
    ensures KeysOf(TradeEntries(t)) == TradeKeys
  {
  }

  lemma TradeKeysDistinct()
    ensures Distinct(TradeKeys)
    ensures CheckMacKey !in TradeKeys
  {
  }

  lemma LogisticsKeysOfPart1(l: Logistics)
    ensures forall i | 0 <= i < 8 :: LogisticsEntries(l)[i].key == LogisticsKeys[i] && !LogisticsEntries(l)[i].optional
  {
  }

  lemma LogisticsKeysOfPart2(l: Logistics)
    ensures forall i | 8 <= i < 16 :: LogisticsEntries(l)[i].key == LogisticsKeys[i] && !LogisticsEntries(l)[i].optional
  {
  }

  lemma LogisticsKeysOfPart3(l: Logistics)
    ensures forall i | 16 <= i < 24 :: LogisticsEntries(l)[i].key == LogisticsKeys[i] && !LogisticsEntries(l)[i].optional
  {
  }

  lemma LogisticsKeysOfPart4(l: Logistics)
    ensures forall i | 24 <= i < 32 :: LogisticsEntries(l)[i].key == LogisticsKeys[i] && !LogisticsEntries(l)[i].optional
  {
  }

  lemma LogisticsKeysOf(l: Logistics)
    ensures KeysOf(LogisticsEntries(l)) == LogisticsKeys
    ensures forall i | 0 <= i < |LogisticsEntries(l)| :: !LogisticsEntries(l)[i].optional
  {
    LogisticsKeysOfPart1(l);
    LogisticsKeysOfPart2(l);
    LogisticsKeysOfPart3(l);
    LogisticsKeysOfPart4(l);
  }

  lemma LogisticsKeysDistinct()
    ensures Distinct(LogisticsKeys)
  {
    LogisticsKeysDistinctLow();
    LogisticsKeysDistinctAcross();
    LogisticsKeysDistinctHigh();
  }

  lemma LogisticsKeysDistinctLow()
    ensures forall i, j | 0 <= i < j < 16 :: LogisticsKeys[i] != LogisticsKeys[j]
  {
  }

  lemma LogisticsKeysDistinctAcross()
    ensures forall i, j | 0 <= i < 16 <= j < 32 :: LogisticsKeys[i] != LogisticsKeys[j]
  {
  }

  lemma LogisticsKeysDistinctHigh()
    ensures forall i, j | 16 <= i < j < 32 :: LogisticsKeys[i] != LogisticsKeys[j]
  {
  }

  /**
   * The trade form holds every unconditional key, even with an empty text,
   * and every optional key exactly when its field is not empty, each with
   * the one text of its field; it holds no other key, so never
   * `CheckMacValue`.
   */
  lemma TradeForm(t: Trade)
    ensures forall e | e in TradeEntries(t) :: Carries(Fill(TradeEntries(t)), e)
    ensures forall k | k in Fill(TradeEntries(t)) :: k in TradeKeys
    ensures CheckMacKey !in Fill(TradeEntries(t))
  {
    TradeKeysOf(t);
    TradeKeysDistinct();
    FillKeys(TradeEntries(t));
    FillCarries(TradeEntries(t));
  }

  /**
   * The logistics form holds exactly the 32 keys, each with the one text of
   * its field; `CheckMacValue` carries whatever the struct's field holds.
   */
  lemma LogisticsForm(l: Logistics)
    ensures forall e | e in LogisticsEntries(l) :: Carries(Fill(LogisticsEntries(l)), e)
    ensures Fill(LogisticsEntries(l)).Keys == set k | k in LogisticsKeys
    ensures Fill(LogisticsEntries(l))[CheckMacKey] == [l.checkMacValue]
  {
    var es := LogisticsEntries(l);
    LogisticsKeysOf(l);
    LogisticsKeysDistinct();
    FillKeys(es);
    FillCarries(es);
    forall k | k in LogisticsKeys ensures k in Fill(es) {
      var j :| 0 <= j < |LogisticsKeys| && LogisticsKeys[j] == k;
      assert KeysOf(es)[j] == es[j].key && !es[j].optional;
      assert Carries(Fill(es), es[j]);
    }
    assert Carries(Fill(es), Entry(CheckMacKey, l.checkMacValue, false));
  }


  /** `tradeToFormValues`: the form of `TradeEntries`, whose content `TradeForm` states. */
  method TradeToFormValues(trade: Trade) returns (values: Values)
    ensures values == Fill(TradeEntries(trade))
  {
    var formData := new Form();
    ghost var done := [];
    done := Put(formData, MerchantIDKey, trade.merchantID, done);
    done := Put(formData, MerchantTradeNoKey, trade.merchantTradeNo, done);
    done := Put(formData, MerchantTradeDateKey, trade.merchantTradeDate, done);
    done := Put(formData, PaymentTypeKey, trade.paymentType, done);
    done := Put(formData, TotalAmountKey, FormatInt(trade.totalAmount), done);
    done := Put(formData, TradeDescKey, trade.tradeDesc, done);
    done := Put(formData, ItemNameKey, trade.itemName, done);
    done := Put(formData, ReturnURLKey, trade.returnURL, done);
    done := Put(formData, ChoosePaymentKey, trade.choosePayment, done);
    done := Put(formData, EncryptTypeKey, FormatInt(trade.encryptType), done);
    done := PutOptional(formData, StoreIDKey, trade.storeID, done);
    done := PutOptional(formData, ClientBackURLKey, trade.clientBackURL, done);
    done := PutOptional(formData, ItemURLKey, trade.itemURL, done);
    done := PutOptional(formData, RemarkKey, trade.remark, done);
    done := PutOptional(formData, ChooseSubPaymentKey, trade.chooseSubPayment, done);
    done := PutOptional(formData, OrderResultURLKey, trade.orderResultURL, done);
    done := PutOptional(formData, NeedExtraPaidInfoKey, trade.needExtraPaidInfo, done);
    done := PutOptional(formData, IgnorePaymentKey, trade.ignorePayment, done);
    done := PutOptional(formData, PlatformIDKey, trade.platformID, done);
    done := PutOptional(formData, CustomField1Key, trade.customField1, done);
    done := PutOptional(formData, CustomField2Key, trade.customField2, done);
    done := PutOptional(formData, CustomField3Key, trade.customField3, done);
    done := PutOptional(formData, CustomField4Key, trade.customField4, done);
    done := PutOptional(formData, LanguageKey, trade.language, done);
    values := formData.entries;
  }

  /** `logisticsToFormValues`: the form of `LogisticsEntries`, whose content `LogisticsForm` states. */
  method LogisticsToFormValues(logistics: Logistics) returns (values: Values)
    ensures values == Fill(LogisticsEntries(logistics))
  {
    var formData := new Form();
    ghost var done := [];
    done := Put(formData, MerchantIDKey, logistics.merchantID, done);
    done := Put(formData, MerchantTradeNoKey, logistics.merchantTradeNo, done);
    done := Put(formData, MerchantTradeDateKey, logistics.merchantTradeDate, done);
    done := Put(formData, LogisticsTypeKey, logistics.logisticsType, done);
    done := Put(formData, LogisticsSubTypeKey, logistics.logisticsSubType, done);
    done := Put(formData, GoodsAmountKey, FormatInt(logistics.goodsAmount), done);
    done := Put(formData, CollectionAmountKey, FormatInt(logistics.collectionAmount), done);
    done := Put(formData, IsCollectionKey, logistics.isCollection, done);
    done := Put(formData, GoodsNameKey, logistics.goodsName, done);
    done := Put(formData, SenderNameKey, logistics.senderName, done);
    done := Put(formData, SenderPhoneKey, logistics.senderPhone, done);
    done := Put(formData, SenderCellPhoneKey, logistics.senderCellPhone, done);
    done := Put(formData, ReceiverNameKey, logistics.receiverName, done);
    done := Put(formData, ReceiverPhoneKey, logistics.receiverPhone, done);
    done := Put(formData, ReceiverCellPhoneKey, logistics.receiverCellPhone, done);
    done := Put(formData, ReceiverEmailKey, logistics.receiverEmail, done);
    done := Put(formData, ReceiverStoreIDKey, logistics.receiverStoreID, done);
    done := Put(formData, ReturnStoreIDKey, logistics.returnStoreID, done);
    done := Put(formData, TradeDescKey, logistics.tradeDesc, done);
    done := Put(formData, ServerReplyURLKey, logistics.serverReplyURL, done);
    done := Put(formData, ClientReplyURLKey, logistics.clientReplyURL, done);
    done := Put(formData, RemarkKey, logistics.remark, done);
    done := Put(formData, PlatformIDKey, logistics.platformID, done);
    done := Put(formData, CheckMacKey, logistics.checkMacValue, done);
    done := Put(formData, RtnCodeKey, logistics.rtnCode, done);
    done := Put(formData, RtnMsgKey, logistics.rtnMsg, done);
    done := Put(formData, AllPayLogisticsIDKey, logistics.allPayLogisticsID, done);
    done := Put(formData, UpdateStatusDateKey, logistics.updateStatusDate, done);
    done := Put(formData, ReceiverAddressKey, logistics.receiverAddress, done);
    done := Put(formData, CVSPaymentNoKey, logistics.cvsPaymentNo, done);
    done := Put(formData, CVSValidationNoKey, logistics.cvsValidationNo, done);
    done := Put(formData, BookingNoteKey, logistics.bookingNote, done);
    values := formData.entries;
  }
}
