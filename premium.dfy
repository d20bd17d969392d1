/**
 * Premium status: the "premiumUser" entry of local storage that
 * `isPremium()` in js/pdf.js reads, and the two "message" listeners of
 * js/app.js that set it when the Android wrapper reports a purchase.
 */
module Premium {

  const PREMIUM_KEY := "premiumUser"
  const PURCHASE_METHOD_KEY := "purchaseMethod"
  const PURCHASE_DATE_KEY := "purchaseDate"
  const PURCHASE_COMPLETE := "PURCHASE_COMPLETE"
  const PREMIUM_UNLOCK := "premium_unlock"
  const PACKAGE_PRODUCT := "com.evansmunsha.invoicemaker.premium"

  /** Local storage: key -> stored string. */
  type Storage = map<string, string>

  /** `isPremium()`: the stored value is exactly the string "true". */
  predicate IsPremium(ls: Storage) {
    PREMIUM_KEY in ls && ls[PREMIUM_KEY] == "true"
  }

  /**
   * A message's `data` after `JSON.parse` of a string (or as sent):
   * text that does not parse (the listener's catch), a falsy or
   * non-object value, or an object with its `type` and `productId`
   * fields ("" when absent; neither listener can match "").
   */
  datatype Payload = Unparseable | NotObject | Obj(kind: string, productId: string)

  /** The first listener's test: a completed purchase of either premium product id. */
  predicate FirstAccepts(p: Payload) {
    p.Obj? && p.kind == PURCHASE_COMPLETE && (p.productId == PREMIUM_UNLOCK || p.productId == PACKAGE_PRODUCT)
  }

  /** The second listener's test: a completed purchase of "premium_unlock" only. */
  predicate SecondAccepts(p: Payload) {
    p.Obj? && p.kind == PURCHASE_COMPLETE && p.productId == PREMIUM_UNLOCK
  }

  /**
   * Every purchase the second listener accepts, the first does too; the
   * package-named product id is accepted by the first alone.
   */
  lemma SecondListenerNarrower(p: Payload)
    ensures SecondAccepts(p) ==> FirstAccepts(p)
    ensures FirstAccepts(p) && !SecondAccepts(p) <==> p == Obj(PURCHASE_COMPLETE, PACKAGE_PRODUCT)
  {
  }

  /** The runtime flag and local storage the listeners write. */
  class PremiumState {
    var isPremiumUser: bool
    var storage: Storage

    /**
     * A page load: local storage as stored, and the runtime flag off
     * whatever storage says, since monetization forces it to false.
     */
    constructor (stored: Storage)
      ensures storage == stored && !isPremiumUser
    {
      storage := stored;
      isPremiumUser := false;
    }

    /** The first listener: records premium status, the method "google_play" and the date. */
    method FirstListener(p: Payload, isoNow: string)
      modifies this
      ensures FirstAccepts(p) ==>
        && isPremiumUser
        && storage == old(storage)[PREMIUM_KEY := "true"][PURCHASE_METHOD_KEY := "google_play"][PURCHASE_DATE_KEY := isoNow]
      ensures !FirstAccepts(p) ==> isPremiumUser == old(isPremiumUser) && storage == old(storage)
    {
      if p.Obj? && p.kind == PURCHASE_COMPLETE {
        if p.productId == PREMIUM_UNLOCK || p.productId == PACKAGE_PRODUCT {
          storage := storage[PREMIUM_KEY := "true"];
          storage := storage[PURCHASE_METHOD_KEY := "google_play"];
          storage := storage[PURCHASE_DATE_KEY := isoNow];
          isPremiumUser := true;
        }
      }
    }

    /** The second listener: records premium status only. */
    method SecondListener(p: Payload)
      modifies this
      ensures SecondAccepts(p) ==> isPremiumUser && storage == old(storage)[PREMIUM_KEY := "true"]
      ensures !SecondAccepts(p) ==> isPremiumUser == old(isPremiumUser) && storage == old(storage)
    {
      if p.Obj? && p.kind == PURCHASE_COMPLETE && p.productId == PREMIUM_UNLOCK {
        storage := storage[PREMIUM_KEY := "true"];
        isPremiumUser := true;
      }
    }

    /**
     * One message reaches both listeners in the order they were added.
     * Afterwards premium is on exactly when it was on before or the
     * message was an accepted purchase; anything else changes nothing.
     */
    method OnMessage(p: Payload, isoNow: string)
      modifies this
      ensures IsPremium(storage) <==> IsPremium(old(storage)) || FirstAccepts(p)
      ensures FirstAccepts(p) ==>
        && isPremiumUser
        && storage == old(storage)[PREMIUM_KEY := "true"][PURCHASE_METHOD_KEY := "google_play"][PURCHASE_DATE_KEY := isoNow]
      ensures !FirstAccepts(p) ==> isPremiumUser == old(isPremiumUser) && storage == old(storage)
    {
      SecondListenerNarrower(p);
      FirstListener(p, isoNow);
      ghost var afterFirst := storage;
      SecondListener(p);
      if SecondAccepts(p) {
        assert storage == afterFirst by {
          assert afterFirst[PREMIUM_KEY] == "true";
        }
      }
    }
  }
}
