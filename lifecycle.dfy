/**
 * Sequences of handler calls on one coupon store, and what the contracts of
 * the handlers let a caller conclude about them.
 */
module Lifecycle {
  import opened Wrappers
  import opened Coupons

  /** Using a code a second time fails, whatever the first attempt did, and whoever tries. */
  method UseTwice(store: CouponStore, code: string,
                  partnerId: Option<string>, staffName: Option<string>, now: int,
                  partnerId2: Option<string>, staffName2: Option<string>, later: int)
    returns (first: Result<UseReceipt, Error>, second: Result<UseReceipt, Error>)
    requires store.Valid()
    modifies store
    ensures store.Valid()
    ensures first.Ok? ==> second.Err?
    ensures first.Ok? && Present(partnerId2) && Present(staffName2) ==> second == Err(CouponAlreadyUsed)
    ensures first.Ok? ==> code in store.coupons && store.coupons[code].usedAt == Some(now)
                          && store.coupons[code].usedByPartnerId == partnerId
                          && store.coupons[code].usedByStaffName == staffName
  {
    first := store.Use(code, partnerId, staffName, now);
    second := store.Use(code, partnerId2, staffName2, later);
  }

  /**
   * After a successful use the row is final: a scan reports coupon_already_used
   * (or partner_mismatch for a foreign partner, which is checked first), a
   * second use fails, and the row, with its used_at and staff, stays as it was.
   */
  method UseThenScanThenUse(store: CouponStore, code: string, partnerId: Option<string>, staffName: Option<string>,
                            now: int, scanPartner: Option<string>, scanTime: int,
                            partnerId2: Option<string>, staffName2: Option<string>, later: int)
    returns (used: Result<UseReceipt, Error>, scanned: Result<ScanView, Error>, again: Result<UseReceipt, Error>)
    requires store.Valid()
    modifies store
    ensures used.Ok? ==> scanned in {Err(CouponAlreadyUsed), Err(PartnerMismatch)}
    ensures used.Ok? ==> again.Err?
    ensures used.Ok? ==> code in store.coupons && store.coupons[code].status == Used
                         && store.coupons[code].usedAt == Some(now)
                         && store.coupons[code].usedByStaffName == staffName
  {
    used := store.Use(code, partnerId, staffName, now);
    ghost var afterUse := store.coupons;
    scanned := store.Scan(code, scanPartner, scanTime);
    ghost var afterScan := store.coupons;
    again := store.Use(code, partnerId2, staffName2, later);
    EvolvesTransitive(afterUse, afterScan, store.coupons);
  }

  /** With a clock that does not go back, a coupon that a scan found expired keeps failing as expired. */
  method ScanAfterExpiry(store: CouponStore, code: string, partnerId: Option<string>, now: int, later: int)
    returns (first: Result<ScanView, Error>, second: Result<ScanView, Error>)
    requires store.Valid()
    requires now <= later
    modifies store
    ensures first == Err(CouponExpired) ==> second == Err(CouponExpired)
    ensures first == Err(CouponExpired) ==> code in store.coupons && store.coupons[code].status == Expired
  {
    first := store.Scan(code, partnerId, now);
    second := store.Scan(code, partnerId, later);
  }

  /** The use handler redeems a coupon that is cancelled or expired: the status is not checked beyond `used`. */
  method UseIgnoresCancellation(store: CouponStore, code: string, partnerId: string, staffName: string, now: int)
    returns (r: Result<UseReceipt, Error>)
    requires store.Valid()
    requires code in store.coupons && store.coupons[code].status in {Cancelled, Expired}
    requires partnerId != "" && staffName != ""
    modifies store
    ensures r.Ok? && code in store.coupons && store.coupons[code].status == Used
  {
    r := store.Use(code, Some(partnerId), Some(staffName), now);
  }

  /** The row of the scenario below right after issue: issued, for partner-7, valid until 200. */
  predicate FreshlyIssued(coupons: map<string, Coupon>, code: string) {
    code in coupons && coupons[code].status == Issued
    && coupons[code].partnerId == "partner-7" && coupons[code].validUntil == 200
  }

  /**
   * A reservation for two people and one product, issued into an empty store:
   * two coupons, both issued, for the product's partner, valid until check-out.
   */
  method IssueForTwo(qr: string -> string) returns (store: CouponStore, issued: Result<seq<Coupon>, Error>)
    ensures fresh(store) && store.Valid()
    ensures issued.Ok? && |issued.value| == 2
    ensures FreshlyIssued(store.coupons, "AAAAAAAAA") && FreshlyIssued(store.coupons, "BBBBBBBBB")
  {
    store := new CouponStore();
    var stay := Reservation("R1", "completed", 2, Some("Kim"), None, 100, 200);
    var kayak := Product("P1", "partner-7", "Kayak");
    var req := IssueRequest(Some("R1"), None, Some("pay-1"));
    issued := store.Issue(req, map["R1" := stay], [kayak], ["AAAAAAAAA", "BBBBBBBBB"], qr);
    IssuedAt(Batch("R1", None, stay, ["AAAAAAAAA", "BBBBBBBBB"], 0), qr, [kayak], 2, 0, 0);
    IssuedAt(Batch("R1", None, stay, ["AAAAAAAAA", "BBBBBBBBB"], 0), qr, [kayak], 2, 0, 1);
    InsertFresh(map[], issued.value);
  }

  /**
   * Continuing with the first coupon: scanning it puts it in use, using it
   * marks it used with its time, using it again fails.
   */
  method ScanUseUseAgain(store: CouponStore)
    requires store.Valid() && FreshlyIssued(store.coupons, "AAAAAAAAA")
    modifies store
  {
    var scanned := store.Scan("AAAAAAAAA", Some("partner-7"), 150);
    assert scanned.Ok? && scanned.value.status == InUse;
    assert store.coupons["AAAAAAAAA"].status == InUse;

    var used := store.Use("AAAAAAAAA", Some("partner-7"), Some("Lee"), 160);
    assert used == Ok(UseReceipt("AAAAAAAAA", Used, 160, "Lee"));
    assert store.coupons["AAAAAAAAA"].usedAt == Some(160);

    var usedAgain := store.Use("AAAAAAAAA", Some("partner-7"), Some("Lee"), 170);
    assert usedAgain == Err(CouponAlreadyUsed);
  }

  /** Continuing with the second coupon: a scan after check-out fails as expired and stores it as expired. */
  method ScanAfterCheckOut(store: CouponStore)
    requires store.Valid() && FreshlyIssued(store.coupons, "BBBBBBBBB")
    requires FreshlyIssued(store.coupons, "AAAAAAAAA")
    modifies store
    ensures store.Valid() && FreshlyIssued(store.coupons, "AAAAAAAAA")
  {
    var late := store.Scan("BBBBBBBBB", None, 201);
    assert late == Err(CouponExpired);
    assert store.coupons["BBBBBBBBB"].status == Expired;
  }

  /** The whole scenario for one two-person reservation. */
  method TwoPeopleOneProduct(qr: string -> string) {
    var store, issued := IssueForTwo(qr);
    ScanAfterCheckOut(store);
    ScanUseUseAgain(store);
  }
}
