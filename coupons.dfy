/**
 * The coupon lifecycle of the coupon router: issuing coupons for a paid
 * reservation, scanning a coupon at the venue, and marking it used.  The
 * coupon table is a map from coupon code to row, the usage log a sequence
 * that only grows; the reservation table, the product query, the clock, the
 * generated codes and the QR renderer are parameters.
 */
module Coupons {
  import opened Wrappers

  // ---------------------------------------------------------------------------
  // Data model
  // ---------------------------------------------------------------------------

  datatype Status = Issued | InUse | Used | Expired | Cancelled

  /** The `error` strings of the three handlers. */
  datatype Error =
    | InvalidInput          // invalid_input
    | ReservationNotFound   // reservation_not_found
    | PaymentNotCompleted   // payment_not_completed
    | NoProducts            // no_products
    | CouponNotFound        // coupon_not_found
    | PartnerMismatch       // partner_mismatch
    | CouponAlreadyUsed     // coupon_already_used
    | CouponCancelled       // coupon_cancelled
    | CouponExpired         // coupon_expired

  /** A row of the reservation table; dates are timestamps. */
  datatype Reservation = Reservation(
    id: string,
    paymentStatus: string,
    numPeople: int,
    customerName: Option<string>,
    customerPhone: Option<string>,
    checkIn: int,
    checkOut: int)

  /** A row of the leisure-product table (the query keeps only rows with a partner). */
  datatype Product = Product(id: string, partnerId: string, name: string)

  /** A row of the coupon table. */
  datatype Coupon = Coupon(
    id: nat,
    code: string,
    reservationId: string,
    customerId: Option<string>,
    productId: string,
    partnerId: string,
    qrData: string,
    customerName: string,
    customerPhone: string,
    status: Status,
    validFrom: int,
    validUntil: int,
    usedAt: Option<int>,
    usedByPartnerId: Option<string>,
    usedByStaffName: Option<string>)

  datatype Action = LogIssued | LogUsed

  /** A row of the usage log: issue entries name the partner, use entries the staff member. */
  datatype LogEntry = LogEntry(
    couponId: nat,
    action: Action,
    partnerId: string,
    partnerName: Option<string>,
    staffName: Option<string>)

  /** The body of an issue request; each field may be missing. */
  datatype IssueRequest = IssueRequest(
    reservationId: Option<string>,
    customerId: Option<string>,
    paymentKey: Option<string>)

  /** What a successful scan reports. */
  datatype ScanView = ScanView(
    id: nat,
    code: string,
    customerName: string,
    customerPhone: string,
    status: Status,
    validFrom: int,
    validUntil: int)

  /** What a successful use reports. */
  datatype UseReceipt = UseReceipt(code: string, status: Status, usedAt: int, usedByStaff: string)

  const PaymentCompleted: string := "completed"

  /** The customer name stored when the reservation has none. */
  const DefaultCustomerName: string := "고객"

  /** JavaScript truthiness of a string field: present and not empty. */
  predicate Present(v: Option<string>) {
    v.Some? && v.value != ""
  }

  /** `v || fallback` */
  function OrDefault(v: Option<string>, fallback: string): (s: string)
    ensures Present(v) ==> s == v.value
    ensures !Present(v) ==> s == fallback
  {
    if Present(v) then v.value else fallback
  }

  /** `v || null` */
  function OrNull(v: Option<string>): (o: Option<string>)
    ensures o.Some? <==> Present(v)
    ensures o.Some? ==> o == v
  {
    if Present(v) then v else None
  }

  /** How many times the inner loop `for (i = 0; i < num_people; i++)` runs. */
  function PeopleCount(r: Reservation): (n: nat)
    ensures r.numPeople >= 0 ==> n == r.numPeople
    ensures r.numPeople <= 0 ==> n == 0
  {
    if r.numPeople > 0 then r.numPeople else 0
  }

  /**
   * The fail-fast checks of POST /issue, in the order the handler makes them;
   * on success, the paid reservation the coupons are issued for.
   */
  function IssueValidation(req: IssueRequest, reservations: map<string, Reservation>, products: seq<Product>)
    : (v: Result<Reservation, Error>)
    ensures !Present(req.reservationId) || !Present(req.paymentKey) ==> v == Err(InvalidInput)
    ensures Present(req.reservationId) && Present(req.paymentKey) && req.reservationId.value !in reservations ==>
              v == Err(ReservationNotFound)
    ensures Present(req.reservationId) && Present(req.paymentKey) && req.reservationId.value in reservations &&
            reservations[req.reservationId.value].paymentStatus != PaymentCompleted ==>
              v == Err(PaymentNotCompleted)
    ensures Present(req.reservationId) && Present(req.paymentKey) && req.reservationId.value in reservations &&
            reservations[req.reservationId.value].paymentStatus == PaymentCompleted && products == [] ==>
              v == Err(NoProducts)
    ensures v.Ok? <==>
              && Present(req.reservationId) && Present(req.paymentKey) && req.reservationId.value in reservations
              && reservations[req.reservationId.value].paymentStatus == PaymentCompleted && products != []
    ensures v.Ok? ==> v.value == reservations[req.reservationId.value]
  {
    if !Present(req.reservationId) || !Present(req.paymentKey) then Err(InvalidInput)
    else if req.reservationId.value !in reservations then Err(ReservationNotFound)
    else if reservations[req.reservationId.value].paymentStatus != PaymentCompleted then Err(PaymentNotCompleted)
    else if products == [] then Err(NoProducts)
    else Ok(reservations[req.reservationId.value])
  }

  // ---------------------------------------------------------------------------
  // What a successful issue creates
  // ---------------------------------------------------------------------------

  /** One pass of the nested loop: a product and the number of the person within it. */
  datatype Slot = Slot(product: Product, person: nat)

  /** The passes of the nested loop in order: products outside, people inside. */
  function Units(products: seq<Product>, n: nat): (slots: seq<Slot>)
    ensures |slots| == |products| * n
  {
    if products == [] then []
    else seq(n, i requires 0 <= i => Slot(products[0], i)) + Units(products[1..], n)
  }

  /** Pass number p * n + i is person i of product p: the coupons come out product-major. */
  lemma {:induction false} UnitsAt(products: seq<Product>, n: nat, p: nat, i: nat)
    requires p < |products| && i < n
    ensures p * n + i < |Units(products, n)|
    ensures Units(products, n)[p * n + i] == Slot(products[p], i)
  {
    if p > 0 {
      UnitsAt(products[1..], n, p - 1, i);
      assert p * n + i == n + ((p - 1) * n + i);
    }
  }

  /** What one issue request fixes for all the coupons it creates. */
  datatype Batch = Batch(
    reservationId: string,
    customerId: Option<string>,
    reservation: Reservation,
    codes: seq<string>,
    firstId: nat)

  /** The k-th coupon an issue request inserts, for the product of its slot. */
  function Mint(b: Batch, qr: string -> string, slot: Slot, k: nat): Coupon
    requires k < |b.codes|
  {
    Coupon(
      id := b.firstId + k,
      code := b.codes[k],
      reservationId := b.reservationId,
      customerId := b.customerId,
      productId := slot.product.id,
      partnerId := slot.product.partnerId,
      qrData := qr(b.codes[k]),
      customerName := OrDefault(b.reservation.customerName, DefaultCustomerName),
      customerPhone := OrDefault(b.reservation.customerPhone, ""),
      status := Issued,
      validFrom := b.reservation.checkIn,
      validUntil := b.reservation.checkOut,
      usedAt := None,
      usedByPartnerId := None,
      usedByStaffName := None)
  }

  /** The coupons inserted for the given passes, in order. */
  function Minted(b: Batch, qr: string -> string, slots: seq<Slot>): seq<Coupon>
    requires |slots| <= |b.codes|
  {
    seq(|slots|, k requires 0 <= k < |slots| => Mint(b, qr, slots[k], k))
  }

  /** The `issued` log entries written for the given passes, in order. */
  function IssueLog(b: Batch, slots: seq<Slot>): seq<LogEntry> {
    seq(|slots|, k requires 0 <= k < |slots| =>
      LogEntry(b.firstId + k, LogIssued, slots[k].product.partnerId, Some(slots[k].product.name), None))
  }

  /** One more pass appends one coupon and one log entry. */
  lemma IssueStep(b: Batch, qr: string -> string, slots: seq<Slot>, k: nat)
    requires k < |slots| && k < |b.codes|
    ensures Minted(b, qr, slots[..k + 1]) == Minted(b, qr, slots[..k]) + [Mint(b, qr, slots[k], k)]
    ensures IssueLog(b, slots[..k + 1]) == IssueLog(b, slots[..k]) +
              [LogEntry(b.firstId + k, LogIssued, slots[k].product.partnerId, Some(slots[k].product.name), None)]
  {
  }

  /**
   * The coupon and the log entry of person i of product p: product p's
   * partner, the reservation's stay as validity window, status issued, the
   * defaulted customer fields, and a log entry naming that coupon's id and
   * the product's partner and name.
   */
  lemma IssuedAt(b: Batch, qr: string -> string, products: seq<Product>, n: nat, p: nat, i: nat)
    requires |products| * n <= |b.codes|
    requires p < |products| && i < n
    ensures var cs := Minted(b, qr, Units(products, n));
            var es := IssueLog(b, Units(products, n));
            var k := p * n + i;
            && |cs| == |es| == |products| * n && k < |cs|
            && cs[k].id == b.firstId + k && cs[k].code == b.codes[k]
            && cs[k].productId == products[p].id && cs[k].partnerId == products[p].partnerId
            && cs[k].status == Issued
            && cs[k].validFrom == b.reservation.checkIn && cs[k].validUntil == b.reservation.checkOut
            && cs[k].customerName == OrDefault(b.reservation.customerName, DefaultCustomerName)
            && cs[k].customerPhone == OrDefault(b.reservation.customerPhone, "")
            && cs[k].customerId == b.customerId
            && cs[k].usedAt.None? && cs[k].usedByPartnerId.None? && cs[k].usedByStaffName.None?
            && es[k] == LogEntry(cs[k].id, LogIssued, products[p].partnerId, Some(products[p].name), None)
  {
    UnitsAt(products, n, p, i);
  }

  /** The codes of a sequence of coupons, in order. */
  function CodesOf(cs: seq<Coupon>): (codes: seq<string>)
    ensures |codes| == |cs| && forall k :: 0 <= k < |cs| ==> codes[k] == cs[k].code
  {
    seq(|cs|, k requires 0 <= k < |cs| => cs[k].code)
  }

  /** The coupon table after inserting the rows of cs one after another. */
  function Insert(table: map<string, Coupon>, cs: seq<Coupon>): map<string, Coupon>
  {
    if cs == [] then table
    else Insert(table, cs[..|cs| - 1])[cs[|cs| - 1].code := cs[|cs| - 1]]
  }

  /**
   * The keys after an insert are the old ones and the new codes, and a row
   * whose code is not among the new ones is untouched.
   */
  lemma {:induction false} InsertKeys(table: map<string, Coupon>, cs: seq<Coupon>)
    ensures forall code :: code in Insert(table, cs) <==> code in table || code in CodesOf(cs)
    ensures forall code :: code in table && code !in CodesOf(cs) ==> Insert(table, cs)[code] == table[code]
  {
    if cs != [] {
      var init := cs[..|cs| - 1];
      InsertKeys(table, init);
      assert CodesOf(cs) == CodesOf(init) + [cs[|cs| - 1].code];
    }
  }

  /** No two coupons of the sequence share a code. */
  predicate DistinctCodes(cs: seq<Coupon>) {
    forall i, j :: 0 <= i < j < |cs| ==> cs[i].code != cs[j].code
  }

  /** Inserting coupons with distinct, new codes files each under its code and keeps every old row. */
  lemma {:induction false} InsertFresh(table: map<string, Coupon>, cs: seq<Coupon>)
    requires DistinctCodes(cs)
    requires forall k :: 0 <= k < |cs| ==> cs[k].code !in table
    ensures forall code :: code in table ==> code in Insert(table, cs) && Insert(table, cs)[code] == table[code]
    ensures forall k :: 0 <= k < |cs| ==> cs[k].code in Insert(table, cs) && Insert(table, cs)[cs[k].code] == cs[k]
  {
    if cs != [] {
      InsertFresh(table, cs[..|cs| - 1]);
    }
  }

  // ---------------------------------------------------------------------------
  // The lifecycle
  // ---------------------------------------------------------------------------

  /**
   * The status changes the three handlers can make: scan moves issued, in_use
   * and expired coupons to in_use or expired; use moves any coupon that is not
   * used to used.  Nothing moves a coupon to cancelled.
   */
  predicate CanStep(from: Status, to: Status) {
    || from == to
    || (from != Used && to == Used)
    || (from in {Issued, InUse, Expired} && to in {InUse, Expired})
  }

  /** Used is absorbing, nothing enters cancelled, and cancelled can only become used. */
  lemma CanStepShape(from: Status, to: Status)
    requires CanStep(from, to)
    ensures from == Used ==> to == Used
    ensures to == Cancelled ==> from == Cancelled
    ensures from == Cancelled ==> to in {Cancelled, Used}
  {
  }

  /**
   * How a coupon table may change under the handlers: rows are only added; a
   * row keeps its identity, owner and validity window; its status moves by
   * CanStep; and a used row never changes again.
   */
  ghost predicate Evolves(before: map<string, Coupon>, after: map<string, Coupon>) {
    && before.Keys <= after.Keys
    && forall code :: code in before ==>
         && after[code] == before[code].(status := after[code].status, usedAt := after[code].usedAt,
                                          usedByPartnerId := after[code].usedByPartnerId,
                                          usedByStaffName := after[code].usedByStaffName)
         && CanStep(before[code].status, after[code].status)
         && (before[code].status == Used ==> after[code] == before[code])
  }

  /** A sequence of handler calls evolves the table as one call does: used stays used across any run. */
  lemma EvolvesTransitive(a: map<string, Coupon>, b: map<string, Coupon>, c: map<string, Coupon>)
    requires Evolves(a, b) && Evolves(b, c)
    ensures Evolves(a, c)
  {
  }

  /** Inserting rows under new codes is an evolution of the table. */
  lemma EvolvesByInsert(table: map<string, Coupon>, cs: seq<Coupon>)
    requires DistinctCodes(cs)
    requires forall k :: 0 <= k < |cs| ==> cs[k].code !in table
    ensures Evolves(table, Insert(table, cs))
  {
    InsertFresh(table, cs);
  }

  /**
   * Each row is filed under its own code, ids are distinct and below the
   * counter, and every log entry names the id of a row of the table.
   */
  ghost predicate Consistent(table: map<string, Coupon>, log: seq<LogEntry>, nextId: nat) {
    && (forall code :: code in table ==> table[code].code == code && table[code].id < nextId)
    && (forall c1, c2 :: c1 in table && c2 in table && c1 != c2 ==> table[c1].id != table[c2].id)
    && (forall j :: 0 <= j < |log| ==> log[j].couponId < nextId)
    && (forall j :: 0 <= j < |log| ==> IdInTable(table, log[j].couponId))
  }

  /** Some row of the table carries this id. */
  ghost predicate IdInTable(table: map<string, Coupon>, id: nat) {
    exists c :: c in table && table[c].id == id
  }

  /**
   * Rewriting one row's status and use stamps, as scan and use do by id, keeps
   * the table consistent and is an evolution of it when the status moves by
   * CanStep and the row was not used.
   */
  lemma UpdateRow(table: map<string, Coupon>, log: seq<LogEntry>, nextId: nat, code: string, row: Coupon)
    requires Consistent(table, log, nextId) && code in table
    requires row == table[code].(status := row.status, usedAt := row.usedAt,
                                 usedByPartnerId := row.usedByPartnerId, usedByStaffName := row.usedByStaffName)
    requires CanStep(table[code].status, row.status) && table[code].status != Used
    ensures Consistent(table[code := row], log, nextId)
    ensures Evolves(table, table[code := row])
  {
    var t := table[code := row];
    forall j | 0 <= j < |log|
      ensures IdInTable(t, log[j].couponId)
    {
      assert IdInTable(table, log[j].couponId);
      var c :| c in table && table[c].id == log[j].couponId;
      assert c in t && t[c].id == table[c].id;
    }
  }

  /** The view a successful scan returns. */
  function ScanViewOf(c: Coupon): ScanView {
    ScanView(c.id, c.code, c.customerName, c.customerPhone, InUse, c.validFrom, c.validUntil)
  }

  /** The coupon table and usage log, with the counter that hands out coupon ids. */
  class CouponStore {
    var coupons: map<string, Coupon>
    var log: seq<LogEntry>
    var nextId: nat

    /** Each row is filed under its own code, ids are distinct and below the counter, and the log names only such ids. */
    ghost predicate Valid()
      reads this
    {
      Consistent(coupons, log, nextId)
    }

    constructor ()
      ensures Valid()
      ensures coupons == map[] && log == [] && nextId == 0
    {
      coupons, log, nextId := map[], [], 0;
    }

    /**
     * POST /issue.  codes are the codes generateCouponCode returns, in the
     * order it is called; qr renders a code as its QR data.
     */
    method Issue(req: IssueRequest, reservations: map<string, Reservation>, products: seq<Product>,
                 codes: seq<string>, qr: string -> string)
      returns (r: Result<seq<Coupon>, Error>)
      requires Valid()
      requires forall i, j :: 0 <= i < j < |codes| ==> codes[i] != codes[j]
      requires forall k :: 0 <= k < |codes| ==> codes[k] !in coupons
      requires Present(req.reservationId) && req.reservationId.value in reservations ==>
                 |products| * PeopleCount(reservations[req.reservationId.value]) <= |codes|
      modifies this
      ensures Valid()
      ensures IssueValidation(req, reservations, products).Err? ==>
                && r == Err(IssueValidation(req, reservations, products).error)
                && coupons == old(coupons) && log == old(log) && nextId == old(nextId)
      ensures IssueValidation(req, reservations, products).Ok? ==>
                && r.Ok?
                && var res := IssueValidation(req, reservations, products).value;
                   var b := Batch(req.reservationId.value, OrNull(req.customerId), res, codes, old(nextId));
                   var slots := Units(products, PeopleCount(res));
                   && r.value == Minted(b, qr, slots)
                   && coupons == Insert(old(coupons), r.value)
                   && log == old(log) + IssueLog(b, slots)
                   && nextId == old(nextId) + |slots|
      ensures Evolves(old(coupons), coupons)
    {
      var v := IssueValidation(req, reservations, products);
      if v.Err? {
        return Err(v.error);
      }
      var res := v.value;
      var b := Batch(req.reservationId.value, OrNull(req.customerId), res, codes, nextId);
      var issued := IssueAll(b, qr, products, PeopleCount(res), old(coupons), old(log));
      assert forall k :: 0 <= k < |issued| ==> issued[k].code == codes[k];
      InsertFresh(old(coupons), issued);
      EvolvesByInsert(old(coupons), issued);
      return Ok(issued);
    }

    /** The nested loop of POST /issue: for each product, the inner loop over the people. */
    method IssueAll(b: Batch, qr: string -> string, products: seq<Product>, n: nat,
                    ghost table0: map<string, Coupon>, ghost log0: seq<LogEntry>)
      returns (issued: seq<Coupon>)
      requires forall i, j :: 0 <= i < j < |b.codes| ==> b.codes[i] != b.codes[j]
      requires IssuedSoFar(b, qr, Units(products, n), [], table0, log0)
      modifies this
      ensures Valid()
      ensures issued == Minted(b, qr, Units(products, n))
      ensures coupons == Insert(table0, issued)
      ensures log == log0 + IssueLog(b, Units(products, n))
      ensures nextId == b.firstId + |issued|
    {
      ghost var slots := Units(products, n);
      issued := [];
      for p := 0 to |products|
        invariant |issued| == p * n
        invariant IssuedSoFar(b, qr, slots, issued, table0, log0)
      {
        issued := IssueForProduct(b, qr, products, n, p, issued, table0, log0);
      }
      AllPassesDone(b, qr, slots, issued, table0, log0);
    }

    /** Once every pass is made, the state is the whole batch inserted and logged. */
    lemma AllPassesDone(b: Batch, qr: string -> string, slots: seq<Slot>, issued: seq<Coupon>,
                        table0: map<string, Coupon>, log0: seq<LogEntry>)
      requires IssuedSoFar(b, qr, slots, issued, table0, log0) && |issued| == |slots|
      ensures Valid()
      ensures issued == Minted(b, qr, slots)
      ensures coupons == Insert(table0, issued)
      ensures log == log0 + IssueLog(b, slots)
      ensures nextId == b.firstId + |issued|
    {
      assert slots[..|issued|] == slots;
    }

    /** The state after the first |issued| passes of an issue request that began with table0 and log0. */
    ghost predicate IssuedSoFar(b: Batch, qr: string -> string, slots: seq<Slot>, issued: seq<Coupon>,
                                table0: map<string, Coupon>, log0: seq<LogEntry>)
      reads this
    {
      && |issued| <= |slots| <= |b.codes|
      && issued == Minted(b, qr, slots[..|issued|])
      && log == log0 + IssueLog(b, slots[..|issued|])
      && coupons == Insert(table0, issued)
      && nextId == b.firstId + |issued|
      && (forall k :: |issued| <= k < |b.codes| ==> b.codes[k] !in coupons)
      && Valid()
    }

    /** The inner loop of POST /issue: one coupon and one log entry per person, for product p. */
    method IssueForProduct(b: Batch, qr: string -> string, products: seq<Product>, n: nat, p: nat,
                           issued: seq<Coupon>, ghost table0: map<string, Coupon>, ghost log0: seq<LogEntry>)
      returns (issued': seq<Coupon>)
      requires p < |products| && |issued| == p * n
      requires forall i, j :: 0 <= i < j < |b.codes| ==> b.codes[i] != b.codes[j]
      requires IssuedSoFar(b, qr, Units(products, n), issued, table0, log0)
      modifies this
      ensures |issued'| == (p + 1) * n
      ensures IssuedSoFar(b, qr, Units(products, n), issued', table0, log0)
    {
      issued' := issued;
      for i := 0 to n
        invariant |issued'| == p * n + i
        invariant IssuedSoFar(b, qr, Units(products, n), issued', table0, log0)
      {
        UnitsAt(products, n, p, i);
        issued' := IssueUnit(b, qr, Units(products, n), products[p], issued', table0, log0);
      }
      assert |issued'| == (p + 1) * n;
    }

    /** One pass of the nested loop: insert the next coupon for the product, then its `issued` log entry. */
    method IssueUnit(b: Batch, qr: string -> string, ghost slots: seq<Slot>, product: Product,
                     issued: seq<Coupon>, ghost table0: map<string, Coupon>, ghost log0: seq<LogEntry>)
      returns (issued': seq<Coupon>)
      requires forall i, j :: 0 <= i < j < |b.codes| ==> b.codes[i] != b.codes[j]
      requires IssuedSoFar(b, qr, slots, issued, table0, log0)
      requires |issued| < |slots| && slots[|issued|].product == product
      modifies this
      ensures |issued'| == |issued| + 1
      ensures IssuedSoFar(b, qr, slots, issued', table0, log0)
    {
      var res := b.reservation;
      var k := |issued|;
      var code := b.codes[k];
      var coupon := Coupon(
        id := nextId,
        code := code,
        reservationId := b.reservationId,
        customerId := b.customerId,
        productId := product.id,
        partnerId := product.partnerId,
        qrData := qr(code),
        customerName := OrDefault(res.customerName, DefaultCustomerName),
        customerPhone := OrDefault(res.customerPhone, ""),
        status := Issued,
        validFrom := res.checkIn,
        validUntil := res.checkOut,
        usedAt := None,
        usedByPartnerId := None,
        usedByStaffName := None);
      var entry := LogEntry(coupon.id, LogIssued, product.partnerId, Some(product.name), None);
      assert coupon == Mint(b, qr, slots[k], k);
      IssueStep(b, qr, slots, k);
      Record(coupon, entry);
      issued' := issued + [coupon];
      assert issued'[..k] == issued;
      assert forall j :: k < j < |b.codes| ==> b.codes[j] !in coupons;
    }

    /** The two INSERTs of one pass: the coupon row under the next id, then its log entry. */
    method Record(coupon: Coupon, entry: LogEntry)
      requires Valid()
      requires coupon.code !in coupons && coupon.id == nextId && entry.couponId == nextId
      modifies this
      ensures Valid()
      ensures coupons == old(coupons)[coupon.code := coupon]
      ensures log == old(log) + [entry]
      ensures nextId == old(nextId) + 1
    {
      ghost var table0 := coupons;
      coupons := coupons[coupon.code := coupon];
      forall j | 0 <= j < |log|
        ensures IdInTable(coupons, log[j].couponId)
      {
        assert IdInTable(table0, log[j].couponId);
        var c :| c in table0 && table0[c].id == log[j].couponId;
        assert c in coupons && coupons[c] == table0[c];
      }
      assert coupon.code in coupons && coupons[coupon.code].id == entry.couponId;
      assert IdInTable(coupons, entry.couponId);
      log := log + [entry];
      nextId := nextId + 1;
    }

    /**
     * GET /:code, the scan at the venue: an error for an unknown code, a
     * foreign partner, a used or a cancelled coupon; past its validity the
     * coupon is stored as expired and the scan fails; otherwise it is stored
     * as in use.
     */
    method Scan(code: string, partnerId: Option<string>, now: int) returns (r: Result<ScanView, Error>)
      requires Valid()
      modifies this
      ensures Valid()
      ensures log == old(log) && nextId == old(nextId)
      ensures code !in old(coupons) ==> r == Err(CouponNotFound) && coupons == old(coupons)
      ensures code in old(coupons) ==>
                var c := old(coupons)[code];
                if Present(partnerId) && partnerId.value != c.partnerId then
                  r == Err(PartnerMismatch) && coupons == old(coupons)
                else if c.status == Used then
                  r == Err(CouponAlreadyUsed) && coupons == old(coupons)
                else if c.status == Cancelled then
                  r == Err(CouponCancelled) && coupons == old(coupons)
                else if now > c.validUntil then
                  r == Err(CouponExpired) && coupons == old(coupons)[code := c.(status := Expired)]
                else
                  r == Ok(ScanViewOf(c)) && coupons == old(coupons)[code := c.(status := InUse)]
      ensures Evolves(old(coupons), coupons)
    {
      if code !in coupons {
        return Err(CouponNotFound);
      }
      var coupon := coupons[code];
      if Present(partnerId) && coupon.partnerId != partnerId.value {
        return Err(PartnerMismatch);
      }
      if coupon.status == Used {
        return Err(CouponAlreadyUsed);
      }
      if coupon.status == Cancelled {
        return Err(CouponCancelled);
      }
      if now > coupon.validUntil {
        UpdateRow(coupons, log, nextId, code, coupon.(status := Expired));
        coupons := coupons[code := coupon.(status := Expired)];
        return Err(CouponExpired);
      }
      UpdateRow(coupons, log, nextId, code, coupon.(status := InUse));
      coupons := coupons[code := coupon.(status := InUse)];
      return Ok(ScanViewOf(coupon));
    }

    /**
     * POST /:code/use, the staff's entry check: partner and staff name are
     * required, the code must exist and the coupon must not be used already;
     * expiry, cancellation and the partner are not checked.
     */
    method Use(code: string, partnerId: Option<string>, staffName: Option<string>, now: int)
      returns (r: Result<UseReceipt, Error>)
      requires Valid()
      modifies this
      ensures Valid()
      ensures nextId == old(nextId)
      ensures !Present(partnerId) || !Present(staffName) ==>
                r == Err(InvalidInput) && coupons == old(coupons) && log == old(log)
      ensures Present(partnerId) && Present(staffName) && code !in old(coupons) ==>
                r == Err(CouponNotFound) && coupons == old(coupons) && log == old(log)
      ensures Present(partnerId) && Present(staffName) && code in old(coupons) ==>
                var c := old(coupons)[code];
                if c.status == Used then
                  r == Err(CouponAlreadyUsed) && coupons == old(coupons) && log == old(log)
                else
                  && r == Ok(UseReceipt(code, Used, now, staffName.value))
                  && coupons == old(coupons)[code := c.(status := Used, usedAt := Some(now),
                                                        usedByPartnerId := partnerId,
                                                        usedByStaffName := staffName)]
                  && log == old(log) + [LogEntry(c.id, LogUsed, partnerId.value, None, staffName)]
      ensures Evolves(old(coupons), coupons)
    {
      if !Present(partnerId) || !Present(staffName) {
        return Err(InvalidInput);
      }
      if code !in coupons {
        return Err(CouponNotFound);
      }
      var coupon := coupons[code];
      if coupon.status == Used {
        return Err(CouponAlreadyUsed);
      }
      var updated := coupon.(status := Used, usedAt := Some(now),
                             usedByPartnerId := partnerId, usedByStaffName := staffName);
      UpdateRow(coupons, log, nextId, code, updated);
      coupons := coupons[code := updated];
      log := log + [LogEntry(coupon.id, LogUsed, partnerId.value, None, staffName)];
      return Ok(UseReceipt(updated.code, updated.status, now, staffName.value));
    }
  }
}
