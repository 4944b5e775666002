# Coupon lifecycle of the leisure-coupon service, in Dafny

This project models the core of a coupon service for a leisure-activity
marketplace. A paid reservation gets one coupon per product per person. A
venue scans a coupon when the customer shows its QR code. Staff then mark it
used at the entry check. Every issue and every use is appended to a usage log.

The model has four modules:

- `Wrappers` (wrappers.dfy): `Option` and `Result`.
- `QrCode` (qr_code.dfy): the helpers of `src/utils/qrCode.js`. These are the
  9-symbol coupon-code generator, the padding and truncation of the encryption
  key, and the `iv:ciphertext` envelope that encryption writes and decryption
  splits. The envelope uses lower-case hex, as `Buffer.toString('hex')` writes
  it, and decodes it as `Buffer.from(s, 'hex')` reads it.
- `Coupons` (coupons.dfy): the three route handlers of `src/api/coupons.js`.
  They are methods of the class `CouponStore`, which holds the coupon table as
  a map from coupon code to row, the usage log as a sequence, and the counter
  that hands out row ids. `Issue` runs the fail-fast validation chain (the
  function `IssueValidation`), then the nested loop: products outside
  (`IssueAll`), people inside (`IssueForProduct`),
  one row and one log entry per pass (`IssueUnit`). `Issue` is specified by
  the functions `Units`, `Minted`, `IssueLog` and `Insert`, and those functions
  are characterised by lemmas. `Scan` and `Use` state their result and the
  new table and log for every branch. All three methods keep `Valid()`: every
  row is filed under its own code, ids are unique, and log entries name
  the id of a row in the table. All three also ensure `Evolves(old(coupons), coupons)`: rows
  are only added, a row's identity, owner and validity window never change,
  its status moves only along `CanStep`, and a used row is frozen.
- `Lifecycle` (lifecycle.dfy): sequences of handler calls and what their
  contracts let a caller conclude. It also plays through a two-person,
  one-product reservation from issue to expiry.

What the handlers do, as modelled:

- **Issue.** Errors are checked in this order: `invalid_input` (reservation
  id or payment key missing or empty), `reservation_not_found`,
  `payment_not_completed`, `no_products`. If all checks pass, issue succeeds.
- **Issue with nobody to serve.** `num_people` of 0 or less passes validation
  and succeeds with no coupons.
- **Scan.** Errors are checked in this order: `coupon_not_found`,
  `partner_mismatch` (only when a partner id is supplied), `coupon_already_used`,
  `coupon_cancelled`.
- **Scan past validity.** If `now > valid_until`, scan stores `expired` and
  fails with `coupon_expired`.
- **Scan otherwise.** Scan stores `in_use`. This happens again for a coupon
  already in use, and also for an `expired` coupon scanned while
  `now <= valid_until`. Scan never looks at `valid_from`.
- **Use.** Use requires a partner id and a staff name, then a known code, and
  then rejects only `used`. It does not check expiry, cancellation, or whether
  the partner owns the coupon.

Status changes and issue as the code makes them:

- `used`, `expired` and `cancelled` are not final states in the code. Use
  moves a cancelled or expired coupon to `used`
  (`Lifecycle.UseIgnoresCancellation`).
- Scan can move an `expired` row back to `in_use` if the clock reads at or
  before `valid_until`. `CanStep` records both of these transitions.
- Only `used` is absorbing (`Coupons.CanStepShape`), and nothing moves a
  coupon to `cancelled`.
- Issue is not atomic, and status changes are plain read-then-write, with no
  compare-and-swap. The model is sequential, and see "Left out" for partial
  issue.

## Model

| member | source | states |
|---|---|---|
| `QrCode.CharIndex` | src/utils/qrCode.js:13 | for a `Math.random` value in [0,1), `floor(r*36)` is a position in the 36-symbol alphabet (and the floor of r*36) |
| `QrCode.GenerateCouponCode` | src/utils/qrCode.js:9-16 | the code has exactly 9 characters, each in `A–Z0–9`; character i is the alphabet symbol chosen by draw i |
| `QrCode.EveryCodeIsGenerable` | src/utils/qrCode.js:10-14 | every 9-symbol string over the alphabet is produced by some nine draws, so no symbol is unreachable |
| `QrCode.PadEnd` | src/utils/qrCode.js:43 | `padEnd` with a one-character pad keeps the string as prefix and fills up to the target length with the pad; a string already long enough is unchanged |
| `QrCode.Substring` | src/utils/qrCode.js:43 | `substring(start, end)` with 0 <= start <= end is the slice between the clamped ends, never longer than the string |
| `QrCode.ConfiguredKey` | src/utils/qrCode.js:39 | `ENCRYPTION_KEY \|\| default`: a set, non-empty variable is used as is, otherwise the default; never empty |
| `QrCode.NormalizeKey` | src/utils/qrCode.js:43 | the normalised key has exactly 32 characters: a key of at most 32 followed by '0' padding, or the first 32 characters of a longer key |
| `QrCode.EncryptionKey` | src/utils/qrCode.js:61-65 | decryption derives its key by the same expression as encryption, a 32-character key |
| `QrCode.DefaultKeyIsTruncated` | src/utils/qrCode.js:39-43 | the default key has 34 characters and is cut to its first 32; an empty variable gives the same key as an unset one |
| `QrCode.HexEncode` | src/utils/qrCode.js:51 | hex output has two hex digits per byte |
| `QrCode.HexDecode` | src/utils/qrCode.js:69 | decoding yields at most one byte per two characters |
| `QrCode.HexRoundTrip` | src/utils/qrCode.js:69 | decoding the hex of any bytes gives back those bytes |
| `QrCode.Split` | src/utils/qrCode.js:68 | `split(':')` gives at least one part, no part contains ':', and there are two or more parts exactly when the text contains ':' |
| `QrCode.SplitAfterField` | src/utils/qrCode.js:68 | splitting `a + ':' + b`, with no ':' in a, gives a followed by the parts of b |
| `QrCode.SplitWhole` | src/utils/qrCode.js:68 | text without ':' splits into itself alone |
| `QrCode.JoinEnvelope` | src/utils/qrCode.js:51 | the envelope is the IV hex, one separator, and the cipher hex |
| `QrCode.SplitEnvelope` | src/utils/qrCode.js:68-70 | `parts[0]` and `parts[1]` exist exactly when the text contains ':' |
| `QrCode.EnvelopeRoundTrip` | src/utils/qrCode.js:68-70 | for hex fields, the split of the joined envelope is exactly `[ivHex, cipherHex]`, so decryption reads back the IV and ciphertext that encryption wrote |
| `QrCode.EncryptQRData` | src/utils/qrCode.js:38-52 | the output starts with the 32 hex digits of the 16-byte IV followed by ':' |
| `QrCode.DecryptQRData` | src/utils/qrCode.js:59-81 | a text without ':' fails |
| `QrCode.QRDataRoundTrip` | src/utils/qrCode.js:59-76 | whenever the cipher inverts under one key and IV, decrypting the output of encrypt returns the coupon code: both sides use the same key, IV and ciphertext bytes |
| `Coupons.OrDefault` | src/api/coupons.js:90-91 | `v \|\| fallback`: a missing or empty value is replaced by the fallback |
| `Coupons.OrNull` | src/api/coupons.js:86 | `customer_id \|\| null`: present exactly when the request gives a non-empty value |
| `Coupons.PeopleCount` | src/api/coupons.js:71 | the inner loop runs `num_people` times, and not at all for zero or a negative count |
| `Coupons.IssueValidation` | src/api/coupons.js:17-65 | the checks fail fast in the handler's order: a missing or empty reservation id or payment key gives `invalid_input`, an unknown reservation `reservation_not_found`, an unpaid one `payment_not_completed`, an empty product list `no_products`. Validation succeeds exactly when none applies, with the reservation found |
| `Coupons.Units` | src/api/coupons.js:70-71 | the nested loop makes exactly `|products| × num_people` passes |
| `Coupons.UnitsAt` | src/api/coupons.js:70-71 | pass number p·n+i is person i of product p: product-major order |
| `Coupons.IssuedAt` | src/api/coupons.js:75-107 | coupon p·n+i has the next id, the k-th code, product p's id and partner, status issued, valid from check-in until check-out, the customer name defaulting to '고객', phone to '' and no use stamps. Its log entry is `issued`, names that coupon's id, and carries product p's partner and name |
| `Coupons.InsertKeys` | src/api/coupons.js:75-96 | after inserting a batch, the table holds exactly the old codes and the new ones, and a row whose code is not new is untouched |
| `Coupons.InsertFresh` | src/api/coupons.js:75-96 | inserting rows with distinct new codes adds exactly those rows, each under its code, and keeps every existing row |
| `Coupons.CanStepShape` | src/api/coupons.js:170-187 | in the status relation of the handlers, `used` only steps to itself, nothing enters `cancelled`, and `cancelled` can only become `used` |
| `Coupons.EvolvesTransitive` | src/api/coupons.js:193-211 | any run of handler calls changes the table as one call may: statuses move along the relation and used rows stay frozen |
| `Coupons.CouponStore.Issue` | src/api/coupons.js:17-122 | when `IssueValidation` fails, its error is returned and the table, log and id counter are unchanged. When it succeeds, the result is the coupons `Minted` for the passes `Units(products, num_people)`. The table is the old one with them inserted, the log gains one `issued` entry per coupon in the same order, the counter advances by their number, and no existing row changes |
| `Coupons.CouponStore.IssueAll` | src/api/coupons.js:68-109 | the outer loop over the products makes exactly the coupons and log entries of all passes, in product-major order |
| `Coupons.CouponStore.IssueForProduct` | src/api/coupons.js:71-108 | the inner loop adds the n coupons and log entries of product p after the p·n already made |
| `Coupons.CouponStore.IssueUnit` | src/api/coupons.js:72-107 | one pass inserts the next minted coupon under its fresh code and appends its `issued` log entry |
| `Coupons.CouponStore.Record` | src/api/coupons.js:75-107 | the two inserts: the row under its code with the next id, then the log entry |
| `Coupons.CouponStore.Scan` | src/api/coupons.js:141-225 | not found, partner mismatch, used and cancelled fail in that order and change nothing. Past `valid_until` the row's status alone becomes `expired` and the scan fails with `coupon_expired`. Otherwise the status alone becomes `in_use`, also from `in_use`, and the view is returned. The log never changes |
| `Coupons.CouponStore.Use` | src/api/coupons.js:244-310 | missing partner or staff name fails before lookup, then an unknown code, then status `used`, all changing nothing. Otherwise the row, whatever its other status, becomes `used` with `used_at = now`, the partner and the staff name, exactly one `used` log entry is appended, and no other row changes |
| `Lifecycle.UseTwice` | src/api/coupons.js:272-279 | after a successful use, a second use of the same code fails, with `coupon_already_used` whenever its input is complete, and the first use's stamps remain |
| `Lifecycle.UseThenScanThenUse` | src/api/coupons.js:161-178 | after a successful use, a scan fails with `coupon_already_used` or `partner_mismatch`, a further use fails, and the row keeps status, `used_at` and staff |
| `Lifecycle.ScanAfterExpiry` | src/api/coupons.js:189-205 | with a clock that does not go back, a coupon once scanned as expired is stored as expired and scans as expired again |
| `Lifecycle.UseIgnoresCancellation` | src/api/coupons.js:272-289 | a cancelled or expired coupon is redeemed by use |
| `Lifecycle.IssueForTwo` | src/api/coupons.js:68-99 | a paid reservation for two people with one product issues two coupons, both `issued`, for the product's partner, valid until check-out |
| `Lifecycle.ScanAfterCheckOut` | src/api/coupons.js:190-205 | a scan after check-out fails as expired and leaves the other coupon issued |

## Left out

- Transport: Express routing, HTTP status codes, the JSON response bodies and the pg pool (`connect`/`release`). Each response becomes an error kind or a result value. The extra fields of error responses (`used_at`, `valid_until`) are not modelled.
- `server_error`: the catch blocks of all three handlers. Queries, QR rendering and inserts are taken to succeed. So a failure halfway through issue, which leaves the coupons inserted so far in the table, is not modelled.
- Concurrency: the read-then-write race between two requests on one coupon. The model is sequential, so it says nothing about two concurrent uses.
- Coupon-code collisions: the generator does not check uniqueness. `Issue` requires its codes to be distinct and absent from the table.
- The product query (`LIMIT 3` over products with a partner) is a placeholder. The product list is a parameter, and its length is not bounded.
- Randomness and the clock: the nine `Math.random` values and `new Date()` are parameters. Dates are integer timestamps, so date parsing and time zones are not modelled. If `valid_until` is stored as a date, it reads as the start of that day.
- QR rendering (`generateQRCode` and the `qrcode` library): `qr_data` is an arbitrary function of the code, passed to `Issue`.
- Cryptography: AES-256-CBC and `crypto.randomBytes` are parameters of `EncryptQRData` and `DecryptQRData`. The key is modelled as 32 characters. `Buffer.from` encodes it as UTF-8, so a non-ASCII key would give more than 32 bytes; that byte encoding is not modelled.
- QrCode.HexDecode: models `Buffer.from(s, 'hex')` as decoding digit pairs up to the first invalid pair. Node's exact treatment of malformed input is not otherwise modelled.
- Identifiers are strings: `reservation_id`, `payment_key`, `partner_id` and `staff_name` are strings, missing or empty being falsy. A numeric `0` and the type of the `partner_id` column are not modelled. Scan compares partner ids with `!==` as strings; the database schema is not part of this model.
- `staff_id` in the use request: read but never used by the handler, so it is not a parameter.
- `src/app.js` and `src/server.js`: health check, middleware, listening and signal handling are process plumbing.
