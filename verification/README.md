# Astrorekha checkout funnel in Dafny

This project models the logic inside the astrorekha Next.js checkout
funnel: the client entitlement store, the price lookups, the two payment
gateways (PayU and Razorpay) with their hash pre-images and the shared
fulfilment merge, the promo-code validator, the A/B-testing endpoints, the
admin revenue dashboard, the zodiac date arithmetic, and the one-time-code
login and password reset. Each request handler is a pure function. It takes
the stored tables as immutable values and returns its answer together with
the tables it leaves behind. Time is an integer number of milliseconds.
Random draws are explicit `real` inputs. Digests (SHA-512, HMAC-SHA256,
bcrypt) are function parameters, so a lemma can say which string is hashed
without knowing how. Money is counted in integer paise.

One module per source file, plus shared modules:

- `Common`: `Option`, `Outcome` (an answer or an HTTP status with its
  message), and JavaScript truthiness of optional values.
- `JsText`: the JavaScript string built-ins the handlers use. This covers
  `trim`, ASCII case mapping, `parseInt`, decimal rendering, `|`-joining,
  `slice(-n)`, `split("T")[0]` and code-unit ordering.
- `Store`: the `users` and `payments` rows.
- `Fulfilment`: the merge that both verify handlers contain, defined once.
- `AbStore`: the A/B tables and the configuration update that two
  endpoints share.
- `OtpCodes`: the `otp_codes` table and the address normalisation that
  both auth routes share.

Behaviour the proofs exhibit, all as the code is written:

- The PayU response hash is computed but a mismatch changes nothing
  (`PayuVerify.HashIsIgnored`).
- Replaying a successful payment callback leaves the features as they
  were but credits the coins again (`Fulfilment.ReplayCreditsTwice`).
- A server sync replaces the local flags, so it can lock a feature that
  was unlocked locally (`UserStore.SyncCanRelock`).
- Razorpay's static bundle and upsell amounts are not the default
  configuration's prices; its coin and report amounts are
  (`RazorpayOrder.TablesAgainstDefaultPricing`).
- Admin test creation does not check that the weights sum to 100, while
  both update endpoints do (`AbAdmin.CreateSkipsWeightCheck`).
- Deleting a test keeps its assignments, so a returning visitor is served
  the old variant once the test reappears (`AbAdmin.AssignmentOutlivesDelete`).
- A password reset succeeds even when no account has the address
  (`ResetPassword.ResetWithoutAccount`).
- A login code and a reset token live in the same row per address, so a
  code login consumes a pending reset token
  (`ResetPassword.LoginConsumesResetToken`).

## Model

| member | source | states |
|---|---|---|
| Zodiac.SignAtIndex | src/lib/zodiac-utils.ts:134-136 | `signs.indexOf` finds every sign, and indexing the array at that position gives the sign back |
| Zodiac.SignNamed | src/lib/zodiac-utils.ts:12-25 | a name denotes a sign exactly when it is one of the twelve `ZODIAC_SIGNS` keys |
| Zodiac.TablesFollowZodiacCycles | src/lib/zodiac-utils.ts:12-37 | the modality table repeats every three signs, polarity every two and element every four, in zodiac order |
| Zodiac.NameIsKey | src/lib/zodiac-utils.ts:12-25 | every sign's name is a key of `ZODIAC_SIGNS` and denotes that sign only |
| Zodiac.GetSignData | src/lib/zodiac-utils.ts:151-153 | `getSignData` returns the whole record stored under a known name (the record of the sign with that name) and the Aries record for any other name |
| Zodiac.LowerMonthNumber | src/lib/zodiac-utils.ts:39-42 | only the twelve lower-case month names resolve, each to a month 1..12 |
| Zodiac.MonthNamesIgnoreCase | src/lib/zodiac-utils.ts:48 | month resolution gives the same result for a text and its lower-cased form, including the `parseInt` fallback |
| Zodiac.ScanIsFirstMatch | src/lib/zodiac-utils.ts:70-75 | the loop returns the sign of the first entry ending on or after the date, and Capricorn when no entry does |
| Zodiac.SunSignOf | src/lib/zodiac-utils.ts:47-51 | a month or day that is 0 or NaN gives Aries |
| Zodiac.SunTableHasShape | src/lib/zodiac-utils.ts:54-68 | entry i of the table ends in month i+1 on that month's cusp, and a final Capricorn entry closes December |
| Zodiac.ShapedScanIsCalendar | src/lib/zodiac-utils.ts:54-75 | a table of that shape yields the calendar sign for any day of months 1..12 |
| Zodiac.SunSignIsCalendar | src/lib/zodiac-utils.ts:54-75 | for month 1..12 and a non-zero day, `calculateSunSign` is the calendar sign |
| Zodiac.CapricornWrapsTheYear | src/lib/zodiac-utils.ts:54-68 | January 1-19 and December 22 onwards are both Capricorn |
| Zodiac.JsRem | src/lib/zodiac-utils.ts:144 | JavaScript's `%` is smaller than the divisor in size, is never positive for a negative dividend, equals the mathematical remainder for a non-negative one, and pairs with the quotient truncated toward zero (`a == b * q + r`) |
| Zodiac.JsResidue | src/lib/zodiac-utils.ts:144 | `((x % 12) + 12) % 12` in JavaScript is x's residue mod 12 |
| Zodiac.To24Hour | src/lib/zodiac-utils.ts:129-130 | PM adds 12 except at 12 PM, 12 AM becomes 0, any other period leaves the hour alone, and NaN stays NaN |
| Zodiac.To24HourIsClock | src/lib/zodiac-utils.ts:129-130 | a 12-hour reading with AM/PM lands in 0..23, keeps its residue mod 12, and is at least 12 exactly for PM |
| Zodiac.AscendantIndex | src/lib/zodiac-utils.ts:140-145 | the ascendant index is in 0..11 and is the sun sign's index moved by one sign per 120 minutes since 06:00, mod 12 |
| Zodiac.AscendantOf | src/lib/zodiac-utils.ts:123-145 | the ascendant is undefined exactly when the hour is NaN |
| Zodiac.AscendantAtSunrise | src/lib/zodiac-utils.ts:138-145 | at 06:00 the ascendant is the sun sign |
| Zodiac.RisingAtSix | src/lib/zodiac-utils.ts:139-145 | whatever the sun sign, the index reached at 360 minutes past midnight names that same sign |
| Zodiac.AscendantAdvancesEveryTwoHours | src/lib/zodiac-utils.ts:139-145 | each further 120 minutes advances the ascendant by one sign mod 12 |
| Zodiac.CalculateInstantSigns | src/lib/zodiac-utils.ts:172-183 | the sun record is the sun sign's, the ascendant falls back to the sun sign when hour or period is missing (and to Aries when it is NaN), and modality and polarity come from the sun sign |
| ProfileSign.CapitalMonthNumber | src/lib/user-profile.ts:59-62 | only the twelve capitalised month names resolve, each to a month 1..12 |
| ProfileSign.ProfileMonth | src/lib/user-profile.ts:65 | the month handed to the range scan is never 0, whatever the text; a capitalised month name gives its number |
| ProfileSign.ProfileDay | src/lib/user-profile.ts:66 | the day is a non-zero `parseInt`, else 1, so it is never 0 |
| ProfileSign.ZodiacDatesIsCalendar | src/lib/user-profile.ts:44-57 | each month is the end month of exactly one entry and the start month of exactly one entry, and each start day is the day after that month's cusp |
| ProfileSign.InRangeIffOwner | src/lib/user-profile.ts:68-87 | in such a table an entry's range test holds exactly for the entry that owns the date |
| ProfileSign.ExactlyOneRange | src/lib/user-profile.ts:68-89 | for month 1..12 and any integer day, exactly one entry matches and the loop returns the calendar sign |
| ProfileSign.OutOfRangeMonthIsUnknown | src/lib/user-profile.ts:68-89 | a month outside 1..12 matches no entry, giving "Unknown" |
| ProfileSign.NeverUnknownForCalendarMonths | src/lib/user-profile.ts:64-89 | whenever the resolved month is in 1..12 the result is the calendar sign of the resolved date, never "Unknown" |
| ProfileSign.CapricornWrapsAround | src/lib/user-profile.ts:45-81 | December from the 22nd and January to the 19th reach Capricorn through the entry whose start month exceeds its end month |
| ProfileSign.AgreesWithSunSign | src/lib/user-profile.ts:44-89 | for numeric month 1..12 and a non-zero day, the range table and `calculateSunSign`'s end-date table give the same sign |
| ProfileSign.AgreesOnNumericInput | src/lib/user-profile.ts:64-89 | a numeric month text 1..12 and a non-zero day text give the same sign through both calculations |
| UserStore.FeatureNamed | src/lib/user-store.ts:8-13 | a property name denotes a feature exactly when it is one of the four `UnlockedFeatures` keys |
| UserStore.UnlockFeature | src/lib/user-store.ts:82-88 | the named feature becomes true, the other flags and the rest of the state are unchanged |
| UserStore.PurchaseUpsell | src/lib/user-store.ts:134-140 | the named feature becomes true, the other flags and the rest of the state are unchanged |
| UserStore.UnlockEach | src/lib/user-store.ts:122-125 | after the loop a flag is true exactly when it was true before or its feature is listed |
| UserStore.PurchaseBundle | src/lib/user-store.ts:120-131 | listed features become true, unlisted ones keep their flag, the bundle is recorded, and nothing else changes |
| UserStore.UnlockAllFeatures | src/lib/user-store.ts:90-98 | every flag is true and nothing else changes |
| UserStore.PurchaseAllUpsells | src/lib/user-store.ts:143-151 | gives the same state as `unlockAllFeatures` |
| UserStore.DeductCoins | src/lib/user-store.ts:102-109 | succeeds exactly when the balance covers the amount; on success the balance drops by the amount and stays non-negative, and on failure the state is unchanged |
| UserStore.AddCoins | src/lib/user-store.ts:111 | the balance grows by exactly the amount and nothing else changes |
| UserStore.SyncFromServer | src/lib/user-store.ts:157-177 | each flag becomes the nested value, else the flat value, else false; coins are replaced only when given and the bundle only when given; the user id and chart flags are untouched |
| UserStore.ResetUserState | src/lib/user-store.ts:59-73 | the result has all flags false, 0 coins, and no bundle or user id |
| UserStore.PurchasesAreMonotone | src/lib/user-store.ts:82-151 | no purchase action turns a true flag false |
| UserStore.UnlockIdempotent | src/lib/user-store.ts:82-131 | unlocking a feature or buying a bundle a second time changes nothing |
| UserStore.FullBundleUnlocksAll | src/lib/user-store.ts:90-131 | buying a bundle that lists all four features leaves the flags of `unlockAllFeatures` |
| UserStore.AddThenDeduct | src/lib/user-store.ts:102-111 | from a non-negative balance, adding an amount and then deducting it succeeds and restores the state |
| UserStore.DeductionsNeverOverdraw | src/lib/user-store.ts:102-109 | any run of deductions keeps a non-negative balance non-negative |
| UserStore.SyncCanRelock | src/lib/user-store.ts:157-166 | a sync whose data omits a locally unlocked feature locks it |
| UserStore.SyncIdempotent | src/lib/user-store.ts:157-177 | syncing the same data twice equals syncing it once |
| UserStore.ResetForgetsHistory | src/lib/user-store.ts:59-73 | a reset yields the initial state whatever state it is applied to |
| Pricing.FindById | src/lib/pricing.ts:168-185 | `find` returns the first element with the id, and undefined exactly when no element has it |
| Pricing.GetBundleById | src/lib/pricing.ts:168-170 | the result is the first configured bundle with that id, and undefined exactly when none has it |
| Pricing.GetUpsellById | src/lib/pricing.ts:173-175 | the result is the first configured upsell with that id, and undefined exactly when none has it |
| Pricing.GetReportById | src/lib/pricing.ts:178-180 | the result is the first configured report with that id, and undefined exactly when none has it |
| Pricing.GetCoinPackageById | src/lib/pricing.ts:183-185 | the result is the first configured coin package with that id, and undefined exactly when none has it |
| Pricing.FindUnique | src/lib/pricing.ts:168-185 | with unique ids, looking up an element's id returns that element |
| Pricing.DefaultIdsUnique | src/lib/pricing.ts:54-152 | no id repeats within any collection of `DEFAULT_PRICING` |
| Pricing.DefaultPricesDiscounted | src/lib/pricing.ts:54-152 | every default item has a positive price below its original price |
| Pricing.BundleTiersNest | src/lib/pricing.ts:55-100 | each default bundle's feature list equals the fulfilment map's entry, and the tiers' lists nest |
| Pricing.DefaultFeatureKeysKnown | src/lib/pricing.ts:54-152 | every feature key in the defaults is one of the four `UnlockedFeatures` keys |
| PayuInitiate.Dispatch | src/app/api/payu/initiate-payment/route.ts:52-88 | a type outside the four is "Invalid purchase type"; each type's lookup (bundleId, bundleId or packageId, packageId) succeeds exactly when the configuration has the item, and the price is that item's |
| PayuInitiate.DispatchFields | src/app/api/payu/initiate-payment/route.ts:52-88 | an accepted request is one of the four types, and an upsell or report carries its feature while a coin purchase carries its package's coin count |
| PayuInitiate.RequestHashFields | src/app/api/payu/initiate-payment/route.ts:22-24 | the pre-image has 17 fields: key, txnid, amount, productinfo, firstname, email, udf1..udf5, five empty fields, salt |
| PayuInitiate.TxnId | src/app/api/payu/initiate-payment/route.ts:91 | the id is "TXN_", the decimal time, "_", and the last six characters of the user id, or of "anon", each stated by position |
| PayuInitiate.TxnIdRecordsTime | src/app/api/payu/initiate-payment/route.ts:91 | the same user at two different times gets two different transaction ids |
| PayuInitiate.ParamsFor | src/app/api/payu/initiate-payment/route.ts:94-107 | the parameters carry the key, the item's amount and product text, and udf1, udf2, udf4 and udf5 from the user, type, feature and coins, each "" when absent |
| PayuInitiate.Initiate | src/app/api/payu/initiate-payment/route.ts:28-148 | a missing key or salt is a 500 before any lookup; a payment row is inserted exactly when the answer is a success; every error is 400 or 500 |
| PayuInitiate.ChargedAmountIsConfigured | src/app/api/payu/initiate-payment/route.ts:45-127 | the stored amount is the configured price times 100 and the gateway amount is that price in rupees |
| PayuInitiate.UnknownTypeRejected | src/app/api/payu/initiate-payment/route.ts:86-88 | with the gateway configured, any other type is refused with 400 and nothing is saved |
| PayuInitiate.HashCoversReturnedParams | src/app/api/payu/initiate-payment/route.ts:94-110 | the returned hash is the SHA-512 of the `|`-joined request fields of the returned parameters and the salt |
| PayuInitiate.CoinCheckoutParams | src/app/api/payu/initiate-payment/route.ts:69-106 | a coin checkout carries the user in udf1, "coins" in udf2 and the package's coin count in decimal in udf5 |
| PayuInitiate.UdfMapping | src/app/api/payu/initiate-payment/route.ts:102-106 | udf1 is the user id, udf2 the type, udf3 bundleId or packageId, udf4 the feature of an upsell or report, udf5 the coin count of a coin pack |
| PayuInitiate.CustomerDefaults | src/app/api/payu/initiate-payment/route.ts:99-100 | a missing first name becomes "Customer" and a missing email "customer@astrorekha.com" |
| PayuInitiate.RecordedPayment | src/app/api/payu/initiate-payment/route.ts:116-129 | the saved row is a "created" INR payment of the price in paise under `pay_` + txnId |
| RazorpayOrder.Dispatch | src/app/api/razorpay/create-order/route.ts:79-115 | a type outside the four is "Invalid purchase type"; each type's static-table lookup succeeds exactly when the key is in the table, and the amount is that entry's |
| RazorpayOrder.Receipt | src/app/api/razorpay/create-order/route.ts:121 | the receipt is "rcpt_", the decimal time, "_", and the last six characters of the user id, or of "anon", each stated by position |
| RazorpayOrder.CreateOrder | src/app/api/razorpay/create-order/route.ts:61-148 | missing credentials give 500 before any lookup; with credentials the answer succeeds exactly when the dispatch does; an order and a row exist exactly on success |
| RazorpayOrder.AmountsAreWholeRupees | src/app/api/razorpay/create-order/route.ts:16-58 | every amount the tables yield is a positive multiple of 100 paise |
| RazorpayOrder.AmountIsCarriedUnchanged | src/app/api/razorpay/create-order/route.ts:117-144 | the order, the answer and the saved "created" row carry the table's paise amount unchanged |
| RazorpayOrder.BundleNotesListFeatures | src/app/api/razorpay/create-order/route.ts:79-87 | a bundle order's notes hold the bundle id and the JSON list of exactly the features the fulfilment map unlocks for it |
| RazorpayOrder.CoinNotesCarryCount | src/app/api/razorpay/create-order/route.ts:96-134 | a coin order's notes hold the package's coin count in decimal and the saved row reads it back as that number |
| RazorpayOrder.TablesAgainstDefaultPricing | src/app/api/razorpay/create-order/route.ts:16-58 | coin and report amounts are the default configuration's prices times 100; the bundle and upsell amounts differ from them |
| PayuVerify.ResponseHashFields | src/app/api/payu/verify-payment/route.ts:12-16 | the response pre-image has 18 fields, each stated by position: salt, status, five empty fields, udf5..udf1 ("" when missing), email, firstname, productinfo, amount, txnid, key |
| PayuVerify.ResponseIsReversedRequest | src/app/api/payu/verify-payment/route.ts:12-14 | for a callback echoing the request parameters, the response pre-image is salt and status followed by the request pre-image without its salt, reversed |
| PayuVerify.MarkPaid | src/app/api/payu/verify-payment/route.ts:79-87 | exactly the rows whose `payu_txn_id` is the callback's txnid are updated; the others stay as they were |
| PayuVerify.Settle | src/app/api/payu/verify-payment/route.ts:39-140 | a missing salt gives 500 and a status other than "success" gives 400, both without writes; success happens exactly otherwise and the user rows are the fulfilment of the udfs |
| PayuVerify.Verify | src/app/api/payu/verify-payment/route.ts:19-140 | the answer and the writes are those of `Settle`, and a valid hash implies a salt and a received hash |
| PayuVerify.HashIsIgnored | src/app/api/payu/verify-payment/route.ts:48-63 | the answer and the writes are the same whatever hash arrives and whatever the digest computes |
| PayuVerify.OnlyMatchingPaymentsMarked | src/app/api/payu/verify-payment/route.ts:79-87 | on success the rows of the transaction are marked "paid" with the fulfilment time and every other row is untouched |
| PayuVerify.CallbackCredits | src/app/api/payu/verify-payment/route.ts:89-137 | a successful callback for a user whose purchase credits n coins adds exactly n to the stored balance |
| PayuVerify.CoinCheckoutCredited | src/app/api/payu/verify-payment/route.ts:89-137 | the successful callback of a coin checkout adds the package's coin count to the paying user's stored balance |
| Fulfilment.ExactlyOneBranch | src/app/api/payu/verify-payment/route.ts:108-120 | each merge branch is taken exactly when its own guard holds, so at most one applies |
| Fulfilment.SetTrue | src/app/api/payu/verify-payment/route.ts:109-112 | after the loop the listed keys are present and true, and every other key keeps its value |
| Fulfilment.Merge | src/app/api/payu/verify-payment/route.ts:97-120 | the merged map is the stored map (or all-false) with the granted keys set true, and the balance is the stored balance (or 0) plus the credit, or NaN when the count does not parse |
| Fulfilment.MergeIsMonotone | src/app/api/payu/verify-payment/route.ts:97-120 | every stored key survives the merge and no true flag becomes false |
| Fulfilment.MergeAgain | src/app/api/payu/verify-payment/route.ts:97-120 | merging a purchase into a row that already holds its merge result changes no feature flag |
| Fulfilment.BranchEffects | src/app/api/payu/verify-payment/route.ts:108-120 | a coin pack leaves the features, a feature purchase leaves the balance, a bundle adds 15 coins, and no branch changes nothing |
| Fulfilment.UnknownBundleStillCredits | src/app/api/payu/verify-payment/route.ts:108-113 | a bundle id missing from the map grants no feature but still adds 15 coins |
| Fulfilment.Written | src/app/api/payu/verify-payment/route.ts:122-137 | an upserted column given a value takes it and an undefined one keeps the stored value |
| Fulfilment.FulfilledRow | src/app/api/payu/verify-payment/route.ts:122-137 | the upserted row holds the merged features and coins, "paid" and the time; its type is "one-time" for a bundle, the purchase type otherwise, and the stored type when none is given; the bundle id or null; email and name are kept |
| Fulfilment.Fulfil | src/app/api/payu/verify-payment/route.ts:90-137 | without a user id no user row changes; otherwise only the paying user's row is written, as the fulfilled row |
| Fulfilment.DecimalCountCredits | src/app/api/payu/verify-payment/route.ts:118-119 | a coin count written in decimal is credited as that number |
| Fulfilment.CreditLands | src/app/api/payu/verify-payment/route.ts:103-128 | the paying user's balance after the upsert is the stored balance plus the purchase's credit |
| Fulfilment.ReplayCreditsTwice | src/app/api/payu/verify-payment/route.ts:105-128 | applying the same purchase twice leaves the same features as once but adds the coin credit again |
| Fulfilment.RowReplay | src/app/api/payu/verify-payment/route.ts:97-128 | fulfilling a purchase on an already fulfilled row keeps its features and adds the coin credit to the stored balance again |
| RazorpayVerify.SignedMessage | src/app/api/razorpay/verify-payment/route.ts:34 | the message is the order id, a bar, and the payment id |
| RazorpayVerify.MessageSplits | src/app/api/razorpay/verify-payment/route.ts:33-38 | for a bar-free order id, the text before the first bar of the message is the order id |
| RazorpayVerify.MessageDeterminesPair | src/app/api/razorpay/verify-payment/route.ts:33-40 | two pairs with bar-free order ids share a signed message only when they are the same pair |
| RazorpayVerify.MarkOrderPaid | src/app/api/razorpay/verify-payment/route.ts:50-59 | exactly the rows of the order are updated; the others stay as they were |
| RazorpayVerify.Verify | src/app/api/razorpay/verify-payment/route.ts:12-117 | missing ids or signature give 400; success happens exactly when all three are present and the signature matches; an error writes nothing; success writes the fulfilment and the paid rows |
| RazorpayVerify.ForgeryChangesNothing | src/app/api/razorpay/verify-payment/route.ts:40-46 | a signature that is not the HMAC of the message is refused with 400 and nothing is written |
| RazorpayVerify.OnlyTheOrderIsMarked | src/app/api/razorpay/verify-payment/route.ts:50-59 | on success the order's rows become "paid" with the signature and fulfilment time and every other row is untouched |
| RazorpayVerify.NoUserNoUnlock | src/app/api/razorpay/verify-payment/route.ts:61-62 | without a user id no user row changes |
| RazorpayVerify.GatewaysAgree | src/app/api/razorpay/verify-payment/route.ts:61-115 | for the same user and purchase, the Razorpay confirmation and the PayU callback leave the same features, coins, purchase type and bundle |
| RazorpayVerify.ConfirmationCredits | src/app/api/razorpay/verify-payment/route.ts:75-97 | a confirmed purchase that credits n coins adds exactly n to the stored balance |
| Promo.LookupOrder | src/app/api/promo/validate/route.ts:15-29 | the code found is the trimmed code if it has a row, else its upper-case spelling if that has one, else its lower-case spelling if that has one, else none |
| Promo.UpperCaseCodeFound | src/app/api/promo/validate/route.ts:15-29 | a code stored in upper case is found whatever ASCII case and surrounding blanks it is typed with |
| Promo.FirstHit | src/app/api/promo/validate/route.ts:22-29 | the found code is the first spelling with a row, and nothing is found exactly when no spelling has one |
| Promo.Redeem | src/app/api/promo/validate/route.ts:38-66 | for a found row, an inactive, expired or used-up code is refused with the table untouched; otherwise the grant is answered and only that row gains one use and a last-used time |
| Promo.GrantOf | src/app/api/promo/validate/route.ts:70-77 | the answer carries the found code, discount default 100, type "percent", coins 100, plan "yearly", and unlockAll unless explicitly false |
| Promo.Validate | src/app/api/promo/validate/route.ts:4-78 | an empty code is 400 and not found is 404; every failure leaves the table; a success passes all checks, adds exactly 1 to the found row's count (null as 0), stamps it, and leaves other rows alone |
| Promo.ChecksInOrder | src/app/api/promo/validate/route.ts:31-60 | inactive is reported before expired, which is reported before the usage limit, and success means none applies |
| Promo.ExactSpellingWins | src/app/api/promo/validate/route.ts:15-29 | a code stored as typed (after trimming) is found under that spelling |
| Promo.NoLimitWhenMaxUsesUnset | src/app/api/promo/validate/route.ts:55 | a null or zero `max_uses` never reaches the limit |
| Promo.UsesAreCounted | src/app/api/promo/validate/route.ts:55-66 | a fresh code with limit m validates successfully exactly min(k, m) times in k attempts |
| Promo.OneMoreAttempt | src/app/api/promo/validate/route.ts:38-66 | one more attempt on an active, unexpired code used n times under a limit of m succeeds exactly when n < m, adds one use only then, and leaves every other row as it was |
| Promo.LimitAfterMaxUses | src/app/api/promo/validate/route.ts:55-66 | after m successes the next attempt is refused with the usage-limit error |
| AbStore.JoinId | src/app/api/ab-test/route.ts:60 | the id is the test id, an underscore, and the suffix, each stated by position |
| AbStore.PageOf | src/app/api/ab-test/route.ts:106 | the page is "step-17" exactly for variant "A" |
| AbStore.UpsertConfig | src/app/api/ab-test/route.ts:146-154 | the upserted row takes the given variants, truthy status and truthy name, keeps every other column, and records the time |
| AbStore.UpdateTest | src/app/api/ab-test/route.ts:126-161 | a missing testId and given weights not summing to 100 are refused without writing; success happens exactly otherwise and stores the upserted row |
| AbAssign.ChooseIndex | src/app/api/ab-test/route.ts:84-90 | the loop stops at an entry of the list or runs past its end |
| AbAssign.ChoiceIsFirstCovering | src/app/api/ab-test/route.ts:81-90 | the chosen entry is the first whose running weight reaches the draw |
| AbAssign.DrawWithinTotalChooses | src/app/api/ab-test/route.ts:76-90 | a draw not above the total weight always chooses an entry |
| AbAssign.Draw | src/app/api/ab-test/route.ts:75-90 | the assigned variant is "A" or one of the keys |
| AbAssign.DrawPicksAKey | src/app/api/ab-test/route.ts:75-90 | for a non-empty variants list with no negative weight, the assigned variant is one of its keys |
| AbAssign.DrawPointWithinTotal | src/app/api/ab-test/route.ts:81 | `Math.random() * totalWeight` does not exceed a non-negative total |
| AbAssign.Assign | src/app/api/ab-test/route.ts:7-108 | the answer names the requested test (default "pricing-test-1") and the page of its variant; an inactive test answers A without writes; anonymous requests store nothing; stats and events are untouched |
| AbAssign.UnknownTestCreatesDefault | src/app/api/ab-test/route.ts:18-41 | an unknown test is created as the default 50/50 test and answered with a coin flip, with no assignment stored |
| AbAssign.AssignmentIsSticky | src/app/api/ab-test/route.ts:55-72 | a stored assignment is returned whatever the draw and the current weights, and nothing is written |
| AbAssign.FirstAssignmentIsRemembered | src/app/api/ab-test/route.ts:74-101 | a fresh visitor gets the weighted draw, stored under `testId_visitorId`, and the next request returns it from the store |
| AbAssign.AnonymousNotStored | src/app/api/ab-test/route.ts:92-101 | a request without visitor id leaves the assignments unchanged |
| AbAssign.Configure | src/app/api/ab-test/route.ts:121-161 | the POST is the shared configuration update, and a refusal writes nothing |
| AbAssign.ConfiguredWeightsSumTo100 | src/app/api/ab-test/route.ts:132-154 | a successful POST with variants stores them, and they weigh 100 in total |
| AbEvent.Bump | src/app/api/ab-test/event/route.ts:44-60 | exactly the event type's counter grows by 1 (null as 0), a conversion adds its truthy amount to the revenue, and the time is set |
| AbEvent.FreshIsBumpOfZero | src/app/api/ab-test/event/route.ts:61-74 | the inserted stats row equals the update applied to an all-zero row |
| AbEvent.Track | src/app/api/ab-test/event/route.ts:6-76 | missing fields and unknown types are refused without writes; success appends the event and creates or updates the `testId_variant` row only |
| AbEvent.BumpReflects | src/app/api/ab-test/event/route.ts:44-60 | a stats row that matches the event log still matches after its own pair's event is logged and counted |
| AbEvent.FreshReflects | src/app/api/ab-test/event/route.ts:61-74 | the row inserted for a pair's first event matches the log |
| AbEvent.TrackKeepsConsistent | src/app/api/ab-test/event/route.ts:29-74 | tracking keeps every stats row equal to the per-type event counts and revenue of its pair |
| AbEvent.AppendKeepsConsistent | src/app/api/ab-test/event/route.ts:40-74 | appending an event to the log and writing its pair's bumped or fresh row keeps every row equal to its pair's event counts, when the id names no other pair |
| AbAdmin.AddTo | src/app/api/admin/ab-tests/route.ts:46-54 | an impression, conversion or bounce increments its one counter, a conversion adds `amount || 0`, and other types change nothing |
| AbAdmin.Record | src/app/api/admin/ab-tests/route.ts:45-55 | only variants A and B are counted, each in its own column |
| AbAdmin.CollectIsReference | src/app/api/admin/ab-tests/route.ts:32-56 | the collected rows have distinct dates, one per date of a dated event, each with that date's counts |
| AbAdmin.SortDays | src/app/api/admin/ab-tests/route.ts:58-60 | the rows come out in strictly ascending date order and are a permutation of the input |
| AbAdmin.ScopeEvents | src/app/api/admin/ab-tests/route.ts:24-28 | at most 50 events are read, all of the test |
| AbAdmin.BreakdownIsReference | src/app/api/admin/ab-tests/route.ts:23-60 | the breakdown lists each date of the scoped events once, ascending, with that date's counts (so a date with only other variants shows zeros) |
| AbAdmin.CountersOf | src/app/api/admin/ab-tests/route.ts:65-77 | a missing stats row shows all counters as 0 |
| AbAdmin.ShowTest | src/app/api/admin/ab-tests/route.ts:13-107 | the detail shows the stored test or the default one, the first 50 events, and the A and B counters |
| AbAdmin.Quick | src/app/api/admin/ab-tests/route.ts:118-125 | the listing's totals are the sums of the A and B counters, missing ones as 0 |
| AbAdmin.CountersCountEvents | src/app/api/admin/ab-tests/route.ts:65-77 | when the stats match the log, a variant's counters are its event counts and revenue |
| AbAdmin.QuickStatsCountEvents | src/app/api/admin/ab-tests/route.ts:114-125 | when the stats match the log, the listing's totals count the logged impressions and conversions of A and B |
| AbAdmin.Reset | src/app/api/admin/ab-tests/route.ts:158-167 | the reset removes the A and B stats rows and the test's events and assignments, keeps everything else, and stamps the test |
| AbAdmin.Update | src/app/api/admin/ab-tests/route.ts:147-204 | a missing testId is 400; `resetAnalytics` resets and returns before any weight check; otherwise the shared configuration update applies |
| AbAdmin.ResetClearsAnalytics | src/app/api/admin/ab-tests/route.ts:158-172 | after a reset the detail view shows zero counters, no breakdown, no recent events, and no assignment of the test remains |
| AbAdmin.Create | src/app/api/admin/ab-tests/route.ts:215-254 | a missing testId or name and an existing id are refused; otherwise an active test with the given or default A/B 50/50 variants is stored |
| AbAdmin.CreateSkipsWeightCheck | src/app/api/admin/ab-tests/route.ts:220-249 | weights summing to 60 are accepted on creation and refused by the update |
| AbAdmin.Delete | src/app/api/admin/ab-tests/route.ts:265-280 | a missing testId is 400; otherwise the test and its A and B stats rows go, and events and assignments stay |
| AbAdmin.AssignmentOutlivesDelete | src/app/api/admin/ab-tests/route.ts:274-278 | a visitor assigned before a delete is served the same variant once a first request recreates the test |
| AdminRevenue.Gate | src/app/api/admin/revenue/route.ts:15-28 | no token, an unknown session and an expired session are each a 401 with their message, and only the expired session is deleted; otherwise nothing changes |
| AdminRevenue.PaidRows | src/app/api/admin/revenue/route.ts:58 | the paid rows are exactly the rows with status "paid" |
| AdminRevenue.Payers | src/app/api/admin/revenue/route.ts:118 | the paying users are exactly the truthy user ids of paid rows |
| AdminRevenue.TransactionOf | src/app/api/admin/revenue/route.ts:151-164 | a listed transaction keeps the row's id, paise amount and status, and its email and name are never empty ("Unknown" fallback) |
| AdminRevenue.Transactions | src/app/api/admin/revenue/route.ts:185-198 | every row is listed, in order |
| AdminRevenue.OverTime | src/app/api/admin/revenue/route.ts:126-144 | each chart day's revenue is the paid revenue inside that day's window |
| AdminRevenue.CustomEndText | src/app/api/admin/revenue/route.ts:173-175 | the custom range ends at the last millisecond of the end date, or of the start date when no end is given |
| AdminRevenue.BucketsOf | src/app/api/admin/revenue/route.ts:60-88 | each revenue figure is the paid revenue since its boundary, and growth is "N/A" exactly when last month's revenue is not positive |
| AdminRevenue.BundleBreakdown | src/app/api/admin/revenue/route.ts:98-112 | each bundle's count and revenue are those of its paid rows |
| AdminRevenue.ActivityOf | src/app/api/admin/revenue/route.ts:121-124 | the counts are all payments, paid ones, "failed" ones and "created" ones |
| AdminRevenue.Recent | src/app/api/admin/revenue/route.ts:151 | the recent list is the first min(100, paid) paid rows, in order |
| AdminRevenue.CustomOf | src/app/api/admin/revenue/route.ts:166-199 | the custom figures exist exactly when a start date is given, and are the paid revenue and count in the range, with one transaction per counted row |
| AdminRevenue.InRangeRows | src/app/api/admin/revenue/route.ts:177-181 | the rows kept are exactly the paid rows in the range |
| AdminRevenue.Figures | src/app/api/admin/revenue/route.ts:201-240 | the user count is the non-anonymous users and the paying count the distinct paying users |
| AdminRevenue.Dashboard | src/app/api/admin/revenue/route.ts:6-240 | the figures are returned exactly when the gate passes, and otherwise the gate's 401 |
| AdminRevenue.UnpaidRowsDoNotCount | src/app/api/admin/revenue/route.ts:57-61 | a row that is not paid changes no revenue figure or paid count |
| AdminRevenue.SelectionWithinTotal | src/app/api/admin/revenue/route.ts:60-84 | with non-negative amounts every selected revenue lies between 0 and the total |
| AdminRevenue.TypesWithinTotal | src/app/api/admin/revenue/route.ts:90-96 | the four type revenues together are at most the total |
| AdminRevenue.StatusesWithinTotal | src/app/api/admin/revenue/route.ts:121-124 | successful + failed + pending is at most the number of payments |
| AdminRevenue.PayersWithinPaid | src/app/api/admin/revenue/route.ts:118-122 | there are no more paying users than paid payments |
| AdminRevenue.DashboardBounds | src/app/api/admin/revenue/route.ts:58-184 | the status counts sum to at most the total, paying users and the custom count are at most the successful payments, and each revenue component is at most the total |
| AdminRevenue.GrowthNotApplicable | src/app/api/admin/revenue/route.ts:86-88 | with non-negative amounts growth is "N/A" exactly when last month's revenue is 0 |
| AdminRevenue.AnonymousUsersNotCounted | src/app/api/admin/revenue/route.ts:115-116 | adding an `anon_` user leaves the counted users unchanged |
| OtpCodes.NormalEmailIdempotent | src/app/api/auth/verify-otp/route.ts:8 | normalising a normalised address changes nothing |
| OtpCodes.FirstWithEmail | src/app/api/auth/verify-otp/route.ts:52-57 | the user found is the first with the address, and none is found exactly when no user has it |
| VerifyOtp.Touch | src/app/api/auth/verify-otp/route.ts:66-70 | exactly the logged-in account's rows get the new `updated_at` |
| VerifyOtp.Verify | src/app/api/auth/verify-otp/route.ts:4-88 | each failure (empty input, no code, expired, wrong code, no user) gives its status and message; only expiry deletes the code; success happens exactly when all checks pass, returns the user, consumes the code and touches the account |
| VerifyOtp.FailuresKeepTheRecord | src/app/api/auth/verify-otp/route.ts:11-64 | every failure other than expiry leaves both tables as they were |
| VerifyOtp.CodeIsConsumed | src/app/api/auth/verify-otp/route.ts:72-73 | repeating a successful request finds no code |
| VerifyOtp.ExpiredCodeIsGone | src/app/api/auth/verify-otp/route.ts:34-41 | an expired code is refused and deleted, so the next attempt finds no code |
| VerifyOtp.WrongGuessKeepsCode | src/app/api/auth/verify-otp/route.ts:43-49 | a wrong code is refused and the right code still logs in afterwards |
| VerifyOtp.AddressInNormalForm | src/app/api/auth/verify-otp/route.ts:8 | an address in any spacing or ASCII case acts as its normal form |
| VerifyOtp.NumericCodeIsItsDigits | src/app/api/auth/verify-otp/route.ts:9 | a numeric code acts as its decimal text |
| ResetPassword.SetPassword | src/app/api/auth/reset-password/route.ts:52-55 | exactly the accounts with the address get the new digest and `updated_at` |
| ResetPassword.Reset | src/app/api/auth/reset-password/route.ts:5-70 | missing fields, a short password, a missing or mismatched token, expiry and update failure each give their status and message; only expiry deletes the token; success happens exactly otherwise, consumes the token and sets the digest |
| ResetPassword.ShortPasswordBeforeLookup | src/app/api/auth/reset-password/route.ts:18-23 | a password under 6 characters is refused whatever is stored |
| ResetPassword.TokenCheckedBeforeExpiry | src/app/api/auth/reset-password/route.ts:34-47 | a wrong token on an expired record is answered as invalid and the record stays |
| ResetPassword.TokenIsConsumed | src/app/api/auth/reset-password/route.ts:64-65 | after a successful reset the same link is refused as invalid |
| ResetPassword.FailedUpdateKeepsToken | src/app/api/auth/reset-password/route.ts:57-62 | an update failure is a 500 that keeps the token, so the same link can succeed later |
| ResetPassword.ResetWithoutAccount | src/app/api/auth/reset-password/route.ts:52-65 | a reset for an address no account has succeeds and changes no account |
| ResetPassword.LoginConsumesResetToken | src/app/api/auth/reset-password/route.ts:28-39 | after a successful code login with the same value, the reset is refused |

## Left out

- Datastore and vendor I/O: Supabase queries become immutable tables passed
  in and returned. The Razorpay SDK's order creation becomes the `orderId`
  parameter. The background payment insert of the PayU initiate handler is
  modelled as always happening.
- SHA-512, HMAC-SHA256 and bcrypt are function parameters. Only their
  pre-images and the equality tests are modelled.
- `getPricingConfig` reading the `settings` row is left out; the
  configuration is a parameter.
- Exceptions and the `catch` blocks that turn them into 500 answers are
  left out, except where named below.
- Concurrency and the read-then-write races on stats and user rows are
  left out; every handler runs alone.
- `approximateMoonSign` is left out: it needs floating point and `Date`.
- Zodiac.CalculateInstantSigns: does not state the moon sign, because
  `approximateMoonSign` is not modelled.
- `toFixed` formatting is left out. This covers the A/B conversion and
  bounce rates, the revenue ARPU and growth percentage, and the rupee
  display; revenue stays in integer paise.
- The GET handler of src/app/api/ab-test/event/route.ts:86-130 is left
  out. It only reads two stats rows and formats rates.
- Calendar boundaries of the revenue dashboard are inputs (`Bounds`, the
  thirty `DayWindow`s), and so is the date parser (`toTime`). Times are
  integer milliseconds, and a null time is the epoch.
- `Math.random()` is an explicit `real` draw in [0, 1). `Date.now()` and
  `new Date()` are explicit times.
- RazorpayVerify.Verify: a missing `RAZORPAY_KEY_SECRET` makes the HMAC
  call throw, and the catch answers 500 with the exception's message; the
  model answers 500 "Verification failed" without modelling that message.
- AbEvent.TrackKeepsConsistent: requires that the `testId_variant` id of
  the event does not already hold another pair's row. Ids containing `_`
  can collide (`a_b` + `c` and `a` + `b_c`), and then the source itself
  mixes two pairs' counts.
- RazorpayVerify.MessageSplits: requires a bar-free order id (gateway
  order ids contain no `|`).
- Object iteration order of a test's `variants` is the order of the
  model's sequence. `localeCompare` on `YYYY-MM-DD` dates is modelled as
  code-unit order.
- Keys inherited from `Object.prototype` (`constructor`, `toString`,
  `__proto__` and the like) are treated as absent keys in every object
  lookup: `BUNDLE_FEATURES`, both `MONTH_MAP`s, `ZODIAC_SIGNS` and the
  Razorpay price tables. In the source such a key finds a function. The
  members below state the model's behaviour and do not hold for these keys.
- Fulfilment.UnknownBundleStillCredits: for a bundle id such as
  `constructor` the source's `for…of` over the found function throws. The
  catch answers 500 after the payment row is already marked paid, and no
  user row is written. The model writes the row with 15 more coins. The
  same holds for Fulfilment.BundleFeatures and for the Razorpay verify
  handler.
- Zodiac.CalculateSunSign: for a month text such as `constructor` the
  source compares every table entry against a function, all tests fail,
  and it answers Capricorn. The model falls back to `parseInt` (NaN) and
  answers Aries.
- Zodiac.GetSignData: for a name such as `toString` the source returns a
  function. The model returns the Aries record.
- ProfileSign.NeverUnknownForCalendarMonths: for the month `constructor`
  the source gives "Unknown". The model resolves the month to 1 and gives
  a sign.
- RazorpayOrder.Dispatch: a bundle, upsell or report id such as
  `constructor` passes the source's `!bundle` test. The model answers 400.
- JavaScript numbers are modelled as integers. The configured prices,
  which come from the `settings` row and are a parameter here, are whole
  rupees.
- PayuInitiate.AmountText: is `toFixed(2)` only for a whole-rupee price. A
  price of 839.5 becomes "839.50" in the source and is stored as 83950
  paise.
- AbEvent.RevenueOf: the conversion amount is an integer. A client may
  send a fraction or a string, and `0 + "499"` is the string "0499" in the
  source.
- AbStore.WeightOf: A/B variant weights are integers. The source also
  accepts fractions and strings there.
- `JSON.stringify` of the bundle feature list does not escape characters;
  the table's keys need none.
- Text is `seq<char>`. `trim` and case mapping cover ASCII only. Password
  length counts characters, not UTF-16 code units. `parseInt` reads
  decimal only (no `0x`).
- A non-string `code` in the promo body and a non-string `newPassword` in
  the reset body are not modelled: the first throws in `trim`, the second
  is compared by `.length`.
- `.limit(50)` on the events of a test has no ORDER BY. The model takes
  the first 50 rows of the test in table order. The payments of the
  revenue dashboard are taken in query order (newest first).
- Store actions that only set one field are left out: `setPurchasedBundle`,
  `setCoins`, `setUserId`, `setBirthChartGenerating` and
  `setBirthChartReady`. So are `isFeatureUnlocked` and the display tables.
- The A/B GET's catch-all fallback answer is left out
  (src/app/api/ab-test/route.ts:109-117).
