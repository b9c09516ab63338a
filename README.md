# Netgíró payment gateway for WooCommerce, modelled in Dafny

This project models the payment lifecycle of the Netgíró plugin for
WooCommerce, across the releases kept in the repository:

- **Version 5** (`includes/class-netgiro-*.php`):
  - the signed redirect form;
  - the signed browser return;
  - the `_netgiro_payment_status` flag, with the values AUTHORIZED, CONFIRMED and REFUNDED. It guards confirmation and refund;
  - the API client that turns each provider reply into the envelope {success, message, data, wp_error, api_level_success};
  - the "Check Netgíró status" order action.
- **4.1.1** (`includes/class-wc-netgiro.php`, `includes/class-netgiro-refund.php`):
  - item validation and the form with quantities in thousandths;
  - the return handler, which checks a signature over all return parameters;
  - refunds through the Partner API;
  - the transaction-id lookup from order notes;
  - the filter that hides the gateway outside ISK shops.
- **4.0.2** (`index.php`): the same form and return, and refunds that cancel or change the payment through a signed v1 request.
- **The 3.6.1 plugin** (`netgiro-payment-gateway-for-woocommerce/index.php`), **3.3.3** and **2.6.9**: the forms, including the 2.6.9 payment-option list, and the return handlers that check `sha256(secret . order id)`.

SHA-256 is a parameter, `Signature.Hasher`, so every property holds whatever function computes the digest. JSON encoding is a parameter too, and so are the WordPress formatting helpers and the provider's reply.

Amounts are exact rationals (`Php.Number`). PHP's `round`, `ceil` and `(int)` are modelled exactly on them.

Order state is kept in two forms:
- a value, `Store.OrderState`, that the pure step functions transform;
- a class, `Store.Order`, that the handler methods update in place. Each handler method is proved to leave its order in the state the step function gives, and to leave every other order alone.

Modules, one per part of the program:

| module | file | models |
|---|---|---|
| `Php` | php.dfy | the PHP built-ins the plugin relies on: `empty`, `is_numeric`, `round`, `ceil`, `(int)`, `absint`, `str_replace`, `ucfirst`, loose `==` |
| `Json`, `Fields` | json.dfy, fields.dfy | decoded JSON values; PHP ordered arrays of fields (`$a[$k] = $v`) |
| `Signature` | signature.dfy | the signatures and `generateSignature` |
| `Store` | store.dfy | the WooCommerce order and the order methods the plugin calls |
| `Api` | api.dfy | `Netgiro_API` |
| `Gateway` | gateway.dfy | `Netgiro_Gateway` |
| `PaymentForm` | payment_form.dfy | `Netgiro_Payment_Form` |
| `Actions` | actions.dfy | `Netgiro_Actions` |
| `LegacyForm`, `OldForms` | legacy_form.dfy, old_forms.dfy | the forms of 4.1.1, 4.0.2, the 3.6.1 plugin, 3.3.3 and 2.6.9 |
| `LegacyReturn` | legacy_return.dfy | the return handlers of those releases |
| `Refund` | refund.dfy | the 4.1.1 refund, the transaction lookup and the gateway filter |
| `RefundChange` | refund_change.dfy | the 4.0.2 refund |

## Model

| member | source | states |
|---|---|---|
| Signature.Concat | index.php:533-539 | the values joined in order, no separator; a single value is itself |
| Signature.ConcatAppend | index.php:533-539 | the join of a split list is the join of its halves |
| Signature.GenerateSignature | index.php:533-539 | the loop hashes the in-order concatenation of all values, once |
| Signature.RequestSignature | includes/class-netgiro-api.php:240-251 | the v1 request signature is the hash of the join of secret, nonce, url and body |
| Signature.SignedTextBindsOrderId | includes/class-netgiro-payment-form.php:124-135 | with the secret, total and application id fixed, the signed text determines the order id |
| Php.DigitsAreNumeric | includes/class-wc-netgiro.php:412 | `is_numeric` accepts every non-empty run of decimal digits |
| Php.NoDigitNotNumeric | includes/class-wc-netgiro.php:412 | `is_numeric` rejects every string without a decimal digit |
| Php.TrailingTextNotNumeric | includes/class-wc-netgiro.php:412 | `is_numeric("12abc")` is false: text after the digits makes the string non-numeric |
| Php.IntValInRange | includes/class-netgiro-gateway.php:161 | `(int)` of any string lies between PHP_INT_MIN and PHP_INT_MAX, and `absint` between 0 and PHP_INT_MAX + 1. Likewise `includes/class-netgiro-payment-form.php:119`: the `(int)` of the cancel page id |
| Php.IntValStopsAtText | includes/class-netgiro-gateway.php:161 | digits followed by text that cannot continue a number (not a digit, `.`, `e` or `E`) read as the digits alone |
| Php.AbsIntReadsLeadingDigits | includes/class-netgiro-actions.php:58 | `absint("12abc")` is 12 |
| Php.IntValAppliesExponent | includes/class-netgiro-gateway.php:161 | digits, `e`, digits read as the mantissa times ten to the exponent, then capped to the int range: "1e3" is 1000 |
| Php.IntValCapsOverflow | includes/class-netgiro-gateway.php:161 | a run of digits beyond PHP_INT_MAX, but within the double range, reads as PHP_INT_MAX |
| Php.AbsIntOfNatToString | includes/class-netgiro-gateway.php:161 | an id up to PHP_INT_MAX printed in decimal reads back as itself through both `(int)` and `absint`. Likewise `includes/class-netgiro-actions.php:47`: the order id of the edit screen |
| Store.UpdateStatus | includes/class-netgiro-gateway.php:182 | `update_status`: the status becomes the target; a real change appends one note carrying the caller's note, setting the same status again changes nothing; id, transaction id and flag are kept |
| Store.PaymentComplete | includes/class-netgiro-gateway.php:219 | `payment_complete`: from pending, on-hold, failed or cancelled, processing (or completed when the order needs no processing) with one status-change note, storing the given transaction id unless it is empty ("" or "0"); from any other status the order is untouched. Likewise `includes/class-wc-netgiro.php:413`: the 4.1.1 call |
| Api.NewClient | includes/class-netgiro-api.php:81-91 | test mode selects the test API and Partner API hosts, live mode the live ones; the keys are kept |
| Api.FormatSuccess | includes/class-netgiro-api.php:479-486 | a success envelope: success true, the message and data given, no error, no api_level_success |
| Api.FormatError | includes/class-netgiro-api.php:488-497 | an error envelope always has success false and carries the message, data, error and api_level_success given |
| Api.TransportFailure | includes/class-netgiro-api.php:360-362 | a WP_Error gives a failure carrying that error and its message, with no data |
| Api.BodyMessage | includes/class-netgiro-api.php:378-379 | `Message` when present, else `message` |
| Api.ApiFailureMessage | includes/class-netgiro-api.php:378-382 | the failure message: the body's message; then, for a non-2xx status, the reason phrase; then "HTTP n error." |
| Api.HandleApiResponse | includes/class-netgiro-api.php:359-398 | success iff HTTP 2xx and the decoded body says `Success === true`. A transport error is passed through; invalid JSON fails with the fixed message. A failure carries the chosen message and api_level_success = Success; a success carries the body as data |
| Api.RefundFailureMessage | includes/class-netgiro-api.php:421-445 | the failure message: `Message`, then `message`, then the reason phrase, then "Refund failed with HTTP status n." |
| Api.HandleRefundResponse | includes/class-netgiro-api.php:408-446 | success iff the status is exactly 200, whatever the body; the success envelope has no data. A transport error is passed through; other failures carry the chosen message and the body as data only when it is an array |
| Api.StatusErrorMessage | includes/class-netgiro-api.php:200-204 | the message for a non-200 status: `Message`/`message`, else the reason phrase, else "HTTP n received from Netgíró." |
| Api.ClassifyTransactionStatus | includes/class-netgiro-api.php:186-223 | the order of the checks: transport error, invalid JSON, non-200 status, then explicit `Success === false` with api_level_success false. Success iff a decoded 200 reply does not say Success false |
| Api.BuildV1RequestArgs | includes/class-netgiro-api.php:233-266 | an encoding failure gives the json_encode_failed error; otherwise a POST carrying the body, the app key, the nonce and the hash of secret, nonce, url and body |
| Api.PartnerPostArgs | includes/class-netgiro-api.php:268-288 | a POST whose `token` header is the secret key, or the encoding error |
| Api.PartnerGetArgs | includes/class-netgiro-api.php:295-306 | a GET with no body and the secret key as `token` |
| Api.Unsent | includes/class-netgiro-api.php:125-128 | a request that cannot be built sends nothing and fails |
| Api.ConfirmCart | includes/class-netgiro-api.php:118-144 | a POST to checkout/ConfirmCart carrying the transaction id is sent iff the payload encodes, with the app key, the nonce and the signature hash(secret . nonce . url . body) as headers; success implies a 2xx reply |
| Api.IdempotencyKey | includes/class-netgiro-api.php:499-501 | the key is the first 40 characters of the digest |
| Api.RefundPayload | includes/class-netgiro-api.php:150-160 | transactionId, refundAmount = round(amount), idempotencyKey, and `reason` only when non-empty, cut to 100 characters |
| Api.RefundPayment | includes/class-netgiro-api.php:146-170 | a POST to the Partner API's refund endpoint, sent iff the payload encodes; success implies an HTTP 200 reply |
| Api.GetTransactionStatus | includes/class-netgiro-api.php:178-224 | always sends a GET for transaction/{id}; the envelope is the classification of the reply |
| Api.ResponseLogLevel | includes/class-netgiro-api.php:474 | error iff the status is 400 or more, debug otherwise |
| Gateway.MissingRequired | includes/class-netgiro-gateway.php:155 | reference, transaction id, invoice number and signature must each be neither "" nor "0"; total and status are not required |
| Gateway.SignatureValid | includes/class-netgiro-gateway.php:170-174 | the return is accepted iff its signature equals sha256(secret . reference . transaction . invoice . total . status) |
| Gateway.ReturnEffect | includes/class-netgiro-gateway.php:170-230 | a bad signature fails the order without writing the transaction id or the flag, and sends nothing. A good one stores the transaction id; type "2" holds the order as AUTHORIZED and sends nothing, adding the authorized note through the status change unless the order is already on hold, when no note is added. Any other type completes the payment: processing, or completed for an order that needs no processing, ending CONFIRMED with the confirmation note. For an on-hold order the status-change hook runs first, so an order still AUTHORIZED gets the hook's confirmation and notes before the confirmation note. Likewise `includes/class-netgiro-gateway.php:96-97`: the hook registered for leaving on-hold |
| Gateway.Gateway.ProcessNetgiroReturn | includes/class-netgiro-gateway.php:141-240 | a missing reference, transaction id, invoice or signature, or an unknown order, redirects to checkout, sends nothing and changes no order. Otherwise only the order named by absint(reference) takes ReturnEffect, the request sent is ReturnEffect's, and the order-received page follows a valid signature |
| Gateway.Gateway.ApplyReturn | includes/class-netgiro-gateway.php:170-230 | the handler's steps on the order, including the hook `payment_complete` fires, give ReturnEffect's state and request |
| Gateway.Gateway.OnStatusChange | includes/class-netgiro-gateway.php:253-270 | the hook's work on an existing order leaves it as ConfirmOnStatusChange says and sends its request |
| Gateway.ReturnSendsOnlyHookConfirmation | includes/class-netgiro-gateway.php:96-97 | a return sends ConfirmCart for the returned transaction exactly when it is signed, of a type other than "2", and finds the order on hold, paid with Netgíró, still AUTHORIZED and with a transaction id; it sends nothing else. Likewise `includes/class-netgiro-gateway.php:219-229`: `payment_complete` runs before CONFIRMED is written |
| Gateway.RefundingEvent | includes/class-netgiro-gateway.php:360-363 | an event that sets REFUNDED is a refund request answered with HTTP 200 |
| Gateway.ConfirmingEvent | includes/class-netgiro-gateway.php:188-230 | an event that sets CONFIRMED is a validly signed return or a status change whose confirmation was answered with 2xx |
| Gateway.PerformConfirmation | includes/class-netgiro-gateway.php:280-312 | with no transaction id: a note, false, and no call. Otherwise ConfirmCart is called; success adds a note and sets CONFIRMED, failure notes the reason and keeps the flag |
| Gateway.Gateway.PerformNetgiroConfirmation | includes/class-netgiro-gateway.php:280-312 | the method leaves the order as PerformConfirmation says |
| Gateway.ConfirmOnStatusChange | includes/class-netgiro-gateway.php:247-271 | only a `netgiro` order whose flag is exactly AUTHORIZED is confirmed; any request sent implies that and a transaction id; status and transaction id never change |
| Gateway.Gateway.MaybeConfirmPaymentOnStatusChange | includes/class-netgiro-gateway.php:247-271 | an unknown order: nothing sent and nothing changed; otherwise that order alone takes ConfirmOnStatusChange |
| Gateway.RefundGuard | includes/class-netgiro-gateway.php:333-347 | checks in order: transaction id missing, then flag not AUTHORIZED or CONFIRMED. It passes iff both hold |
| Gateway.RefundStep | includes/class-netgiro-gateway.php:333-371 | a failed guard returns its error and calls nothing. A successful refund notes it and sets REFUNDED; a failed one notes the reason, keeps the flag and returns netgiro_refund_api_failed |
| Gateway.Gateway.ProcessRefund | includes/class-netgiro-gateway.php:324-371 | a missing order gives netgiro_refund_failed with nothing sent; otherwise that order alone takes RefundStep |
| Gateway.RefundedIsFinalWithoutReturns | includes/class-netgiro-gateway.php:342-347 | once REFUNDED, status changes and refunds keep the flag and send no request, as long as no browser return arrives |
| Gateway.RefundedOnlyAfterRefundReply | includes/class-netgiro-gateway.php:360-363 | the flag becomes REFUNDED only through a refund answered with HTTP 200 |
| Gateway.ConfirmedOnlyAfterSignedReturnOrConfirmReply | includes/class-netgiro-gateway.php:188-230 | the flag becomes CONFIRMED only through a validly signed return or a confirmation answered with 2xx |
| Gateway.ReplayedReturnReopensRefund | includes/class-netgiro-gateway.php:170-230 | a replayed, validly signed return takes a refunded order out of REFUNDED, and the refund guard then passes |
| PaymentForm.GetOption | includes/class-netgiro-payment-form.php:113-114 | WooCommerce's `get_option($key, $empty_value)`: an unset key reads as the field's default, a stored "" as `$empty_value`, any other stored value as itself |
| PaymentForm.ConfirmationType | includes/class-netgiro-payment-form.php:113 | unset reads as the settings default "1" (includes/class-netgiro-settings.php:85); a stored "" reads as "0"; otherwise the stored value |
| PaymentForm.SendItems | includes/class-netgiro-payment-form.php:114 | items are sent iff the option is unset (default "yes"), stored as "", or stored as "yes" |
| PaymentForm.CancelUrl | includes/class-netgiro-payment-form.php:118-119 | the cancel page's permalink when one is configured, the home URL otherwise |
| PaymentForm.ItemOf | includes/class-netgiro-payment-form.php:146-164 | the raw quantity (no ×1000) and the unit price rounded to the nearest integer |
| PaymentForm.ItemsOf | includes/class-netgiro-payment-form.php:146-164 | one item per line item, in order |
| PaymentForm.ItemFields | includes/class-netgiro-payment-form.php:146-164 | the five item keys, in order, with no Description |
| PaymentForm.BaseArgs | includes/class-netgiro-payment-form.php:128-139 | the fixed fields, in order |
| PaymentForm.FieldInputs | includes/class-netgiro-payment-form.php:184-190 | every field of item i becomes the input `Items[i].Key` with its value |
| PaymentForm.Blocks | includes/class-netgiro-payment-form.php:184-190 | block i holds item i's five inputs |
| PaymentForm.FormSpec | includes/class-netgiro-payment-form.php:105-200 | an unknown order gives no form; otherwise the fields, then the item inputs exactly when items are sent, posted to the gateway URL |
| PaymentForm.GenerateNetgiroForm | includes/class-netgiro-payment-form.php:105-200 | the loops build FormSpec |
| PaymentForm.CollectItems | includes/class-netgiro-payment-form.php:146-164 | the foreach builds ItemsOf |
| PaymentForm.EmitInputs | includes/class-netgiro-payment-form.php:180-190 | the nested loops emit the fields and, when asked, every item block |
| PaymentForm.EmitItem | includes/class-netgiro-payment-form.php:184-190 | the inner loop emits one item's named inputs |
| PaymentForm.ItemInputsBlock | includes/class-netgiro-payment-form.php:184-190 | block i sits at positions 5i to 5i+4 of the item inputs |
| PaymentForm.ArgsLayout | includes/class-netgiro-payment-form.php:128-164 | the fields in insertion order: fixed, then the callback URL for type "1", then the description when items are not sent |
| PaymentForm.SignatureMatchesSentFields | includes/class-netgiro-payment-form.php:124-139 | Signature = hash(secret . ReferenceNumber . TotalAmount . ApplicationID) over the very values sent; reference = order id, total = rounded total; ConfirmationType and the cancel URL as configured |
| PaymentForm.LookupBase | includes/class-netgiro-payment-form.php:128-139 | each fixed field reads as set, whatever follows it |
| PaymentForm.OptionalFields | includes/class-netgiro-payment-form.php:142-164 | PaymentConfirmedURL is present iff the type is "1"; Description is present iff items are not sent |
| PaymentForm.ItemBlock | includes/class-netgiro-payment-form.php:146-190 | block i carries line item i, its raw quantity last |
| Actions.AddCheckStatusOrderAction | includes/class-netgiro-actions.php:37-73 | the actions unchanged when the action is not shown; otherwise the check-status action appended |
| Actions.ActionOnlyForNetgiroOrders | includes/class-netgiro-actions.php:37-73 | the action is added only for a netgiro order: the edited one, or the one a nonce-verified admin request names |
| Actions.ExistingActionsKept | includes/class-netgiro-actions.php:37-73 | every existing action keeps its label, and a shown action reads as its label |
| Actions.StatusInfo | includes/class-netgiro-actions.php:138 | "Status not provided" when the reply has no status; otherwise the escaped status with its first letter capitalised |
| Actions.RefundableInfo | includes/class-netgiro-actions.php:138-152 | "Refundable" iff isRefundable is present and truthy, "Not Refundable" otherwise |
| Actions.CheckStatus | includes/class-netgiro-actions.php:81-153 | guards in order: transaction id, then payment method, gateway, credentials, API class, each with its note and no call. The API is called iff all pass; failure notes the message and transaction id, success the status |
| Actions.CheckQueriesOwnTransaction | includes/class-netgiro-actions.php:105-125 | the check GETs transaction/{own id} from the Partner API host the test setting selects |
| Actions.ProcessCheckStatusAction | includes/class-netgiro-actions.php:81-153 | the method appends exactly the check's note |
| Actions.CheckAddsOneNote | includes/class-netgiro-actions.php:81-153 | exactly one note is added; status, transaction id and flag are unchanged |
| LegacyForm.ValidationRules | includes/class-wc-netgiro.php:195-217 | valid iff product_id, name and qty are non-empty, name is a string, qty is numeric, and line_total is empty or numeric. Likewise `index.php:147-170`: the same rules in 4.0.2; `netgiro-payment-gateway-for-woocommerce/index.php:133-155`: the same rules in the 3.6.1 plugin |
| LegacyForm.Charges | includes/class-wc-netgiro.php:278-284 | ShippingAmount and DiscountAmount present iff positive, rounded up. Likewise `index.php:228-234`: the same in 4.0.2; `netgiro-payment-gateway-for-woocommerce/index.php:212-218`: the same in the 3.6.1 plugin; `Woocommerce.v3.3.3/woocommerce_netgiro/index.php:185-191`: the same in 3.3.3; `Woocommerce.v2.6.9/woocommerce_netgiro/index.php:196-202`: the same in 2.6.9 |
| LegacyForm.BlockInputs | includes/class-wc-netgiro.php:317-322 | block i's fields become the inputs `Items[i].Key` |
| LegacyForm.ItemInputsBlock | includes/class-wc-netgiro.php:317-322 | block i sits at positions 5i to 5i+4 |
| LegacyForm.EmitInputs | includes/class-wc-netgiro.php:286-322 | the loops emit the fields, then every item block |
| LegacyForm.FieldNames | includes/class-wc-netgiro.php:264-276 | the names of the signed fields, in order |
| LegacyForm.SignedFieldsSent | includes/class-wc-netgiro.php:254-276 | reference, whole-number total and application id read as sent; ConfirmationType "0"; the signature is over those values |
| LegacyForm.SignedFieldSent | includes/class-wc-netgiro.php:264-276 | a signed field reads as set, whatever surrounds it |
| LegacyForm.ClientInfoSent | Woocommerce.v3.3.3/woocommerce_netgiro/index.php:171-183 | ClientInfo is "System: Woocommerce 3.3.3" in 3.3.3, absent in 2.6.9, and names the plugin version in 3.6.1, 4.0.2 and 4.1.1 |
| LegacyForm.CallbackUrlSent | includes/class-wc-netgiro.php:264-276 | PaymentConfirmedURL is sent exactly by 4.1.1 and 4.0.2. Likewise `netgiro-payment-gateway-for-woocommerce/index.php:198-210`: the 3.6.1 plugin sends no PaymentConfirmedURL |
| LegacyForm.ItemFields361 | includes/class-wc-netgiro.php:292-314 | the five item keys; the quantity is qty × 1000 |
| LegacyForm.Blocks361 | includes/class-wc-netgiro.php:292-314 | one block per line, in order |
| LegacyForm.Blocks361Snoc | includes/class-wc-netgiro.php:292-314 | a valid line adds its block |
| LegacyForm.FormSpec361 | includes/class-wc-netgiro.php:226-346 | the error text iff the order id is empty, the total is not numeric, an item is invalid, or both URLs are invalid (`&&`). An order without items fails counting the never-assigned list. Never a division by zero; the form posts to the gateway URL. Likewise `index.php:175-307`: the same for 4.0.2; `netgiro-payment-gateway-for-woocommerce/index.php:160-292`: the same for the 3.6.1 plugin |
| LegacyForm.GenerateNetgiroForm361 | includes/class-wc-netgiro.php:226-346 | the loops build FormSpec361. Likewise `index.php:175-307`: the same for 4.0.2; `netgiro-payment-gateway-for-woocommerce/index.php:160-292`: the same for the 3.6.1 plugin |
| LegacyForm.CollectBlocks361 | includes/class-wc-netgiro.php:292-314 | the loop gives the blocks iff every item is valid |
| LegacyForm.FormSigned361 | includes/class-wc-netgiro.php:248-276 | Signature = hash(secret . order id . rounded total . app id), over the reference and total sent; the callback URL is sent except by the 3.6.1 plugin. Likewise `index.php:245-247`: the same for 4.0.2; `netgiro-payment-gateway-for-woocommerce/index.php:229-231`: the same for the 3.6.1 plugin |
| LegacyForm.ArgsSent | includes/class-wc-netgiro.php:264-276 | the signed fields read as sent, whatever follows without a callback URL |
| LegacyForm.NoCallbackAfterArgs | includes/class-wc-netgiro.php:278-322 | neither the charges nor the item inputs carry a callback URL |
| LegacyForm.FormInputs361 | includes/class-wc-netgiro.php:286-322 | the inputs are the fields, the charges, then the item blocks |
| LegacyForm.ItemInputsNamed | includes/class-wc-netgiro.php:317-322 | item inputs never collide with a plain field name |
| LegacyForm.ItemBlock361 | includes/class-wc-netgiro.php:312-322 | block i's last input is `Items[i].Quantity` = qty × 1000. Likewise `index.php:262`: the same for 4.0.2; `netgiro-payment-gateway-for-woocommerce/index.php:246`: the same for the 3.6.1 plugin |
| OldForms.ItemFields333 | Woocommerce.v3.3.3/woocommerce_netgiro/index.php:199-215 | the five item keys, in order |
| OldForms.Blocks333 | Woocommerce.v3.3.3/woocommerce_netgiro/index.php:199-215 | one block per line, in order |
| OldForms.FormSpec333 | Woocommerce.v3.3.3/woocommerce_netgiro/index.php:150-255 | a form iff the order has items; otherwise counting the never-assigned list fails |
| OldForms.GenerateNetgiroForm333 | Woocommerce.v3.3.3/woocommerce_netgiro/index.php:150-255 | the loops build FormSpec333 |
| OldForms.FormSigned333 | Woocommerce.v3.3.3/woocommerce_netgiro/index.php:161-183 | Signature = hash(secret . order id . rounded total . app id) over the values sent; ClientInfo "System: Woocommerce 3.3.3"; no callback URL |
| OldForms.FormInputs333 | Woocommerce.v3.3.3/woocommerce_netgiro/index.php:170-222 | the fields, the positive charges, then the item blocks |
| OldForms.ItemBlock333 | Woocommerce.v3.3.3/woocommerce_netgiro/index.php:199-222 | unit price and amount rounded iff rounding is 'yes'; quantity qty × 1000 |
| OldForms.ItemFields269 | Woocommerce.v2.6.9/woocommerce_netgiro/index.php:210-220 | the five item keys, in order |
| OldForms.Blocks269 | Woocommerce.v2.6.9/woocommerce_netgiro/index.php:210-220 | one block per line, in order |
| OldForms.FormSpec269 | Woocommerce.v2.6.9/woocommerce_netgiro/index.php:160-301 | a division-by-zero error iff some quantity is 0; a type error iff there are no items; otherwise a form to the gateway URL |
| OldForms.GenerateNetgiroForm269 | Woocommerce.v2.6.9/woocommerce_netgiro/index.php:160-301 | the loops build FormSpec269 |
| OldForms.CollectBlocks269 | Woocommerce.v2.6.9/woocommerce_netgiro/index.php:210-220 | the loop gives the blocks iff no quantity is 0 |
| OldForms.FormSigned269 | Woocommerce.v2.6.9/woocommerce_netgiro/index.php:173-194 | Signature = hash(secret . order id . rounded total . app id) over the values sent; no ClientInfo and no callback URL |
| OldForms.SentUnitPriceNearGross269 | Woocommerce.v2.6.9/woocommerce_netgiro/index.php:211 | with rounding on, the UnitPrice field sent is round((line total + tax) / qty), so unit price × qty misses the gross line total by at most half the quantity |
| OldForms.ItemBlock269 | Woocommerce.v2.6.9/woocommerce_netgiro/index.php:210-227 | block i carries the unit price (gross line total over qty) and the gross line total, both rounded iff rounding is 'yes', and quantity qty × 1000 |
| OldForms.PaymentOptions | Woocommerce.v2.6.9/woocommerce_netgiro/index.php:229-240 | option 1, 2 or 3 is listed iff its setting is 'yes', in increasing order |
| OldForms.BrandingMatchesOptions | Woocommerce.v2.6.9/woocommerce_netgiro/index.php:229-252 | the branding script shows exactly the listed options, in the same order |
| OldForms.ShowFlagsAppend | Woocommerce.v2.6.9/woocommerce_netgiro/index.php:242-252 | appending flags option by option builds the whole flag list |
| LegacyReturn.LegacyGateway.HandleNetgiroCall | includes/class-wc-netgiro.php:391-440 | acts only when the four ng_* inputs are truthy; the raw ng_orderid loads an order only when it is numeric and positive (LoadedOrderId), and an id that loads no stored order changes nothing; otherwise that order alone takes CallEffect, and the redirect follows the entry point. Likewise `index.php:337-387`: the same for 4.0.2; `netgiro-payment-gateway-for-woocommerce/index.php:313-352`: the same for the 3.6.1 plugin, which always redirects; `Woocommerce.v3.3.3/woocommerce_netgiro/index.php:275-305`: acts only when ng_netgiroSignature, ng_orderid and ng_transactionid are truthy; always redirects; `Woocommerce.v2.6.9/woocommerce_netgiro/index.php:321-343`: the same for 2.6.9, which redirects only after a payment |
| LegacyReturn.LoadedOrderIdOfReference | includes/class-wc-netgiro.php:402 | the decimal order id a form sent loads that same order. Likewise `index.php:349`, `netgiro-payment-gateway-for-woocommerce/index.php:324`, `Woocommerce.v3.3.3/woocommerce_netgiro/index.php:282-284` and `Woocommerce.v2.6.9/woocommerce_netgiro/index.php:326` |
| LegacyReturn.LoadedOrderIdNeedsPositiveNumber | includes/class-wc-netgiro.php:402 | an id that is not numeric, or whose value is not positive, loads no order |
| LegacyReturn.TrailingTextLoadsNoOrder | includes/class-wc-netgiro.php:402 | "12abc" loads no order, though `absint` reads it as 12 |
| LegacyReturn.NegativeIdLoadsNoOrder | includes/class-wc-netgiro.php:402 | "-5" loads no order, though `absint` reads it as 5 |
| LegacyReturn.LegacyGateway.ApplyCall | includes/class-wc-netgiro.php:412-428 | the handler's steps on the order give CallEffect |
| LegacyReturn.Accepted | Woocommerce.v3.3.3/woocommerce_netgiro/index.php:287-289 | 3.3.3 and 2.6.9 accept iff ng_signature is sha256(secret . order id), whatever the other parameters. Likewise `Woocommerce.v2.6.9/woocommerce_netgiro/index.php:326-329`: the 2.6.9 check |
| LegacyReturn.CallEffect | includes/class-wc-netgiro.php:412-428 | a handled call never touches id, payment method or flag, and adds at least one note |
| LegacyReturn.AcceptedCallPays | includes/class-wc-netgiro.php:412-417 | an accepted call completes the payment (processing, or completed for an order that needs no processing) and notes the invoice; only 4.1.1 stores the transaction id. Likewise `index.php:360-364`: 4.0.2 completes the payment but does not store the transaction id; `netgiro-payment-gateway-for-woocommerce/index.php:319-336`: the 3.6.1 plugin completes the payment and notes the invoice; `Woocommerce.v3.3.3/woocommerce_netgiro/index.php:287-294`: 3.3.3 completes the payment and notes the invoice |
| LegacyReturn.RejectedCallFails | includes/class-wc-netgiro.php:418-428 | a rejected call fails the order and notes the order id, invoice and signature. Likewise `index.php:365-378`: the same for 4.0.2; `netgiro-payment-gateway-for-woocommerce/index.php:337-350`: the same for the 3.6.1 plugin; `Woocommerce.v3.3.3/woocommerce_netgiro/index.php:295-302`: the same for 3.3.3; `Woocommerce.v2.6.9/woocommerce_netgiro/index.php:324-341`: 2.6.9 fails the order with its own notes |
| LegacyReturn.NonNumericInvoiceRejected | includes/class-wc-netgiro.php:412 | none of 3.6.1, 4.0.2 and 4.1.1 accepts a non-numeric invoice number |
| LegacyReturn.OrderSignatureReplayable | Woocommerce.v3.3.3/woocommerce_netgiro/index.php:287-289 | sha256(secret . order id) accepted once is accepted with any transaction, total or status. Likewise `netgiro-payment-gateway-for-woocommerce/index.php:319-322`: the same for the 3.6.1 plugin, given a numeric invoice |
| LegacyReturn.ReturnSignatureChecked | includes/class-wc-netgiro.php:404-412 | 4.1.1 accepts only the hash of secret . order id . transaction . invoice . total . status, and a numeric invoice. Likewise `index.php:347-360`: the same for 4.0.2 |
| Refund.OldestMarked | includes/class-wc-netgiro.php:568-572 | with no marked note, the fallback |
| Refund.TransactionOf | includes/class-wc-netgiro.php:550-575 | nothing iff the order is missing, has no id, or is not a netgiro order; the stored transaction id when non-empty. Likewise `includes/class-netgiro-refund.php:83-108`: the same |
| Refund.GetTransaction | includes/class-wc-netgiro.php:550-575 | the note loop computes TransactionOf. Likewise `includes/class-netgiro-refund.php:83-108`: the same |
| Refund.ScanIsOldestMarked | includes/class-wc-netgiro.php:561-573 | walking newest first and overwriting on every marked note leaves the oldest marked note's value |
| Refund.OldestMarkedSnoc | includes/class-netgiro-refund.php:92-106 | an older note changes the result only when it is marked |
| Refund.OldestMarkedFound | includes/class-netgiro-refund.php:92-106 | the first marked note in chronological order decides |
| Refund.TransactionFromOldestNote | includes/class-netgiro-refund.php:92-106 | with an empty stored id, the oldest marked note, stripped, or the empty stored value |
| Refund.SuccessNoteReadBack | includes/class-wc-netgiro.php:568-571 | the note an accepted return writes reads back as its invoice number |
| Refund.StatusChangeUnmarked | includes/class-wc-netgiro.php:569 | status-change notes are never taken for payment notes |
| Refund.RefundFindsPaymentOfReturn | includes/class-wc-netgiro.php:550-575 | after an accepted legacy return, the lookup finds the 4.1.1 transaction id, or the invoice number for the other releases |
| Refund.RefundPayload | includes/class-wc-netgiro.php:505-513 | three fields; refundAmount = (int) amount, truncated toward zero; idempotencyKey = transactionId. Likewise `includes/class-netgiro-refund.php:38-45`: the same |
| Refund.RefundRequest | includes/class-wc-netgiro.php:504-525 | a JSON POST to `refund` with the secret key as token and a 30-second timeout |
| Refund.PostRefund | includes/class-wc-netgiro.php:527-541 | refunded iff the status is 200; the message is the body's Message in both cases; a WP_Error ends the request. Likewise `includes/class-netgiro-refund.php:60-74`: the same |
| Refund.RefundedAsInApiClient | includes/class-netgiro-refund.php:62 | the same replies count as refunds as in the 5.x client: status 200 |
| Refund.RefundStep | includes/class-wc-netgiro.php:482-494 | a crash iff the reply is a WP_Error or the order is missing. Done iff the status is 200, with the success note; otherwise the failure note and the exception message |
| Refund.ProcessRefund | includes/class-wc-netgiro.php:482-494 | sends the request for the transaction found, then leaves that order alone as RefundStep says; no other order changes |
| Refund.RefundOnlyNotes | includes/class-wc-netgiro.php:482-494 | a refund changes neither status, transaction id nor flag, and adds at most one note |
| Refund.Without | includes/class-wc-netgiro.php:587-590 | no entry under the id remains; every other entry is kept |
| Refund.HidePaymentGateway | includes/class-wc-netgiro.php:583-594 | unchanged in the admin or in ISK; otherwise netgiro removed and everything else kept |
| Refund.HidingIdempotent | includes/class-wc-netgiro.php:583-594 | hiding twice is hiding once |
| Refund.WithoutAbsent | includes/class-wc-netgiro.php:588 | a list without the entry is left as it is |
| RefundChange.ChangeBodyOf | index.php:445-468 | the change body: the new total, as one item of quantity 1000 whose amount and unit price are that total |
| RefundChange.ChangeRequest | index.php:470-486 | a POST to payment/change with app key, nonce, and the hash of secret, nonce, url and body |
| RefundChange.ChangeReplyMessage | index.php:488-494 | "" iff the body's ResultCode loosely equals 200, otherwise the body's Message; the HTTP status is not read |
| RefundChange.PostRefundChange | index.php:442-495 | the method, signing through the generateSignature loop, sends ChangeRequest and returns ChangeReplyMessage |
| RefundChange.Judge | index.php:436-439 | done iff the message is ""; otherwise the message is thrown |
| RefundChange.ChangeStep | index.php:421-440 | a missing order crashes; cancel iff nothing remains; otherwise change to the remaining total |
| RefundChange.ProcessRefund | index.php:421-440 | the branch computes ChangeStep |
| RefundChange.CancelExactlyWhenNothingRemains | index.php:423-434 | cancel iff total = refunded; otherwise the change body carries total − refunded |
| RefundChange.ChangeDecidedByBody | index.php:488-494 | two replies with the same body end the same way; done iff ResultCode == 200 or Message is "" |
| RefundChange.ChangeSignedAsApiClient | index.php:470-486 | the change request carries the same app key, nonce and signature headers as the 5.x v1 client |

## Left out

- SHA-256 is a parameter, so nothing depends on its internals. `hash_equals` and PHP's loose `==` between hex digests are string equality.
- Floating point:
  - amounts are exact rationals, so float inexactness is not modelled;
  - how PHP prints a non-integral float is a parameter (`show`);
  - `number_format` of an order total is treated as `round`;
  - a total of "-0" is not distinguished from 0.
- Transport and logging:
  - `wp_remote_request`, `wp_remote_post` and timeouts are not modelled; the provider's reply is an input;
  - the log calls are left out, apart from the level choice (`Api.ResponseLogLevel`).
- Redirects, `exit`, emptying the cart, `wc_add_notice`, echo and HTML escaping are left out. They appear only as the outcome of a handler (`ReturnOutcome`, `CallOutcome`); `esc_html` is a parameter.
- The HTML of the forms is not modelled, only their hidden inputs. This covers the style block, the submit buttons, the script that auto-submits the form and the 2.6.9 radio-button markup.
- The random part of the idempotency key (`uniqid`) is an input digest; only the key's 40-character prefix is modelled.
- `postRefundCancel` (index.php:496-531) is not modelled. It decodes the request body instead of the response, so its result is an input (`cancelResult`) of `RefundChange.ChangeStep`.
- The 4.0.2 refund's transaction id placeholder (`$transactionId = $reason`) and its nonce are inputs.
- No file shown registers a server-to-server callback for version 5, so none is modelled. The `WC_netgiro_callback` URL the form advertises is modelled only as a field.
- Settings screens, admin UI, block-checkout glue and the page-tree walkers (`get_pages`) are not modelled.
- WordPress nonce checks in the order action are booleans (`postNonceValid`, `ajaxNonceValid`).
- `wc_price`, the date formatting and `wp_json_encode` are parameters; an encoder returning None stands for `false`.
- Gateway.ReadReturnParams, LegacyReturn.Accepted: the query map holds the `ng_*` values as `sanitize_text_field(wp_unslash(…))` leaves them. The sanitizing itself (unslashing, tag stripping, whitespace folding) is not modelled, so nothing is said about a raw value it would change.
- Api.HandleApiResponse, Api.ClassifyTransactionStatus, Api.AsData: a reply body that decodes to a JSON scalar (a number, a string or a boolean) is carried as the envelope's data. In PHP 8 passing it to `format_success_response` or `format_error_response`, whose `$data` is `?array`, raises a TypeError that ends the request; the model does not capture that crash.
- Php.IntVal, Php.AbsInt: PHP reads a numeric prefix that has a fraction or an exponent as a double and then converts it. The model reads the exact decimal value and applies the PHP_INT_MAX cap, and the overflow to infinity, to that exact value, so the rounding to a double is not modelled. A value at the very edge of either threshold may therefore convert differently.
- Json: numbers in decoded replies are integers; fractional and exponent numbers in a reply body are not modelled.
- Orders:
  - orders are kept in a map from id to order. Version 5 and the order action look an order up by `absint` of the id parameter. The legacy return handlers pass the raw `ng_orderid` to `new WC_Order` or `wc_get_order`; the model takes it, as WooCommerce 3.0 and later do, to load an order only when it is numeric and positive (`LegacyReturn.LoadedOrderId`);
  - LegacyReturn.LegacyGateway.HandleNetgiroCall: when the id loads no order, the model changes nothing and reports `UnknownOrder`. In the source, 4.1.1 carries on with an empty order object, whose accepted path saves a new order holding the transaction id; 3.3.3 and 2.6.9 call methods on `false`, which is fatal; and `new WC_Order` of a numeric id with no order throws. None of these is modelled;
  - every order is stored under its own non-zero id;
  - the order methods (`update_status`, `payment_complete`, `add_order_note`) keep WooCommerce's behaviour only as far as the plugin observes it: status, transaction id, notes and flag. Whether an order needs processing (`needs_processing()`, false when every item is virtual and downloadable) is an input, `needsProcessing`; the paid date, stock reduction and e-mails of `payment_complete` are left out;
  - of the hooks a status change fires, only the gateway's own on-hold to processing/completed hook is modelled, both for a merchant's change and for the one `payment_complete` makes during a signed return.
- Items:
  - WooCommerce's `get_item_subtotal`, `get_line_subtotal`, `get_product` and the item getters are inputs;
  - in 3.3.3 and 2.6.9, an item's quantity is a number.
- Of PHP 8's runtime errors, only these are modelled: `count()` of the never-assigned item list (TypeError), division by zero, and indexing a WP_Error or a missing order. These end the request (`TypeError`, `DivisionByZero`, `RefundCrashed`).
- A `Message` in a reply that is an object or an array is rendered through `Json.Text`. The unreachable `?? 'Unknown error'` fallback of the status check is left out.
- `hide_payment_gateway`'s array of gateways keyed by id is a sequence of (id, gateway) pairs.
- The 2.6.9 payment-option list and branding script are built by string appends in the source. Here they are a sequence and a recursive function: `OldForms.BrandingMatchesOptions` relates the two, but the appends themselves are not modelled step by step.

## Behaviour worth noting

- `process_netgiro_return` (includes/class-netgiro-gateway.php:141-240) never reads the flag, so a replayed, validly signed return overwrites REFUNDED with CONFIRMED or AUTHORIZED, and the refund guard then lets a second refund through (`Gateway.ReplayedReturnReopensRefund`). Against status changes and refunds the flag stays REFUNDED (`Gateway.RefundedIsFinalWithoutReturns`).
- A signed return with a confirmation type other than "2" for an order that is on hold and still AUTHORIZED calls `payment_complete` (:219) before it writes CONFIRMED (:229). Leaving on-hold fires the gateway's own hook (:96-97), which sends ConfirmCart for the order (`Gateway.ReturnEffect`).
- In 4.0.2, the outcome of a payment change is read only from the body:
  - a `ResultCode` equal to 200 counts as success;
  - so does a body whose `Message` is the empty string;
  - the HTTP status is never looked at (`RefundChange.ChangeDecidedByBody`).
- The 4.1.1 refund sends its request before it knows whether the order exists. For a missing order, the request is sent, and recording the outcome then fails.
- The 4.1.1 transaction lookup:
  - notes come back newest first, and each marked note overwrites the value, so the **oldest** marked note wins;
  - a stored transaction id of "0" counts as empty, so the notes are consulted.
- The URL check of 3.6.1, 4.0.2 and 4.1.1 joins its two conditions with `&&`: the form is refused only when both the gateway URL and the cancel URL are invalid.
- The 2.6.9 handler writes its message property into notes, but never sets it, so those notes are empty.
