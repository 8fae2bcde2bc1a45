# PIX checkout — a verified Dafny model

This project models the logic of a PIX checkout written in TypeScript (React pages plus one Supabase edge function). A payer fills in a customer form, confirms a phone number in a dialog, and the page asks the `create-pix` function for a PIX code. The function calls the FusionPay gateway with the platform's Basic credential. The page then shows the code as a QR code and as copy-and-paste text, with a ten-minute countdown. A payment link does the same for a stored amount and counts its accesses. An admin form stores a user's FusionPay key pair.

One Dafny module per source file, plus small helper modules:

| module | source | form |
|---|---|---|
| `Wrappers`, `Digits`, `Base64`, `Json`, `Customer` | helpers | `Option`; the `/\D/g` filter and decimal rendering; base 64 (section 4 of RFC 4648) and `btoa`'s Latin-1 rule; JSON values with JavaScript truthiness and `?.`; the customer record |
| `CreatePix` | `supabase/functions/create-pix/index.ts` | pure: `Handle(method, body, env, upstream)` returns the gateway call it makes (if any) and its reply |
| `Pix` | `src/components/checkout/PixPayment.tsx` | class `PixPayment` with the component's state fields; pure countdown arithmetic |
| `Steps` | markup shared by both pages | pure view function |
| `PaymentLink` | `src/pages/PaymentLink.tsx` | class `LinkTable` (rows as a map) and class `PaymentLinkPage` |
| `IndexPage` | `src/pages/Index.tsx` | class `IndexPage` |
| `CheckoutForm` | `src/components/checkout/CheckoutForm.tsx` | class `CheckoutForm` |
| `PhoneConfirmModal` | `src/components/checkout/PhoneConfirmModal.tsx` | class `PhoneConfirmModal` |
| `PaymentKeys` | `src/components/admin/PaymentKeysManager.tsx` | class `SettingsTable` (rows as a sequence) and class `PaymentKeysManager` |

Conventions:
- Time is an explicit `now` in milliseconds. A `setInterval` tick, a `setTimeout` callback and an `await` that resolves are each a method call.
- Amounts are integer centavos. The landing page's `214.80` is `21480`.
- A store, the environment and the gateway's answer are inputs. A query that fails is an input flag or an error code.

What the code does, followed here:
- The edge function always uses the two environment keys. It never reads the link code the client sends.
- The `Authorization` header is `Basic` plus the base 64 of `publicKey:secretKey`, in that order.
- The gateway is asked for a 3600-second expiry. The page counts down its own ten minutes.
- Only the `pix.qrcode` response shape is read.
- The code has no short-code generator, no per-vendor credential routing and no second response shape, so none is modelled.

## Model

| member | source | states |
|---|---|---|
| `Digits.DigitsOnly` | supabase/functions/create-pix/index.ts:66 | `replace(/\D/g, "")` yields only digits and is never longer than its input |
| `Digits.DigitsOnlyLength` | src/components/checkout/CheckoutForm.tsx:62 | the filtered string has exactly as many characters as the input has digits |
| `Digits.DigitsOnlyAppend` | supabase/functions/create-pix/index.ts:66 | filtering distributes over concatenation, so digits keep their order |
| `Digits.DigitsOnlyIgnoresMask` | src/components/checkout/PhoneConfirmModal.tsx:32 | inserting a run without digits (mask characters) anywhere never changes the filtered digits |
| `Digits.DigitsOnlyFixedPoint` | supabase/functions/create-pix/index.ts:66 | a string passes through the filter unchanged if and only if it is all digits |
| `Digits.DigitsOnlyIdempotent` | supabase/functions/create-pix/index.ts:66 | filtering twice equals filtering once |
| `Digits.NatToDecimal` | supabase/functions/create-pix/index.ts:75 | `String(n)` is a non-empty digit string, one digit exactly for `n < 10`, with no leading zero except for 0 itself |
| `Digits.DecimalRoundTrip` | supabase/functions/create-pix/index.ts:75 | reading a rendered number back gives the number |
| `Digits.PadTwo` | src/components/checkout/PixPayment.tsx:93 | `String(n).padStart(2, '0')` is all digits |
| `Digits.PadTwoRoundTrip` | src/components/checkout/PixPayment.tsx:93 | below 100 the padded text is two digits that read back as `n` |
| `Base64.Encode` | supabase/functions/create-pix/index.ts:34 | base 64 output has four characters per started group of three bytes |
| `Base64.DecodeFullGroup` | supabase/functions/create-pix/index.ts:34 | a full four-symbol group decodes to its three bytes, followed by the decoding of the rest |
| `Base64.DecodeEncode` | supabase/functions/create-pix/index.ts:34 | decoding an encoding gives back the bytes (RFC 4648, section 4) |
| `Base64.IsLatin1` | supabase/functions/create-pix/index.ts:34 | `btoa` accepts a string exactly when every character's code is at most 0xFF |
| `Base64.CharCodes` | supabase/functions/create-pix/index.ts:34 | a Latin-1 string maps to its character codes, one byte per character |
| `Base64.Latin1String` | supabase/functions/create-pix/index.ts:34 | bytes map back to the characters with those codes |
| `Base64.Btoa` | supabase/functions/create-pix/index.ts:34 | `btoa` succeeds exactly on Latin-1 strings and then yields the base 64 of their codes |
| `Base64.AtobBtoa` | supabase/functions/create-pix/index.ts:34 | `atob(btoa(s)) == s` for every string `btoa` accepts |
| `Json.Truthy` | src/components/checkout/PixPayment.tsx:49-52 | `undefined` and `null` are falsy, objects and arrays truthy, and a string is truthy exactly when non-empty |
| `Json.Member` | src/components/checkout/PixPayment.tsx:49-52 | `v?.key` is defined exactly for an object that has the key, and is then that member |
| `Json.NonEmptyString` | src/components/checkout/PixPayment.tsx:52-54 | a truthy string member is present and non-empty |
| `Customer.Complete` | src/components/checkout/CheckoutForm.tsx:71 | the form data is complete exactly when none of CPF, name, e-mail and phone is empty |
| `Customer.OrDefault` | src/pages/PaymentLink.tsx:132-134 | `s \|\| fallback` yields the fallback exactly when `s` is empty (or already the fallback) |
| `CreatePix.StatusOf` | supabase/functions/create-pix/index.ts:81-90 | the error reply has status 500, and every other reply the default 200 |
| `CreatePix.CredentialsConfigured` | supabase/functions/create-pix/index.ts:29 | the keys count as configured exactly when neither is unset or empty (`!publicKey \|\| !secretKey` is false) |
| `CreatePix.IsOk` | supabase/functions/create-pix/index.ts:72 | `response.ok` holds exactly for a 2xx status |
| `CreatePix.BasicAuthorization` | supabase/functions/create-pix/index.ts:33-34 | the header exists exactly when both keys are Latin-1, otherwise `btoa` throws; it is then `Basic ` followed by the base 64 of the character codes of `publicKey:secretKey` |
| `CreatePix.TransactionFor` | supabase/functions/create-pix/index.ts:47-69 | one "Black Friday" item whose unit price equals the body amount, quantity 1, not tangible; method "pix", expiry 3600 s; the body's name and e-mail; document type "cpf" whose number is the CPF with every non-digit removed, digits in order |
| `CreatePix.ApiErrorMessage` | supabase/functions/create-pix/index.ts:75 | the 500 message starts with "FusionPay API error: " and ends with the upstream body text |
| `CreatePix.ReplyFor` | supabase/functions/create-pix/index.ts:72-92 | success exactly for an ok status with a JSON body, which is then returned unchanged; anything else is a 500 |
| `CreatePix.Handle` | supabase/functions/create-pix/index.ts:15-94 | OPTIONS gets the preflight and no call; a call is made exactly when the body parses, both keys are set, non-empty and Latin-1, and the CPF is a string, with the Basic header and transaction built from them; with no call, a 500 |
| `CreatePix.MissingCredentialsNoCall` | supabase/functions/create-pix/index.ts:26-31 | with either key unset or empty, no gateway call and a 500 "FusionPay credentials not configured" |
| `CreatePix.CredentialsIndependentOfBody` | supabase/functions/create-pix/index.ts:22-34 | the credential sent never depends on the request body |
| `CreatePix.SplitAtColon` | supabase/functions/create-pix/index.ts:34 | the split is at the first colon: the user-id has no colon, and user-id, colon and password make up the input |
| `CreatePix.SplitAtColonJoin` | supabase/functions/create-pix/index.ts:34 | `user:password` splits back into `user` and `password` when the user-id has no colon |
| `CreatePix.BasicAuthorizationRoundTrip` | supabase/functions/create-pix/index.ts:34-44 | decoded as the gateway does (section 2 of RFC 7617), the header gives back the public and the secret key |
| `CreatePix.LeadingDigits` | supabase/functions/create-pix/index.ts:75 | the run of digits at the start of a string is maximal |
| `CreatePix.LeadingDigitsOf` | supabase/functions/create-pix/index.ts:75 | the leading-digit run of a number followed by a non-digit is exactly the number |
| `CreatePix.RejectedCallReportsStatusAndBody` | supabase/functions/create-pix/index.ts:72-76 | a non-ok status gives a 500 whose message reads back as that status and the upstream body text |
| `CreatePix.SuccessPassesThrough` | supabase/functions/create-pix/index.ts:78-83 | an ok response's JSON is returned unchanged with status 200 |
| `Pix.PropsFor` | src/pages/PaymentLink.tsx:130-136 | payment gets the amount and link code; the name is `name \|\| "Cliente"` (so never empty), e-mail and CPF fall back to "" |
| `Pix.MinutesOf` | src/components/checkout/PixPayment.tsx:91 | minutes shown are below 60 |
| `Pix.SecondsOf` | src/components/checkout/PixPayment.tsx:92 | seconds shown are below 60 |
| `Pix.CountdownText` | src/components/checkout/PixPayment.tsx:91-93 | the timer text is `MM:SS`: two digits reading as the minutes, a colon, two digits reading as the seconds |
| `Pix.WholeSeconds` | src/components/checkout/PixPayment.tsx:91-92 | minutes × 60 + seconds is the whole seconds left, hours dropped |
| `Pix.CountdownTextMeaning` | src/components/checkout/PixPayment.tsx:91-93 | the timer text is always five characters `MM:SS` and reads back as the whole seconds left modulo the hour |
| `Pix.LastSecondReadsZero` | src/components/checkout/PixPayment.tsx:85-93 | under one second left the text reads "00:00" while the code is not yet expired |
| `Pix.HoursDropped` | src/components/checkout/PixPayment.tsx:91 | an hour more left gives the same text |
| `Pix.NextCountdown` | src/components/checkout/PixPayment.tsx:81-94 | a tick expires the code exactly at or after its expiration, and never un-expires it; the text is then "00:00", otherwise the time left |
| `Pix.ExpiredTicksAreStable` | src/components/checkout/PixPayment.tsx:83-88 | after a tick has found the code expired, later ticks change nothing |
| `Pix.CreationOutcome` | src/components/checkout/PixPayment.tsx:44-69 | a function error ends in its message, or "Erro ao criar pagamento PIX" when that is empty; data without a truthy `pix` ends in "Dados do PIX não foram retornados pela API"; otherwise the PIX data is taken with its `qrcode` if that is a non-empty string |
| `Pix.PixPayment.constructor` | src/components/checkout/PixPayment.tsx:19-26 | starts loading, with no code, error, expiration or expiry |
| `Pix.PixPayment.StartCreation` | src/components/checkout/PixPayment.tsx:28-32 | a new creation sets loading and clears the error; the code, expiration and `isExpired` are kept |
| `Pix.PixPayment.HandleCreationResult` | src/components/checkout/PixPayment.tsx:44-76 | an error sets `error` only; PIX data sets the code (if any) in both code fields and the expiration to now + 600000 ms; loading ends; `isExpired` unchanged |
| `Pix.PixPayment.Tick` | src/components/checkout/PixPayment.tsx:78-100 | no countdown before an expiration exists; otherwise the state becomes `NextCountdown`; `isExpired` only ever goes to true |
| `Pix.PixPayment.HandleCopy` | src/components/checkout/PixPayment.tsx:102-112 | no-op on an empty code; otherwise the code goes to the clipboard, `copied` is set and a reset is due 3000 ms later |
| `Pix.PixPayment.CopyTimersFire` | src/components/checkout/PixPayment.tsx:109-111 | each reset timer due by now clears `copied`; the rest stay pending |
| `Pix.PixPayment.View` | src/components/checkout/PixPayment.tsx:114-221 | the loader exactly while loading; after that the error screen exactly when there is a non-empty error, showing it, and the ready screen otherwise; there the QR code and copy-and-paste code are shown exactly when non-empty and not expired, and the expired notice exactly when expired |
| `Pix.Pending` | src/components/checkout/PixPayment.tsx:109-111 | the timers still pending at `now` are exactly those due later |
| `Steps.CheckoutViewFor` | src/pages/Index.tsx:60-85 | payment is shown exactly when `showPayment`, with the props built from customer data; the dialog is mounted exactly when customer data exists, open as `showPhoneModal`, starting from its phone |
| `Steps.PaymentIgnoresPhone` | src/pages/Index.tsx:27-68 | the phone never reaches the payment step |
| `IndexPage.IndexPage.constructor` | src/pages/Index.tsx:16-19 | no data, dialog closed, no phone, no payment |
| `IndexPage.IndexPage.HandleCustomerDataFilled` | src/pages/Index.tsx:21-24 | stores the data and opens the dialog without showing payment |
| `IndexPage.IndexPage.HandlePhoneConfirm` | src/pages/Index.tsx:26-30 | stores the phone, closes the dialog and shows payment |
| `IndexPage.IndexPage.HandlePhoneCancel` | src/pages/Index.tsx:83 | only closes the dialog |
| `IndexPage.IndexPage.View` | src/pages/Index.tsx:32-85 | payment gets 21480 centavos and no link code; the phone dialog is mounted exactly when customer data exists, open as `showPhoneModal`, starting from the data's phone |
| `PaymentLink.ActiveMatches` | src/pages/PaymentLink.tsx:40-45 | the rows matched are exactly the active links with the code |
| `PaymentLink.AcceptedIffActiveLink` | src/pages/PaymentLink.tsx:40-45 | with unique codes, exactly one row matches if and only if an active link has the code |
| `PaymentLink.Touched` | src/pages/PaymentLink.tsx:56-60 | only the link's counter changes, to the value read plus one |
| `PaymentLink.LinkTable.ResolveAndTouch` | src/pages/PaymentLink.tsx:40-60 | a link is found exactly when one active row has the code; only that row's counter is written, and only if the write goes through |
| `PaymentLink.PaymentLinkPage.constructor` | src/pages/PaymentLink.tsx:22-28 | loading, link not valid, amount 0, no customer steps taken |
| `PaymentLink.PaymentLinkPage.FetchPaymentLink` | src/pages/PaymentLink.tsx:36-69 | an accepted link sets amount and validity; no match or a thrown query writes nothing and schedules the redirect; a refused counter write is ignored; loading ends on every path |
| `PaymentLink.PaymentLinkPage.Mount` | src/pages/PaymentLink.tsx:30-34 | with no route code nothing is queried, loading stays and no page field changes; with one, the outcome is exactly that of the fetch (accepted link, or redirect with nothing written) |
| `PaymentLink.PaymentLinkPage.HandleCustomerDataFilled` | src/pages/PaymentLink.tsx:71-74 | stores the data and opens the dialog |
| `PaymentLink.PaymentLinkPage.HandlePhoneConfirm` | src/pages/PaymentLink.tsx:76-80 | stores the phone, closes the dialog and shows payment |
| `PaymentLink.PaymentLinkPage.HandlePhoneCancel` | src/pages/PaymentLink.tsx:151 | only closes the dialog |
| `PaymentLink.PaymentLinkPage.Screen` | src/pages/PaymentLink.tsx:82-153 | loader while loading, nothing for an invalid link, else the steps with the link's amount and code, and the phone dialog mounted exactly when customer data exists, open as `showPhoneModal`, starting from the data's phone |
| `CheckoutForm.StartsLookup` | src/components/checkout/CheckoutForm.tsx:29-31 | a CPF value starts the lookup exactly when it contains eleven digits, whatever else it contains |
| `CheckoutForm.CheckoutForm.constructor` | src/components/checkout/CheckoutForm.tsx:22-26 | all fields empty, not loading |
| `CheckoutForm.CheckoutForm.FetchCustomerData` | src/components/checkout/CheckoutForm.tsx:28-33 | a lookup starts, with loading set, exactly when the value has eleven digits |
| `CheckoutForm.CheckoutForm.HandleCpfChange` | src/components/checkout/CheckoutForm.tsx:58-66 | the raw masked value is stored; a lookup starts exactly when it has eleven digits |
| `CheckoutForm.CheckoutForm.CompleteLookup` | src/components/checkout/CheckoutForm.tsx:37-55 | name, e-mail and phone get the fixed values whatever the CPF; loading ends |
| `CheckoutForm.CheckoutForm.SetName` | src/components/checkout/CheckoutForm.tsx:113 | editing replaces the name |
| `CheckoutForm.CheckoutForm.SetEmail` | src/components/checkout/CheckoutForm.tsx:126 | editing replaces the e-mail |
| `CheckoutForm.CheckoutForm.SetPhone` | src/components/checkout/CheckoutForm.tsx:138 | editing replaces the phone |
| `CheckoutForm.CheckoutForm.HandleSubmit` | src/components/checkout/CheckoutForm.tsx:68-82 | the callback gets exactly the current values if and only if none is empty |
| `PhoneConfirmModal.Confirmable` | src/components/checkout/PhoneConfirmModal.tsx:32 | a phone can be confirmed exactly when it contains eleven digits, whatever else it contains |
| `PhoneConfirmModal.PhoneConfirmModal.constructor` | src/components/checkout/PhoneConfirmModal.tsx:29 | the phone starts as `initialPhone` |
| `PhoneConfirmModal.PhoneConfirmModal.ReceiveInitialPhone` | src/components/checkout/PhoneConfirmModal.tsx:29 | a new `initialPhone` does not change the edited phone |
| `PhoneConfirmModal.PhoneConfirmModal.HandleChange` | src/components/checkout/PhoneConfirmModal.tsx:56 | editing replaces the phone |
| `PhoneConfirmModal.PhoneConfirmModal.HandleConfirm` | src/components/checkout/PhoneConfirmModal.tsx:31-35 | `onConfirm` receives the phone as typed exactly when it has eleven digits |
| `PhoneConfirmModal.OnOpenChangeCallsCancel` | src/components/checkout/PhoneConfirmModal.tsx:38 | closing the dialog calls `onCancel`, opening it does not |
| `PaymentKeys.RowsFor` | src/components/admin/PaymentKeysManager.tsx:32 | the rows selected by `user_id` are exactly the user's rows, each as often as it occurs in the table |
| `PaymentKeys.RowsForAppend` | src/components/admin/PaymentKeysManager.tsx:72-78 | selecting from an appended table is selecting from each part |
| `PaymentKeys.MaybeSingle` | src/components/admin/PaymentKeysManager.tsx:29-35 | `maybeSingle` finds the row exactly when the user has one row, nothing for none, and the PGRST116 error for two or more |
| `PaymentKeys.UpdateFor` | src/components/admin/PaymentKeysManager.tsx:61-67 | every row of the user gets the pair; every other row is unchanged |
| `PaymentKeys.UpdateKeepsRowCount` | src/components/admin/PaymentKeysManager.tsx:61-67 | an update keeps the user's row count, and all the user's rows then hold the pair |
| `PaymentKeys.UpdateLeavesOthers` | src/components/admin/PaymentKeysManager.tsx:61-67 | an update for one user leaves every other user's rows as they were |
| `PaymentKeys.NewRow` | src/components/admin/PaymentKeysManager.tsx:74-78 | the inserted row belongs to the user and loads back as exactly the saved pair |
| `PaymentKeys.SavedRows` | src/components/admin/PaymentKeysManager.tsx:59-82 | with settings, the user keeps the same number of rows, all holding the pair; without, the new row is appended after the user's existing rows; other users' rows never change |
| `PaymentKeys.LoadedKeys` | src/components/admin/PaymentKeysManager.tsx:37-41 | a found row gives both keys, "" for a missing one |
| `PaymentKeys.SaveKeepsOneRow` | src/components/admin/PaymentKeysManager.tsx:59-82 | from no row and no settings, or one row and settings, a save leaves one row with the saved pair that the next load finds |
| `PaymentKeys.DuplicateRowsLoadNothing` | src/components/admin/PaymentKeysManager.tsx:33-41 | with several rows for the user the load gets PGRST116 and shows no keys |
| `PaymentKeys.PaymentKeysManager.constructor` | src/components/admin/PaymentKeysManager.tsx:15-20 | loading, not saving, empty keys, no settings |
| `PaymentKeys.PaymentKeysManager.FetchPaymentKeys` | src/components/admin/PaymentKeysManager.tsx:26-48 | a found row fills both keys and sets `hasSettings`; otherwise nothing changes; only a non-PGRST116 error is reported; loading ends |
| `PaymentKeys.PaymentKeysManager.SetPublicKey` | src/components/admin/PaymentKeysManager.tsx:123 | editing replaces the public key |
| `PaymentKeys.PaymentKeysManager.SetSecretKey` | src/components/admin/PaymentKeysManager.tsx:136 | editing replaces the secret key |
| `PaymentKeys.PaymentKeysManager.SaveEnabled` | src/components/admin/PaymentKeysManager.tsx:158 | the save button is enabled only when not saving and both keys are filled in |
| `PaymentKeys.PaymentKeysManager.HandleSave` | src/components/admin/PaymentKeysManager.tsx:50-91 | with a key empty nothing is written; a click while the button is enabled never hits that case; otherwise update when settings exist, insert and set `hasSettings` when not; a failed write changes nothing; `saving` ends false |

## Left out

- I/O and timing plumbing are left out: Supabase queries, `fetch`, toasts, `console`, navigation and the clipboard. The model keeps what they return, or the fact that they were called. Timers are method calls, and the CORS headers are not modelled.
- `Math.round(amount * 100)` and `toFixed(2)` are left out because they are floating-point arithmetic. Amounts are given as integer centavos.
- Pix.CreationOutcome: a truthy `qrcode` that is not a string is treated as no code. The component would store and render the non-string value.
- CreatePix.Handle: the runtime's own messages (a body that is not JSON, a network failure, an unparsable gateway body, `btoa`'s Latin-1 error, the `TypeError` for a CPF that is not a string) are inputs or fixed constants. They are not derived from the runtime, whose `TypeError` text differs between `undefined` and other non-strings.
- CreatePix.Handle: body values of the wrong type are modelled only for the CPF, the one field whose misuse throws. A name, e-mail or amount of another type is sent on as `JSON.stringify` renders it, which the model does not represent.
- PaymentLink.PaymentLinkPage.FetchPaymentLink: the fetch is one atomic step. The interleaving of `loadingLink` with other events is not modelled. Neither is the lost update when two visits read the same counter before either writes it.
- PaymentKeys.PaymentKeysManager.FetchPaymentKeys: the load is one atomic step. A fault is an error code given as input.
- PaymentKeys.PaymentKeysManager.HandleSave: the save is one atomic step, so the moment when `saving` is true is not observable.
- CheckoutForm.CheckoutForm.CompleteLookup: the lookup's `catch` branch is left out, since the simulated wait never rejects. Inputs that are disabled while loading are not modelled, so edits are accepted at any time.
- The pages' `OrderSummary`, trust badges, processing screen and branding are left out: they are static presentation.
- The CPF lookup function, the admin dashboard and the admin amount form are not part of this model.
