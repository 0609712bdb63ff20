# Near-CrowdFund in Dafny

A model of Near-CrowdFund's core. The core is a NEAR smart contract that keeps a campaign registry, collects donations and runs a small NFT market. Beside it are two pieces of the browser client that drive the contract.

- `Contract` (contract.dfy) models `Crowdfunding/src/lib.rs`. The class `Contract.Crowdfunding` has the contract's fields:
  - the campaign table and its `next_campaign_id` counter;
  - the token table and its `next_token_id` counter;
  - the access-rights table;
  - the platform wallet.

  Each state-changing entry point is a method. The NEAR environment (`predecessor_account_id`, `attached_deposit`, `block_timestamp`) arrives as explicit parameters. A panic returns `Panicked(reason)` and leaves the object unchanged, as an aborted transaction does. The `Promise` transfers a call schedules come back as a list of `Transfer(recipient, amount)`. The invariant `Valid()` says:
  - both counters fit in `u64`;
  - every table key is below its counter;
  - every amount fits in `u128`;
  - each campaign's `amount_collected` is the sum of its donations;
  - the access rights are exactly the purchases made.

  The read-only views are functions.
- `Decimal` (decimal.dfy) models the decimal rendering of `u128::to_string`, plus a parser that reads it back.
- `Yocto` (yocto.dfy) holds the integer widths, the 0.01 NEAR creation fee, the 90/10 donation split and the sum over a donation map.
- `Clock` (clock.dfy) holds the client's time arithmetic. `Math.floor(ms / 1000)` gives whole seconds, and multiplying by `1_000_000_000` gives ledger nanoseconds.
- `IndexPage` (index_page.dfy) models `app/src/pages/index.js`:
  - the open/closed status rule;
  - the projection of a fetched campaign list, judged at one instant;
  - the fetch, issued only for a connected wallet;
  - the page's upload and ledger callbacks.

  Each call to a collaborator is recorded in `Page.calls`. Each collaborator's answer is an abstract outcome parameter.
- `CreateForm` (create_form.dfy) models `app/src/components/Create.js`. It holds the form fields, the image, the `isCreating` flag and `handleMint`.

The client and the contract use different boundaries, and each is modelled as its source writes it:
- The page shows a campaign whose deadline equals the listing instant as closed (strict `>`). `donate` still accepts a block timestamp equal to the deadline (`<=`).
- The page shows a fully funded campaign as closed. `donate` never compares the collected amount with the target.

Two behaviours of the source are kept as written:
- After a failed campaign query the page keeps its old listing and leaves `isLoading` set. The source never resets the flag on that path.
- `createFund` swallows ledger failures, so `handleMint` clears the image after every successful upload.

## Model

| member | source | states |
|---|---|---|
| `Decimal.NatToString` | Crowdfunding/src/lib.rs:57-59 | the rendering of an amount is a non-empty digit string without leading zeros ("0" for zero) |
| `Decimal.ParseDecimal` | app/src/pages/index.js:58-59 | a string reads as a number exactly when it is a non-empty string of digits |
| `Decimal.ParseNatToString` | Crowdfunding/src/lib.rs:57-59 | reading back a rendered amount gives the amount itself (round trip) |
| `Yocto.RevenueSplit` | Crowdfunding/src/lib.rs:158-159 | creator share is `floor(amount*90/100)`, at most the deposit; both shares sum to the deposit |
| `Yocto.SumRemove` | Crowdfunding/src/lib.rs:148-156 | a map's total is any one entry plus the total of the rest, so the total does not depend on key order |
| `Yocto.SumUpdate` | Crowdfunding/src/lib.rs:148-156 | setting one donor's entry changes the total by exactly the difference from its old value (0 if absent) |
| `Contract.Credit` | Crowdfunding/src/lib.rs:148-156 | the donor's entry and `amount_collected` each grow by exactly the deposit; other donors and fields are unchanged; collected stays equal to the sum of donations |
| `Contract.ToView` | Crowdfunding/src/lib.rs:51-61 | text fields and deadline are copied; target and collected are rendered so that they read back exactly |
| `Contract.Crowdfunding.constructor` | Crowdfunding/src/lib.rs:87-98 | empty tables, both counters 0, the given platform wallet, invariant holds |
| `Contract.DecodeU64Arg` | Crowdfunding/src/lib.rs:106 | a `U64` argument (`target` as written, and `price` at line 211): a string of digits, optionally after one `+`, is accepted exactly when it reads as a number below 2^64 |
| `Contract.DecodeU128Arg` | Crowdfunding/src/lib.rs:32 | the corrected `target` argument: a string of digits, optionally after one `+`, is accepted exactly when it reads as a number below 2^128, the width of the stored `target` |
| `Contract.PlusSignAccepted` | Crowdfunding/src/lib.rs:106 | both decoders read a rendered number the same with or without one leading `+`, and refuse a lone `+` |
| `Contract.ScaledTargetRejectedAsU64` | Crowdfunding/src/lib.rs:106 | every target of 2^64 yocto or more, rendered as the client sends it, fails to deserialize as written |
| `Contract.OneNearTargetRejectedAsU64` | Crowdfunding/src/lib.rs:106 | a 1 NEAR target (10^24 yocto) cannot be sent to `create_campaign` as written |
| `Contract.ScaledTargetAcceptedAsU128` | Crowdfunding/src/lib.rs:32 | with the corrected argument, every `u128` yocto target arrives intact |
| `Contract.Crowdfunding.CreateCampaign` | Crowdfunding/src/lib.rs:100-130 | a target text that does not decode (corrected `U128` argument) or a deadline outside `u64` fails first; then panics with no change iff deposit < 10^22 yocto (or the u64 counter would overflow); otherwise stores caller/target/deadline with 0 collected and no donations under the old counter, which was unused, and adds 1 to the counter; everything else unchanged |
| `Contract.Crowdfunding.Donate` | Crowdfunding/src/lib.rs:132-163 | panics with no change on an id outside `u64` (the arguments do not deserialize), then on a missing id, on `timestamp > deadline` (equality accepted) or on u128 overflow; no target check; otherwise credits exactly the deposit and returns two transfers, creator share to the creator and the rest to the platform wallet; invariant kept |
| `Contract.Crowdfunding.GetCampaigns` | Crowdfunding/src/lib.rs:165-170 | exactly one view per stored campaign id, each id below the counter |
| `Contract.Crowdfunding.GetDonations` | Crowdfunding/src/lib.rs:172-180 | an id outside `u64` does not deserialize; otherwise "Campaign not found" iff the id is absent; else one entry per donor whose string reads back as that donor's total |
| `Contract.Crowdfunding.SetPlatformWallet` | Crowdfunding/src/lib.rs:182-189 | changes the wallet iff the caller is the current wallet, else panics with no change |
| `Contract.Crowdfunding.MintNft` | Crowdfunding/src/lib.rs:191-208 | returns the old token counter, stores under it (previously unused) a token owned by the caller, not for sale, no price; counter +1; nothing else changes |
| `Contract.Crowdfunding.ListNftForSale` | Crowdfunding/src/lib.rs:210-219 | panics with no change, in this order, on a price that does not deserialize as `U64` or a token id outside `u64`, a missing token, or a caller who is not its owner; else only `for_sale := true` and `price := Some(price)` change |
| `Contract.Crowdfunding.BuyNft` | Crowdfunding/src/lib.rs:221-236 | panics with no change on an id outside `u64` (the arguments do not deserialize), then unless the token exists and is for sale, has a price, deposit >= price and buyer != owner; else the whole deposit goes to the owner, the buyer gains access and the token is untouched |
| `Contract.Crowdfunding.GetNft` | Crowdfunding/src/lib.rs:238-240 | an id outside `u64` does not deserialize; otherwise a token is returned exactly when stored, and then its id is below the counter |
| `Contract.Crowdfunding.GetAllNfts` | Crowdfunding/src/lib.rs:242-244 | every stored token with its id, all ids below the counter |
| `Contract.Crowdfunding.HasAccess` | Crowdfunding/src/lib.rs:246-248 | an id outside `u64` does not deserialize; otherwise true exactly for the (token, user) pairs that bought the token, false for every other pair |
| `Clock.WholeSeconds` | app/src/components/Create.js:30-31 | the result is the second containing the millisecond instant (floor, also for negative instants) |
| `Clock.SecondNanos` | app/src/components/Create.js:31-32 | the nanosecond deadline is a multiple of 10^9, its second is the entered second, and it is within one second below the entered instant |
| `IndexPage.FirstWord` | app/src/pages/index.js:58-59 | `split(" ")[0]`: the longest space-free prefix of the string, the whole string when it has no space |
| `IndexPage.ParsedAmount` | app/src/pages/index.js:58-59 | a number is read only from a non-empty digit first word; a string without spaces is read whole |
| `IndexPage.Below` | app/src/pages/index.js:64 | `collected < target` is false when either side is `NaN` (`None`), else the comparison of the numbers |
| `IndexPage.StatusAt` | app/src/pages/index.js:64 | closed whenever the deadline is not after the instant or collected is not below target; the full open-iff rule on contract views is proved in `IndexPage.StatusOfContractView` |
| `IndexPage.ListingInstant` | app/src/pages/index.js:54-55 | the listing instant is a multiple of 10^9 ns and the latest whole second not after the clock reading |
| `IndexPage.ParsedRenderedAmount` | app/src/pages/index.js:58-59 | the page reads back exactly the amount the contract rendered |
| `IndexPage.Project` | app/src/pages/index.js:57-66 | one entry per fetched pair, same order, id and record kept; status is open iff deadline > the single instant and collected < target |
| `IndexPage.StatusOfContractView` | app/src/pages/index.js:54-64 | for a stored campaign's view: open iff `deadline > floor(now/1000)*10^9` and collected < target, else closed |
| `IndexPage.DeadlineAtInstantIsClosed` | app/src/pages/index.js:64 | a deadline equal to the whole-second instant is shown as closed |
| `IndexPage.FundedIsClosed` | app/src/pages/index.js:64 | a campaign with collected >= target is closed even before its deadline |
| `IndexPage.StraddlingDeadlines` | app/src/pages/index.js:54-57 | two campaigns with equal amounts whose deadlines straddle the one instant are listed one open and one closed |
| `IndexPage.ListingOfContract` | app/src/pages/index.js:49-66 | whatever order the views of `get_campaigns` arrive in, each listed status is the exact-amount rule for the stored campaign |
| `IndexPage.Page.constructor` | app/src/pages/index.js:33-38 | the page starts on "home", not connected, not loading, with no campaigns and no calls |
| `IndexPage.Page.SyncConnected` | app/src/pages/index.js:40-42 | connected iff there is a signed account |
| `IndexPage.Page.GetAllCampaigns` | app/src/pages/index.js:44-79 | no query unless connected with a signed account; else exactly one query; a reply replaces the listing by its projection at one instant and clears the flags; a failure keeps the listing and leaves loading set |
| `IndexPage.Page.UploadToPinata` | app/src/pages/index.js:85-97 | no file: throws without any call; else exactly one upload, yielding the gateway URL of the pinned hash or throwing |
| `IndexPage.Page.CreateFund` | app/src/pages/index.js:99-124 | exactly one `create_campaign` call with the 0.01 NEAR fee (the failing scaling of a non-finite amount is left out); on success the page refetches and goes to "explore"; a failure changes nothing else and is not rethrown |
| `IndexPage.Page.FundCampaign` | app/src/pages/index.js:126-143 | exactly one `donate` call (the failing scaling of a non-finite amount is left out); the page refetches only on success |
| `CreateForm.Form.Complete` | app/src/components/Create.js:22 | a form is complete exactly when it has a file and all four text fields are non-empty |
| `CreateForm.Form.constructor` | app/src/components/Create.js:5-10 | empty fields, no file, not busy |
| `CreateForm.Form.Drop` | app/src/components/Create.js:12-17 | the image becomes the first accepted file, or none |
| `CreateForm.Form.ClearImage` | app/src/components/Create.js:19 | the image is removed |
| `CreateForm.Form.HandleMint` | app/src/components/Create.js:21-47 | incomplete form: alert only, no calls, busy flag untouched. Deadline second <= now second: alert, no calls. Otherwise: one upload strictly before at most one `create_campaign` with deadline `floor(ms/1000)*10^9`. A failed upload means no ledger call and the image is kept; a successful upload clears the image whatever the ledger answers. Every run past the first check ends not busy |

## Findings

| source | as written | input that shows it | evidently intended | confidence | as-written member | corrected member |
|---|---|---|---|---|---|---|
| Crowdfunding/src/lib.rs:106 | `create_campaign` takes `target: U64`, but the client sends the target scaled to yocto (app/src/pages/index.js:101, 111) and the contract stores it as `u128` (line 32) | a 1 NEAR target is sent as a decimal string of about 10^24, above 2^64 − 1, so the arguments do not deserialize and the call fails | `target: U128`, which accepts every yocto target that fits the stored `u128` | high, not executed | `Contract.ScaledTargetRejectedAsU64` | `Contract.ScaledTargetAcceptedAsU128` |

The model's `Contract.Crowdfunding.CreateCampaign` decodes its target with the corrected `Contract.DecodeU128Arg`. `Contract.DecodeU64Arg` and `Contract.OneNearTargetRejectedAsU64` record the argument as written.

## Left out

- Floating point. `Math.round(x * 1e24)`, `parseFloat` and JavaScript numbers above 2^53 are not modelled. Amounts are exact integers. The target a form submits is carried as the entered text, and its scaling to yocto (`Math.round(targetAmount * 1e24)`) is not modelled. That scaled target is what reaches `create_campaign`'s `target: U64`, and every positive target above about 0.0000184 NEAR exceeds 2^64 − 1 there; see Findings. The creation fee `Math.round(0.01 * 1e24)` is the exact double 10^22, so it is modelled as the contract's minimum. When the scaled target or donation is not finite (a non-numeric entry gives `NaN`, a huge one `Infinity`), `BigInt` throws inside `createFund` or `fundCampaign` and no ledger call is made. The catch swallows the error, so `HandleMint` still clears the image. The model, `IndexPage.Page.CreateFund` and `IndexPage.Page.FundCampaign`, always makes the call.
- `parseFloat`'s leniency is not modelled. It accepts a numeric prefix such as "12abc". The contract only ever sends canonical decimal strings, which the model parses exactly; the model reads any other string as `NaN` (`None`), so the campaign shows as closed.
- `new Date(deadline)` is not modelled. The deadline arrives as its millisecond value. An invalid date (`NaN`) is not modelled.
- The clock (`Date.now()`) is not modelled. It is a parameter.
- I/O is not modelled: the Pinata upload, `wallet.viewMethod`/`callMethod`, toasts and `console` logging. Each becomes an abstract outcome parameter and a recorded `Call`.
- React's asynchronous state updates and re-rendering are not modelled. Each `set…` is an immediate field assignment.
- The `useEffect` dependency schedule is not modelled: `GetAllCampaigns` is the body of one run. The form's text inputs are plain field assignments. The routing, `PrivateRoute` and the page's JSX are not modelled.
- The `isCreating` flag is not modelled between steps. It is true while the upload and ledger calls are awaited, but the model states only its value before and after `HandleMint`.
- `Contract.Crowdfunding.ListNftForSale`: the price is kept as written, a `U64`. So no token can be listed above 2^64 − 1 yocto, about 0.0000184 NEAR, and a 1 NEAR price (10^24 yocto) makes the call fail to deserialize (`Contract.ScaledTargetRejectedAsU64` covers any such string). None of the modelled client files calls `list_nft_for_sale`, so this is kept as a limit rather than corrected.
- `Contract.Crowdfunding.constructor`: the `env::state_exists()` guard against a second initialisation is runtime storage and is not modelled. A fresh object is the first deployment.
- `Contract.Crowdfunding.GetCampaigns`: the returned vector's hash-map order is unspecified. The model returns the id-to-view pairs as a map (ids are unique) and drops the order. `GetDonations` and `GetAllNfts` do the same.
- Arithmetic without overflow checks is not modelled. The model assumes checked arithmetic: a `u64` counter's `+= 1` at its maximum, or `donation_amount * 90` beyond `u128`, panics, as in a build with overflow checks on. Wrap-around in a build without them is not modelled.
- Balances are not modelled: the contract's own balance, the fee and deposits it keeps, and the NEAR runtime's gas and storage costs.
- The actual execution of `Promise` transfers is not modelled. They are returned as records.
- Borsh/serde encoding, `near_bindgen` and `UnorderedMap` storage prefixes are not modelled. Tables are maps. Of JSON argument decoding, the model keeps only the range of each numeric argument: a `u64` id or deadline outside `u64`, or a `U64`/`U128` string that does not parse, panics with `InvalidArgument` before the method body runs. Malformed JSON otherwise is not modelled.
- Validity of NEAR account ids is not modelled. They are plain strings.
- UI and sign-in files are not modelled: app/src/components/Login.js, Navbar.js, Signup.js, Footer.js, Home.js, EmailLoginForm.js and app/src/contexts/AuthContext.js. They hold rendering and third-party sign-in only. The `Explore` component is not part of this model.
