# TrustMe Settlements: trade wizard and trade list, modelled in Dafny

This project models two pieces of UI logic from the TrustMe Settlements front end.

- **The trade-creation wizard** (`MultiPartForm`), in `multi_part_form.dfy`. The wizard has three parts:
  - the seven-field answer record (`FormData`), which starts with every field empty;
  - its shallow, last-write-wins merge (`updateFields`);
  - the four steps and the fields each step's inputs write.

  It also models the step cursor the component gets from its step hook. The class `Wizard` holds the record and the cursor, as the component does. Its methods are `UpdateFields` (the `updateFields` callback that the inputs' change handlers call) and the event handlers `Change` (one input's `onChange`), `Back` (the Back button's `onClick`) and `Submit` (`onSubmit`). It also has `Next`, the step hook's `next`, which `Submit` calls.
- **The trade list** (`TradeList`), in `trade_list.dfy`. The fetched trades are split into a pending group and an "Other Settlements" group. Both groups are defined as recursive functions over `seq<Trade>`. The module proves that the split is total, disjoint and order-preserving. It also models the header text and the transaction count shown above the rows.

Nothing here is executed. I/O enters only as parameters: `Change` takes the typed value, and `AfterFetch` takes the fetched list.

## Model

| member | source | states |
|---|---|---|
| MultiPartForm.Initial | src/components/elements/Gabe/MultiPartForm.tsx:56-64 | the initial record has all seven fields equal to the empty string |
| MultiPartForm.Merge | src/components/elements/Gabe/MultiPartForm.tsx:106-107 | after the merge, every field present in the partial holds the partial's value and every absent field keeps its previous value |
| MultiPartForm.MergeEmpty | src/components/elements/Gabe/MultiPartForm.tsx:107 | merging an empty partial leaves the record unchanged |
| MultiPartForm.MergeSequential | src/components/elements/Gabe/MultiPartForm.tsx:106-107 | two successive merges equal one merge of the union of the partials, where the later partial wins on shared fields (last write wins) |
| MultiPartForm.MergeIdempotent | src/components/elements/Gabe/MultiPartForm.tsx:107 | applying the same partial twice gives the same record as applying it once |
| MultiPartForm.MergeDisjointCommute | src/components/elements/Gabe/MultiPartForm.tsx:106-107 | merges of partials with no shared field can be applied in either order |
| MultiPartForm.BuyerAddressThenSellerAmount | src/components/elements/Gabe/MultiPartForm.tsx:106-107 | setting `buyerAddress` and then `sellerTokenAmount` leaves both set and the other five fields unchanged |
| MultiPartForm.Bindings | src/components/elements/Gabe/MultiPartForm.tsx:119-214 | the fields whose inputs each step renders: step 0 buyerAddress; step 1 sellerTokenAddress, sellerTokenAmount; step 2 buyerTokenAddress, buyerTokenAmount; step 3 datePeriod, timePeriod; each step renders one or two inputs, with distinct fields |
| MultiPartForm.OnChange | src/components/elements/Gabe/MultiPartForm.tsx:128-211 | the partial an input's change handler passes to `updateFields`: its own field set to the typed value, and nothing else |
| MultiPartForm.StepComplete | src/components/elements/Gabe/MultiPartForm.tsx:126-209 | the `required` guard: a step may be submitted exactly when every input it renders holds a non-empty string |
| MultiPartForm.StepOf | src/components/elements/Gabe/MultiPartForm.tsx:119-222 | every field is written by the input of exactly one of the four steps: step 0 buyerAddress, step 1 the seller token address and amount, step 2 the buyer token address and amount, step 3 the date and time |
| MultiPartForm.OnChangeWritesOneField | src/components/elements/Gabe/MultiPartForm.tsx:128-211 | an input's change handler sets its own field to the typed value and changes no other field |
| MultiPartForm.AllFilledIffStepsComplete | src/components/elements/Gabe/MultiPartForm.tsx:119-222 | the record has every field non-empty exactly when each of the four steps has all its required inputs non-empty |
| MultiPartForm.IsFirstStep | src/components/elements/Gabe/MultiPartForm.tsx:216 | the hook's `isFirstStep`: the cursor is 0 |
| MultiPartForm.IsLastStep | src/components/elements/Gabe/MultiPartForm.tsx:216 | the hook's `isLastStep`: the cursor is 3, the index of the last of the four steps |
| MultiPartForm.Advance | src/components/elements/Gabe/MultiPartForm.tsx:216 | the hook's `next` on the cursor: one step forward, staying on the last step |
| MultiPartForm.Retreat | src/components/elements/Gabe/MultiPartForm.tsx:216 | the hook's `back` on the cursor: one step back, staying on the first step |
| MultiPartForm.BackOffered | src/components/elements/Gabe/MultiPartForm.tsx:240 | the Back button is rendered exactly when the cursor is not on the first step |
| MultiPartForm.AdvanceRetreatInverse | src/components/elements/Gabe/MultiPartForm.tsx:216-222 | off the last step `next` moves the cursor up by one and `back` then undoes it; off the first step `back` moves down by one and `next` undoes it; both stay put at their boundary |
| MultiPartForm.AdvanceTimesSaturates | src/components/elements/Gabe/MultiPartForm.tsx:216-222 | n calls of `next` from cursor c reach min(c + n, 3), so the cursor never leaves [0, 4) |
| MultiPartForm.RetreatTimesSaturates | src/components/elements/Gabe/MultiPartForm.tsx:240-244 | n calls of `back` from cursor c reach max(c - n, 0), so going back never takes the cursor below 0 |
| MultiPartForm.FourAdvancesFromStart | src/components/elements/Gabe/MultiPartForm.tsx:216-222 | from cursor 0, four calls of `next` visit 1, 2, 3 and then stay on 3; `back` at cursor 0 stays on the first step |
| MultiPartForm.SubmitLabel | src/components/elements/Gabe/MultiPartForm.tsx:245 | the submit button reads "Finish" exactly on the last step and "Next" everywhere else |
| MultiPartForm.Wizard.constructor | src/components/elements/Gabe/MultiPartForm.tsx:104 | the wizard starts with the initial record and the cursor at 0 |
| MultiPartForm.Wizard.UpdateFields | src/components/elements/Gabe/MultiPartForm.tsx:106-109 | the new record is the old one merged with the partial; the cursor is unchanged |
| MultiPartForm.Wizard.Change | src/components/elements/Gabe/MultiPartForm.tsx:128-211 | an edit to an input of the current step merges that one field into the record; it keeps every earlier step's required fields non-empty |
| MultiPartForm.Wizard.Next | src/components/elements/Gabe/MultiPartForm.tsx:216 | the hook's `next` moves the cursor forward one step (staying on the last step) and leaves the record unchanged |
| MultiPartForm.Wizard.Back | src/components/elements/Gabe/MultiPartForm.tsx:240-244 | the Back handler can be invoked only while the Back button is offered (cursor not 0); it moves the cursor back exactly one step, so never below 0, and leaves the record unchanged |
| MultiPartForm.Wizard.Submit | src/components/elements/Gabe/MultiPartForm.tsx:224-228 | a submit (which calls `next` to advance) with an empty required input of the current step is blocked; otherwise it advances by exactly one when not on the last step, and on the last step it leaves the cursor unchanged and finalises with a record whose fields are all non-empty; the record is never changed |
| TradeList.PendingTrades | src/components/TransactionList/TradeList.tsx:32 | the pending group holds exactly the input trades whose status is `Pending`, and is no longer than the input |
| TradeList.OtherTrades | src/components/TransactionList/TradeList.tsx:84-98 | the rows under "Other Settlements" are exactly the input trades whose status is not `Pending` |
| TradeList.PendingKeepsOrder | src/components/TransactionList/TradeList.tsx:32 | the pending group is an order-preserving subsequence of the input |
| TradeList.OtherKeepsOrder | src/components/TransactionList/TradeList.tsx:84-98 | the other group is an order-preserving subsequence of the input |
| TradeList.PartitionIsExact | src/components/TransactionList/TradeList.tsx:32 | each input trade, counted with repetitions, lands in exactly one group, so the two group lengths add up to the input's length |
| TradeList.PartitionIsDisjoint | src/components/TransactionList/TradeList.tsx:86 | no trade is in both groups |
| TradeList.EmptyListEmptyGroups | src/components/TransactionList/TradeList.tsx:32 | an empty list gives two empty groups |
| TradeList.Header | src/components/TransactionList/TradeList.tsx:47 | the header reads "No pending trades" exactly when the pending group is empty, and "Action Required" otherwise |
| TradeList.Render | src/components/TransactionList/TradeList.tsx:37-98 | the view of a stored state: the transaction count is the stored list's length, the header reads "No pending trades" exactly when the stored pending group is empty, the pending rows are the stored pending group, and the other rows are exactly the stored list's non-pending trades |
| TradeList.AfterFetch | src/components/TransactionList/TradeList.tsx:30-32 | the state after a fetch when the pending group is filtered from the fetched list: the stored list is the fetched list and the stored pending group holds exactly its pending trades |
| TradeList.AfterFetchAsWritten | src/components/TransactionList/TradeList.tsx:30-32 | the state after a fetch as the effect writes it: the stored list is the fetched list, but the stored pending group holds exactly the pending trades of the list the effect captured |
| TradeList.RenderAfterFetch | src/components/TransactionList/TradeList.tsx:37-98 | when the pending group is derived from the fetched list, every fetched trade is shown in exactly one group in input order; the transaction count is pending plus other; the header reads "No pending trades" exactly when no fetched trade is pending |
| TradeList.AfterFetchAsWrittenLosesPending | src/components/TransactionList/TradeList.tsx:26-35 | as written, the pending group is filtered from the list the effect captured at mount; a fetched pending trade then appears in neither group, and the header says "No pending trades" |
| TradeList.ExamplePartition | src/components/TransactionList/TradeList.tsx:32-98 | trades 1 (Pending), 2 (Settled) and 3 (Pending) give pending [1, 3] and other [2] |

## Left out

- `getUserTokens` (src/components/elements/Gabe/MultiPartForm.tsx:16-44) is left out. It makes token-balance network calls and does floating-point division and `toFixed` formatting.
- The token-balance client, the wallet account hook, `ethers` and the address formatter are left out. They are foreign libraries whose code is not part of this model.
- The step hook `useMultistepForm` is not part of this model. Only the surface the component uses is modelled: `isFirstStep`, `isLastStep`, `next`, `back` and a cursor in [0, 4). `next` and `back` are assumed to stay put at the last and first step, since the hook's code is not shown; the component itself never calls either one at its boundary.
- MultiPartForm.Wizard.Back: one click of the Back button is modelled as one step back. The button is `type="submit"`, so in a browser the same click may also submit the form; that double firing is left out.
- MultiPartForm.Wizard.Submit: the browser's check of the `required` inputs is modelled as an explicit guard (the `Blocked` outcome). The `alert` shown on the last step is modelled as the `Finalised` outcome, which carries the record.
- MultiPartForm.Merge: a partial is modelled by the fields it holds. A key explicitly present with the value `undefined` is not modelled; the TypeScript types forbid it for these string fields.
- The `useEffect` loading-flag logic and the asynchronous `getTradeList(9)` fetch (src/components/TransactionList/TradeList.tsx:26-35) are lifecycle and I/O code. The fetched list is a parameter of `AfterFetch`.
- `Pagination`, `TableRow`, `SearchBox` and `UserDetail` are not part of this model. No page-slicing logic is visible in the source, so no page function is modelled.
- The `Trade` type file is not part of this model. `Status` lists `Pending`, `Settled`, `Rejected` and `Expired`, plus `Unrecognised` for any other or missing status string. The component compares against the string "Pending" only, so an unrecognised status counts among the other trades.
- JSX rendering, styling, `console.log` and the page wrapper src/pages/createTrade.tsx are left out.

## Findings

| source | as written | input that shows it | evidently intended | confidence | as-written member | corrected member |
|---|---|---|---|---|---|---|
| src/components/TransactionList/TradeList.tsx:32 | the pending group is filtered from `tradeList`. The effect runs once, with empty dependencies, so `tradeList` is the empty list captured at mount, not the freshly fetched `trades` | a fetch that resolves with one trade whose status is `Pending` | filter the fetched `trades`, so that each fetched trade is shown in exactly one group, as TradeList.RenderAfterFetch proves of the corrected state | high, by reading; not executed | TradeList.AfterFetchAsWrittenLosesPending | TradeList.AfterFetch |
