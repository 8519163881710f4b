# coinpost in Dafny

coinpost is a client-only React marketplace for creator content and tokens.
Nothing in it reaches a chain or a server: every "transaction" is a timed
delay followed by a toast alert. What it does have is a small amount of real
logic, and that is what this project models and proves things about:

- the **alert queue** of `AlertProvider`: a tail append, timed expiry and a
  dismiss button, where the last two both filter the queue by id;
- the **simulated wallet session** of `WalletProvider`: `isConnected`,
  `address`, `balance` and `isLoading`, with `connect` and `disconnect`;
- the **guarded actions**. `executeTransaction`, the three `useMarket`
  actions, the three `useCreator` actions, `handleCreateContent`,
  `ContentDetailsPage`'s `handleTransaction` and `MarketCard`'s
  `handlePurchase` refuse with "Please connect your wallet first" while
  disconnected (some also start `connect`). Otherwise they raise a busy flag,
  settle, show one alert and lower the flag. The other handlers differ:
  - `handleSubscribe` has the wallet check but no busy flag;
  - `MarketCard`'s like and buy buttons have the wallet check but no busy flag;
  - `handleAddFunds` and `handleSaveSettings` have a busy flag but no wallet
    check (their page shows only a connect screen while disconnected);
  - `handleTokenization` has a busy flag but no wallet check;
  - the like toggles of `ContentCard` and `useContentActions` and the player
    toggles have neither;
- the **validators**: the ordered rule chain of `useFormValidation`, the
  rules and file checks of `utils/validation.ts`, the type-then-size check of
  `useFileUpload`, and the zod schemas of the tokenization and content forms;
- the **lists and toggles**:
  - the marketplace join, filter, sort and type toggle;
  - the explore page's creator filter and sort;
  - the three like toggles;
  - the three-step create-content wizard and its comma-separated tags.

Each source file is one module. State that the source updates in place is a
`class`: `AlertCenter`, `Wallet`, the hooks and the page or card state. Every
handler is a method whose `ensures` give its whole new state. Pure logic is
functions and lemmas. `Js` holds the JavaScript behaviour the code relies on:

- `parseInt` and `parseFloat` results, including `NaN`;
- `Math.max(1, n)`;
- integer-to-text conversion and `toFixed(3)`;
- ASCII `toLowerCase` and `toUpperCase`;
- `includes`, `trim`, `split` and `join`.

`Seqs` holds a generic filter and a sort that is proved sorted and a
permutation. `Catalog` holds the content and creator records and
`Array.prototype.find` over them. `Guard` states the shared
connect / settle / alert outcome once.

The following are inputs of the model, never produced by it:

- Alert ids (`Math.random` in the source).
- Object URLs (`URL.createObjectURL`).
- Parse results: the `JsInt` or `JsNumber` that `parseInt` / `parseFloat`
  made of the typed text.
- Whether a settlement fails, given as `failed: bool`. The source's awaited
  delay never rejects, so the `catch` branches are reachable only through
  this flag.

Each awaited `setTimeout` is one atomic step.

`executeTransaction` does not clamp a quantity below 1. The clamp
`Math.max(1, parseInt(...))` is in the quantity inputs
(MarketCard.tsx:213, ContentDetailsPage.tsx:85, CreatorPage.tsx:290). So
`ExecuteTransaction` takes the quantity as given, and the inputs'
`SetQuantity` / `SetTokenAmount` methods apply `AtLeastOne`.

## Model

| member | source | states |
|---|---|---|
| AlertContext.AlertCenter.constructor | src/context/AlertContext.tsx:26 | the queue starts empty with no expiry pending |
| AlertContext.AlertCenter.ShowAlert | src/context/AlertContext.tsx:28-34 | exactly one alert with the given id, kind and message is appended at the tail; earlier alerts are unchanged and keep their order; exactly one expiry is scheduled, for that id; every alert on screen still has an expiry pending |
| AlertContext.AlertCenter.Expire | src/context/AlertContext.tsx:31-33 | a scheduled expiry firing removes every alert with its id and consumes exactly that one expiry |
| AlertContext.AlertCenter.Dismiss | src/context/AlertContext.tsx:58 | the close button removes every alert with that id and cancels no timer |
| AlertContext.RemoveId | src/context/AlertContext.tsx:32 | removal by id never lengthens the queue |
| AlertContext.RemoveIdMembers | src/context/AlertContext.tsx:32 | an alert survives removal iff it was in the queue and its id differs |
| AlertContext.RemoveIdMultiset | src/context/AlertContext.tsx:32 | every alert with another id keeps its multiplicity; alerts with the id vanish |
| AlertContext.RemoveIdConcat | src/context/AlertContext.tsx:58 | removal from a concatenation is the concatenation of the removals, so relative order is kept |
| AlertContext.RemoveIdAbsent | src/context/AlertContext.tsx:32 | removing an id no alert carries leaves the queue unchanged, so dismissing after expiry does nothing |
| AlertContext.RemoveIdIdempotent | src/context/AlertContext.tsx:58 | removing an id twice is removing it once |
| AlertContext.RemoveUnique | src/context/AlertContext.tsx:29-32 | when exactly one alert carries the id (a fresh id), removal deletes exactly that alert and keeps the rest in order |
| WalletContext.InitialWellFormed | src/context/WalletContext.tsx:29-32 | the initial session is disconnected with no address, balance '0', not loading, and well formed |
| WalletContext.WellFormed | src/context/WalletContext.tsx:29-56 | the session invariant at operation boundaries: an address exactly when connected, the demo address and balance when connected and '0' otherwise; no contract of its own, established by InitialWellFormed and kept by OperationsKeepWellFormed |
| WalletContext.AfterConnect | src/context/WalletContext.tsx:38-48 | after the delay the session is connected with the demo address and balance; in either case loading has ended; a failure changes only the loading flag |
| WalletContext.AfterDisconnect | src/context/WalletContext.tsx:52-55 | from any session: disconnected, no address, balance '0', loading flag untouched |
| WalletContext.OperationsKeepWellFormed | src/context/WalletContext.tsx:39-55 | connecting and disconnecting keep "address present iff connected" and the demo or empty balance that goes with it |
| WalletContext.DisconnectIdempotent | src/context/WalletContext.tsx:51-56 | disconnecting twice leaves the same session as disconnecting once |
| WalletContext.ConnectIdempotent | src/context/WalletContext.tsx:34-42 | connecting again, or after a disconnect, leaves the same session as connecting once |
| WalletContext.Wallet.constructor | src/context/WalletContext.tsx:29-32 | the provider starts in the initial session |
| WalletContext.Wallet.BeginConnect | src/context/WalletContext.tsx:36 | the synchronous start of `connect` raises only the loading flag |
| WalletContext.Wallet.CompleteConnect | src/context/WalletContext.tsx:38-48 | the session becomes AfterConnect; exactly one alert is shown: 'Wallet connected successfully' or 'Failed to connect wallet'; one expiry is scheduled |
| WalletContext.Wallet.Connect | src/context/WalletContext.tsx:34-49 | a whole `connect`: the loading flag ends false on every path, the session becomes AfterConnect, and one success or error alert is shown |
| WalletContext.Wallet.Disconnect | src/context/WalletContext.tsx:51-56 | the session becomes AfterDisconnect and exactly one alert 'Wallet disconnected' is shown |
| Guard.Guarded | src/hooks/useTransaction.ts:14-35 | an action succeeds iff the wallet is connected and settlement does not fail; the alert is a success iff the action succeeds; its text is the wallet error, the success text or the failure text according to the case |
| Guard.DisconnectedIgnoresSettlement | src/hooks/useTransaction.ts:14-18 | while disconnected, whether a settlement would fail makes no difference |
| UseTransaction.Total | src/hooks/useTransaction.ts:25 | the total is quantity times price for an integer quantity, and NaN exactly when the quantity is NaN |
| UseTransaction.Verb | src/hooks/useTransaction.ts:26 | 'Bought' for a buy and 'Sold' for a sale; specified by SuccessMessageVerb |
| UseTransaction.SuccessMessage | src/hooks/useTransaction.ts:27 | the success alert `${action} ${quantity} ${title} for ${total.toFixed(3)} ETH`; specified by SuccessMessageVerb, DetailsTotal and BuyScenario |
| UseTransaction.Details | src/hooks/useTransaction.ts:25-27 | the part after the verb: the quantity's text, the title and the toFixed(3) total; specified by DetailsTotal |
| UseTransaction.SuccessMessageVerb | src/hooks/useTransaction.ts:26-27 | the message starts 'Bought ' iff the trade is a buy and 'Sold ' iff it is a sell |
| UseTransaction.DetailsTotal | src/hooks/useTransaction.ts:25-27 | the rest of the message is the quantity's digits, the title, and a total printed to three decimals that reads back as quantity times price in thousandths |
| UseTransaction.NonNegativeProduct | src/hooks/useTransaction.ts:25 | a non-negative quantity at a non-negative price has a non-negative total |
| UseTransaction.BuyScenario | src/hooks/useTransaction.ts:27 | two units at 1.25 give 'Bought 2 Widget for 2.500 ETH' |
| UseTransaction.TotalText | src/hooks/useTransaction.ts:25 | two units at 1.25 print as '2.500' |
| UseTransaction.TransactionHook.constructor | src/hooks/useTransaction.ts:8 | the hook starts not processing |
| UseTransaction.TransactionHook.ExecuteTransaction | src/hooks/useTransaction.ts:10-36 | disconnected: one wallet error, `connect` started, false, the processing flag untouched; connected: true iff settlement succeeds, one alert with the trade message or 'Transaction failed. Please try again.', the flag ends false, and the wallet session is unchanged |
| UseMarket.MessagesDetermineAmount | src/hooks/useMarket.ts:20-40 | the purchase and sale messages each give back the text `String(amount)` of the amount they were built from, for every number amount |
| UseMarket.PurchasedMessage | src/hooks/useMarket.ts:20 | 'Successfully purchased <amount> tokens'; specified by MessagesDetermineAmount, WholeAmountsDetermined and PurchaseAndSaleDiffer |
| UseMarket.SoldMessage | src/hooks/useMarket.ts:40 | 'Successfully sold <amount> tokens'; specified by MessagesDetermineAmount, WholeAmountsDetermined and PurchaseAndSaleDiffer |
| UseMarket.WholeAmountsDetermined | src/hooks/useMarket.ts:20-40 | for a whole amount or NaN the message gives back the number itself |
| UseMarket.PurchaseAndSaleDiffer | src/hooks/useMarket.ts:20-40 | no purchase message equals a sale message, whatever the two amounts |
| UseMarket.MarketHook.constructor | src/hooks/useMarket.ts:8 | the hook starts not loading |
| UseMarket.MarketHook.PurchaseToken | src/hooks/useMarket.ts:10-28 | disconnected: the wallet error, false, the loading flag untouched; connected: true iff settlement succeeds, one alert 'Successfully purchased <String(amount)> tokens' or the purchase error, the flag ends false; token id and price play no part |
| UseMarket.MarketHook.SellToken | src/hooks/useMarket.ts:30-48 | the same shape, with 'Successfully sold <String(amount)> tokens' and the sale error |
| UseMarket.MarketHook.CreateToken | src/hooks/useMarket.ts:50-68 | the same shape, with 'Token created successfully' and the creation error |
| UseCreator.MessagesDistinct | src/hooks/useCreator.ts:20-63 | the three success messages are pairwise different, and so are the three failure messages |
| UseCreator.CreatorHook.constructor | src/hooks/useCreator.ts:8 | the hook starts not loading |
| UseCreator.CreatorHook.CreateContent | src/hooks/useCreator.ts:10-28 | disconnected: the wallet error, false, the loading flag untouched; connected: true iff settlement succeeds, with 'Content created successfully' or its own error, and the flag ends false |
| UseCreator.CreatorHook.UpdateContent | src/hooks/useCreator.ts:30-48 | the same shape, with 'Content updated successfully' and its own error |
| UseCreator.CreatorHook.DeleteContent | src/hooks/useCreator.ts:50-68 | the same shape, with 'Content deleted successfully' and its own error |
| UseFormValidation.Check | src/hooks/useFormValidation.ts:24-44 | a text value always gets a message; the chain throws exactly for an undefined value on a field that is not required but has a length bound |
| UseFormValidation.Truthy | src/hooks/useFormValidation.ts:24 | JavaScript truthiness of a form value: false exactly for undefined, '', 0 and NaN; used by Check and specified through RequiredFirst |
| UseFormValidation.MinMessage | src/hooks/useFormValidation.ts:29 | 'Minimum length is <n> characters'; non-empty by RuleMessage |
| UseFormValidation.MaxMessage | src/hooks/useFormValidation.ts:33 | 'Maximum length is <n> characters'; non-empty by RuleMessage |
| UseFormValidation.Validate | src/hooks/useFormValidation.ts:20-22 | a field without rules validates to '' |
| UseFormValidation.RuleMessage | src/hooks/useFormValidation.ts:25-41 | every rule's message is non-empty, so '' can only mean valid |
| UseFormValidation.CheckIsFirstFailure | src/hooks/useFormValidation.ts:24-44 | the result is '' iff no rule fails, and otherwise is the message of the first failing rule in the order required, minLength, maxLength, pattern, custom |
| UseFormValidation.RequiredFirst | src/hooks/useFormValidation.ts:24-26 | a required field with a falsy value gives 'This field is required' whatever its other rules |
| UseFormValidation.ZeroBoundsAbsent | src/hooks/useFormValidation.ts:28-34 | with both length bounds 0 a text is judged by the required, pattern and custom rules alone, whatever its length |
| UseFormValidation.PassingTextIsValid | src/hooks/useFormValidation.ts:44 | a text that passes every rule present gives '' |
| UseFormValidation.ValueOf | src/hooks/useFormValidation.ts:61 | a field's value is the form's value for it, or undefined when it has none |
| UseFormValidation.SubmitErrors | src/hooks/useFormValidation.ts:58-65 | the error map's keys are exactly the ruled fields whose message is non-empty, each mapped to that message |
| UseFormValidation.CollectedErrors | src/hooks/useFormValidation.ts:59-65 | the map the submit loop builds over all rule keys is SubmitErrors |
| UseFormValidation.FormState.constructor | src/hooks/useFormValidation.ts:15-18 | the form starts with the initial values, no errors, not submitting |
| UseFormValidation.FormState.HandleChange | src/hooks/useFormValidation.ts:47-53 | only the named field's value and error change: the value to the text, the error to its validation |
| UseFormValidation.FormState.HandleSubmit | src/hooks/useFormValidation.ts:55-76 | it throws iff some ruled field's validation throws, leaving the errors and isSubmitting raised; otherwise the errors become SubmitErrors, the callback runs iff there are none, and isSubmitting ends false |
| Validation.TooLargeMessageText | src/hooks/useFileUpload.ts:19 | the size error reads 'File size must be less than 50MB' |
| Validation.TooLargeMessage | src/hooks/useFileUpload.ts:19 | `File size must be less than ${MAX_FILE_SIZE}MB`; fixed to the 50MB text by TooLargeMessageText |
| Validation.ValidateFileType | src/utils/validation.ts:33-35 | `allowedTypes.includes(file.type)`: membership of the MIME type; specified through Screen and TypeCheckedFirst |
| Validation.ValidateFileSize | src/utils/validation.ts:37-40 | `file.size <= maxSizeInMB * 1024 * 1024`; specified by FileSizeBoundary |
| Validation.FileSizeBoundary | src/utils/validation.ts:37-40 | a file passes iff its size is at most maxMB·1024·1024 bytes; exactly that size passes, one byte more fails |
| Validation.ValidationRules | src/utils/validation.ts:1-24 | rules exist for exactly title, description, price, supply and email |
| Validation.TitleValid | src/utils/validation.ts:2-6 | a title is valid iff its length is 3 to 100; empty gives the required message, too short or too long the length messages with 3 and 100 |
| Validation.TitleMessages | src/utils/validation.ts:2-6 | the title's length messages read 'Minimum length is 3 characters' and 'Maximum length is 100 characters' |
| Validation.DescriptionValid | src/utils/validation.ts:7-11 | a description is valid iff its length is 10 to 1000 |
| Validation.PriceValid | src/utils/validation.ts:12-15 | a price is valid iff it is a number greater than 0 |
| Validation.PricePositive | src/utils/validation.ts:14 | `value > 0` on a number; specified by PriceValid |
| Validation.SupplyValid | src/utils/validation.ts:16-19 | a supply is valid iff it is a whole number greater than 0; 1.5 gives 'Invalid value' |
| Validation.WholePositive | src/utils/validation.ts:18 | `value > 0 && Number.isInteger(value)`; specified by SupplyValid |
| Validation.EmailValid | src/utils/validation.ts:20-23 | an email is valid iff it is non-empty and matches the pattern |
| UseFileUpload.Screen | src/hooks/useFileUpload.ts:12-21 | a file is refused for its type iff a type list was given and does not contain it; it is accepted iff it passes the type check and is within the size limit |
| UseFileUpload.ScreeningMessage | src/hooks/useFileUpload.ts:13-21 | 'Unsupported file type' for a type refusal and the size text otherwise; specified through HandleFileSelect |
| UseFileUpload.HasPreview | src/hooks/useFileUpload.ts:25-27 | a MIME type starting with image/, video/ or audio/; specified through HandleFileSelect, which makes a preview exactly for these |
| UseFileUpload.TypeCheckedFirst | src/hooks/useFileUpload.ts:13-21 | the type check precedes the size check; with no type list there is no type check; an empty list refuses everything |
| UseFileUpload.FileUpload.constructor | src/hooks/useFileUpload.ts:7-8 | no file and no preview |
| UseFileUpload.FileUpload.HandleFileSelect | src/hooks/useFileUpload.ts:12-33 | true iff the file is accepted; refused: one error alert ('Unsupported file type' or the size error) and file and preview unchanged; accepted: the file is stored, the preview replaced by the (non-empty) object URL only for image, video or audio types, and no alert |
| UseFileUpload.FileUpload.ClearFile | src/hooks/useFileUpload.ts:35-44 | no file and no preview afterwards: the preview is dropped only when truthy, and every stored preview is a non-empty object URL |
| TokenizationForm.FieldIssue | src/components/create/TokenizationForm.tsx:9-23 | a field has no issue iff it is a number in the closed range; below gives the minimum message, above the maximum message |
| TokenizationForm.InRange | src/components/create/TokenizationForm.tsx:8-24 | `z.number().min(lo).max(hi)`: a number within both bounds inclusive; specified by FieldIssue and BoundsInclusive |
| TokenizationForm.IssueOf | src/components/create/TokenizationForm.tsx:8-24 | one issue for a field with a message, none without; a helper of Issues |
| TokenizationForm.Issues | src/components/create/TokenizationForm.tsx:8-24 | the issues of the five fields in schema order; specified by AcceptsIffInRanges, DefaultsAccepted and BoundsInclusive |
| TokenizationForm.Accepts | src/components/create/TokenizationForm.tsx:8-24 | the schema passes: no issue; specified by AcceptsIffInRanges |
| TokenizationForm.AcceptsIffInRanges | src/components/create/TokenizationForm.tsx:8-24 | the schema accepts iff supply, price, fee, royalty and vesting are each in their closed range |
| TokenizationForm.DefaultsAccepted | src/components/create/TokenizationForm.tsx:36-42 | the default values 1000, 0.001, 2, 5 and 30 satisfy the schema |
| TokenizationForm.BoundsInclusive | src/components/create/TokenizationForm.tsx:9-23 | every bound is accepted and the values just past them are refused; NaN is refused |
| TokenizationForm.Submit | src/components/create/TokenizationForm.tsx:46 | `onSubmit` receives the data unchanged, and only when the schema accepts it and the form is not processing (the submit button at line 156) |
| CreateContentPage.LengthIssue | src/pages/CreateContentPage.tsx:15-20 | a string has no length issue iff its length is within the bounds; too short and too long give their own messages |
| CreateContentPage.ContentIssues | src/pages/CreateContentPage.tsx:14-23 | the issues of title, description and tags in schema order; specified by ContentAcceptsIff and DefaultTagsRejected |
| CreateContentPage.ContentAccepts | src/pages/CreateContentPage.tsx:14-23 | the schema passes: no issue; specified by ContentAcceptsIff |
| CreateContentPage.ContentAcceptsIff | src/pages/CreateContentPage.tsx:14-23 | the content schema accepts iff the title has 3 to 100 characters, the description 10 to 1000, and there is at least one tag |
| CreateContentPage.DefaultTagsRejected | src/pages/CreateContentPage.tsx:39-43 | the default empty tag list is refused with 'Add at least one tag' |
| CreateContentPage.Tags | src/pages/CreateContentPage.tsx:280 | one tag per comma-separated piece, each the trimmed piece |
| CreateContentPage.TagsShape | src/pages/CreateContentPage.tsx:280 | the tag count is the comma count plus one, and each tag is comma-free and already trimmed |
| CreateContentPage.TypedTagsPassTagRule | src/pages/CreateContentPage.tsx:14-23 | since typed tags are never an empty list, a typed form is accepted iff its title and description lengths are |
| CreateContentPage.ClearedTagInput | src/pages/CreateContentPage.tsx:280 | clearing the tag input yields one empty tag, not an empty list |
| CreateContentPage.DropTooLarge | src/pages/CreateContentPage.tsx:48 | `file.size > MAX_FILE_SIZE * 1024 * 1024`; specified by DropCheckAgreesWithValidator |
| CreateContentPage.DropCheckAgreesWithValidator | src/pages/CreateContentPage.tsx:48 | the drop handler's size check refuses exactly the files the shared size validator refuses at 50 MB |
| CreateContentPage.Wizard.constructor | src/pages/CreateContentPage.tsx:30-35 | step 1, no type, no file, no preview, empty rich text, not processing |
| CreateContentPage.Wizard.ChooseType | src/pages/CreateContentPage.tsx:152-155 | the chosen type is stored and the wizard moves to step 2 |
| CreateContentPage.Wizard.BackToType | src/pages/CreateContentPage.tsx:176 | from step 2 back to step 1, nothing else changes |
| CreateContentPage.Wizard.OnDrop | src/pages/CreateContentPage.tsx:45-56 | no file: nothing; too large: one size error and the draft unchanged; otherwise the first file and its preview are stored with no alert |
| CreateContentPage.Wizard.RemoveFile | src/pages/CreateContentPage.tsx:225-229 | file and preview are cleared |
| CreateContentPage.Wizard.SetRichText | src/pages/CreateContentPage.tsx:190 | only the rich text changes |
| CreateContentPage.Wizard.ContinueToTokenization | src/pages/CreateContentPage.tsx:304-310 | step 2 advances to 3 iff a file is present or the type is 'text'; otherwise 'Please upload a file' is shown and the wizard stays on step 2 |
| CreateContentPage.Wizard.BackToUpload | src/pages/CreateContentPage.tsx:326 | from step 3 back to step 2, nothing else changes |
| CreateContentPage.Wizard.Reset | src/pages/CreateContentPage.tsx:82-86 | the draft returns to the empty one |
| CreateContentPage.Wizard.HandleCreateContent | src/pages/CreateContentPage.tsx:68-92 | disconnected: one wallet error, `connect` started, the draft untouched; connected: one success or failure alert, the draft reset to the empty one exactly on success, processing ends false, the session unchanged |
| CreateContentPage.Wizard.HandleTokenization | src/pages/CreateContentPage.tsx:94-106 | one alert 'Content tokenized successfully! Your content is now live.' or the tokenization error, the draft unchanged, processing ends false |
| Catalog.FindContent | src/pages/ContentDetailsPage.tsx:22 | `find` by id: none iff no item has the id, otherwise the first item with it |
| Catalog.FindCreator | src/pages/CreatorPage.tsx:25 | `find` by id: none iff no creator has the id, otherwise the first creator with it |
| MarketplacePage.JoinOne | src/pages/MarketplacePage.tsx:22-28 | an item carries its content and the first matching creator's name, avatar and username, or '' for each when no creator matches |
| MarketplacePage.MarketItems | src/pages/MarketplacePage.tsx:21-29 | one market item per content item, in order, each its join |
| MarketplacePage.CategoryMeaning | src/pages/MarketplacePage.tsx:33-37 | 'NFTs', 'Content Tokens' and 'Creator Tokens' keep exactly their own type; 'All' and any other name keep everything |
| MarketplacePage.CategoryKeeps | src/pages/MarketplacePage.tsx:33-37 | the category test of the filter; specified by CategoryMeaning |
| MarketplacePage.TypeKeeps | src/pages/MarketplacePage.tsx:39-41 | the checked-types test; specified by TypeMeaning |
| MarketplacePage.PriceKeeps | src/pages/MarketplacePage.tsx:43-45 | the price-range test, NaN bounds included; specified by PriceMeaning |
| MarketplacePage.SearchKeeps | src/pages/MarketplacePage.tsx:47-49 | the lower-cased title search; specified by SearchMeaning |
| MarketplacePage.Keeps | src/pages/MarketplacePage.tsx:32-51 | the filter callback: all four tests; specified by CategoryMeaning, TypeMeaning, PriceMeaning, SearchMeaning and DefaultFiltersKeep |
| MarketplacePage.MarketKey | src/pages/MarketplacePage.tsx:52-58 | the sort key of each comparator; specified by FilteredItemsOrder |
| MarketplacePage.FilteredItems | src/pages/MarketplacePage.tsx:32-58 | `filteredItems`: filter then sort; specified by FilteredItemsAreThePassingOnes, FilteredItemsOrder and UnknownSortKeepsOrder |
| MarketplacePage.TypeMeaning | src/pages/MarketplacePage.tsx:39-41 | an empty type list keeps every type; a non-empty one keeps exactly its members |
| MarketplacePage.PriceMeaning | src/pages/MarketplacePage.tsx:43-45 | the price range is inclusive at both ends, and a NaN bound imposes nothing on its side |
| MarketplacePage.SearchMeaning | src/pages/MarketplacePage.tsx:47-49 | an empty search keeps every title, and a title's own text finds it |
| MarketplacePage.DefaultFiltersKeep | src/pages/MarketplacePage.tsx:10-15 | the initial filters keep exactly the items priced from 0 to 1 |
| MarketplacePage.FilteredItemsAreThePassingOnes | src/pages/MarketplacePage.tsx:32-51 | an item is listed iff it passes all four filters, as often as it occurs: a permutation of that subset |
| MarketplacePage.FilteredItemsOrder | src/pages/MarketplacePage.tsx:52-56 | trending by likes descending, price_high by price descending, price_low ascending, newest by creation time descending |
| MarketplacePage.UnknownSortKeepsOrder | src/pages/MarketplacePage.tsx:57 | an unknown option returns the filtered items in catalogue order |
| MarketplacePage.Toggle | src/pages/MarketplacePage.tsx:60-66 | the type is removed if present and appended otherwise; membership of the other types is unchanged |
| MarketplacePage.ToggleTwice | src/pages/MarketplacePage.tsx:60-66 | toggling twice restores membership, and restores the list itself when the type was absent |
| MarketplacePage.Marketplace.constructor | src/pages/MarketplacePage.tsx:10-15 | the default filters and sort 'trending' |
| MarketplacePage.Marketplace.HandleTypeToggle | src/pages/MarketplacePage.tsx:60-66 | only the selected types change, to their toggle |
| MarketplacePage.Marketplace.SetMinPrice | src/pages/MarketplacePage.tsx:151 | only the lower bound changes, to the parsed value |
| MarketplacePage.Marketplace.SetMaxPrice | src/pages/MarketplacePage.tsx:159 | only the upper bound changes, to the parsed value |
| MarketplacePage.Marketplace.SetCategory | src/pages/MarketplacePage.tsx:132 | only the category changes |
| MarketplacePage.Marketplace.SetSearchTerm | src/pages/MarketplacePage.tsx:268 | only the search term changes |
| MarketplacePage.Marketplace.SetSortBy | src/pages/MarketplacePage.tsx:275 | only the sort option changes |
| MarketplacePage.Marketplace.Shown | src/pages/MarketplacePage.tsx:32-58 | the listed items: FilteredItems of the page's current filters and sort option |
| ExplorePage.FilterMeaning | src/pages/ExplorePage.tsx:23-36 | 'All' with an empty search keeps every creator; another category keeps exactly its own creators |
| ExplorePage.CategoryMatches | src/pages/ExplorePage.tsx:23-25 | 'All' or the creator's own category; specified by FilterMeaning |
| ExplorePage.SearchMatches | src/pages/ExplorePage.tsx:27-34 | the lower-cased search in name, username or bio; specified by FilterMeaning and SearchFindsOwnFields |
| ExplorePage.CreatorKeeps | src/pages/ExplorePage.tsx:22-37 | the filter callback: category then search; specified by FilterMeaning and SearchFindsOwnFields |
| ExplorePage.CreatorKey | src/pages/ExplorePage.tsx:37-47 | the sort key of each switch case; specified by FilteredCreatorsOrder and TrendingIsDefault |
| ExplorePage.FilteredCreators | src/pages/ExplorePage.tsx:22-47 | `filteredCreators`: filter then sort; specified by FilteredCreatorsAreThePassingOnes and FilteredCreatorsOrder |
| ExplorePage.SearchFindsOwnFields | src/pages/ExplorePage.tsx:27-34 | a creator is found by its own name, username or bio |
| ExplorePage.FilteredCreatorsAreThePassingOnes | src/pages/ExplorePage.tsx:22-37 | a creator is listed iff it passes both filters, as often as it occurs: a permutation of a subset of the creators |
| ExplorePage.FilteredCreatorsOrder | src/pages/ExplorePage.tsx:37-47 | followers descending, price_high by token price descending, price_low ascending, any other option by token change descending |
| ExplorePage.TrendingIsDefault | src/pages/ExplorePage.tsx:45-46 | 'trending' lists exactly what any unknown option lists |
| MarketCard.UnitsMessageDeterminesQuantity | src/components/marketplace/MarketCard.tsx:80 | the purchase message gives back the quantity |
| MarketCard.UnitsMessage | src/components/marketplace/MarketCard.tsx:80 | `Successfully purchased ${quantity} ${item.type.toUpperCase()}(s)`; specified by UnitsMessageDeterminesQuantity |
| MarketCard.Item.constructor | src/components/marketplace/MarketCard.tsx:32-36 | not liked, the item's likes, no dialog, quantity 1, not processing |
| MarketCard.Item.HandleLike | src/components/marketplace/MarketCard.tsx:38-53 | disconnected: one wallet error and both like fields unchanged; connected: the like toggles with its message |
| MarketCard.Item.BuyButton | src/components/marketplace/MarketCard.tsx:150-158 | disconnected: one wallet error and no dialog; connected: the dialog opens |
| MarketCard.Item.SetQuantity | src/components/marketplace/MarketCard.tsx:213 | the quantity becomes max(1, n), or NaN when the parse was NaN |
| MarketCard.Item.CloseModal | src/components/marketplace/MarketCard.tsx:186 | the dialog closes |
| MarketCard.Item.HandlePurchase | src/components/marketplace/MarketCard.tsx:70-87 | disconnected: one wallet error, dialog and flag untouched; success: 'Successfully purchased <quantity> <TYPE>(s)', the dialog closes; failure: the error with the dialog open; the flag ends false |
| ContentCard.ToggleLike | src/components/content/ContentCard.tsx:34-41 | the flag flips; likes go down by one when it was liked and up by one otherwise |
| ContentCard.LikeMessage | src/components/content/ContentCard.tsx:34-40 | 'Removed from favorites' when liked before the click, else 'Added to favorites'; specified through Card.HandleLike |
| ContentCard.LikedCount | src/components/content/ContentCard.tsx:31-42 | the like count is the item's own count plus one while liked; kept by ToggleKeepsCount and the Valid of both cards |
| ContentCard.ToggleTwice | src/components/content/ContentCard.tsx:34-41 | two likes in a row restore both the flag and the count |
| ContentCard.ToggleKeepsCount | src/components/content/ContentCard.tsx:31-42 | a click keeps LikedCount: the count stays the item's own likes plus one exactly while liked |
| ContentCard.Card.constructor | src/components/content/ContentCard.tsx:28-29 | not liked, with the item's likes |
| ContentCard.Card.HandleLike | src/components/content/ContentCard.tsx:31-42 | no wallet gate: the like toggles and exactly one alert names the change |
| UseContentActions.LikesAfter | src/hooks/useContentActions.ts:11 | the count is the initial likes plus one iff the item was not liked |
| UseContentActions.ContentActions.constructor | src/hooks/useContentActions.ts:6-7 | not liked, count 0 |
| UseContentActions.ContentActions.HandleLike | src/hooks/useContentActions.ts:9-13 | the flag flips, the count is LikesAfter, and the message is chosen from the flag before the call |
| ContentDetailsPage.Lookup | src/pages/ContentDetailsPage.tsx:22-27 | nothing when no item has the id or no creator matches the first such item; otherwise that item with the first matching creator |
| ContentDetailsPage.MessagesNameNewState | src/pages/ContentDetailsPage.tsx:35-43 | 'Playing' and 'Muted' are shown exactly when the flag was off |
| ContentDetailsPage.PlayMessage | src/pages/ContentDetailsPage.tsx:37 | 'Paused' when playing before the click, else 'Playing'; specified by MessagesNameNewState |
| ContentDetailsPage.MuteMessage | src/pages/ContentDetailsPage.tsx:42 | 'Unmuted' when muted before the click, else 'Muted'; specified by MessagesNameNewState |
| ContentDetailsPage.TradeMessage | src/pages/ContentDetailsPage.tsx:56 | `Successfully ${verb} ${quantity} ${type.toUpperCase()}(s)`, the verb purchased or sold; specified by TradeMessageDeterminesTrade |
| ContentDetailsPage.TradeMessageDeterminesTrade | src/pages/ContentDetailsPage.tsx:56 | the success message gives back both the side and the quantity |
| ContentDetailsPage.DetailsPage.constructor | src/pages/ContentDetailsPage.tsx:15-20 | not playing, not muted, no dialog, quantity 1, not processing |
| ContentDetailsPage.DetailsPage.HandlePlay | src/pages/ContentDetailsPage.tsx:35-38 | the playing flag flips with one alert naming the new state |
| ContentDetailsPage.DetailsPage.HandleMute | src/pages/ContentDetailsPage.tsx:40-43 | the muted flag flips with one alert naming the new state |
| ContentDetailsPage.DetailsPage.OpenModal | src/pages/ContentDetailsPage.tsx:237-244 | the buy or the sell dialog opens, without a wallet check |
| ContentDetailsPage.DetailsPage.CloseModals | src/pages/ContentDetailsPage.tsx:306-309 | both dialogs close |
| ContentDetailsPage.DetailsPage.SetQuantity | src/pages/ContentDetailsPage.tsx:85 | the quantity becomes max(1, n), or NaN when the parse was NaN |
| ContentDetailsPage.DetailsPage.HandleTransaction | src/pages/ContentDetailsPage.tsx:45-63 | disconnected: one wallet error, `connect` started, flag and dialogs untouched; connected: one alert, on success only that side's dialog closes, the flag ends false |
| CreatorPage.CreatorContentExact | src/pages/CreatorPage.tsx:28 | exactly the items whose creator is the route's id, each as often as in the catalogue, in catalogue order |
| CreatorPage.CreatorContent | src/pages/CreatorPage.tsx:28 | `CONTENT.filter(content => content.creatorId === id)`; specified by CreatorContentExact |
| CreatorPage.TokenTitle | src/pages/CreatorPage.tsx:80 | the upper-cased username followed by ' tokens'; specified through HandleTokenTransaction |
| CreatorPage.SubscribeMessage | src/pages/CreatorPage.tsx:55 | 'Subscribed successfully' iff the user was not subscribed before |
| CreatorPage.CreatorView.constructor | src/pages/CreatorPage.tsx:20-22 | not subscribed, no dialog, amount 1 |
| CreatorPage.CreatorView.HandleSubscribe | src/pages/CreatorPage.tsx:46-59 | disconnected: one wallet error, `connect` started, the subscription unchanged; connected: the subscription flips with its message |
| CreatorPage.CreatorView.OpenTokenModal | src/pages/CreatorPage.tsx:216-225 | the dialog opens unless a trade is processing |
| CreatorPage.CreatorView.CloseTokenModal | src/pages/CreatorPage.tsx:269-273 | the dialog closes |
| CreatorPage.CreatorView.SetTokenAmount | src/pages/CreatorPage.tsx:290 | the amount becomes max(1, n), or NaN when the parse was NaN |
| CreatorPage.CreatorView.HandleTokenTransaction | src/pages/CreatorPage.tsx:76-87 | a trade of the amount at the creator's token price titled '<USERNAME> tokens'; on success the dialog closes and the amount returns to 1, otherwise both stay; disconnected, the busy flag is untouched and the connect starts, connected, the flag ends false |
| ProfilePage.Slice | src/pages/ProfilePage.tsx:27-29 | `slice(start, end)`: the elements from start up to end, clipped to the list |
| ProfilePage.TabsPartitionPrefix | src/pages/ProfilePage.tsx:27-29 | the three tabs together are exactly the first ten items, in order |
| ProfilePage.Collectibles | src/pages/ProfilePage.tsx:27 | `CONTENT.slice(0, 4)`; specified by TabsPartitionPrefix and TabsDisjoint |
| ProfilePage.Created | src/pages/ProfilePage.tsx:28 | `CONTENT.slice(4, 6)`; specified by TabsPartitionPrefix and TabsDisjoint |
| ProfilePage.Favorites | src/pages/ProfilePage.tsx:29 | `CONTENT.slice(6, 10)`; specified by TabsPartitionPrefix and TabsDisjoint |
| ProfilePage.TabsDisjoint | src/pages/ProfilePage.tsx:27-29 | with distinct ids no item appears in two tabs |
| ProfilePage.FundsAddedDeterminesAmount | src/pages/ProfilePage.tsx:46 | the success message gives back the typed amount |
| ProfilePage.FundsAdded | src/pages/ProfilePage.tsx:46 | `Successfully added ${fundAmount} ETH to your wallet`; specified by FundsAddedDeterminesAmount |
| ProfilePage.AmountGuard | src/pages/ProfilePage.tsx:38 | an empty amount is refused; otherwise a number is accepted iff it is above 0, and NaN passes the guard |
| ProfilePage.AmountAccepted | src/pages/ProfilePage.tsx:38 | the amount guard of handleAddFunds is not raised: a non-empty text whose parse is not at most 0; specified by AmountGuard and PresetsAccepted |
| ProfilePage.PresetsAccepted | src/pages/ProfilePage.tsx:326-329 | every preset amount passes the guard |
| ProfilePage.Profile.constructor | src/pages/ProfilePage.tsx:15-18 | no dialog, empty amount, not processing |
| ProfilePage.Profile.OpenAddFunds | src/pages/ProfilePage.tsx:117 | the add-funds dialog opens |
| ProfilePage.Profile.OpenSettings | src/pages/ProfilePage.tsx:124 | the settings dialog opens |
| ProfilePage.Profile.SetFundAmount | src/pages/ProfilePage.tsx:316-321 | the amount becomes the typed text, except while processing |
| ProfilePage.Profile.ChoosePreset | src/pages/ProfilePage.tsx:326-331 | the amount becomes the preset's text, except while processing |
| ProfilePage.Profile.HandleAddFunds | src/pages/ProfilePage.tsx:37-54 | refused amount: 'Please enter a valid amount' and nothing else; success: the funds message, the dialog closes, the amount resets to ''; failure: the error with the dialog and amount kept; processing ends false |
| ProfilePage.Profile.HandleSaveSettings | src/pages/ProfilePage.tsx:56-67 | success: 'Settings saved successfully' and the dialog closes; failure: the error with the dialog kept; processing ends false |
| ProfilePage.Profile.CloseAddFunds | src/pages/ProfilePage.tsx:298-301 | the dialog closes unless processing |
| ProfilePage.Profile.CloseSettings | src/pages/ProfilePage.tsx:365-368 | the dialog closes unless processing |
| Js.AtLeastOne | src/components/marketplace/MarketCard.tsx:213 | `Math.max(1, n)`: n when it is at least 1, 1 when it is below, NaN exactly when n is NaN |
| Js.ParseNatText | src/hooks/useMarket.ts:20 | decimal text reads back as the number it was printed from |
| Js.NatText | src/hooks/useTransaction.ts:27 | the decimal digits of a natural number without leading zeros; inverted by ParseNatText |
| Js.IntText | src/hooks/useTransaction.ts:27 | `String(i)` for an integer: a '-' only for negatives, then the digits; injective by IntTextInjective |
| Js.JsIntText | src/hooks/useTransaction.ts:27 | the template-literal text of a parsed integer, 'NaN' for NaN; injective by JsIntTextInjective |
| Js.NatTextInjective | src/hooks/useMarket.ts:20 | two numbers with the same decimal text are equal |
| Js.IntTextInjective | src/hooks/useFormValidation.ts:29 | two integers with the same text are equal |
| Js.JsIntTextInjective | src/hooks/useMarket.ts:20 | two `parseInt` results with the same text, NaN included, are equal |
| Js.Thousandths | src/hooks/useTransaction.ts:27 | the thousandths `toFixed(3)` keeps are the nearest to the value |
| Js.Fixed3NonNegative | src/hooks/useTransaction.ts:27 | `toFixed(3)` of a non-negative value is digits, a point and three digits |
| Js.Fixed3RoundTrip | src/hooks/useTransaction.ts:27 | the printed total reads back as its value rounded to thousandths |
| Js.Fixed3 | src/hooks/useTransaction.ts:27 | `x.toFixed(3)`: 'NaN', or a sign and the non-negative format of the magnitude; specified by Fixed3RoundTrip and DetailsTotal |
| Js.ParsePad3 | src/hooks/useTransaction.ts:27 | the three-digit fraction reads back as its number |
| Js.Lower | src/pages/MarketplacePage.tsx:47 | `toLowerCase`: same length, each ASCII capital lowered, every other character kept |
| Js.Upper | src/pages/CreatorPage.tsx:80 | `toUpperCase`: same length, each ASCII small letter raised, every other character kept |
| Js.Includes | src/pages/MarketplacePage.tsx:47 | `s.includes(t)`; specified by IncludesAt and IncludesEmpty |
| Js.IncludesAt | src/pages/MarketplacePage.tsx:47 | `includes` holds iff the term occurs at some position |
| Js.IncludesEmpty | src/pages/MarketplacePage.tsx:47 | every text includes the empty term |
| Js.Trim | src/pages/CreateContentPage.tsx:280 | the result is a slice of the input that neither starts nor ends with white space, and everything outside it is white space: exactly the leading and trailing white space is removed |
| Js.TrimIdempotent | src/pages/CreateContentPage.tsx:280 | trimming twice is trimming once |
| Js.Split | src/pages/CreateContentPage.tsx:280 | `s.split(sep)`, at least one piece; specified by SplitCount, SplitPiecesFree and JoinSplit |
| Js.Join | src/pages/CreateContentPage.tsx:280 | `parts.join(sep)`, the partner that JoinSplit proves inverts Split |
| Js.SplitCount | src/pages/CreateContentPage.tsx:280 | splitting gives one piece more than there are separators |
| Js.SplitPiecesFree | src/pages/CreateContentPage.tsx:280 | no piece contains the separator |
| Js.JoinSplit | src/pages/CreateContentPage.tsx:280 | joining the pieces with the separator gives back the input |
| Seqs.Filter | src/pages/MarketplacePage.tsx:32 | `filter` keeps exactly the elements that pass, never lengthening the list |
| Seqs.FilterMultiset | src/pages/MarketplacePage.tsx:32-51 | each passing element keeps its multiplicity and the others vanish |
| Seqs.FilterConcat | src/pages/CreatorPage.tsx:28 | filtering a concatenation is concatenating the filtered parts, so order is kept |
| Seqs.FilterAllPass | src/pages/MarketplacePage.tsx:32 | when every element passes the list is unchanged |
| Seqs.FilterIdempotent | src/pages/MarketplacePage.tsx:32 | filtering twice is filtering once |
| Seqs.FindFirst | src/pages/MarketplacePage.tsx:22 | the index of the first passing element, or -1 exactly when none passes |
| Seqs.SortBy | src/pages/MarketplacePage.tsx:52-58 | the result is ordered by the key in the asked direction and is a permutation of the input |
| Seqs.SortByUniformKey | src/pages/MarketplacePage.tsx:57 | when every key is equal (a comparator returning 0) the order is unchanged |

## Left out

- Rendering, animation, routing and navigation are not modelled. Neither is React's batching of state updates inside one handler: each handler's updates are applied in program order.
- `handleShare` in `useContentActions`, `MarketCard` and `CreatorPage` calls `navigator.share` and the clipboard, browser services outside the model.
- `URL.createObjectURL` and `URL.revokeObjectURL` are browser services. The created URL is a parameter, and revoking has no modelled effect.
- Alert ids come from `Math.random` and are parameters. Hence "removal deletes exactly one alert" is stated only for an id no other alert carries (`RemoveUnique`).
- Timers have no wall-clock time. An expiry is an explicit `Expire(id)` that may fire at any later step, and the awaited delays (two seconds in the actions, one second in `connect`) are one atomic step each; the five-second alert expiry is the separate `Expire`.
- The awaited delays never reject in the source. Their `catch` branches are reached only through the `failed` input. `disconnect`'s 'Failed to disconnect wallet' and `handleSubscribe`'s 'Failed to update subscription' sit behind code that cannot throw, so they have no input that reaches them.
- The guarded actions start `connect()` without awaiting it. So inside them only its synchronous start runs (`BeginConnect`), and its continuation after the delay is the separate `CompleteConnect`.
- Js.Fixed3NonNegative: `toFixed(3)` is modelled for the non-negative totals the app prints. Large values (at or above 1e21), which JavaScript prints in exponent form, are not modelled.
- `parseInt` and `parseFloat` are not modelled on text. Their results are inputs, so the text-to-number step, such as '12abc' parsing to 12, is outside the model.
- Validation.PricePositive: a text value is refused here. JavaScript would first coerce it with `Number`, which is not modelled.
- The email pattern is a given predicate on values. Regular expressions are not modelled.
- Zod's internals and error shapes are not modelled. Only which issues a schema reports, in field order, is. Lengths count `char`s, not UTF-16 code units, and case mapping is ASCII only.
- react-dropzone's own MIME-type and `maxFiles` filtering happens before `onDrop`. `OnDrop` is given the files the dropzone accepted.
- `useMarket`'s `tokenId`, `price` and `metadata` parameters and `useCreator`'s `data` and `contentId` parameters have no effect in the source. `ContentDetailsPage`'s and `CreatorPage`'s price histories are built with `Math.sin` from floating point and only drawn. None of the three is modelled.
- `useAnalytics`, `formatPrice`, the `PriceChart` and `RichTextEditor` components and the `activeTab` state of the profile and creator pages only affect what is drawn, so they are not modelled.
- The "connect your wallet" screens of the marketplace, create and profile pages only render a button that calls `connect`. That is `Wallet.Connect`.
- `handleCreateContent` is modelled, but no button in the create page calls it. The tokenization form's `onSubmit` is `handleTokenization`.
- Js.IntText / Js.JsIntText and the real-valued prices: JavaScript numbers are doubles, while the model uses unbounded `int` and exact `real`. Two gaps follow. First, `${n}` prints integers from 1e21 up in exponent form (so MarketCard's alert would read "1e+21 NFT(s)"), the model prints every integer as digits, and no `parseInt` result above 2^53 is exact. Second, `price * quantity` is a rounded double product, so `toFixed(3)` can round a stored tie differently from the exact real: `(1.0005).toFixed(3)` is "1.000", where `Fixed3NonNegative(1.0005)` gives "1.001". `DetailsTotal`, `Fixed3RoundTrip` and `Thousandths` hold of the exact real value.
- UseMarket.MarketHook.PurchaseToken / SellToken: `amount` is a `number` and reaches only the alert text. The model takes that text `String(amount)` as an input (`amountText`) and does not model number-to-string conversion. So the message lemmas recover the amount's text for any amount, fractions such as 2.5 included, and recover the number itself only for whole amounts (`WholeAmountsDetermined`).
- Dates are given as integer timestamps, so `new Date(...).getTime()` is not modelled.
- Sort stability is stated only as `SortByUniformKey` (all keys equal means the order is kept). The order among items with equal keys is otherwise not stated.
- Each settlement is one atomic step, so `isProcessing` is false between steps everywhere, and no `disabled` attribute can ever take effect. A few are written as guards anyway, to mirror the source: the profile amount input and presets, the creator token buttons and the tokenization submit. These guards never fire, and the other `disabled` buttons are not modelled.
- In `handleAddFunds`, `parseFloat` of a non-empty, non-numeric amount is NaN. `NaN <= 0` is false, so such an amount passes the guard and is reported as added. The model keeps this source behaviour.
