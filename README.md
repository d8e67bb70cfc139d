# Raffle organiser app: a verified model of its client-side rules

This project models the browser-side rules of a raffle ("rifa") organiser app.
It is a React client over a hosted backend. Organisers create campaigns, price and
number the tickets ("cotas"), upload prize images, set up a Pix key and social
links, and pay a publication fee. Buyers pick ticket numbers on a grid.

The model covers the logic that is written out in the client itself:

- the publication-fee schedule and the fee arithmetic of the payment step;
- the two campaign validation schemas and the publish gate of the creation form;
- the two currency masks and the CPF/CNPJ Pix-key mask;
- the ticket grid, the selection toggle and summary, and the quantity counter;
- the prize-image queue (add, remove, reorder, upload partition);
- the local campaign list;
- the social-network table and the admin user filter;
- the draft-expiry countdown and the saved-route history;
- the sign-up form's checks and redirect.

Each source module is a Dafny module:

- Pure code is modelled as functions and lemmas.
- Component and hook state is modelled as a class whose methods change its fields.
- Backend answers, the clock (`now`, in epoch milliseconds), generated ids and
  the user's confirmation are method parameters.
- Money in the fee schedule and fee arithmetic is `real`, which is exact. The masks
  work on integer cents.

| file | module | source |
|---|---|---|
| wrappers.dfy | `Wrappers` | `Option`/`Result` |
| text.dfy | `Text` | digit strings, `String(n)`, `parseInt`, `parseFloat`, `trim`, ASCII `toLowerCase`, `includes` |
| lists.dfy | `Lists` | order-preserving `Array.filter` |
| campaign_validation.dfy | `CampaignValidation` | src/lib/validations/campaign.ts |
| campaign_api.dfy | `CampaignApi` | src/lib/api/campaigns.ts |
| create_campaign_page.dfy | `CreateCampaign` | src/pages/CreateCampaignPage.tsx |
| affiliates.dfy | `Affiliates` | src/pages/AffiliatesManagementPage.tsx |
| pix_key.dfy | `PixKey` | src/pages/PaymentIntegrationsPage.tsx |
| quota_grid.dfy | `QuotaGrid` | src/components/QuotaGrid.tsx |
| quota_selection.dfy | `QuotaSelection` | src/pages/CampaignPage.tsx |
| quota_selector.dfy | `QuotaSelector` | src/components/QuotaSelector.tsx |
| image_queue.dfy | `ImageQueue` | src/hooks/useImageUpload.ts |
| image_upload_view.dfy | `ImageUploadView` | src/components/ImageUpload.tsx |
| payment_step.dfy | `PaymentStep` | src/pages/CreateCampaignStep3Page.tsx |
| dashboard.dfy | `Dashboard` | src/pages/DashboardPage.tsx |
| admin_dashboard.dfy | `AdminDashboard` | src/pages/AdminDashboardPage.tsx |
| route_history.dfy | `RouteHistory` | src/hooks/useRouteHistory.ts |
| social_media.dfy | `SocialMedia` | src/pages/SocialMediaPage.tsx |
| register.dfy | `Register` | src/pages/RegisterPage.tsx |
| campaign_cache.dfy | `CampaignCache` | src/hooks/useCampaigns.ts |

## Model

| member | source | states |
|---|---|---|
| CampaignApi.PublicationTax | src/lib/api/campaigns.ts:162-182 | The fee is one of the 16 schedule values, so it lies in [7, 3997]. It is 7 when tickets × price ≤ 100 and 3997 above 150000. |
| CampaignApi.PublicationFee | src/lib/api/campaigns.ts:165-181 | The fee for a revenue lies between 7 and 3997, and is 3997 exactly above 150000. Its table form and monotonicity are stated by FeeMatchesTable and FeeMonotone. |
| CampaignApi.FeeMatchesTable | src/lib/api/campaigns.ts:165-181 | The if-chain equals a lookup in the table of inclusive upper bounds. |
| CampaignApi.BandsAscend | src/lib/api/campaigns.ts:165-181 | The bounds and the fees of the bands both strictly ascend, and the top fee is above all of them. |
| CampaignApi.FeeMonotone | src/lib/api/campaigns.ts:165-181 | More revenue never gives a smaller fee. |
| CampaignApi.TaxDependsOnRevenue | src/lib/api/campaigns.ts:163 | Two ticket/price pairs with the same product pay the same fee. |
| CampaignApi.FeeBoundaries | src/lib/api/campaigns.ts:165-181 | Bounds are inclusive: 100 gives 7, 701 gives 37, 150000 gives 2997. Just above each bound the next fee applies. |
| CampaignApi.NewCampaignRecord | src/lib/api/campaigns.ts:11-21 | The inserted record keeps the input and owner, has 0 sold tickets and status draft, and expires exactly 172,800,000 ms after its start date. |
| CampaignValidation.ParseSound | src/lib/validations/campaign.ts:4-90 | An accepted input meets every field range, the enums, the phone format and min ≤ max ≤ total. It has a raw title of 3..100 characters, is returned trimmed, and gets the defaults 24, 1 and 1000. |
| CampaignValidation.ParseComplete | src/lib/validations/campaign.ts:4-90 | An input meeting every rule is accepted. |
| CampaignValidation.ParseRejects | src/lib/validations/campaign.ts:5-25 | A title outside 3..100, a price outside [0.01, 10000], or a ticket count that is not an integer in 1..10,000,000 is refused. |
| CampaignValidation.ParseCreateCampaign | src/lib/validations/campaign.ts:4-90 | The schema accepts exactly when no field rule and no refinement fails. A rejection carries at least one issue, and once every field passes it carries the refinement issues. What an accepted input satisfies is stated by ParseSound and ParseComplete. |
| CampaignValidation.FieldIssues | src/lib/validations/campaign.ts:4-77 | The failing field rules of the creation schema, in field order, with the defaults of the optional numbers applied. ParseSound, ParseComplete and ParseRejects state what an empty list means. |
| CampaignValidation.RefinementIssues | src/lib/validations/campaign.ts:78-90 | The two refinements in order: minimum at most maximum, then maximum at most the total. ParseSound states what passing them means. |
| CampaignValidation.IntRangeIssuesEmpty | src/lib/validations/campaign.ts:21-49 | An integer field passes exactly when it is an integer within its bounds. |
| CampaignValidation.PriceNumberOfShape | src/lib/validations/campaign.ts:113-120 | `parseFloat` of a well-formed price, with its comma made a point, is its cents over 100. |
| CampaignValidation.PriceRule | src/lib/validations/campaign.ts:110-120 | The form price passes exactly when it has the shape digits-comma-two-digits and its value is 0,01..10000,00. |
| CampaignValidation.FormPriceNumber | src/lib/validations/campaign.ts:113-120 | The number the price refinements see, `parseFloat` after the first comma becomes a point. PriceNumberOfShape states its value on well-formed prices. |
| CampaignValidation.PriceIssues | src/lib/validations/campaign.ts:110-120 | The regex check, then the two bounds, where a price that is not a number fails both. PriceRule states when the list is empty. |
| CampaignValidation.FormIssues | src/lib/validations/campaign.ts:98-156 | Every failing rule of the form schema, in field order. IssueMapLast and ValidateForm state how the page turns them into field errors. |
| CreateCampaign.FormatCurrency | src/pages/CreateCampaignPage.tsx:95-112 | No digits give "0,00". The output always has the price shape. Its cents value equals the number formed by the input's digits. |
| CreateCampaign.FormatCurrencyIdempotent | src/pages/CreateCampaignPage.tsx:95-112 | Masking the mask's output changes nothing. |
| CreateCampaign.FormatCurrencyPriceRule | src/pages/CreateCampaignPage.tsx:95-118 | A masked price passes the form's price rule exactly when the typed digits are 1..1,000,000 cents. |
| CreateCampaign.ApplyEdit | src/pages/CreateCampaignPage.tsx:39-45 | An edit stores its value in its own field and leaves every other field as it was. |
| CreateCampaign.IssueMapLast | src/pages/CreateCampaignPage.tsx:54-72 | The error map has an entry for a field exactly when some issue concerns it. The entry is the last such issue. |
| CreateCampaign.ConvertFormDataToApi | src/pages/CreateCampaignPage.tsx:74-93 | The other twelve fields are copied under their data-layer names. The description is null. The price is `parseFloat` of the comma-to-point string. |
| CreateCampaign.ConvertedPriceOfShape | src/pages/CreateCampaignPage.tsx:74-76 | A price in the form's digits-comma-two-digits shape reaches the data layer as its cents in reais. |
| CreateCampaign.MaskedPriceCents | src/pages/CreateCampaignPage.tsx:95-112 | The mask's output has the price shape, and read back in cents it is the number the typed digits spell. |
| CreateCampaign.MaskedPriceConverts | src/pages/CreateCampaignPage.tsx:74-93 | A price typed through the mask reaches the data layer as its digits read in cents, over 100. (Also lines 95-118 of the same file.) |
| CreateCampaign.MissingFields | src/pages/CreateCampaignPage.tsx:185-198 | Exactly the missing fields are listed, in the order title, quantity, price, draw method, phone. |
| CreateCampaign.IsMissing | src/pages/CreateCampaignPage.tsx:194-198 | The five checks: a blank title or phone, a quantity that is NaN or not positive, an empty or "0,00" price, an empty draw method. MissingFields and ZeroPriceBlocksPublish state its use. |
| CreateCampaign.PushMissing | src/pages/CreateCampaignPage.tsx:193-198 | The pushes in check order: exactly the missing checks, kept in that order. |
| CreateCampaign.PublishGate | src/pages/CreateCampaignPage.tsx:200-213 | Publishing proceeds exactly when nothing is missing, the terms are accepted and a user is signed in. A block carries the missing list and whether the terms alert shows. |
| CreateCampaign.ZeroPriceBlocksPublish | src/pages/CreateCampaignPage.tsx:97-102 | A price masked from no digits ("0,00") always blocks publishing, with the price listed as missing. (Also line 196 of the same file.) |
| CreateCampaign.DraftFailureAlert | src/pages/CreateCampaignPage.tsx:168-177 | A "validation" message is checked before a "duplicate" one. |
| CreateCampaign.PublishFailureAlert | src/pages/CreateCampaignPage.tsx:226-233 | The publish path knows only the "validation" alert. |
| CreateCampaign.AfterCreate | src/pages/CreateCampaignPage.tsx:215-233 | The page goes to step 2 with the new id exactly when a campaign came back. It alerts exactly when the create threw. |
| CreateCampaign.CreateCampaignForm.HandleInputChange | src/pages/CreateCampaignPage.tsx:39-52 | Only the named field changes, and only that field's error is dropped. |
| CreateCampaign.CreateCampaignForm.HandlePriceChange | src/pages/CreateCampaignPage.tsx:114-118 | The stored price is the mask of the typed text and has the price shape. |
| CreateCampaign.CreateCampaignForm.SetAcceptTerms | src/pages/CreateCampaignPage.tsx:748 | Only the terms flag changes; the form data, the errors and the loading flag are kept. |
| CreateCampaign.CollectIssues | src/pages/CreateCampaignPage.tsx:60-67 | The `forEach` builds the map of `IssueMap`: each issue recorded under its field, the later issue winning. |
| CreateCampaign.CreateCampaignForm.ValidateForm | src/pages/CreateCampaignPage.tsx:54-72 | The result is true exactly when the form has no issue. The error map is rebuilt from the issues, in order. |
| CreateCampaign.CreateCampaignForm.HandleSaveDraft | src/pages/CreateCampaignPage.tsx:149-181 | A blank title sets only the title error and saves nothing. Without a user nothing changes. Otherwise `loading` ends false and the outcome follows the save's answer. |
| CreateCampaign.CreateCampaignForm.HandlePublish | src/pages/CreateCampaignPage.tsx:183-237 | A blocked or unauthenticated publish changes nothing. A publish that proceeds ends with `loading` false and the create's outcome. |
| Affiliates.FormatCurrency | src/pages/AffiliatesManagementPage.tsx:51-68 | No digits give "R$ 0,00". The output is "R$ " then an amount of the price shape whose cents equal the input's digits. |
| Affiliates.SameAmountAsPriceMask | src/pages/AffiliatesManagementPage.tsx:51-68 | The amount after "R$ " is the creation page's mask of the same input. |
| Affiliates.FormatCurrencyIdempotent | src/pages/AffiliatesManagementPage.tsx:51-68 | Masking the mask's output changes nothing. |
| Affiliates.AffiliatesPage.SendDisabled | src/pages/AffiliatesManagementPage.tsx:296 | The send button is disabled exactly when the email is all whitespace. |
| Affiliates.AffiliatesPage.HandleSaveAffiliate | src/pages/AffiliatesManagementPage.tsx:24-34 | Saving closes the modal and resets the draft to '', percentage, 10, "R$ 0,00". |
| Affiliates.AffiliatesPage.HandleCloseModal | src/pages/AffiliatesManagementPage.tsx:36-44 | Closing performs the same reset. |
| Affiliates.AffiliatesPage.SelectCommissionType | src/pages/AffiliatesManagementPage.tsx:196-225 | Choosing a commission type changes only that field. |
| Affiliates.AffiliatesPage.HandleFixedAmountChange | src/pages/AffiliatesManagementPage.tsx:70-74 | The fixed amount is the mask of the typed text. |
| Affiliates.AffiliatesPage.HandleAddAffiliate | src/pages/AffiliatesManagementPage.tsx:20-22 | Opens the modal and keeps the draft and the search text. |
| Affiliates.AffiliatesPage.SetEmail | src/pages/AffiliatesManagementPage.tsx:167 | Only the draft's e-mail changes. |
| Affiliates.AffiliatesPage.HandleCommissionChange | src/pages/AffiliatesManagementPage.tsx:46-48 | Only the draft's commission value changes. |
| PixKey.FormatPixKey | src/pages/PaymentIntegrationsPage.tsx:53-78 | Types other than cpf/cnpj are returned unchanged. For cpf (cnpj) the output's digits are the first 11 (14) digits of the input. |
| PixKey.FormatCpf | src/pages/PaymentIntegrationsPage.tsx:56-64 | The CPF branch: at most 11 digits and the three first-match replacements. FormatCpfLayout, FormatCpfComplete and FormatCpfIdempotent state its output. |
| PixKey.FormatCnpj | src/pages/PaymentIntegrationsPage.tsx:65-72 | The CNPJ branch: at most 14 digits and the four first-match replacements. FormatCnpjLayout, FormatCnpjComplete and FormatCnpjIdempotent state its output. |
| PixKey.FormatCpfLayout | src/pages/PaymentIntegrationsPage.tsx:56-64 | The chain of first-match replaces equals the DDD.DDD.DDD-DD layout of the first 11 digits. |
| PixKey.FormatCnpjLayout | src/pages/PaymentIntegrationsPage.tsx:56-72 | The chain equals the DD.DDD.DDD/DDDD-DD layout of the first 14 digits. |
| PixKey.FormatCpfComplete | src/pages/PaymentIntegrationsPage.tsx:59-64 | With at least 11 digits the output is exactly DDD.DDD.DDD-DD. |
| PixKey.FormatCnpjComplete | src/pages/PaymentIntegrationsPage.tsx:66-72 | With at least 14 digits the output is exactly DD.DDD.DDD/DDDD-DD. |
| PixKey.FormatCpfIdempotent | src/pages/PaymentIntegrationsPage.tsx:55-64 | Masking a masked CPF changes nothing. |
| PixKey.FormatCnpjIdempotent | src/pages/PaymentIntegrationsPage.tsx:55-73 | Masking a masked CNPJ changes nothing. |
| PixKey.ConfiguredAfterMount | src/pages/PaymentIntegrationsPage.tsx:13-22 | A stored "true" or "false" is taken. An absent, empty or unparsable entry keeps the current value. |
| PixKey.PixSettings.CheckStoredConfiguration | src/pages/PaymentIntegrationsPage.tsx:13-22 | The mount effect sets only the configured flag, as read from storage. |
| PixKey.PixSettings.SaveDisabled | src/pages/PaymentIntegrationsPage.tsx:347 | The save button is disabled exactly when the key is all whitespace. |
| PixKey.PixSettings.HandlePixConfiguration | src/pages/PaymentIntegrationsPage.tsx:28-30 | Opens the key modal and keeps the key, its type and the configuration. |
| PixKey.PixSettings.HandleSavePixConfiguration | src/pages/PaymentIntegrationsPage.tsx:32-45 | A blank key changes nothing. Otherwise the page is marked configured in state and storage, the modal closes, and the key and type reset to '' and cpf. |
| PixKey.PixSettings.HandleClosePixModal | src/pages/PaymentIntegrationsPage.tsx:47-51 | Closing resets the key and its type and leaves the configuration alone. |
| PixKey.PixSettings.HandlePixKeyChange | src/pages/PaymentIntegrationsPage.tsx:80-84 | The key is the typed text masked for the current type. |
| PixKey.PixSettings.ChangeKeyType | src/pages/PaymentIntegrationsPage.tsx:316-319 | Changing the type clears the key. |
| QuotaGrid.StatusOf | src/components/QuotaGrid.tsx:20-25 | The priority is purchased > reserved > selected > available, each as an if-and-only-if. |
| QuotaGrid.Click | src/components/QuotaGrid.tsx:42-47 | A click is forwarded, with its own number, exactly in manual mode, with a handler, on a cell neither purchased nor reserved. |
| QuotaGrid.Disabled | src/components/QuotaGrid.tsx:108 | A cell is disabled exactly in automatic mode or when it is purchased or reserved. |
| QuotaGrid.ClickIffEnabled | src/components/QuotaGrid.tsx:42-47 | With a handler, a click goes through exactly on an enabled cell. (Also line 108 of the same file.) |
| QuotaGrid.GridCols | src/components/QuotaGrid.tsx:50-54 | 10 columns up to 100 cells, 20 up to 1000, else 25. |
| QuotaGrid.GridColsMonotone | src/components/QuotaGrid.tsx:50-54 | More cells never give fewer columns. |
| QuotaGrid.Cells | src/components/QuotaGrid.tsx:95-96 | The cells are numbered 1..total in order. |
| QuotaGrid.AvailableCountMatchesCells | src/components/QuotaGrid.tsx:20-25 | If purchased and reserved are disjoint, duplicate-free subsets of 1..total, the counter equals the number of selected-or-available cells. (Also line 75 of the same file.) |
| QuotaGrid.AvailableCount | src/components/QuotaGrid.tsx:75 | The counter: total minus purchased minus reserved. AvailableCountMatchesCells states that it counts the selected-or-available cells. |
| QuotaSelection.Toggle | src/pages/CampaignPage.tsx:31-39 | The toggled number's membership flips and every other number's is kept. An absent number is appended. A duplicate-free selection stays duplicate-free. |
| QuotaSelection.Without | src/pages/CampaignPage.tsx:34 | `prev.filter(q => q !== n)`: exactly the other numbers, no longer, the list itself when n is absent, and duplicate-freedom kept. |
| QuotaSelection.ToggleTwice | src/pages/CampaignPage.tsx:32-38 | Toggling twice restores the set of numbers, and restores the exact list when the number was absent. |
| QuotaSelection.WithoutAppended | src/pages/CampaignPage.tsx:32-38 | Removing a just-appended number gives back the list. |
| QuotaSelection.Selection.HandleQuotaSelect | src/pages/CampaignPage.tsx:31-39 | The state becomes the toggled selection. |
| QuotaSelection.Selection.SortInPlace | src/pages/CampaignPage.tsx:146 | The state list itself ends ascending and is a permutation of what it held. |
| QuotaSelection.SelectionSummary | src/pages/CampaignPage.tsx:138-150 | The count is the selection's length, with a plural unless it is 1. The total is count × price. |
| QuotaSelection.ToggleTotal | src/pages/CampaignPage.tsx:32-38 | On a duplicate-free selection each toggle moves the total by exactly one ticket price. (Also line 149 of the same file.) |
| QuotaSelection.ToggleSize | src/pages/CampaignPage.tsx:32-38 | On a duplicate-free selection a toggle removes one number when it was selected and adds one otherwise. |
| QuotaSelector.Incremented | src/components/QuotaSelector.tsx:30-34 | The quantity becomes max(1, q + step), so it never drops below 1. |
| QuotaSelector.DecrementAtOne | src/components/QuotaSelector.tsx:31 | "-" at quantity 1 leaves 1. (Also line 73 of the same file.) |
| QuotaSelector.IncrementButtonsRaise | src/components/QuotaSelector.tsx:19-34 | Every "+" button raises a valid quantity by its value. |
| QuotaSelector.TypedQuantity | src/components/QuotaSelector.tsx:36-41 | Unparsable, zero or negative input gives 1. Otherwise the parsed value is used. |
| QuotaSelector.TypedQuantityOfDecimal | src/components/QuotaSelector.tsx:36-41 | Typing back the shown number keeps it. |
| QuotaSelector.Renders | src/components/QuotaSelector.tsx:47-49 | Manual mode renders nothing. |
| QuotaSelector.Selector.constructor | src/components/QuotaSelector.tsx:14-17 | The initial quantity defaults to 1. |
| QuotaSelector.Selector.HandleIncrement | src/components/QuotaSelector.tsx:30-34 | The stored quantity is the incremented one, and the callback receives exactly it. |
| QuotaSelector.Selector.HandleQuantityChange | src/components/QuotaSelector.tsx:36-41 | The stored quantity is the typed one, and the callback receives exactly it. |
| ImageQueue.ValidateFile | src/hooks/useImageUpload.ts:37-50 | A wrong type is reported even when the file is also too big. Over 5,242,880 bytes is too big, and exactly 5 MiB passes. Otherwise the file is valid. |
| ImageQueue.NewEntry | src/hooks/useImageUpload.ts:55-73 | A new entry has its file, id and preview, no url, is not uploading, and has an error exactly when the file is invalid. |
| ImageQueue.WithoutId | src/hooks/useImageUpload.ts:78-86 | Removal keeps, in order, exactly the entries with another id. |
| ImageQueue.MoveFacts | src/hooks/useImageUpload.ts:91-98 | The splice move keeps the length and the elements. The moved item lands at the target, and the others keep their order. |
| ImageQueue.MoveBack | src/hooks/useImageUpload.ts:91-98 | Moving back undoes a move. |
| ImageQueue.Move | src/hooks/useImageUpload.ts:91-98 | The two `splice` calls: take the entry out, then insert it at the target. MoveFacts and MoveBack state what the move keeps and how it is undone. |
| ImageQueue.ExistingEntries | src/hooks/useImageUpload.ts:192-202 | One entry per URL, in order, with id "existing-i" and that URL as preview and url. |
| ImageQueue.ExistingIdsDistinct | src/hooks/useImageUpload.ts:192-202 | The generated ids are distinct. |
| ImageQueue.Targets | src/hooks/useImageUpload.ts:104 | The targets are, in order, exactly the images with no error and no usable URL, where a missing or empty URL counts as none (the truthiness test). |
| ImageQueue.HasUrl | src/hooks/useImageUpload.ts:104-114 | The truthiness of `img.url`: present and not empty. Targets, ExistingUrls and ExistingTargets state its use. |
| ImageQueue.ExistingUrls | src/hooks/useImageUpload.ts:114 | The existing URLs are exactly the non-empty URLs already stored on images. |
| ImageQueue.ExistingTargets | src/hooks/useImageUpload.ts:104-114 | After `setExistingImages`, an entry is an upload target exactly when its URL is empty, and every non-empty URL is among the existing URLs. |
| ImageQueue.MarkUploading | src/hooks/useImageUpload.ts:121-123 | Same length. The entries with the id are marked uploading, and the others are kept. |
| ImageQueue.SetUrl | src/hooks/useImageUpload.ts:149-153 | Same length. The entries with the id get the URL and stop uploading, and the others are kept. |
| ImageQueue.MarkFailed | src/hooks/useImageUpload.ts:164-168 | Same length. A target entry still uploading gets the upload error and stops uploading, and every other entry is kept. |
| ImageQueue.UploadedFacts | src/hooks/useImageUpload.ts:117-157 | The sends keep every entry's id, file and error. An entry whose id none of the sent targets shares is unchanged. |
| ImageQueue.UploadedSent | src/hooks/useImageUpload.ts:117-157 | An entry sharing its id with a sent target ends with a URL and is no longer uploading. |
| ImageQueue.ImageUploadHook.SendOne | src/hooks/useImageUpload.ts:121-153 | One loop pass: the entry with that id is marked uploading; when the storage answers with a URL, it gets that URL and is no longer uploading. |
| ImageQueue.ImageUploadHook.SendTargets | src/hooks/useImageUpload.ts:117-157 | The loop fails exactly when some target gets no URL. A full run returns the URLs in target order and records each one on its entry. A failed run leaves the entries of the targets sent so far with their URLs, and the failing target marked uploading. |
| ImageQueue.ImageUploadHook.AddImages | src/hooks/useImageUpload.ts:55-73 | One entry per file is appended, in order, after the existing ones. Invalid files are kept with their error. |
| ImageQueue.ImageUploadHook.RemoveImage | src/hooks/useImageUpload.ts:78-86 | The list becomes the removal of that id. |
| ImageQueue.ImageUploadHook.ReorderImages | src/hooks/useImageUpload.ts:91-98 | The list becomes the splice move. |
| ImageQueue.ImageUploadHook.ClearImages | src/hooks/useImageUpload.ts:180-187 | The list becomes empty. |
| ImageQueue.ImageUploadHook.SetExistingImages | src/hooks/useImageUpload.ts:192-202 | The list becomes the entries for the URLs. |
| ImageQueue.ImageUploadHook.UploadImages | src/hooks/useImageUpload.ts:103-175 | With no targets, the existing URLs are returned and nothing changes, `uploading` included. Otherwise it succeeds exactly when every target got a URL, returning the existing URLs then the new ones in queue order, with each new URL recorded on its entry. A failure marks only the target in flight failed. The targets sent before it keep their URLs, and later targets are untouched. With targets, `uploading` ends false. |
| ImageUploadView.MoveCall | src/components/ImageUpload.tsx:77-82 | Up calls reorder(i, i-1) and down calls reorder(i, i+1), exactly when the target index is in range. |
| ImageUploadView.MoveAtEdges | src/components/ImageUpload.tsx:77-82 | Up at 0 and down at the last index make no call. |
| ImageUploadView.ControlsMatchGuard | src/components/ImageUpload.tsx:77-82 | A control is rendered exactly when its move would be forwarded. (Also lines 201, 211 of the same file.) |
| ImageUploadView.ShowsControl | src/components/ImageUpload.tsx:201-211 | Up is rendered for an index above 0, down for an index below the last. ControlsMatchGuard states that a control is shown exactly when its move is forwarded. |
| ImageUploadView.MoveAndBack | src/components/ImageUpload.tsx:77-82 | After a forwarded move, the opposite control on the image's new place is forwarded too, and it restores the list. |
| ImageUploadView.DropCall | src/components/ImageUpload.tsx:54-65 | A drop forwards, in order, exactly the files whose type starts with "image/", and makes no call when none remain. |
| ImageUploadView.AcceptedTypesAreImages | src/components/ImageUpload.tsx:58-60 | Every type the hook accepts passes the drop filter. |
| ImageUploadView.IsImageType | src/components/ImageUpload.tsx:58-60 | The drop filter: the MIME type starts with "image/". DropCall and AcceptedTypesAreImages state its use. |
| ImageUploadView.PickCall | src/components/ImageUpload.tsx:32-39 | A file pick forwards the files exactly when there are some. |
| PaymentStep.TicketsShown | src/pages/CreateCampaignStep3Page.tsx:21 | A missing or zero ticket count shows as 100. |
| PaymentStep.PriceShown | src/pages/CreateCampaignStep3Page.tsx:22 | A missing or zero price shows as 1.00. |
| PaymentStep.ImagesShown | src/pages/CreateCampaignStep3Page.tsx:23 | Missing images fall back to the one default picture, and an empty list is kept. |
| PaymentStep.NextIndex | src/pages/CreateCampaignStep3Page.tsx:57-61 | The next index stays in range and wraps from the last image to 0. |
| PaymentStep.PreviousIndex | src/pages/CreateCampaignStep3Page.tsx:51-55 | The previous index stays in range and wraps from 0 to the last image. |
| PaymentStep.StepsAreModular | src/pages/CreateCampaignStep3Page.tsx:51-61 | The two steps are +1 and -1 modulo the image count. |
| PaymentStep.NextPreviousInverse | src/pages/CreateCampaignStep3Page.tsx:51-61 | Next then previous, and previous then next, return to the start. |
| PaymentStep.Step3Page.HandleNextImage | src/pages/CreateCampaignStep3Page.tsx:57-61 | The index advances with wrap-around and stays valid. |
| PaymentStep.Step3Page.HandlePreviousImage | src/pages/CreateCampaignStep3Page.tsx:51-55 | The index goes back with wrap-around and stays valid. |
| PaymentStep.Step3Page.SelectThumbnail | src/pages/CreateCampaignStep3Page.tsx:285-292 | A thumbnail click selects that image. |
| PaymentStep.Step3Page.SelectPaymentMethod | src/pages/CreateCampaignStep3Page.tsx:124-153 | The chosen method is stored and the image index is kept. |
| PaymentStep.ShownFees | src/pages/CreateCampaignStep3Page.tsx:66-69 | As written: revenue is tickets × price and the publication fee is 7.00 for any revenue. The card fee is 0 for Pix and at least 0.39 for card, and total = 7 + card fee. |
| PaymentStep.CardFee | src/pages/CreateCampaignStep3Page.tsx:68 | 3.99% of the revenue plus 0.39 for a card, nothing for Pix. CardCostsSurcharge states the difference between the two methods. |
| PaymentStep.ScheduledFees | src/pages/CreateCampaignStep3Page.tsx:66-69 | Corrected: the same arithmetic, with the publication fee taken from the schedule. |
| PaymentStep.ShownFeesMatchScheduleIff | src/pages/CreateCampaignStep3Page.tsx:67 | The shown fees equal the scheduled ones exactly when revenue ≤ 100. |
| PaymentStep.ShownFeeUndercharges | src/pages/CreateCampaignStep3Page.tsx:67 | 1000 tickets at 1.00 show 7.00, while the schedule charges 47.00. |
| PaymentStep.CardCostsSurcharge | src/pages/CreateCampaignStep3Page.tsx:68-69 | Paying by card costs exactly revenue × 0.0399 + 0.39 more than Pix. |
| Dashboard.PartsOf | src/pages/DashboardPage.tsx:33-35 | hours < 24 and minutes < 60. days·86,400,000 + hours·3,600,000 + minutes·60,000 ≤ diff < that + 60,000. Days are 0 exactly below one day. |
| Dashboard.GetTimeRemaining | src/pages/DashboardPage.tsx:24-44 | Expired, with the text "Expirado", exactly when the difference is ≤ 0. Otherwise the text comes from the parts. |
| Dashboard.TimeText | src/pages/DashboardPage.tsx:37-43 | "Dd Hh Mm" with days, "Hh Mm" with hours only, otherwise "Mm". UrgentIffNoDays states when the day part is absent. |
| Dashboard.Urgent | src/pages/DashboardPage.tsx:229-230 | Urgent exactly when 0 < expiresAt - now < 24 h. |
| Dashboard.UrgentIffNoDays | src/pages/DashboardPage.tsx:37-43 | A draft is urgent exactly when its countdown text has no day part. (Also lines 229-230 of the same file.) |
| Dashboard.StatusText | src/pages/DashboardPage.tsx:115-128 | The four statuses get their labels, and any other string passes through. |
| Dashboard.PaymentCardAfterMount | src/pages/DashboardPage.tsx:53-63 | An absent entry keeps the card. "true" hides it. Any other stored text shows it. |
| Dashboard.DashboardView.CheckPaymentConfigured | src/pages/DashboardPage.tsx:53-63 | The card flag becomes PaymentCardAfterMount of the stored value, and the revenue flag is kept. |
| Dashboard.DashboardView.ToggleRevenue | src/pages/DashboardPage.tsx:180 | The eye button flips only the revenue flag. |
| AdminDashboard.FilteredUsers | src/pages/AdminDashboardPage.tsx:187-196 | An order-preserving sub-list holding exactly the users that match. |
| AdminDashboard.Matches | src/pages/AdminDashboardPage.tsx:187-196 | The lower-cased term occurs in the lower-cased name or e-mail, and the admin flag fits the filter. SearchIgnoresCase and FilterSplitsByRole state its properties. |
| AdminDashboard.EmptySearchShowsAll | src/pages/AdminDashboardPage.tsx:187-196 | Filter 'all' with an empty search shows every user. |
| AdminDashboard.FilterSplitsByRole | src/pages/AdminDashboardPage.tsx:191-193 | 'admin' keeps only admins and 'user' only non-admins. Together they show what 'all' shows. |
| AdminDashboard.SearchIgnoresCase | src/pages/AdminDashboardPage.tsx:188-189 | Lower-casing the search text first changes nothing. |
| AdminDashboard.RevenueAppend | src/pages/AdminDashboardPage.tsx:88-90 | The revenue sum over two batches of rows is the sum of their sums. |
| AdminDashboard.Revenue | src/pages/AdminDashboardPage.tsx:88-90 | The `reduce` of price times tickets sold. RevenueAppend and RevenueNonNegative state its properties. |
| AdminDashboard.RevenueNonNegative | src/pages/AdminDashboardPage.tsx:88-90 | Non-negative prices and counts give a non-negative total. |
| AdminDashboard.StatsOf | src/pages/AdminDashboardPage.tsx:84-97 | A present count is stored and a missing one is 0. Revenue is the sum of the rows, and 0 with none. |
| AdminDashboard.DeleteUser | src/pages/AdminDashboardPage.tsx:144-167 | One's own id is refused before the confirmation. A deletion is requested exactly for another user, after a confirmation. |
| AdminDashboard.AdminDashboardPage.FetchUsers | src/pages/AdminDashboardPage.tsx:104-119 | An error keeps the list. Otherwise the rows, or none, are stored. |
| AdminDashboard.AdminDashboardPage.FetchStats | src/pages/AdminDashboardPage.tsx:65-101 | The statistics become StatsOf of the answers, and the users, the search text and the filter are kept. |
| AdminDashboard.AdminDashboardPage.SetSearchTerm | src/pages/AdminDashboardPage.tsx:319 | Only the search text changes. |
| AdminDashboard.AdminDashboardPage.SetFilterAdmin | src/pages/AdminDashboardPage.tsx:329 | Only the admin filter changes. |
| AdminDashboard.AdminDashboardPage.Shown | src/pages/AdminDashboardPage.tsx:187-196 | The table lists the filtered users. |
| RouteHistory.Saved | src/hooks/useRouteHistory.ts:15-22 | Save writes the pathname and a timestamp that parses back to `now`, and touches no other key. |
| RouteHistory.Cleared | src/hooks/useRouteHistory.ts:50-57 | Clear removes exactly the two route keys. |
| RouteHistory.LastRoute | src/hooks/useRouteHistory.ts:25-47 | A route is returned exactly when both keys are present and not expired. It is the saved, non-empty route. |
| RouteHistory.BothPresent | src/hooks/useRouteHistory.ts:30-32 | Both keys are stored and non-empty, the negation of `!savedRoute || !timestamp`. LastRoute returns nothing without it. |
| RouteHistory.IsExpired | src/hooks/useRouteHistory.ts:34-37 | More than 1,800,000 ms have passed since the parsed timestamp. An unparsable timestamp gives NaN, and NaN is never expired. SavedRouteValidity and UnparsableTimestampKept state both cases. |
| RouteHistory.UnparsableTimestampKept | src/hooks/useRouteHistory.ts:34-37 | With both keys present and a timestamp that does not parse, the saved route is returned however much time has passed. |
| RouteHistory.SavedRouteValidity | src/hooks/useRouteHistory.ts:8-40 | A saved route is returned exactly while at most 1,800,000 ms have passed, so exactly 30 minutes is still valid. |
| RouteHistory.Restore | src/hooks/useRouteHistory.ts:60-74 | The route is restored exactly when it differs from the current path and that path is not /login, /register, /admin/login or /. |
| RouteHistory.NoRestoreWhereNotSaved | src/hooks/useRouteHistory.ts:60-84 | Nothing is restored on a path that is never saved. |
| RouteHistory.RouteStore.GetLastRoute | src/hooks/useRouteHistory.ts:25-47 | Returns the last route. An expired one is also cleared from storage. |
| RouteHistory.RouteStore.SaveCurrentRoute | src/hooks/useRouteHistory.ts:15-22 | The storage becomes Saved of the old storage: the path and the current time, other keys untouched. |
| RouteHistory.RouteStore.ClearRouteHistory | src/hooks/useRouteHistory.ts:50-57 | The storage becomes Cleared of the old storage: the two keys removed, others untouched. |
| RouteHistory.RouteStore.RestoreLastRoute | src/hooks/useRouteHistory.ts:60-74 | Returns the restore choice for the current path, with the same storage effect. |
| RouteHistory.RouteStore.OnPathChange | src/hooks/useRouteHistory.ts:77-84 | The four excluded paths are never saved, and every other path is. |
| RouteHistory.ShouldSave | src/hooks/useRouteHistory.ts:79 | A path is saved exactly when it is none of "/login", "/register", "/admin/login" and "/". OnPathChange and NoRestoreWhereNotSaved state its use. |
| SocialMedia.Connect | src/pages/SocialMediaPage.tsx:82-88 | Same length. Entries with the id become connected with the URL, and all others are unchanged. |
| SocialMedia.ConnectOne | src/pages/SocialMediaPage.tsx:82-88 | With distinct ids, only the selected network changes: it is connected, keeps its id and name, and the ids stay distinct. |
| SocialMedia.ConnectIdempotent | src/pages/SocialMediaPage.tsx:82-88 | Saving the same link twice is saving it once. |
| SocialMedia.InitialIdsDistinct | src/pages/SocialMediaPage.tsx:19-68 | The eight initial networks have distinct ids. |
| SocialMedia.SocialMediaPage.HandleAddSocialNetwork | src/pages/SocialMediaPage.tsx:74-78 | Opening selects the network, clears the input, opens the modal, and leaves the list alone. |
| SocialMedia.SocialMediaPage.SetLinkInput | src/pages/SocialMediaPage.tsx:221 | Only the link text changes. |
| SocialMedia.SocialMediaPage.SaveDisabled | src/pages/SocialMediaPage.tsx:229 | The save button is disabled exactly when the link is all whitespace. |
| SocialMedia.SocialMediaPage.HandleSaveLink | src/pages/SocialMediaPage.tsx:80-93 | With no selection or a blank link nothing changes. Otherwise the trimmed link is stored on that network, and the modal is closed, deselected and cleared. |
| SocialMedia.SocialMediaPage.HandleCloseModal | src/pages/SocialMediaPage.tsx:95-99 | Closing resets the modal state and leaves the list alone. |
| Register.PasswordError | src/pages/RegisterPage.tsx:29-39 | A mismatch is reported first, then a password under 6 characters. There is no error exactly when both checks pass. |
| Register.MismatchReportedFirst | src/pages/RegisterPage.tsx:29-39 | A short, mismatched password gets the mismatch error. |
| Register.RedirectTarget | src/pages/RegisterPage.tsx:48-63 | The restored route, else a non-empty `from`, else /dashboard. |
| Register.TargetAsWritten | src/pages/RegisterPage.tsx:48-63 | The target as the page computes it, restoring while on /register. SavedRouteNeverUsed and FreshRouteIgnored state that the saved route never decides it. |
| Register.Target | src/pages/RegisterPage.tsx:48-63 | The target with the saved route as `getLastRoute` returns it. FreshRouteRestored and TargetsAgreeWithoutRoute state its properties. |
| Register.SavedRouteNeverUsed | src/pages/RegisterPage.tsx:50 | As written, the saved route never decides the target. |
| Register.FreshRouteIgnored | src/pages/RegisterPage.tsx:50 | A route saved one minute earlier is ignored, and the page goes to /dashboard. |
| Register.FreshRouteRestored | src/pages/RegisterPage.tsx:48-63 | Corrected: a route saved at most 30 minutes earlier is the target. |
| Register.TargetsAgreeWithoutRoute | src/pages/RegisterPage.tsx:48-63 | Without a valid saved route, the corrected and the written targets agree. |
| Register.RegisterForm.HandleSubmit | src/pages/RegisterPage.tsx:24-65 | `signUp` is called exactly when the passwords pass. A rejection or a sign-up error shows its message and clears `loading`. A success sets `success` and leaves `loading` set. |
| CampaignCache.ReplaceById | src/hooks/useCampaigns.ts:65-101 | Same length. Entries with the campaign's id are replaced, and the others kept in place. |
| CampaignCache.ReplaceKeepsIds | src/hooks/useCampaigns.ts:65-67 | Replacing keeps every id in its position. |
| CampaignCache.ReplaceAbsent | src/hooks/useCampaigns.ts:65-67 | A campaign with an id not in the list leaves it unchanged. |
| CampaignCache.ReplacePresent | src/hooks/useCampaigns.ts:65-67 | After replacing, the campaign is in the list exactly when its id was. |
| CampaignCache.ReplaceIdempotent | src/hooks/useCampaigns.ts:65-67 | Replacing twice is replacing once. |
| CampaignCache.WithoutCampaign | src/hooks/useCampaigns.ts:84 | An order-preserving sub-list of exactly the campaigns with another id. |
| CampaignCache.WithoutCampaignCount | src/hooks/useCampaigns.ts:84 | Every copy with that id is removed, and every copy of the others is kept. |
| CampaignCache.DeleteUndoesCreate | src/hooks/useCampaigns.ts:48-84 | Deleting a freshly prepended campaign with a new id gives the list back. |
| CampaignCache.CampaignList.FetchCampaigns | src/hooks/useCampaigns.ts:12-31 | Without a user only `loading` is cleared. An error sets its message and keeps the list. Otherwise the rows, or none, are stored. |
| CampaignCache.CampaignList.CreateCampaign | src/hooks/useCampaigns.ts:37-54 | Without a user it throws before any change. An API error sets the message, rethrows and leaves `loading` true. A success prepends the campaign and clears `loading`. |
| CampaignCache.CampaignList.UpdateCampaign | src/hooks/useCampaigns.ts:56-71 | An API error sets the message, rethrows and leaves `loading` true. A success replaces by id. |
| CampaignCache.CampaignList.DeleteCampaign | src/hooks/useCampaigns.ts:73-86 | Without a user it throws before any change. An API error leaves the list and `loading` true. A success removes exactly that id. |
| CampaignCache.CampaignList.PublishCampaign | src/hooks/useCampaigns.ts:88-105 | It behaves like an update, behind the user check. |

## Left out

- Backend calls (auth, table queries, storage uploads, public URLs) are not modelled. Their answers are parameters of the methods that await them.
- Console logging is not modelled.
- `window.alert`, `window.confirm`, navigation and `setTimeout` are not modelled. Their outcomes are parameters or result values.
- Ids and file names from `Date.now`/`Math.random`, and object URLs, are parameters.
- Floating point is not modelled:
  - `toFixed`, `toLocaleString` and `Intl.NumberFormat` are replaced by exact decimal text of integer cents.
  - Fee arithmetic is exact `real`.
  - `parseInt` on very long digit strings is exact.
  - `uploadProgress` percentages are left out.
- `Text.Trim` and `Text.IsWhitespace` know ASCII whitespace, U+00A0 and U+FEFF only. Other Unicode spaces are not whitespace here.
- `Text.ToLower` lower-cases A-Z only.
- `Text.ParseInt` does not skip leading whitespace. `Text.ParseFloat` reads plain decimals only, with no exponent, sign or `Infinity`.
- String lengths count characters, not UTF-16 code units.
- Dashboard.GetTimeRemaining: takes `expires_at` as milliseconds since the epoch. The page parses an ISO date string with `new Date`, and an unparsable one gives NaN, shown as "NaNm". Date parsing and NaN are not modelled.
- Dashboard.Urgent: takes `expires_at` as milliseconds since the epoch, like GetTimeRemaining. An unparsable date, which makes the page's comparison false, is not modelled.
- `Dashboard.Urgent` reads the clock once. The page reads it twice, a few microseconds apart.
- `Dashboard.PaymentCardAfterMount` treats every stored text other than "true" as showing the card. JSON values other than true/false are not distinguished.
- `PixKey.ConfiguredAfterMount` ignores JSON values other than true/false.
- `CampaignValidation.ParseCreateCampaign` does not check the `draw_date` `.datetime()` format. It keeps only the first failing stage's issues, while the schema library may report field issues and refinement issues differently.
- `updateCampaignSchema` (src/lib/validations/campaign.ts:93-95) is not modelled. Its behaviour depends on the schema library's `.partial()` over a refined schema.
- `ImageQueue.ImageUploadHook.ReorderImages` requires in-range indices. The page's guard ensures this, and out-of-range `splice` is not modelled.
- `useCampaign` (single-campaign fetch in src/hooks/useCampaigns.ts:119-147), `toggleUserAdmin` and the remaining page handlers are not modelled. They are backend calls or navigation.
- `CampaignCache.Campaign` holds only id, title and status. The other columns play no part in the list logic.
- Rendering, styling and routing are not modelled.

## Findings

| source | as written | input that shows it | evidently intended | confidence | as-written member | corrected member |
|---|---|---|---|---|---|---|
| src/pages/CreateCampaignStep3Page.tsx:67 | The payment step shows a constant 7.00 publication fee and adds the card fee to it. | 1000 tickets at 1.00 (revenue 1000): the page shows 7.00, while the schedule charges 47.00. | The publication fee of `calculatePublicationTax` for the campaign's revenue. | medium, not executed | PaymentStep.ShownFees, PaymentStep.ShownFeeUndercharges | PaymentStep.ScheduledFees, PaymentStep.ShownFeesMatchScheduleIff |
| src/pages/RegisterPage.tsx:50 | After sign-up the page calls `restoreLastRoute()` while its own path is /register, and restore never returns a route on /register. | A route "/dashboard/integrations" saved 60 s before sign-up, with no `from`: the page goes to /dashboard. | Go to the saved route, as `getLastRoute` returns it. | medium, not executed | Register.TargetAsWritten, Register.SavedRouteNeverUsed, Register.FreshRouteIgnored | Register.Target, Register.FreshRouteRestored |
