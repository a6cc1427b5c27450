# Diagnostic lead capture, modelled in Dafny

This project models the lead-capture pipeline of the MonPro-AI diagnostic site:

- **the wizard**: the `useDiagnostic` hook's state transitions and its `submit`;
- **the submission endpoint**: `POST /api/diagnostic` and its cooldown;
- **the battlecard**: the admin card the endpoint builds in the background for each accepted lead;
- **the question catalogue**: the catalogue and its regional relabelling;
- **the client checks**: those of the delivery step, its contact field and the thank-you page.

Everything is pure. Requests, clocks, storage and the LLM are inputs, and each step returns its new state.

Modules, one per component, each followed by a `…Properties` module of lemmas where there are several:

| module | models |
|---|---|
| `Wrappers` | `Option` |
| `Text` | the JavaScript string operations used: `\s`, `\w`, `trim`, one-character `replace`, `indexOf`, `lastIndexOf`, ASCII `toLowerCase` |
| `Decimal` | `${n}` for a non-negative integer, and `parseInt(s, 10)` with NaN as `None` |
| `Domain` | the four persona paths, delivery methods and answers |
| `Validation` | `sanitizeString`, `isValidEmail`, `isValidRegion`, `isValidPath` |
| `Endpoint` | the ordered checks of `POST`, the seven-day cooldown map and the reply |
| `RangeParse` | the `/[\d,]+/g` range heuristic for the ROI figures |
| `Battlecard` | brace extraction, mapping of the parsed analysis, the fallback card |
| `Wizard` | `DiagnosticState`, the hook's transitions, `submit`'s precondition, payload and reply handling |
| `QuestionBank` | the persona cards, the questions of every path, `getQuestionsForPath`, `getQuestionCount` |
| `ContactInput` | the contact field: phone and email checks, the country-code rewrite, the blur error |
| `DeliveryPage` | the delivery step: its checks, their error order, the button, the redirect guard |
| `ThanksGuard` | the 30-second authorisation of the thank-you page |

How the JavaScript values are represented:

- A member of the JSON body is `Missing` (undefined, null or another falsy value), `Str(s)`, or `NonString` (a truthy value that is not a string). The empty string is falsy.
- NaN is `None`.
- Integers are unbounded.

Behaviour the model keeps exactly as the code has it:

- `sanitizeString` trims before it filters, so it is not idempotent (`"a !"` becomes `"a "`, then `"a"`).
- `+` does not survive sanitizing, so it is removed from an email before the email is validated.
- A stored cooldown time of 0 counts as no record, because `if (lastSubmission)` tests truthiness.
- A truthy email that is not a string passes the first three checks. The debug log at route.ts:143 then throws, and the catch answers success without recording a cooldown.
- `priorityScore || 50` turns 0 into 50.
- A range match made only of commas reads as NaN.
- `submit` posts neither a delivery method nor a phone.
- The region is not part of `submit`'s precondition. A wizard that never chose a region is refused by the endpoint with "Invalid data", and the user sees "Submission failed".
- Leaving the contact field with a valid value keeps any error already shown. Only typing clears it. Read literally, "a valid value gives no error" does not hold; it holds after an edit (`ContactInputProperties.EditThenBlur`).

## Model

| member | source | states |
|---|---|---|
| Domain.ParsePathName | src/types/diagnostic.ts:3 | every path's wire name reads back as that path |
| Decimal.NatToString | src/app/api/diagnostic/route.ts:186 | the rendering of a count is a non-empty digit string with no leading zero whose decimal value is the count |
| Decimal.ParseInt | src/app/diagnostic/thanks/page.tsx:29 | `parseInt` is NaN exactly when, after leading whitespace and one optional sign, no digit follows |
| Decimal.ParseIntOfNatToString | src/app/diagnostic/thanks/page.tsx:29 | reading back a rendered non-negative integer gives that integer |
| Text.ReplaceAll | src/lib/diagnostic/questionBank.ts:361 | replacing a character by a string without it leaves no occurrence; a one-character replacement keeps the length |
| Text.ReplaceAllBySelf | src/lib/diagnostic/questionBank.ts:369 | replacing the euro sign by itself changes nothing |
| Text.ReplaceAllAbsent | src/lib/diagnostic/questionBank.ts:372 | a label without the euro sign is left as it is |
| Validation.SanitizeString | src/app/api/diagnostic/route.ts:39-54 | the result respects the length cap; every character is an ASCII word character, whitespace, `@`, `.` or `-`, so no `<` or `>`; every character comes from the input; empty input gives `""` |
| Validation.SanitizeTwice | src/app/api/diagnostic/route.ts:45-49 | sanitizing a sanitized string only trims it again |
| Validation.SanitizeClean | src/app/api/diagnostic/route.ts:45-49 | a trimmed string of safe characters within the cap is unchanged |
| Validation.SanitizeFixedPoint | src/app/api/diagnostic/route.ts:45-49 | a sanitized string with no whitespace at either end is a fixed point |
| Validation.SanitizeNotIdempotent | src/app/api/diagnostic/route.ts:45-49 | `"a !"` sanitizes to `"a "`, and that sanitizes to `"a"`: sanitizing is not idempotent |
| Validation.EmailShapeMatchesPattern | src/app/api/diagnostic/route.ts:60 | the computed shape test holds exactly when the string splits as run `@` run `.` run, runs free of whitespace and `@` |
| Validation.EmailFromParts | src/app/api/diagnostic/route.ts:60 | any `local@host.tld` built from such runs has the shape |
| Validation.NoAtNoEmail | src/app/api/diagnostic/route.ts:60 | a string without `@` never has the shape |
| Validation.IsValidEmailCharacterised | src/app/api/diagnostic/route.ts:59-62 | `isValidEmail` holds exactly when the address has at most 254 characters, no whitespace, exactly one `@` with something before it, and a `.` in the domain that is neither its first nor its last character |
| Validation.ValidPathIsPathName | src/app/api/diagnostic/route.ts:74-76 | `isValidPath` accepts exactly the wire names of the four paths |
| Endpoint.NormalizeEmail | src/app/api/diagnostic/route.ts:140 | the cooldown key has at most 254 characters, holds only safe characters and no upper-case letter, and has no whitespace at either end |
| Endpoint.NormalizeKey | src/app/api/diagnostic/route.ts:140 | a string that already has a key's form is its own key |
| Endpoint.NormalizeEmailIdempotent | src/app/api/diagnostic/route.ts:140 | normalizing a key gives the same key |
| Endpoint.DaysRemaining | src/app/api/diagnostic/route.ts:177-180 | the result d is the ceiling of the time left in days: (d - 1) days < time left <= d days; d is from 1 to 7 for a non-negative elapsed time |
| Endpoint.MakeLead | src/app/api/diagnostic/route.ts:135-141 | the lead carries the submitted region, path, answers, delivery method and phone; its names are sanitized with caps 50, 50 and 100; its email is the normalized cooldown key |
| Endpoint.Screen | src/app/api/diagnostic/route.ts:99-169 | the lead goes on to the cooldown exactly when every check passes; otherwise the reply is a 400 refusal, or the success reply of the catch, and never a cooldown; a lead that passes has a valid normalized email, a valid region and names of at least two characters |
| Endpoint.Admit | src/app/api/diagnostic/route.ts:171-202 | 429 exactly when a truthy record for the key is less than seven days old; then the map is unchanged, the message is not empty, and the days remaining are reported, from 1 to 7 for a non-negative elapsed time; otherwise "Assessment received", the lead is accepted, and only its key is set to now |
| Endpoint.Post | src/app/api/diagnostic/route.ts:96-222 | the status is 200, 400 or 429; success exactly on 200, cooldown and days remaining exactly on 429; a lead is accepted exactly when the body parsed, passed every check and is not throttled; otherwise the map is unchanged; an accepted lead has a valid email and names of at least two characters, and only its key is updated |
| EndpointProperties.UnparsedBodySucceeds | src/app/api/diagnostic/route.ts:213-221 | a body that does not parse is answered with success and records nothing |
| EndpointProperties.CheckOrder | src/app/api/diagnostic/route.ts:99-169 | the checks run in the order fields, region, path, email, names; each refuses with 400 and its own message, and none touches the map |
| EndpointProperties.NonStringEmailSucceedsUnrecorded | src/app/api/diagnostic/route.ts:140-143 | a truthy email that is not a string ends in the success reply with the map unchanged |
| EndpointProperties.BadEmailRejected | src/app/api/diagnostic/route.ts:148-157 | an email that is invalid after normalizing is refused with "Invalid email format" and the map unchanged |
| EndpointProperties.PassingReachesCooldown | src/app/api/diagnostic/route.ts:135-176 | a submission that passes every check reaches the cooldown with its sanitized lead, keyed by the normalized email |
| EndpointProperties.SecondSubmissionInWindow | src/app/api/diagnostic/route.ts:171-196 | after a lead is recorded at a non-zero time, the same key is refused before seven days have passed with the map unchanged, and is accepted and re-recorded from then on |
| EndpointProperties.TwoDaysLeaveFive | src/app/api/diagnostic/route.ts:178-180 | two days into the cooldown, five days remain |
| EndpointProperties.FirstRequestAccepted | src/app/api/diagnostic/route.ts:195-202 | a valid submission without a prior record is accepted, and its time is recorded under its key |
| EndpointProperties.SecondRequestWaits | src/app/api/diagnostic/route.ts:176-191 | the same submission two days after it was recorded is refused with 429 and five days to wait |
| EndpointProperties.AnyaPasses | src/app/api/diagnostic/route.ts:99-169 | the example lead Anya Rao of Bloom, from India, on the founder path, with address anya@example.com, passes every check under that address |
| EndpointProperties.ScenarioAnya | src/app/api/diagnostic/route.ts:171-202 | the example lead is accepted and recorded, and two days later it is told to wait five days |
| EndpointProperties.ScenarioNotAnEmail | src/app/api/diagnostic/route.ts:148-157 | the same lead with address `not-an-email` is refused with "Invalid email format" and the map unchanged |
| RangeParse.RunLength | src/app/api/diagnostic/route.ts:371 | a match is the longest prefix of `[\d,]` characters |
| RangeParse.Runs | src/app/api/diagnostic/route.ts:371 | every match is non-empty and made of `[\d,]` characters |
| RangeParse.RunsCoverRangeChars | src/app/api/diagnostic/route.ts:371 | the matches, joined, are exactly the text's `[\d,]` characters in order |
| RangeParse.RunsSkip | src/app/api/diagnostic/route.ts:371 | text outside `[\d,]` before the numbers adds no match |
| RangeParse.RunsSplit | src/app/api/diagnostic/route.ts:371 | a character outside `[\d,]` separates the matches of the two sides |
| RangeParse.RunValue | src/app/api/diagnostic/route.ts:373-374 | a match reads as NaN exactly when it holds only commas; otherwise it reads as a non-negative number |
| RangeParse.ParseRange | src/app/api/diagnostic/route.ts:369-377 | an absent member, or fewer than two matches, leaves the figure at 0; otherwise the figure is NaN exactly when either of the first two matches is |
| RangeParse.MeanBetween | src/app/api/diagnostic/route.ts:375 | when both ends read, the figure is the floor of their mean and lies between them |
| RangeParse.RangeRoundTrip | src/app/api/diagnostic/route.ts:369-377 | a range written as symbol, amount, separator, symbol, amount reads back as the floor of the mean of its two amounts |
| RangeParse.SameLeadingRuns | src/app/api/diagnostic/route.ts:372-375 | two texts with the same first two matches give the same figure |
| RangeParse.LaterTextIgnored | src/app/api/diagnostic/route.ts:372-375 | text after the second match never changes the figure |
| RangeParse.CommaRunIsNaN | src/app/api/diagnostic/route.ts:373-375 | a first match of commas alone makes the figure NaN |
| Battlecard.ExtractJson | src/app/api/diagnostic/route.ts:324-331 | extraction fails exactly when no `}` has a `{` before it; otherwise the result runs from the first `{` to the last `}` of the reply and is a slice of it |
| Battlecard.ExtractFromFence | src/app/api/diagnostic/route.ts:323-331 | an object wrapped in text without braces, such as a markdown fence, is extracted whole |
| Battlecard.OrString | src/app/api/diagnostic/route.ts:347 | `v || fallback` gives the member when it is a non-empty string and the fallback when it is absent or empty |
| Battlecard.RegionCurrency | src/app/api/diagnostic/route.ts:358-364 | INR exactly for india, EUR exactly for europe, GBP for every other region |
| Battlecard.CatalogNames | src/app/api/diagnostic/route.ts:346-348 | one name for each catalog automation, in order, with "Unnamed automation" as the default |
| Battlecard.HypothesisLines | src/app/api/diagnostic/route.ts:349-352 | one "name (confidence: c)" line for each hypothesis, in order |
| Battlecard.Automations | src/app/api/diagnostic/route.ts:339-353 | the catalog names come first, then the hypothesis lines; the length is the sum of the two counts |
| Battlecard.Priority | src/app/api/diagnostic/route.ts:390 | the priority is never 0; an absent or zero score becomes 50; any other score is kept |
| Battlecard.FromAnalysis | src/app/api/diagnostic/route.ts:335-414 | the card is built for this lead, copying its region, path, answers, identity, delivery method and phone; the leaks and frictions are the analysis's or empty; the automations are the catalog names followed by the hypothesis lines; the currency is the analysis's or the region's; both figures come from the range heuristic; the priority is `priorityScore || 50`, never 0 |
| Battlecard.Fallback | src/app/api/diagnostic/route.ts:447-492 | the fallback card is built for this lead, copying its region, path, answers, identity, delivery method and phone, with 3 leaks, 3 frictions, 2 automations, both figures 0, the region's currency and priority 50 |
| Battlecard.GenerateOutcome | src/app/api/diagnostic/route.ts:259-441 | the card is the mapped analysis exactly when the LLM answered with content holding an extractable object that parses; otherwise it is the fallback; either way it belongs to the lead and has a non-zero priority |
| Battlecard.ZeroPriorityOnCard | src/app/api/diagnostic/route.ts:345-390 | on the LLM path a score of 0 reaches the card as 50, and the card lists each catalog name at its own position before the hypotheses |
| Battlecard.NoLeaksOnLlmPath | src/app/api/diagnostic/route.ts:335 | on the LLM path the card may list no revenue leak, while the fallback always lists three |
| Wizard.Payload | src/hooks/useDiagnostic.ts:131-140 | the posted body carries no delivery method and no phone, posts the path's wire name and the email as strings, and has a truthy region exactly when a region was chosen |
| Wizard.Classify | src/hooks/useDiagnostic.ts:150-163 | `submit` resolves exactly on an ok reply with success; a non-ok reply other than a 429 cooldown reads "Submission failed"; a thrown message is never empty |
| Wizard.Submit | src/hooks/useDiagnostic.ts:120-171 | without a path or any identity field it throws "Missing required fields" and changes nothing; otherwise its outcome is how the server's reply to the payload is read; any throw leaves the state unchanged; it resolves exactly when the reply is ok and successful, and then the state is the initial one |
| WizardProperties.InitialIsEmpty | src/hooks/useDiagnostic.ts:14-24 | the initial state has an empty region, no path, step 0, no answers and empty identity fields |
| WizardProperties.SetPathKeepsIdentity | src/hooks/useDiagnostic.ts:58-60 | choosing a path resets the step and the answers and keeps the region and the identity |
| WizardProperties.SetAnswerIsLocal | src/hooks/useDiagnostic.ts:63-71 | an answer sets only its own key, keeps every other answer and field, and a second answer to the same question replaces the first |
| WizardProperties.SettersAreIndependent | src/hooks/useDiagnostic.ts:53-111 | each of the region, first name, last name, brand and email setters changes only its own field, setters of different fields commute, and setting the region keeps the path and the answers |
| WizardProperties.StepNavigation | src/hooks/useDiagnostic.ts:74-84 | next adds exactly one; back undoes next; back from step 0 stays at 0 and never goes negative |
| WizardProperties.StepNeverNegative | src/hooks/useDiagnostic.ts:74-84 | no run of the hook's transitions makes a non-negative step negative |
| WizardProperties.AnswersComeFromActions | src/hooks/useDiagnostic.ts:63-71 | from a state without answers, every answered question was answered by some action of the run |
| WizardProperties.ResetIsInitial | src/hooks/useDiagnostic.ts:114-117 | whatever came before, a reset gives exactly the initial state |
| WizardProperties.MissingFieldsRefused | src/hooks/useDiagnostic.ts:121-129 | with a required field missing, `submit` throws before any request, whatever the server would answer |
| WizardProperties.RouteReplyOutcome | src/hooks/useDiagnostic.ts:150-163 | a 400 from the endpoint reads "Submission failed", a 429 shows the endpoint's message, a 200 resolves |
| WizardProperties.SubmitAgainstRoute | src/hooks/useDiagnostic.ts:150-166 | against the endpoint itself, a refusal keeps the state and reads "Submission failed", a cooldown keeps it and shows the wait message, and acceptance resets the wizard |
| WizardProperties.NoRegionFails | src/hooks/useDiagnostic.ts:131-133 | a wizard without a region posts a body the endpoint refuses with "Invalid data", and the user sees "Submission failed" |
| QuestionBank.Info | src/lib/diagnostic/questionBank.ts:6-33 | each persona card carries its own path as id |
| QuestionBank.RelabelOptions | src/lib/diagnostic/questionBank.ts:370-373 | relabelling options keeps their number, order and values and replaces the euro sign in every label |
| QuestionBank.RelabelAll | src/lib/diagnostic/questionBank.ts:356-375 | relabelling keeps the number and order of the questions, each relabelled for the region |
| QuestionBank.GetQuestionsForPath | src/lib/diagnostic/questionBank.ts:321-376 | without a region the path's questions come back unchanged; the lookup fails exactly for a region outside the table; for a region in it, every question of the path is relabelled for the region, in order |
| QuestionBankProperties.RelabelKeepsShape | src/lib/diagnostic/questionBank.ts:356-375 | every relabelled question keeps its id, multi-select flag, exclusive options, cap and helper text, and its title has the euro sign replaced |
| QuestionBankProperties.RelabelKeepsValues | src/lib/diagnostic/questionBank.ts:366-374 | outside the investment question the answer values are kept, and with another symbol no euro sign is left in the title or labels |
| QuestionBankProperties.EuroRelabelIsIdentity | src/lib/diagnostic/questionBank.ts:366-374 | relabelling with the euro sign itself changes no question but the investment one |
| QuestionBankProperties.InvestmentForRegion | src/lib/diagnostic/questionBank.ts:358-363 | for a region in the table, the investment question offers the region's choices, whose values are under_1k, 1k_3k, 3k_10k and roi_based |
| QuestionBankProperties.CatalogueInvestmentValues | src/lib/diagnostic/questionBank.ts:149-157 | the catalogue's own investment question, on the scaler and founder paths, has the same four values |
| QuestionBankProperties.QuestionCounts | src/lib/diagnostic/questionBank.ts:379-381 | scaler has 10 questions, founder 7, operator 4 and explorer 3 |
| QuestionBankProperties.ScalerWellFormed | src/lib/diagnostic/questionBank.ts:37-159 | scaler question ids are distinct, every exclusive option is one of its question's values, and the cap of 3 fits the options |
| QuestionBankProperties.FounderWellFormed | src/lib/diagnostic/questionBank.ts:161-237 | the same for the founder questions |
| QuestionBankProperties.OperatorWellFormed | src/lib/diagnostic/questionBank.ts:239-287 | the same for the operator questions |
| QuestionBankProperties.ExplorerWellFormed | src/lib/diagnostic/questionBank.ts:289-317 | the same for the explorer questions |
| ContactInput.RemoveWhitespace | src/components/diagnostic/ContactInput.tsx:43 | the result holds no whitespace, and a string without whitespace is unchanged |
| ContactInputProperties.RemoveWhitespaceAppend | src/components/diagnostic/ContactInput.tsx:43 | what survives of a concatenation is what survives of each part, in order |
| ContactInputProperties.RemoveWhitespaceChar | src/components/diagnostic/ContactInput.tsx:43 | a character is dropped exactly when it is whitespace |
| ContactInput.StripCode | src/components/diagnostic/ContactInput.tsx:54 | the result is a suffix of the value, and a value not starting with `+` and a digit is unchanged |
| ContactInput.HandleCountrySelect | src/components/diagnostic/ContactInput.tsx:51-61 | the new value starts with the chosen code followed by a space |
| ContactInput.BlurError | src/components/diagnostic/ContactInput.tsx:63-79 | an empty value reads "This field is required"; an invalid value shows its method's message; a valid value keeps the error already shown |
| ContactInputProperties.CountryCodesAreCodes | src/components/diagnostic/ContactInput.tsx:13-24 | every listed code is `+` followed by digits |
| ContactInputProperties.StripSelected | src/components/diagnostic/ContactInput.tsx:54 | a value the field wrote strips back to the number behind its code |
| ContactInputProperties.CountrySelectReplaces | src/components/diagnostic/ContactInput.tsx:51-61 | choosing one code and then another gives the same value as choosing the second directly |
| ContactInputProperties.SelectDigits | src/components/diagnostic/ContactInput.tsx:54-56 | choosing a code for a number typed without one puts the code, a space and the number |
| ContactInputProperties.JoinWithoutSpace | src/components/diagnostic/ContactInput.tsx:43 | removing whitespace from code, space, digits leaves code and digits |
| ContactInputProperties.SelectedNumberValid | src/components/diagnostic/ContactInput.tsx:40-61 | a national number given a code is a valid WhatsApp number exactly when the code's digits and the number's make at least ten |
| ContactInputProperties.EditThenBlur | src/components/diagnostic/ContactInput.tsx:46-79 | after an edit, leaving the field shows no error exactly when the value is valid for the method |
| ContactInputProperties.ValidBlurKeepsError | src/components/diagnostic/ContactInput.tsx:63-79 | leaving the field with a valid value keeps an earlier error; typing clears it |
| ContactInputProperties.SelectKeepsError | src/components/diagnostic/ContactInput.tsx:51-61 | choosing a code leaves the error alone and records the code |
| ContactInputProperties.RouteValidIsClientValid | src/components/diagnostic/ContactInput.tsx:35-38 | every address the endpoint accepts passes the field's check, and the field's check agrees with the endpoint's up to 254 characters |
| DeliveryPage.Blocker | src/app/diagnostic/delivery/page.tsx:58-76 | there is no blocking message exactly when the page can submit |
| DeliveryPage.HandleSubmit | src/app/diagnostic/delivery/page.tsx:58-93 | a failing check shows its message and leaves the wizard unchanged; otherwise the wizard ends as `submit` leaves it |
| DeliveryPageProperties.ErrorPrecedence | src/app/diagnostic/delivery/page.tsx:58-76 | identity first, then the method, then the method's own message; when a check fails, the wizard is unchanged and the server is never consulted |
| DeliveryPageProperties.PassingChecksSubmit | src/app/diagnostic/delivery/page.tsx:78-92 | with every check passing `submit` runs; a throw becomes the shown message and re-enables the button; success marks the page submitted and resets the wizard |
| DeliveryPageProperties.ButtonMatchesHandler | src/app/diagnostic/delivery/page.tsx:111-119 | when not submitting, the button is enabled exactly when the handler would pass every check |
| DeliveryPageProperties.ChecksAgreeWithField | src/app/diagnostic/delivery/page.tsx:36-45 | the page's email and phone checks agree with the contact field's |
| DeliveryPageProperties.SubmittedNotRedirected | src/app/diagnostic/delivery/page.tsx:29-34 | after a successful submission the wizard is reset, yet the submitted flag keeps the page from redirecting |
| DeliveryPageProperties.AsWrittenNeverSubmits | src/app/diagnostic/delivery/page.tsx:51-67 | as written, with no method or phone ever present, the page can never submit: the button stays disabled and the handler stops at the identity or the method message |
| DeliveryPageProperties.EmailDeliveryReachesSubmit | src/app/diagnostic/delivery/page.tsx:58-82 | with email delivery chosen, a lead whose identity and email pass reaches `submit` |
| ThanksGuard.Check | src/app/diagnostic/thanks/page.tsx:17-44 | without a marker it redirects and removes nothing; it redirects and removes the marker exactly when the marker reads as a time more than 30000 ms before now; it authorises exactly a non-empty marker that does not read as such a time, whatever its form |
| ThanksGuard.MarkerWindow | src/app/diagnostic/thanks/page.tsx:29-44 | a marker holding a time authorises exactly while now is at most 30000 ms after it, including any moment before it; later it redirects and removes the marker |
| ThanksGuard.UnreadableMarkerAuthorised | src/app/diagnostic/thanks/page.tsx:29-33 | a marker that is not a number authorises the page |
| ThanksGuard.EarlierStillAuthorised | src/app/diagnostic/thanks/page.tsx:29-44 | authorisation only shrinks with time |
| ThanksGuard.NoMarkerNeverAuthorised | src/app/diagnostic/thanks/page.tsx:17-26 | without a marker the page is never shown and nothing is removed |

## Left out

- Network I/O is not modelled: the OpenAI request and its prompt text, the MAKE webhook, the admin vault, the notifications, logging, and the debug `fetch` calls. How the LLM request ended is an input (`LlmOutcome`), and `JSON.parse` is a function parameter.
- The background processing is fire-and-forget, and the shared map could in principle race. Requests are applied one after another.
- `Date.now()`, `toISOString` and the random `leadId` are parameters.
- sessionStorage, React effects, router navigation and `setTimeout` are not modelled.
  - The wizard state is not restored from storage.
  - The thank-you page takes the marker as an input. The code that writes the marker is not part of this model.
  - The blur check of the contact field reads the value at once, not after 200 ms.
- Strings are sequences of characters, and `length` counts them. UTF-16 code units and surrogate pairs are not modelled.
- `toLowerCase` is modelled on ASCII only. It is exact where the endpoint uses it, since only ASCII letters survive sanitizing.
- Replacement strings are taken literally. `$` patterns in the currency symbol are not interpreted.
- Object keys such as `constructor`, inherited from the prototype, are not modelled. Region lookups see only the three regions.
- `parseInt` is exact on unbounded integers. The loss of precision beyond 2^53 is not modelled.
- Battlecard.HypothesisLine: the confidence is taken as the text JavaScript renders for it, so number-to-string formatting is not modelled.
- Battlecard.FromAnalysis: LLM members of the wrong JSON type are not modelled. Examples are a non-array `catalogAutomations`, whose `.map` throws into the fallback, and a non-string range. The priority is modelled as an integer.
- A failure of `response.json()` in `submit` is not modelled. The reply is assumed to be JSON.
- Toggling exclusive options and `maxSelections` on multi-select answers is not modelled. No modelled code enforces these constraints; the hook's `setAnswer` simply replaces the answer, and only the data declares them.
- QuestionBank.GetQuestionsForPath: the currency symbol is a parameter, because the symbol table in theme.ts is mis-encoded. An unknown region, for which `getCurrencySymbol` throws, is `None`.
- QuestionBank.GetQuestionCount: the `|| 0` for a path missing from the bank is not modelled, because every path has questions.
- `setDeliveryMethod` and `setContact` are defined in the hook but not returned by it, so they are not modelled as transitions. The delivery page takes the method and the phone as inputs.
- Presentational components, `formatCurrency` and the layout arithmetic are not modelled.

## Findings

| source | as written | input that shows it | evidently intended | confidence | as-written member | corrected member |
|---|---|---|---|---|---|---|
| src/app/diagnostic/delivery/page.tsx:14-24 | The page takes `setDeliveryMethod` and `setPhone` from the hook, which returns neither. It reads `state.deliveryMethod` and `state.phone`, which the hook's state never holds. So the method is always undefined. | Any state: the button stays disabled, and the handler stops at "Please select a delivery method", or at the identity message before it. | The chosen method and phone reach the checks, and a lead that passes them is submitted. | medium; not executed (a state restored from storage could in principle carry a method) | DeliveryPageProperties.AsWrittenNeverSubmits | DeliveryPageProperties.PassingChecksSubmit |
