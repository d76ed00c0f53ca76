# Invoice automation: a verified model of the invoicing core

This project models, in Dafny, the core of a small Django invoicing app (`invoices/views.py` and
`invoices/models.py`). It covers the following:

- **Records** (`Models`): users and their roles, and client companies.
  - Line-item templates, invoices and invoice details.
  - The company-code validator.
  - The orderings the listings use.
  - The `InvoiceDetail.save` rule that recomputes the amount.
- **Numbering** (`Codes`): the next company code and the invoice number.
  - The next company code is the scan over the codes in use that keeps the four-digit numeric ones, takes their maximum, adds one and zero-pads.
  - The invoice number is `{code}_{YYYY}_{MM}_{DD}`, probed `_1`, `_2`, … against the numbers in use, then overridden by a non-empty stripped submitted number.
- **Intake** (`Intake`): the four submitted lists zipped by position. Positions with an empty name, quantity or price are skipped. `int()` and `float()` are applied to what is left; a conversion that raises stops the intake.
- **Template filling** (`Sheets`): the header cells A8–A13, A16, F5, F8 and H5, then at most ten detail rows from row 17.
  - The file names, with `/` and `\` in the company name replaced by `_`.
- **Monthly export** (`History`): the company's invoices of one calendar month in creation order, each followed by its details in `order`. They are laid out one detail per row under a six-column header.
- **The store and the handlers** (`Tables`, `Integrity`, `Views`).
  - An in-memory store class whose fields are the tables.
  - Its integrity invariant: unique keys, usernames, codes and invoice numbers, foreign keys that point at existing rows, and creation times that are calendar times.
  - The deletions: a company cascades to its invoices and their details; deleting a user sets the creator of that user's invoices to null.
  - The handlers: `add_company`, `add_invoice_item_template`, `add_user`, `delete_user`, `delete_company`, `get_company_info`, `generate_invoice` and `export_monthly_history`, each with its error responses as `Err` results.

Values are modelled as follows:

- Quantities are integers. Prices and amounts are integer cents (the columns are decimals with two places).
- A sheet is a map from a (column, row) cell to a value.
- The clock is passed in as parameters.

In the monthly export, an unknown company and a month without invoices give different messages: `Company.DoesNotExist` is caught with the unknown-code message (invoices/views.py:563-565), while an empty selection has its own "no history found" message (invoices/views.py:517-519). The model keeps them apart as `UnknownCompany` and `NoHistory`.

One consequence of the next-code rule is proved rather than corrected.

- Only codes of exactly four digits take part in numbering, so 9999 is followed by the five-digit `10000` (`Codes.NextCodeOverflow`).
- Once `10000` is in use, it is ignored, and the next code is `10000` again (`Codes.NextCodeRepeats`), for every set of codes holding both.
- `add_company` then refuses every new company with "code already used" while 9999 and 10000 stay in use (`Views.Store.AddCompany`, the `CodeTaken` postcondition).

The model keeps this behaviour as written.

## Model

| member | source | states |
|---|---|---|
| Strings.Decimal | invoices/views.py:102 | `str(n)` of a natural number is a non-empty digit string without a leading zero whose value reads back as `n` |
| Strings.ZFillNumeral | invoices/views.py:102 | `zfill` pads a numeral with zeros to the width without changing its value and never truncates: the result has length max(width, original length) |
| Strings.DecimalLength | invoices/views.py:102 | the decimal numeral of `n` fits in `k` digits exactly when `n < 10^k` |
| Strings.IntDecimal | invoices/views.py:524 | `str(i)` of an integer is non-empty, starts with `-` exactly when `i` is negative, and is otherwise made of digits |
| Strings.ParseIntDecimal | invoices/views.py:505-506 | `int()` reads back what `str()` writes, for negative numbers too |
| Strings.DecimalInjective | invoices/views.py:399 | different natural numbers have different numerals |
| Strings.IntDecimalInjective | invoices/views.py:524 | different integers are formatted differently |
| Strings.ParseIntAccepts | invoices/views.py:505-506 | whatever `int()` accepts is an optional sign followed by at least one digit, and the value is negative only under a minus sign |
| Strings.ParseIntDigits | invoices/views.py:505-506 | a digit string converts to its value |
| Strings.ParseIntSigned | invoices/views.py:505-506 | a sign before a digit string converts to the value, negated under `-` |
| Strings.ParseCentsWhole | invoices/views.py:434 | a price written as a whole number n converts to n×100 cents |
| Strings.ParseCentsFraction | invoices/views.py:434-435 | a price "w.d" converts to 100·w + 10·d cents and "w.de" to 100·w + 10·d + e cents |
| Strings.ParseCentsPoint | invoices/views.py:434-435 | for any digit strings w and f with at most two digits in f, not both empty, "w.f" converts to 100·w plus f scaled to cents |
| Strings.ParseCentsNumeral | invoices/views.py:434-435 | any non-empty digit string converts to its value times 100 cents |
| Strings.ParseCentsSigned | invoices/views.py:434-435 | a sign before an unsigned text converts exactly when the text does, to its value, negated under `-` |
| Strings.StripStart | invoices/views.py:409 | removes exactly the leading whitespace: the result is a suffix, everything dropped is whitespace, and the result does not start with whitespace |
| Strings.StripEnd | invoices/views.py:409 | removes exactly the trailing whitespace: the result is a prefix, everything dropped is whitespace, and the result does not end with whitespace |
| Strings.StripEmpty | invoices/views.py:409-410 | a submitted number strips to the empty string exactly when it is all whitespace, which is when the override does not apply |
| Strings.StripIdempotent | invoices/views.py:409 | stripping twice is stripping once |
| Strings.Upper | invoices/views.py:354 | `upper()` keeps the length, maps each character on its own and leaves no lower-case ASCII letter |
| Strings.UpperIdempotent | invoices/views.py:392 | upper-casing an upper-cased code changes nothing |
| Strings.ReplaceChar | invoices/views.py:474 | `replace(a, b)` of one character changes exactly the occurrences of `a` into `b`, position by position |
| Strings.RemoveChar | invoices/views.py:244 | `replace('-', '')` leaves no hyphen and keeps every other character with its multiplicity |
| Strings.RemoveCharConcat | invoices/views.py:244 | removing hyphens from a concatenation removes them from each part and keeps the parts in order |
| Strings.RemoveCharSingle | invoices/views.py:244 | a single character is dropped exactly when it is a hyphen and kept otherwise, so the order of the kept characters is that of the input |
| Strings.RemoveAbsentChar | invoices/views.py:244 | a postal code without hyphens is stored unchanged |
| Strings.KeepDigits | invoices/views.py:249 | `re.sub(r'[^0-9]', '', phone)` leaves only digits and keeps every digit with its multiplicity |
| Strings.KeepDigitsConcat | invoices/views.py:249 | filtering a concatenation filters each part and keeps the parts in order |
| Strings.KeepDigitsSingle | invoices/views.py:249 | a single character is kept exactly when it is a digit, so the digits come out in the order they were typed |
| Strings.KeepDigitsOfDigits | invoices/views.py:249 | a phone number that is already all digits is stored unchanged |
| Strings.KeepDigitsIdempotent | invoices/views.py:249 | normalising a normalised phone number changes nothing |
| Sorting.SortByPermutation | invoices/models.py:65 | a listing holds exactly the rows of its table, with their multiplicities |
| Sorting.SortBySorted | invoices/models.py:125 | a listing sorted by a total preorder is in that order |
| Sorting.InsertPermutation | invoices/models.py:65 | placing one row into a listing adds exactly that row |
| Sorting.InsertSorted | invoices/models.py:125 | placing one row into a sorted listing keeps it sorted |
| Models.RoleOf | invoices/models.py:15-20 | the stored role text maps to a role whose name is that text; it is one of the three choices exactly when the text is "general", "manager" or "director" |
| Models.RoleOfName | invoices/models.py:15-20 | reading a role's name back gives the role |
| Models.RolePredicates | invoices/models.py:31-41 | `is_manager` and `is_admin` agree on every role and `is_director` implies `is_admin`; the predicates compare the role text, so `is_admin` holds exactly when the text denotes manager or director and `is_director` exactly when it denotes director |
| Models.DigitsAreValidCode | invoices/models.py:46-50 | every non-empty digit string passes the `^[A-Z0-9]+$` validator |
| Models.StrLeTotal | invoices/models.py:65 | any two codes are comparable in the listing order |
| Models.StrLeTransitive | invoices/models.py:65 | the string order used by the listings is transitive |
| Models.StrLeAntisymmetric | invoices/models.py:65 | two codes that each sort before the other are equal |
| Models.CodeOrder | invoices/models.py:65 | ordering companies by `company_code` is a total preorder |
| Models.NameOrder | invoices/models.py:80 | ordering templates by `name` is a total preorder |
| Models.NewestFirstOrder | invoices/models.py:102 | ordering invoices by descending `created_at` is a total preorder |
| Models.DetailOrder | invoices/models.py:125 | ordering details by `order` is a total preorder |
| Models.CreationOrder | invoices/views.py:515 | ordering invoices by ascending `created_at` is a total preorder |
| Models.CreationLeFields | invoices/views.py:515 | between calendar times, invoice `a` sorts before or with `b` exactly when `b`'s time is not lexicographically below `a`'s, field by field |
| Models.InstantOrder | invoices/views.py:511-515 | between calendar times, the creation order is field by field (year, month, day, hour, minute, second, microsecond), and two times are at the same point exactly when they are equal |
| Models.PositionalOrder | invoices/views.py:515 | numbers written with in-range digits compare as their digit lists do lexicographically, and are equal exactly when the digit lists are |
| Models.Radix | invoices/views.py:515 | a number with one more digit compares by its leading places first and by the last digit only when those are equal |
| Models.InvoiceDetail.constructor | invoices/views.py:430-437 | the new detail holds exactly the values it is built with, the submitted amount included |
| Models.InvoiceDetail.Save | invoices/models.py:130-133 | after `save` the amount is quantity times unit price, whatever it was before, and no other field changes |
| Codes.NumericValuesMembers | invoices/views.py:226-233 | the scan collects a value exactly when some existing code has exactly four ASCII digits and that value |
| Codes.Max | invoices/views.py:236 | `max()` is an element at least as large as every element |
| Codes.ComputeNextCode | invoices/views.py:222-237 | the loop over the companies computes the next code of the codes in use |
| Codes.NextCodeFirst | invoices/views.py:223 | when no code has exactly four digits, the next code is "0001" |
| Codes.NextCodeIsSuccessor | invoices/views.py:235-237 | when a four-digit code is largest, the next code is a numeral one above it |
| Codes.NextCodeExceeds | invoices/views.py:235-237 | the next code is a numeral of at least four digits whose value exceeds that of every four-digit code |
| Codes.NextCodeFresh | invoices/views.py:221-239 | the next code differs from every four-digit code in use |
| Codes.NextCodeIgnores | invoices/views.py:230-231 | a code that is not four digits (such as "ABCD" or "12345"), wherever it stands, does not affect the next code |
| Codes.NextCodeWidth | invoices/views.py:237 | the next code has width four exactly when no four-digit code is 9999 |
| Codes.NextCodeValid | invoices/models.py:46-50 | every generated code passes the company-code validator |
| Codes.NextCodeExample | invoices/views.py:221-239 | codes 0001, 0002 and ABCD give 0003 |
| Codes.NextCodeOverflow | invoices/views.py:237 | padding never truncates: 9999 gives the five-digit 10000 |
| Codes.NextCodeRepeats | invoices/views.py:253-254 | for every set of codes holding 9999 and 10000, the next code is 10000 again, a code already in use |
| Codes.TwoDigits | invoices/views.py:399 | `{n:02d}` of a month or a day is two digits whose value is `n` |
| Codes.BaseInvoiceNumberFormat | invoices/views.py:399 | the base number is the code, `_`, the year's numeral and `_`, then two digits valued the month, `_`, and two digits valued the day |
| Codes.BaseInvoiceNumberInjective | invoices/views.py:399 | for one code, two dates give the same base number exactly when their year, month and day agree |
| Codes.CandidateInjective | invoices/views.py:402-406 | different probe steps try different numbers |
| Codes.CandidateSetContents | invoices/views.py:402-406 | the first n probe steps try n distinct numbers |
| Codes.FirstFreeBound | invoices/views.py:404-406 | the probe stops after at most as many steps as there are numbers in use |
| Codes.FirstFreeUnique | invoices/views.py:404-406 | there is only one place where the probe can stop |
| Codes.FirstFreeExamples | invoices/views.py:402-406 | with X in use the probe gives X_1; with X and X_1 in use it gives X_2 |
| Codes.NumberAllocatedUnique | invoices/views.py:397-411 | the allocation rule determines the invoice number uniquely |
| Codes.AllocateInvoiceNumber | invoices/views.py:397-411 | a non-empty stripped submitted number is the result exactly, with no probing; otherwise the result is the first of base, base_1, base_2, … not in use, and so is not in use |
| Intake.Zip4 | invoices/views.py:428 | `zip` of the four lists is as long as the shortest, and position i pairs the i-th entries with index i |
| Intake.KeptLinesMembers | invoices/views.py:428-429 | the kept positions are exactly the zipped positions with non-empty name, quantity and price; there are never more of them than positions |
| Intake.KeptLinesIncreasing | invoices/views.py:428-436 | the kept positions keep their original indices in strictly increasing order |
| Intake.KeptLinesIndexBound | invoices/views.py:428-436 | no kept position has an index beyond the last zipped position |
| Intake.ZippedKeptLines | invoices/views.py:422-436 | the positions get a detail exactly when name, quantity and price are non-empty at that index below the shortest list's length; each keeps its index, in strictly increasing order, and there are at most as many as the shortest list |
| Intake.NoAmountsNoLines | invoices/views.py:425-428 | when no amount list is submitted, zip stops at once and no detail is made |
| Intake.ParseLine | invoices/views.py:430-437 | a kept line converts exactly when `int(qty)`, `float(price)` and, if an amount is given, `float(amount)` succeed; the draft keeps the name, the index as `order`, and those values; the supplied amount is the converted amount, or quantity times price when none is given |
| Intake.ParsedPrefixSpec | invoices/views.py:427-438 | each draft made is the conversion of the kept line at its place; when the intake stops early, it stops at a line that does not convert |
| Intake.ParsedPrefixComplete | invoices/views.py:427-438 | the intake runs to the end exactly when every kept line converts |
| Intake.KeptLinesConcat | invoices/views.py:428-429 | filtering a concatenation filters each part |
| Intake.KeptLinesStep | invoices/views.py:428-429 | one more position adds itself to the kept lines exactly when it is complete |
| Intake.ParsedPrefixExtend | invoices/views.py:430-438 | while all lines so far converted, a converting line adds its draft at the end |
| Intake.ParsedPrefixStops | invoices/views.py:430-438 | a line that does not convert ends the intake: nothing after it is converted |
| Intake.IntakeStep | invoices/views.py:428-438 | one loop step: an incomplete position changes nothing, a complete one that converts adds its draft, and one that does not convert stops the intake with the drafts so far |
| Intake.IntakeStop | invoices/views.py:430-438 | when a kept line does not convert, the intake as a whole fails with the drafts made before it |
| Intake.IntakeExample | invoices/views.py:427-438 | of lines ("A","2","5","") and ("B","","10",""), only the first is kept; it converts to 2 at 500 cents with 1000 cents supplied, at order 0 |
| Sheets.ShownDetails | invoices/views.py:466 | `details[:10]`: the number of detail rows is the smaller of the detail count and ten |
| Sheets.WriteHeader | invoices/views.py:452-461 | the header writes set A8–A13 from the company, A16 and F5 to the invoice number, F8 to the code and H5 to the print date, adding exactly those cells and leaving every other cell as it was |
| Sheets.WriteDetailRow | invoices/views.py:467-471 | one detail row puts item name, quantity, unit price and amount into A, F, G and H of that row and touches nothing else |
| Sheets.WriteDetails | invoices/views.py:465-471 | detail i goes into row 17+i for i below k; the cells written are exactly columns A, F, G and H of those rows; everything else keeps its value |
| Sheets.PopulateTemplate | invoices/views.py:452-471 | the filled template has the template's cells plus the header cells and the cells of the first min(10, n) detail rows; the header is written; detail i is in row 17+i; every other cell is the template's |
| Sheets.PopulatedLeavesLowerRows | invoices/views.py:465-471 | below row 26 the filled template is exactly the template: details past the tenth are never written |
| Sheets.SafeName | invoices/views.py:474 | the safe company name has the same length, no `/` or `\`, those replaced by `_` and every other character unchanged |
| Sheets.SafeNameKeeps | invoices/views.py:474 | a company name without separators is used unchanged |
| Sheets.MonthTitleInjective | invoices/views.py:524 | two months get the same sheet title "{year}年{month}月分" exactly when year and month agree |
| Sheets.InvoiceFileNameInjective | invoices/views.py:475 | one company's invoice file names differ exactly when the invoice numbers differ |
| Sheets.HistoryFileNameInjective | invoices/views.py:546-547 | one company's monthly file names differ exactly when the year or the month differs |
| Sheets.SeparatorConcat | invoices/views.py:475 | a concatenation has a path separator exactly when one of its parts has |
| Sheets.InvoiceFileNameSeparators | invoices/views.py:474-475 | the invoice file name has a path separator exactly when the code or the invoice number has one; the company name cannot bring one in |
| Sheets.HistoryFileNameSeparators | invoices/views.py:546-547 | the monthly file name has a path separator exactly when the code has one |
| Sheets.IntDecimalNoSeparator | invoices/views.py:547 | a formatted year or month holds no path separator |
| Sheets.MonthTitleNoSeparator | invoices/views.py:524 | the month title "{year}年{month}月分" holds no path separator |
| History.MonthSelectionMembers | invoices/views.py:511-514 | the filter keeps exactly the company's invoices whose creation year and month match |
| History.MonthSelectionCount | invoices/views.py:511-514 | the filter keeps each invoice of the month as often as it is stored and drops every other |
| History.MonthInvoicesSpec | invoices/views.py:511-515 | the selected invoices are exactly the company's invoices of that month, each as often as stored, in ascending creation time |
| History.OwnDetailsMembers | invoices/views.py:536 | `invoice.details` holds exactly the details whose invoice is that invoice |
| History.OwnDetailsCount | invoices/views.py:536 | `invoice.details` keeps each detail of the invoice as often as it is stored and drops every other |
| History.OwnDetailsConcat | invoices/views.py:536 | selecting an invoice's details distributes over concatenation |
| History.DetailsOfSpec | invoices/views.py:536 | an invoice's details are exactly the details of that invoice, with their multiplicities, in ascending `order` |
| History.InvoiceRows | invoices/views.py:536-542 | one row per detail, in the order of the details, each pairing the invoice with its detail |
| History.GroupsConcat | invoices/views.py:535 | the groups of a concatenation are the groups of its parts |
| History.FlattenConcat | invoices/views.py:535-543 | flattening a concatenation flattens each part |
| History.FlattenSnoc | invoices/views.py:535-543 | one more invoice appends its group of rows |
| History.GroupLength | invoices/views.py:536 | an invoice contributes as many rows as it has details |
| History.FlattenLength | invoices/views.py:533-543 | the number of data rows is the total detail count of the selected invoices |
| History.FlattenGroups | invoices/views.py:535-543 | the rows of invoice i come after those of the invoices before it and before those after it, in `order` |
| History.WriteRow | invoices/views.py:537-542 | one row writes the six values of an invoice–detail pair into columns 1–6 and leaves other rows as they were |
| History.WriteInvoiceRows | invoices/views.py:536-543 | an invoice's details fill consecutive rows from the current one, and the row counter ends one past the last |
| History.WriteHeaderRow | invoices/views.py:527-531 | a new sheet holds exactly the six headers in row 1 |
| History.RowsAppended | invoices/views.py:533-543 | appending an invoice's rows below the rows written so far keeps the headers and the earlier rows, and the sheet grows by exactly those rows |
| History.AppendInvoice | invoices/views.py:535-543 | one turn of the outer loop appends the invoice's group of rows and advances the row counter past it |
| History.BuildHistorySheet | invoices/views.py:522-543 | row 1 holds the six headers; rows 2 to 1+N hold the invoice–detail pairs in order; no cell outside that grid is set |
| Tables.CompanyByCode | invoices/views.py:356 | the lookup finds a company with that code, or fails exactly when no company has it |
| Tables.CompanyById | invoices/views.py:344 | the lookup finds the company with that key, or fails exactly when there is none |
| Tables.UserById | invoices/views.py:327 | the lookup finds the user with that key, or fails exactly when there is none |
| Tables.CodesOf | invoices/views.py:227-230 | a code is among the scanned codes exactly when some company has it |
| Tables.ListingsOrdered | invoices/models.py:65-125 | each listing holds the same rows as its table, ordered by code, by name or newest first |
| Tables.CompaniesExcept | invoices/views.py:345 | the companies that remain are exactly the others |
| Tables.UsersExcept | invoices/views.py:330 | the users that remain are exactly the others |
| Tables.InvoicesNotOf | invoices/models.py:89 | the invoices that remain are exactly those of other companies |
| Tables.DetailsNotIn | invoices/models.py:110-115 | the details that remain are exactly those whose invoice remains |
| Tables.ClearCreator | invoices/models.py:92-97 | an invoice of the deleted user loses its creator and keeps every other field; other invoices are unchanged |
| Tables.CascadeExact | invoices/models.py:89-115 | deleting a company removes exactly its invoices and the details of those invoices; no detail that remains refers to a removed invoice |
| Tables.SetNullKeepsInvoices | invoices/models.py:92-97 | deleting a user removes no invoice and changes nothing but the creator, which is nulled exactly on that user's invoices; no invoice refers to the user afterwards |
| Integrity.EmptyValid | invoices/models.py:13-125 | an empty store satisfies every uniqueness and foreign-key constraint |
| Integrity.InsertCompanyValid | invoices/models.py:44-65 | a company with an unused code under a fresh key keeps the store consistent |
| Integrity.InsertTemplateValid | invoices/models.py:71-80 | a template under a fresh key keeps the store consistent |
| Integrity.InsertUserValid | invoices/views.py:305-312 | a user with an unused name under a fresh key keeps the store consistent |
| Integrity.InsertInvoiceValid | invoices/models.py:86-97 | an invoice with an unused number, an existing company and an existing creator keeps the store consistent |
| Integrity.InsertDetailValid | invoices/models.py:108-120 | a detail of an existing invoice under a fresh key keeps the store consistent |
| Integrity.RemoveCompanyValid | invoices/models.py:89-115 | the cascade from a company leaves a consistent store: no invoice without its company, no detail without its invoice |
| Integrity.RemoveCompanyLinksInvoices | invoices/models.py:89 | after the cascade, every remaining invoice's company remains |
| Integrity.RemoveCompanyLinksDetails | invoices/models.py:110-115 | after the cascade, every remaining detail's invoice remains |
| Integrity.RemoveUserValid | invoices/models.py:92-97 | deleting a user and nulling the creator of their invoices leaves a consistent store |
| Views.NewDetail | invoices/views.py:430-437 | the stored detail has the given key, invoice and order, the draft's name, quantity and price, and an amount of quantity times price, as `save` recomputes it (invoices/models.py:130-133) |
| Views.PeriodField | invoices/views.py:505-506 | a missing field takes the current year or month; a posted one converts exactly when `int()` accepts it |
| Views.PeriodFieldReads | invoices/views.py:505-506 | a posted numeral of an integer reads as that integer |
| Views.StoredDetails | invoices/views.py:427-438 | one stored detail per draft |
| Views.StoredDetailsSnoc | invoices/views.py:430-438 | one more draft stores one more detail, under the next key |
| Views.StoredDetailsAt | invoices/views.py:430-437 | the j-th stored detail is the j-th draft under key firstId+j, belonging to the invoice, with its amount recomputed |
| Views.StoredDetailsValid | invoices/views.py:430-437 | storing the details of an existing invoice under consecutive fresh keys keeps the store consistent |
| Views.StoredAmounts | invoices/models.py:130-133 | the submitted amount never reaches the store: every stored amount is quantity times unit price |
| Views.Store.constructor | invoices/models.py:13-125 | the store starts empty and consistent |
| Views.Store.NextCompanyCode | invoices/views.py:126-141 | the code the admin screens propose is the next code of the companies' codes |
| Views.Store.AddCompany | invoices/views.py:214-269 | non-admins are refused with 403; a generated code already in use is refused and nothing changes; otherwise the company is stored under the next code, with the postal code's hyphens removed and the phone reduced to digits; the store stays consistent |
| Views.Store.InsertCompany | invoices/views.py:256-265 | `Company.objects.create` appends the company under a fresh key and changes no other table |
| Views.Store.AddItemTemplate | invoices/views.py:274-290 | non-admins are refused and nothing changes; otherwise the template is appended under a fresh key and the store stays consistent |
| Views.Store.AddUser | invoices/views.py:295-316 | non-admins are refused; a username in use, then an empty username, is refused and nothing changes; otherwise the user is appended with the submitted role text, "general" when no role is posted; the store stays consistent |
| Views.Store.DeleteUser | invoices/views.py:321-333 | non-admins are refused; a missing user is not found; self-deletion is refused; otherwise the user goes and their invoices stay with no creator; the store stays consistent |
| Views.Store.DeleteCompany | invoices/views.py:338-348 | non-admins are refused; a missing company is not found; otherwise the company, its invoices and their details go and nothing else changes |
| Views.Store.RemoveCompany | invoices/views.py:345 | `company.delete()` removes the company and cascades to its invoices and their details, keeping the store consistent |
| Views.Store.CompanyInfo | invoices/views.py:352-373 | the company whose code is the submitted code upper-cased, or an unknown-code error exactly when there is none |
| Views.Store.CompanyInfoUnique | invoices/views.py:354-356 | codes are unique, so the lookup finds the one company with that code, whatever the letter case submitted |
| Views.Store.CreateInvoice | invoices/views.py:414-419 | the invoice is appended under a fresh key, with the number, company, upper-cased code as customer id, creation time and creator; no other table changes |
| Views.Store.CreateDetail | invoices/views.py:430-437 | the detail is built from the draft, saved with its amount recomputed, and appended under the next key |
| Views.Store.StoreLine | invoices/views.py:430-437 | a line that converts stores exactly its detail; one that does not changes nothing |
| Views.Store.IntakeLine | invoices/views.py:428-438 | one turn of the intake loop stores the detail of a complete line that converts, skips an incomplete one, and stops at one that does not convert, with the details stored so far kept |
| Views.Store.IntakeLines | invoices/views.py:427-438 | the details stored are those of the converted kept lines, under consecutive keys; the loop completes exactly when every kept line converts |
| Views.Store.StoreLines | invoices/views.py:427-438 | the intake stores the drafts made before it stops, keeps the store consistent, and reports whether it reached the end |
| Views.Store.GenerateInvoice | invoices/views.py:389-496 | an unknown code changes nothing; a taken submitted number changes nothing; otherwise the invoice is stored with the allocated number; the details of the lines converted before the first failure are stored; a failure is Malformed, a missing template TemplateMissing; the clock is taken to read calendar times; otherwise the result is the populated template, the stored details and the file name |
| Views.Store.FillInvoice | invoices/views.py:422-475 | after the invoice is stored: the details of the converted lines are stored, then a failed conversion, a missing template or the filled template and its file name is returned |
| Views.Store.ExportMonthlyHistory | invoices/views.py:501-568 | a missing year takes the year of one clock reading and a missing month the month of another, so a request across New Year can pair the old year with January; an unconvertible year or month, an unknown company, a year outside 1..9999 and an empty month are distinct errors; otherwise the sheet has the headers and one row per detail of the month's invoices in creation order, with the month title and the file name |

## Left out

- Django plumbing is not modelled: requests and responses, login and logout, the `login_required` decorator that every modelled handler carries (the export included, invoices/views.py:499), flash messages, template rendering and redirects. Each handler's outcome is an `Ok` or `Err` result. A handler that uses the logged-in user takes it as an `actor` that is a stored user; the export uses none and takes none.
- The listing and dashboard pages are modelled only through the listing functions and the next-code computation they show: `admin_dashboard`, `admin_companies`, `admin_invoice_items`, `admin_users`, `admin_create_invoice` and `create_invoice_view`.
- The ORM is modelled as sequences in a store class. Queries are functions over those sequences. A single global counter hands out primary keys for every table, where the database has one sequence per table.
- Workbook loading and saving, fonts, alignment, directory creation and file streaming are not modelled. They are file I/O through a library not part of this model. The template file is an `Option<Sheet>`: `None` when it does not exist.
- `datetime.now()` is passed in as parameters: the three readings of invoice generation (the `Readings` record), and the two readings behind the default year and month of the monthly export, kept apart as the code reads the clock twice (invoices/views.py:505-506). `strftime` output is kept as the pair of pattern and time (`Moment`), not as text.
- Strings.ParseCents: `float()` on prices and amounts is modelled as integer cents with at most two fraction digits. A value with three or more fraction digits, which `float()` accepts and the two-place column rounds when saving, is treated as a conversion failure. So are exponents, `inf`/`nan`, surrounding whitespace, digit underscores and non-ASCII digits, which `float()` also accepts.
- Models.InvoiceDetail.Save: the `max_digits=10` limit of `unit_price` and `amount` (invoices/models.py:118-119) is not enforced. A price or amount of absolute value 10^8 or more, which the two-place ten-digit column cannot hold, is stored in the model as it is.
- `int()` accepts an optional sign and ASCII digits only. Python also accepts surrounding whitespace, underscores and non-ASCII digits.
- `str.isdigit` and `str.upper` cover ASCII only: Unicode digits and case mappings are not modelled.
- The races between scanning codes or numbers and inserting them are left out as concurrency. The model has a single sequential caller.
- The broad `except Exception` handlers are reduced to the modelled error kinds. These are a failed conversion (`Malformed`, `BadPeriod`), a duplicate invoice number (`NumberTaken`), `create_user` refusing an empty name (`EmptyUsername`) and a year the date lookup cannot represent (`YearOutOfRange`). Other failures that reach those handlers, such as the column limits above, the database and the file system, are not modelled. Where a handler fails after storing, what it stored is kept, as in the code.
- Password hashing and username normalisation in `create_user` are not modelled. Neither are the `auto_now` timestamps other than `created_at`, or the `max_length` limits of the character columns.
- Time zones are not modelled. `created_at` is the local calendar time passed in.
- Sorting.SortBy: invoices with equal `created_at` (and details with equal `order`) come out in an order the model fixes. The database leaves that order unspecified.
- Models.RoleOfName: stated only for roles whose unlisted text is not one of the three choice names, since such a text denotes the listed role.
- `invoices/admin.py`, `invoices/urls.py` and `invoices/migrations/0002.py` are not part of this model. They are declarative configuration.
