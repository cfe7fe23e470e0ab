# Client registry form and list, modelled in Dafny

This project models the client-side logic of a small client-registry screen. The screen has two React components.

**The registration form (`ClientForm`).** The user edits a draft client:
- name and social name, e-mail and CPF (the Brazilian taxpayer number);
- one address with six required fields;
- a list of phones, each a DDD (area code) and a number.

While the user types, the CPF input is masked as `XXX.XXX.XXX-XX`. On submit the form validates the draft, builds the payload and calls the create or the update endpoint. It then sorts a server error into a field error or an alert.

**The list (`ClientList`).** It shows each API record with:
- a display mask for the CPF;
- the phones rendered as `(ddd) xxxx-xxxx`;
- a `cidade/estado` summary of the address.

It also converts a record into the draft that the edit form opens with.

Modules:
- `Optional`: `Option`, for JavaScript's `undefined`/`null` versus a present value.
- `Strings`: the JavaScript string built-ins the components use, over `string`:
  - `replace(/\D/g, '')`, `trim()`, `includes`, `join`;
  - capitalising the first letter.

  It also has `IndexOf`, which reads the address summary back; the components do not call `indexOf`.
- `EmailPattern`: the unanchored test `/\S+@\S+\.\S+/.test(email)`. It is written as a left-to-right scan and proved equal to an existential reference definition.
- `ClientForm`:
  - the draft and error-report datatypes, the CPF input mask and its properties;
  - the validation pass, as methods with loops and proved against a reference predicate;
  - phone-list editing, payload shaping, and the create/update choice and server-error classification;
  - the class `ClientFormState`. It holds the component state (`formData`, `errors`, `isSubmitting`), and each event handler is a method of it.
- `ClientList`: the API record types, the three display formatters and `convertToFormData`. It also has lemmas that connect the list to the form.

White space: `trim()` and `\s`/`\S` use ECMAScript's WhiteSpace and LineTerminator code points. The model has the full fixed set, not only the ASCII spaces.

## Model

| member | source | states |
|---|---|---|
| Strings.Digits | src/components/ClientForm.tsx:125 | the digits of the input in order; never longer than the input; an all-digit input is kept unchanged |
| Strings.DigitsAppend | src/components/ClientForm.tsx:242 | stripping non-digits distributes over concatenation |
| Strings.Trim | src/components/ClientForm.tsx:120 | `trim()` is empty exactly when every character is white space |
| Strings.TrimStartSpec | src/components/ClientForm.tsx:120 | the leading part removed is blank, and the rest is empty or starts with a non-space |
| Strings.TrimEndSpec | src/components/ClientForm.tsx:120 | the trailing part removed is blank, and the rest is empty or ends with a non-space |
| Strings.Join | src/components/ClientList.tsx:120 | joining no item gives the empty text; joining one item gives that item |
| Strings.JoinSnoc | src/components/ClientList.tsx:120 | appending an item appends the separator and the item |
| Strings.JoinStartsWithFirst | src/components/ClientList.tsx:120 | the joined text begins with the first item |
| Strings.IndexOf | src/components/ClientList.tsx:125 | the read-back helper of `SummaryRoundTrip`, not a call the component makes: the first occurrence of the character, or the length when there is none; no earlier occurrence |
| Strings.ToUpperAscii | src/components/ClientForm.tsx:145 | a lower-case ASCII letter becomes the matching capital (code point minus 32); every other character is unchanged |
| Strings.Capitalize | src/components/ClientForm.tsx:145 | same length; the first character is upper-cased and the rest is unchanged |
| EmailPattern.DotFrom | src/components/ClientForm.tsx:134 | the scan finds a `.` closing a match after a given `@` exactly when one exists |
| EmailPattern.AtFrom | src/components/ClientForm.tsx:134 | the scan finds an `@` that starts a match exactly when one exists |
| EmailPattern.Test | src/components/ClientForm.tsx:134 | the test succeeds exactly when some substring matches `\S+@\S+\.\S+` |
| EmailPattern.NoMatchWithoutAt | src/components/ClientForm.tsx:134 | a text without `@` fails the test |
| EmailPattern.NoMatchWhenEveryAtFollowsSpace | src/components/ClientForm.tsx:134 | a text whose every `@` is at the start or after white space fails the test |
| EmailPattern.Examples | src/components/ClientForm.tsx:134 | `a@b.co` passes; `not-an-email`, `a@b.` and `a @b.c` fail |
| ClientForm.OrEmpty | src/components/ClientForm.tsx:95-96 | `o \|\| ''` is empty exactly when `o` is absent or empty, else it is `o` |
| ClientForm.OrAbsent | src/components/ClientForm.tsx:281-282 | `o \|\| undefined` is present exactly when `o` is a non-empty text, and then it equals `o` |
| ClientForm.FormatCPF | src/components/ClientForm.tsx:241-253 | at most 14 characters when there are at most 11 digits; the input is returned unchanged when there are more |
| ClientForm.FormatCPFGroups | src/components/ClientForm.tsx:243-252 | the greedy groups of 3, 3, 3 and 2 digits, with each separator present only before a non-empty group |
| ClientForm.FormatCPFKeepsDigits | src/components/ClientForm.tsx:242-252 | with at most 11 digits, stripping non-digits from the output gives the input's digits in order |
| ClientForm.FormatCPFShape | src/components/ClientForm.tsx:243-252 | with at most 11 digits, the output fills `XXX.XXX.XXX-XX` from the left, never ends in a separator, and has one separator per started group after the first |
| ClientForm.FormatCPFComplete | src/components/ClientForm.tsx:247-252 | eleven digits are shown as `XXX.XXX.XXX-XX`, 14 characters |
| ClientForm.FormatCPFIdempotent | src/components/ClientForm.tsx:241-253 | masking the mask's own output changes nothing |
| ClientForm.PartialMaskDigits | src/components/ClientForm.tsx:247-252 | a partial mask holds at most 11 digits, one per non-separator position |
| ClientForm.PartialMaskIsFixedPoint | src/components/ClientForm.tsx:241-253 | every partial mask is left unchanged by the formatter |
| ClientForm.FormatCPFUnique | src/components/ClientForm.tsx:241-253 | the output is the only partial mask with the input's digits |
| ClientForm.EnderecoMessages | src/components/ClientForm.tsx:144-145 | the message is the capitalised field name (`CEP` for the postal code) followed by ` é obrigatório` |
| ClientForm.CpfError | src/components/ClientForm.tsx:125-132 | no error exactly when there are 11 digits; "CPF é obrigatório" exactly when there are no digits; "CPF deve conter 11 dígitos" for any other count |
| ClientForm.AssignAt | src/components/ClientForm.tsx:157 | `a[i] = x` on a JavaScript array: sets index `i` and fills holes up to it |
| ClientForm.CollectEnderecoErrors | src/components/ClientForm.tsx:139-148 | a field has an entry exactly when it is blank after trimming, and the entry is that field's message |
| ClientForm.CollectTelefoneErrors | src/components/ClientForm.tsx:154-160 | row `i` has a message exactly when its DDD or number is blank; the sparse array ends at the last incomplete row |
| ClientForm.AddressReportOf | src/components/ClientForm.tsx:150-152 | the address report is present exactly when some field failed |
| ClientForm.PhoneReportOf | src/components/ClientForm.tsx:162-164 | the phone report is present exactly when some row failed |
| ClientForm.ComputeErrors | src/components/ClientForm.tsx:116-168 | the report has every per-field error; the draft is valid exactly when the name, the CPF, the e-mail, the six address fields and every phone pass, which is exactly when nothing is reported |
| ClientForm.SetPhoneField | src/components/ClientForm.tsx:204 | only the named part of the phone changes |
| ClientForm.RemoveAt | src/components/ClientForm.tsx:228-234 | the entry at the index is gone and the others keep their order; an index out of range changes nothing |
| ClientForm.ErrorsAfterRemove | src/components/ClientForm.tsx:231-237 | when the removed row showed an error, exactly its entry is spliced out of the phone errors; otherwise nothing changes; the other fields never change |
| ClientForm.ValidationAlignsErrorRows | src/components/ClientForm.tsx:154-164 | after validation, row `i` shows an error exactly when it is incomplete |
| ClientForm.RemoveTelefoneMisalignsErrors | src/components/ClientForm.tsx:224-239 | removing a complete row that has an incomplete row after it leaves the incomplete row without its error |
| ClientForm.ErrorsAfterRemoveAligned | src/components/ClientForm.tsx:231-237 | corrected removal: whenever the error array reaches the removed row, exactly that entry is spliced out, so every later entry moves up one place with its own message; otherwise the report is unchanged |
| ClientForm.AlignedRemoveKeepsErrorRows | src/components/ClientForm.tsx:224-239 | the corrected removal keeps the error rows lined up with the phone rows |
| ClientForm.KeepFilled | src/components/ClientForm.tsx:293 | keeps exactly the rows whose DDD and number are both non-empty |
| ClientForm.KeepFilledAppend | src/components/ClientForm.tsx:293 | the filter distributes over concatenation, so the kept rows stay in order |
| ClientForm.KeepFilledAll | src/components/ClientForm.tsx:293 | when every row is filled, all rows are kept |
| ClientForm.DataToSend | src/components/ClientForm.tsx:279-294 | the CPF as digits; `nomeSocial`, `email` and `informacoesAdicionais` sent unchanged when non-empty and dropped otherwise; the address fields copied without the id; the filled phones |
| ClientForm.ValidDraftPayload | src/components/ClientForm.tsx:270-294 | a valid draft is sent with an 11-digit CPF, non-blank address fields and all of its phones |
| ClientForm.RequestFor | src/components/ClientForm.tsx:298-302 | update with the draft's id exactly when the id is truthy (present and not 0), otherwise create; both carry the payload |
| ClientForm.ClassifyFailure | src/components/ClientForm.tsx:311-322 | server text containing `Email` goes to the e-mail field; otherwise text containing `CPF` goes to the CPF field; other text is alerted; no text gives the generic alert |
| ClientForm.AlertsShown | src/components/ClientForm.tsx:309-321 | no alert on success; a field error shows only the unexpected-error alert; any other failure shows the unexpected-error alert and then its message |
| ClientForm.ShowReaction | src/components/ClientForm.tsx:313-316 | a field error replaces only that field's entry |
| ClientForm.SetFieldValue | src/components/ClientForm.tsx:175-181 | only the named address field changes |
| ClientForm.LoadedDraft | src/components/ClientForm.tsx:90-114 | a new client gets the blank draft; an edited one keeps its id, name, CPF and address, gets `''` for a missing social name or e-mail, and gets one blank phone when it has none; the phone list is never empty |
| ClientForm.ClientFormState.constructor | src/components/ClientForm.tsx:79-88 | the blank draft with one blank phone, no errors, not submitting |
| ClientForm.ClientFormState.Reset | src/components/ClientForm.tsx:90-114 | the draft is reloaded, every error is cleared, and the phone list is non-empty |
| ClientForm.ClientFormState.HandleChange | src/components/ClientForm.tsx:170-199 | the typed input is stored; that field's error is cleared when it was shown; the phones are unchanged |
| ClientForm.ClientFormState.HandleCPFChange | src/components/ClientForm.tsx:255-263 | the CPF becomes the masked input and the CPF error is cleared |
| ClientForm.ClientFormState.HandleTelefoneChange | src/components/ClientForm.tsx:201-215 | only the named part of row `i` changes, and only row `i`'s error is cleared |
| ClientForm.ClientFormState.AddTelefone | src/components/ClientForm.tsx:217-222 | exactly one blank row is appended and nothing else changes |
| ClientForm.ClientFormState.RemoveTelefone | src/components/ClientForm.tsx:224-239 | with more than one row, exactly row `i` is removed and the rest keep their order; a single row is never removed; the error array is spliced at `i` (the corrected splice, see Findings), so error rows that lined up with the phone rows still do |
| ClientForm.ClientFormState.ValidateForm | src/components/ClientForm.tsx:116-168 | the error report becomes the validation report, and the result says whether the draft is valid |
| ClientForm.ClientFormState.HandleSubmit | src/components/ClientForm.tsx:265-326 | nothing is sent unless the draft is valid; otherwise the update or create request carries the payload, the reply is classified, and the submitting flag ends false |
| ClientList.FirstRunFrom | src/components/ClientList.tsx:109 | the leftmost index from which eleven consecutive digits start, or none when no such index exists |
| ClientList.DisplayCPF | src/components/ClientList.tsx:108-110 | a text with no run of eleven digits is shown unchanged; otherwise it gains the three separators |
| ClientList.DisplayCPFMasksLeftmostRun | src/components/ClientList.tsx:108-110 | only the leftmost run of eleven digits is masked, and the text around it is kept |
| ClientList.DisplayCPFKeepsDigits | src/components/ClientList.tsx:108-110 | the shown text has the same digits as the stored one |
| ClientList.DisplayCPFAgreesWithForm | src/components/ClientList.tsx:108-110 | on eleven digits the list shows `XXX.XXX.XXX-XX`, as the form's input mask does |
| ClientList.SavedCpfDisplaysAsTyped | src/components/ClientList.tsx:108-110 | the CPF saved from a valid draft is listed exactly as the form's mask showed it |
| ClientList.NumeroFormatado | src/components/ClientList.tsx:115-117 | a dash goes before the last four characters exactly when the number is longer than four |
| ClientList.NumeroRoundTrip | src/components/ClientList.tsx:115-117 | removing that dash gives back the stored number |
| ClientList.PhoneText | src/components/ClientList.tsx:119 | `(`, the DDD, `) `, then the formatted number |
| ClientList.PhoneTextRoundTrip | src/components/ClientList.tsx:115-118 | the DDD and the number can be read back from the phone's text |
| ClientList.FormatTelefones | src/components/ClientList.tsx:112-121 | an absent or empty list shows "Nenhum telefone cadastrado" |
| ClientList.NoPhonesTextIffEmpty | src/components/ClientList.tsx:112-121 | the placeholder is shown exactly when there is no phone |
| ClientList.FormatOnePhone | src/components/ClientList.tsx:114-120 | a single phone is shown alone |
| ClientList.FormatPhonesSnoc | src/components/ClientList.tsx:114-120 | one more phone appends `, ` and its text, so the items follow the phones' order |
| ClientList.FormatEnderecoResumido | src/components/ClientList.tsx:123-126 | an absent address shows "Endereço não cadastrado" |
| ClientList.NoAddressTextIffAbsent | src/components/ClientList.tsx:123-126 | the placeholder is shown exactly when there is no address |
| ClientList.SummaryRoundTrip | src/components/ClientList.tsx:125 | for a city without `/`, the city is the text before the first `/` and the state the text after it |
| ClientList.ToFormEndereco | src/components/ClientList.tsx:136-145 | the address keeps its id and its fields; an empty `informacoesAdicionais` becomes absent |
| ClientList.ConvertToFormData | src/components/ClientList.tsx:128-153 | id, name, CPF and timestamps are copied; empty optional texts become absent; an absent address stays absent; absent phones become one blank phone; present phones map one to one in order |
| ClientList.HandOff | src/components/ClientList.tsx:195-198 | the form can open the draft exactly when it has an address and a phone list, and it then gets the same fields |
| ClientList.AbsentAddressBreaksForm | src/components/ClientList.tsx:136-146 | as written, a record without an address gives a draft that the form cannot open |
| ClientList.ConvertToFormDataWithBlankAddress | src/components/ClientList.tsx:136-146 | corrected conversion: the same draft, with the blank address when the record has none |
| ClientList.CorrectedConversionOpensForm | src/components/ClientList.tsx:128-153 | the corrected draft always opens the form; with no address, all six required fields are reported blank |
| ClientList.EditAndSaveKeepsRecord | src/components/ClientList.tsx:128-153 | a record whose phones are all filled, opened and saved unchanged, builds a payload carrying back its name, CPF digits, optional texts and every phone with its id; the payload is sent only when the draft validates; a record without an address never validates, and one without phones (no list or an empty one) opens with one blank phone row that fails validation, so both saves are blocked |

## Left out

- Rendering (JSX), CSS classes and the Tailwind configuration: presentation only.
- `src/services/api.ts`: the HTTP calls. A request appears as a `Request` value. The server's reply is a parameter of `HandleSubmit`.
- `src/App.tsx`: fetching, the loading flag and the search responses. These are I/O and event-loop ordering.
- `src/types.ts`: type declarations that the components do not use.
- `formatDate`: it depends on `Date` and on locale-sensitive formatting.
- `handleDelete` and `handleSearch` in the list: a confirm dialog, a request and a callback. The search term and the list's `clienteParaEditar`/`isSubmitting` state are only assigned from UI events.
- `confirm`, `alert` and `console`: the alerts are modelled as data (`AlertsShown`). `onSuccess`, `onCancel` and the logging are left out.
- React's scheduling of setters and effects: every handler is one atomic method. The `useEffect` reset is the method `Reset`.
- `ClientForm.ClientFormState.HandleSubmit`: the request is made synchronously. The time between `setIsSubmitting(true)` and the reply is not modelled.
- `ClientForm.ClientFormState.HandleChange`: a cleared address error is removed from the map. The source sets it to `undefined`. Every read of the error treats the two alike.
- `ClientForm.ClientFormState.HandleTelefoneChange`: it requires the index of an existing row. The form calls it only from the rows it renders.
- `ClientList.NumeroFormatado`: lengths and positions count Unicode scalar values. The source's `length` and `substring` count UTF-16 code units, so a number with characters outside the Basic Multilingual Plane gets its dash elsewhere (or none). `PhoneText` and `FormatTelefones` inherit this.
- `Strings.ToUpperAscii`: only ASCII letters are upper-cased. That covers every field name it is applied to.
- `ClientList.HandOff`: a draft without an address or a phone list is modelled as a form that cannot open. The exception it raises is not modelled.

## Findings

| source | as written | input that shows it | evidently intended | confidence | as-written member | corrected member |
|---|---|---|---|---|---|---|
| src/components/ClientForm.tsx:231-237 | removing a phone splices the error array only when the removed row itself shows an error | phones `[("11","12345678"), ("","")]` with errors `[hole, "DDD e número são obrigatórios"]`; remove row 0: the remaining incomplete row no longer shows its error | splice the error array whenever it reaches the removed row, so that every later row keeps its own error | not executed; high | ClientForm.RemoveTelefoneMisalignsErrors | ClientForm.AlignedRemoveKeepsErrorRows |
| src/components/ClientList.tsx:136-146 | editing a record with no address hands the form a draft whose `endereco` is `undefined`; the form stores it (src/components/ClientForm.tsx:97) and then reads fields of it (src/components/ClientForm.tsx:143, 431) | any API record with `endereco: null` whose edit button is pressed | fall back to the blank address, as a new client gets | not executed; medium | ClientList.AbsentAddressBreaksForm | ClientList.CorrectedConversionOpensForm |

The as-written splice is `ClientForm.ErrorsAfterRemove`. `ClientForm.ClientFormState.RemoveTelefone` uses the corrected splice, `ClientForm.ErrorsAfterRemoveAligned`. `ClientList.EditAndSaveKeepsRecord` uses the corrected conversion.
