# contact-map: postal-code lookup and contact registration, in Dafny

This project models the logic of a small browser app that registers contacts
and shows their address on a map. It has three parts:

- **The map-side lookup `searchCEP`** (module `SearchCep`). It cleans a typed
  Brazilian postal code (CEP) down to its digits and acts only on exactly
  eight. It asks the address service (ViaCEP) and shows the address. It then
  asks the geocoder (Nominatim) and moves the map to the first candidate at
  zoom 17. One run is modelled as the ordered trace of what it does to the
  outside world: the two fetches and the calls to the `setAddress`,
  `setPosition` and `setZoom` setters (`Effects`). The display afterwards is
  the replay of the setter calls over the display before (`Replay`). Class
  `MapView` holds the address, position and zoom, and its `Search` method runs
  the pipeline step by step, with early returns, and is proved against
  `Effects` and `Replay`.
- **The registration modal** (module `ContactModal`, class `Modal`). It covers
  the postal-code edit (digits only, at most eight), the address auto-fill
  that follows at eight digits, and the re-validation of the filled fields.
  It covers saving: a fresh identifier is stamped on the record, the record
  is appended to the list, the list is written under the store key
  `contatos`, and the modal closes. If the identifier source throws, the
  error is caught and nothing changes. The initial list is loaded from the
  store. `handleChange` also has a branch for inputs other than the postal
  code. `HandleChange` models that branch as written, but no input of this
  form reaches it: `handleChange` is attached only to the postal-code input
  (`Contact/index.tsx:168`), and every other input is bound by the form
  library's `register`.
- **The validation schema `contactSchema`** (module `ContactSchema`). It has
  one rule per field, and a record is valid when all of them hold.

Shared pieces: `CepText` (the digit filter and the eight-digit normaliser),
`ViaCep` (the address service's reply), `Wrappers` (`Option`).

External services are parameters. The address service is a function from the
code to `Found(fields) | NotFound | NetworkError`. The geocoder is a function
from the query to `Candidates(list) | GeocoderError`. The zod email check is
a parameter `isEmail`. The identifier source is a parameter `freshId`. It
holds the identifier, or `None` when generating one throws. Uniqueness is
proved under the assumption that the identifier is fresh. Methods return
the requests they made, so "no service is called" can be stated.

Modelling choices:

- A field missing from the ViaCEP payload is `None`. On the map side it
  appears as the text `undefined`, which is what the template literal and
  `encodeURIComponent` produce. On the form side it becomes `''`
  (`field || ''`).
- The store maps a key to the decoded list, or to `None` for a stored JSON
  `null`. A stored `null` makes the list state null, which is the case the
  `!prev` branch of `handleSave` handles.
- The form starts with empty strings and no complement. Every required rule
  fails on them, as it would on absent values. The contact field's rule
  fails exactly when `isEmail("")` is false, which the library's email check
  ensures (`ContactSchema.EmptyFormRejected`).
- The two lookups clean the code differently. The map side
  (`searchCep.ts:9-11`) only filters, so nine or more digits do nothing
  there. The form side (`Contact/index.tsx:36`) filters and keeps the first
  eight (`SearchCep.LongInputIgnoredHere`).

## Model

| member | source | states |
|---|---|---|
| CepText.Digits | src/utils/cep/searchCep.ts:9 | the cleaned code consists of digits only, is no longer than the input, and an all-digit input is returned unchanged |
| CepText.DigitsAppend | src/utils/cep/searchCep.ts:9 | cleaning distributes over concatenation, so it is the order-preserving filter that keeps digits and drops everything else |
| CepText.DigitsOfOne | src/utils/cep/searchCep.ts:9 | one character is kept exactly when it is a digit 0-9 |
| CepText.DigitsCount | src/utils/cep/searchCep.ts:9 | every digit occurs in the cleaned code as often as in the input; no other character occurs |
| CepText.Normalize | src/components/Contact/index.tsx:36 | the form's code is digits only, has length min(8, number of digits), and is a prefix of the cleaned input |
| CepText.NormalizeIdempotent | src/components/Contact/index.tsx:36 | normalising a normalised code returns it unchanged |
| CepText.NormalizeShort | src/components/Contact/index.tsx:36 | with at most eight digits typed, the truncation drops nothing |
| SearchCep.Shown | src/utils/cep/searchCep.ts:23 | a missing reply field is rendered as the text `undefined`, a present one verbatim |
| SearchCep.AddressLine | src/utils/cep/searchCep.ts:22-23 | the address line `logradouro, bairro, localidade - uf` |
| SearchCep.QueryFor | src/utils/cep/searchCep.ts:25-31 | the geocoder query: street, city and state from the reply, country "Brazil" |
| SearchCep.GeocodeEffects | src/utils/cep/searchCep.ts:36-45 | a non-empty candidate list sets the first candidate's position and then zoom 17; anything else does nothing |
| SearchCep.Step | src/utils/cep/searchCep.ts:2-4 | each setter overwrites its own part of the display; a fetch changes nothing |
| SearchCep.Replay | src/utils/cep/searchCep.ts:2-4 | the display after a sequence of setter calls applied in order |
| SearchCep.Effects | src/utils/cep/searchCep.ts:8-49 | a run does something iff exactly eight digits remain; it starts by asking the address service for the cleaned code; each service is asked at most once |
| SearchCep.ReplayAppend | src/utils/cep/searchCep.ts:23 | applying setter calls in sequence composes: replaying a+b is replaying b after a |
| SearchCep.ReplayFetchesOnly | src/utils/cep/searchCep.ts:14 | fetches alone never change what the map shows |
| SearchCep.SearchNeedsEightDigits | src/utils/cep/searchCep.ts:11 | with any other digit count, including nine or more, no service is called and address, position and zoom are unchanged |
| SearchCep.LongInputIgnoredHere | src/utils/cep/searchCep.ts:9-11 | with nine or more digits the form side would look up eight digits while this pipeline does nothing |
| SearchCep.SearchAddressNotFound | src/utils/cep/searchCep.ts:17-20 | on `erro`, or a failed fetch or decode, only the address request is made and nothing on the map changes |
| SearchCep.SearchAddressFound | src/utils/cep/searchCep.ts:22-31 | a found address is shown as `logradouro, bairro, localidade - uf` before the geocoder is asked for that street, city and state in "Brazil" |
| SearchCep.SearchLocated | src/utils/cep/searchCep.ts:36-42 | a non-empty candidate list moves the map to the first candidate at zoom 17, with the found address shown |
| SearchCep.SearchNotLocated | src/utils/cep/searchCep.ts:43-48 | an empty list or a geocoder failure keeps the address already set and leaves position and zoom unchanged |
| SearchCep.GeocodeOnlyAfterAddress | src/utils/cep/searchCep.ts:25-31 | the geocoder is asked only as the third step, after a found address was fetched and shown |
| SearchCep.SearchZoom | src/utils/cep/searchCep.ts:41-42 | position and zoom move together: both stay, or zoom becomes 17 and the position is one the run set |
| SearchCep.SearchIdempotent | src/utils/cep/searchCep.ts:8-49 | repeating a search against the same services changes nothing further |
| SearchCep.LocatedSearchOverwrites | src/utils/cep/searchCep.ts:23-42 | after a fully located search the map no longer depends on what it showed before |
| SearchCep.MapView.constructor | src/components/Map/index.tsx:25-27 | the map state starts with the given address, position and zoom |
| SearchCep.MapView.Search | src/utils/cep/searchCep.ts:8-49 | the run's trace is the specified one and the new address, position and zoom are its replay over the old ones |
| ContactSchema.FieldNamed | src/components/Contact/index.tsx:44 | an input name maps to the field registered under exactly that name, or to no field |
| ContactSchema.Set | src/components/Contact/index.tsx:44 | setting a field stores the value verbatim in it and changes no other field |
| ContactSchema.IsPhone | src/schemas/contact.ts:7 | a phone number is ten or eleven decimal digits and nothing else |
| ContactSchema.NameOk | src/schemas/contact.ts:4 | a name has at least three characters |
| ContactSchema.EmailOrPhoneOk | src/schemas/contact.ts:5-8 | the contact text is an email address or a phone number |
| ContactSchema.CepOk | src/schemas/contact.ts:9 | the postal code has exactly eight characters |
| ContactSchema.Required | src/schemas/contact.ts:10-14 | a required field is not empty (street, number, neighborhood and city) |
| ContactSchema.StateOk | src/schemas/contact.ts:15 | the state has exactly two characters |
| ContactSchema.FieldOk | src/schemas/contact.ts:4-15 | each field's rule; the complement accepts anything, including nothing |
| ContactSchema.Valid | src/schemas/contact.ts:3-16 | a record passes the schema iff every field rule holds |
| ContactSchema.EmptyFormRejected | src/schemas/contact.ts:3-16 | the untouched form fails every required rule, and its contact field fails iff the email check rejects the empty text |
| ContactSchema.Errors | src/schemas/contact.ts:3-16 | a field has an error iff its rule fails |
| ContactSchema.ValidIffNoErrors | src/schemas/contact.ts:3-16 | a record passes the schema iff no field shows an error |
| ContactSchema.ShortNameRejected | src/schemas/contact.ts:4 | a name shorter than three characters is rejected |
| ContactSchema.PhoneRule | src/schemas/contact.ts:5-8 | a text that is not an email passes iff it is ten or eleven decimal digits |
| ContactSchema.StateRule | src/schemas/contact.ts:15 | the state shows an error iff its length is not exactly 2 |
| ContactSchema.CepRuleIgnoresDigits | src/schemas/contact.ts:9 | the cep rule counts characters only: eight letters pass it |
| ContactSchema.NormalizedCepOk | src/schemas/contact.ts:9 | a normalised code of length eight passes the cep rule and is all digits |
| ContactModal.WithId | src/components/Contact/index.tsx:66-69 | the new contact carries the given id and exactly the submitted values |
| ContactModal.InitialList | src/components/Contact/index.tsx:27-30 | the initial list is what the store holds under `contatos`, or empty when the key is absent |
| ContactModal.Appended | src/components/Contact/index.tsx:74-80 | the new list is one longer, keeps the earlier entries in order and ends with the new contact (a null list counts as empty) |
| ContactModal.AppendFresh | src/components/Contact/index.tsx:66-80 | appending a contact with a fresh id keeps ids unique and adds exactly that id |
| ContactModal.SaveAllFresh | src/components/Contact/index.tsx:64-87 | N saves with fresh, distinct ids give a list N longer, with the earlier entries kept, the new records in order and all ids unique |
| ContactModal.SaveAll | src/components/Contact/index.tsx:64-87 | the list after a sequence of saves, each appending its stamped record |
| ContactModal.OrEmpty | src/components/Contact/index.tsx:54-57 | `field \|\| ''`: the field's text, or the empty text when it is missing |
| ContactModal.Filled | src/components/Contact/index.tsx:53-58 | without `erro`, street, neighborhood, city and state become logradouro, bairro, localidade and uf, or `''` when missing; otherwise nothing changes; other fields never change |
| ContactModal.Revalidated | src/components/Contact/index.tsx:41 | the re-validated fields show an error iff their rule fails, and the other fields keep their error state |
| ContactModal.CepEditNormalized | src/components/Contact/index.tsx:36-40 | after a cep edit the stored code is a prefix of the typed digits, at most eight long, its own normal form, and the lookup never changes it |
| ContactModal.Modal.constructor | src/components/Contact/index.tsx:27-30 | the modal starts with an empty form and the list loaded from the store |
| ContactModal.Modal.FetchAddressByCep | src/components/Contact/index.tsx:48-62 | exactly one request for the code; the form becomes the reply applied to it, and failures change nothing |
| ContactModal.Modal.Trigger | src/components/Contact/index.tsx:41 | the given fields' errors are recomputed from the schema |
| ContactModal.Modal.HandleChange | src/components/Contact/index.tsx:32-46 | a cep edit stores the normalised code and, only at eight digits, looks it up, fills the address and re-validates it; another edit stores the value verbatim; list, store and modal are untouched |
| ContactModal.Modal.HandleSave | src/components/Contact/index.tsx:64-95 | with an identifier, the list becomes the old one plus the stamped record and is stored under `contatos` (reloading gives it back), and the modal closes; when the identifier source throws, list, store and modal are unchanged; the form is always kept; ids stay unique if the id was fresh |
| ContactModal.Modal.Submit | src/components/Contact/index.tsx:147 | a valid form is saved as HandleSave states; an invalid one only shows its errors, and the list and store do not change |

## Left out

- Network I/O, JSON decoding and the service URLs: the two services are function parameters, and their replies are datatypes.
- `parseFloat` of the candidate's `lat`/`lon`: a candidate's coordinates are taken as already numbers, and NaN is not modelled.
- URL escaping by `encodeURIComponent`: the geocoder query holds the raw strings.
- The map component's fallback position and zoom (`src/components/Map/index.tsx:25-27`): floating-point values, passed to `MapView`'s constructor instead.
- `crypto.randomUUID`: identifiers are a parameter, with `None` standing for a call that throws. Uniqueness is proved under the assumption that they are fresh.
- The email check of the validation library: the parameter `isEmail`.
- The internals of react-hook-form (`register`, `watch`, `handleSubmit`, the resolver). `Submit` models only what `handleSubmit` does with the schema: it saves when valid and shows errors otherwise. Edits of the fields bound by `register`, and the re-validation the library runs on them after a submit, are part of those internals.
- Text serialisation in `localStorage` and its failures: the store holds decoded lists. A stored empty string, or a value that is not an array, is not modelled.
- Overlapping lookups racing on shared state: that needs asynchronous interleaving. Only sequential runs are modelled (`LocatedSearchOverwrites`).
- Toasts, console logging, Leaflet, routing and all rendering.
- ContactSchema.NameOk: string lengths count characters, where JavaScript counts UTF-16 code units; the two differ only for characters outside the Basic Multilingual Plane.
- ContactSchema.Set: an input name that is not one of the form's fields changes no modelled field (`HandleChange` leaves the record as it is).
