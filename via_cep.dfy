/**
 * The reply of the address-lookup service (ViaCEP) for one postal code, with
 * the transport and the JSON decoding abstracted away.
 */
module ViaCep {
  import opened Wrappers

  /** The four fields both callers read; a field the payload lacks is None. */
  datatype AddressFields = AddressFields(
    logradouro: Option<string>,
    bairro: Option<string>,
    localidade: Option<string>,
    uf: Option<string>)

  /** Found: the payload's `erro` flag is falsy. NotFound: it is truthy.
      NetworkError: the fetch or the JSON decoding threw. */
  datatype AddressReply = Found(fields: AddressFields) | NotFound | NetworkError
}
