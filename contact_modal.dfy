/**
 * The contact-registration modal: editing the postal code (with the address
 * auto-fill it triggers), editing any other field, and saving a validated
 * record to the contact list and to the browser's key-value store.
 */
module ContactModal {
  import opened Wrappers
  import opened CepText
  import opened ViaCep
  import opened ContactSchema

  /** A saved contact: the form's values plus an identifier. */
  datatype Contact = Contact(
    id: string,
    name: string,
    emailOrPhone: string,
    cep: string,
    street: string,
    number: string,
    complement: Option<string>,
    neighborhood: string,
    city: string,
    state: string)

  /** The key under which the list is stored. */
  const StoreKey := "contatos"

  /** The key-value store with the list decoded; None is a stored `null`. */
  type Store = map<string, Option<seq<Contact>>>

  /** `{...data, id}`: the record with an identifier stamped on it. */
  function WithId(data: ContactForm, id: string): (c: Contact)
    ensures c.id == id && FormOf(c) == data
  {
    Contact(id, data.name, data.emailOrPhone, data.cep, data.street, data.number,
            data.complement, data.neighborhood, data.city, data.state)
  }

  /** The form values a contact was saved from. */
  function FormOf(c: Contact): ContactForm {
    ContactForm(c.name, c.emailOrPhone, c.cep, c.street, c.number,
                c.complement, c.neighborhood, c.city, c.state)
  }

  /** The list state when the modal is created: what is stored under the
      key, or an empty list when nothing is. */
  function InitialList(store: Store): (r: Option<seq<Contact>>)
    ensures StoreKey in store ==> r == store[StoreKey]
    ensures StoreKey !in store ==> r == Some([])
  {
    if StoreKey in store then store[StoreKey] else Some([])
  }

  /** The list a missing (null) list state stands for. */
  function Listed(l: Option<seq<Contact>>): seq<Contact> {
    l.GetOr([])
  }

  /** The list after saving `c`: one longer, the earlier entries kept in
      order and `c` last. */
  function Appended(prev: Option<seq<Contact>>, c: Contact): (r: seq<Contact>)
    ensures |r| == |Listed(prev)| + 1
    ensures r[..|r| - 1] == Listed(prev) && r[|r| - 1] == c
  {
    if prev.None? then [c] else prev.value + [c]
  }

  function Ids(s: seq<Contact>): set<string> {
    set i | 0 <= i < |s| :: s[i].id
  }

  predicate UniqueIds(s: seq<Contact>) {
    forall i, j :: 0 <= i < j < |s| ==> s[i].id != s[j].id
  }

  /** Appending a contact with a fresh identifier keeps identifiers unique. */
  lemma AppendFresh(prev: Option<seq<Contact>>, c: Contact)
    requires UniqueIds(Listed(prev)) && c.id !in Ids(Listed(prev))
    ensures UniqueIds(Appended(prev, c))
    ensures Ids(Appended(prev, c)) == Ids(Listed(prev)) + {c.id}
  {
  }

  /** The list after the saves `saves` (each a validated form and the
      identifier it gets), made one after the other. */
  function SaveAll(prev: Option<seq<Contact>>, saves: seq<(ContactForm, string)>): seq<Contact>
    decreases |saves|
  {
    if saves == [] then Listed(prev)
    else SaveAll(Some(Appended(prev, WithId(saves[0].0, saves[0].1))), saves[1..])
  }

  /** Identifiers that are fresh and pairwise distinct. */
  predicate FreshIds(existing: set<string>, saves: seq<(ContactForm, string)>) {
    && (forall k :: 0 <= k < |saves| ==> saves[k].1 !in existing)
    && (forall k, m :: 0 <= k < m < |saves| ==> saves[k].1 != saves[m].1)
  }

  /** N saves with fresh identifiers grow the list by exactly N, keep the
      earlier entries, append the new records in order and keep every
      identifier unique. */
  lemma {:induction false} SaveAllFresh(prev: Option<seq<Contact>>, saves: seq<(ContactForm, string)>)
    requires UniqueIds(Listed(prev)) && FreshIds(Ids(Listed(prev)), saves)
    ensures var r := SaveAll(prev, saves);
            && |r| == |Listed(prev)| + |saves|
            && r[..|Listed(prev)|] == Listed(prev)
            && (forall k :: 0 <= k < |saves| ==> r[|Listed(prev)| + k] == WithId(saves[k].0, saves[k].1))
            && UniqueIds(r)
    decreases |saves|
  {
    var s := Listed(prev);
    if saves != [] {
      var c := WithId(saves[0].0, saves[0].1);
      var next := Some(Appended(prev, c));
      AppendFresh(prev, c);
      assert FreshIds(Ids(Listed(next)), saves[1..]) by {
        forall k | 0 <= k < |saves[1..]| ensures saves[1..][k].1 !in Ids(Listed(next)) {
          assert saves[1..][k] == saves[k + 1];
        }
        forall k, m | 0 <= k < m < |saves[1..]| ensures saves[1..][k].1 != saves[1..][m].1 {
          assert saves[1..][k] == saves[k + 1] && saves[1..][m] == saves[m + 1];
        }
      }
      SaveAllFresh(next, saves[1..]);
      var r := SaveAll(prev, saves);
      assert r == SaveAll(next, saves[1..]);
      assert r[..|s|] == s by {
        assert r[..|s| + 1][..|s|] == r[..|s|];
        assert Listed(next)[..|s|] == s;
      }
      forall k | 0 <= k < |saves| ensures r[|s| + k] == WithId(saves[k].0, saves[k].1) {
        if k == 0 {
          assert r[|s|] == Listed(next)[|s|];
        } else {
          assert saves[1..][k - 1] == saves[k];
          assert r[|Listed(next)| + (k - 1)] == WithId(saves[1..][k - 1].0, saves[1..][k - 1].1);
        }
      }
    }
  }

  /** The fields a lookup reply writes: `field || ''` for the four address
      parts when `erro` is falsy, nothing otherwise. */
  function OrEmpty(v: Option<string>): string {
    v.GetOr("")
  }

  /** The form after a lookup reply has been applied. */
  function Filled(form: ContactForm, reply: AddressReply): (r: ContactForm)
    ensures reply.Found? ==>
              && r.street == OrEmpty(reply.fields.logradouro)
              && r.neighborhood == OrEmpty(reply.fields.bairro)
              && r.city == OrEmpty(reply.fields.localidade)
              && r.state == OrEmpty(reply.fields.uf)
    ensures !reply.Found? ==> r == form
    ensures forall g :: g !in LookupFields ==> Get(r, g) == Get(form, g)
  {
    match reply
    case Found(f) =>
      var r := Set(form, Street, OrEmpty(f.logradouro));
      var r := Set(r, Neighborhood, OrEmpty(f.bairro));
      var r := Set(r, City, OrEmpty(f.localidade));
      Set(r, State, OrEmpty(f.uf))
    case NotFound => form
    case NetworkError => form
  }

  /** The errors after re-validating the fields `fs` of `form`: those
      fields' errors are recomputed and the others' are kept. */
  function Revalidated(errors: set<Field>, form: ContactForm, fs: set<Field>, isEmail: string -> bool): (r: set<Field>)
    ensures forall f :: f in r <==> if f in fs then !FieldOk(form, f, isEmail) else f in errors
  {
    (errors - fs) + (Errors(form, isEmail) * fs)
  }

  /** After any postal-code edit the stored code is the typed digits, at
      most eight of them, and is its own normal form; the lookup that may
      follow never touches it. */
  lemma CepEditNormalized(form: ContactForm, typed: string, reply: AddressReply)
    ensures var c := Set(form, Cep, Normalize(typed)).cep;
            && c == Digits(typed)[..|c|]
            && |c| <= CepLength && AllDigits(c) && Normalize(c) == c
            && Filled(Set(form, Cep, Normalize(typed)), reply).cep == c
  {
  }

  /** The modal's state: the form's values and errors, the contact list,
      the store, and whether the modal is open. */
  class Modal {
    var form: ContactForm
    var errors: set<Field>
    var contacts: Option<seq<Contact>>
    var store: Store
    var open: bool

    /** A fresh modal over the store `store0`: the list is loaded from it. */
    constructor (store0: Store, open0: bool)
      ensures form == EmptyForm && errors == {}
      ensures contacts == InitialList(store0) && store == store0 && open == open0
    {
      form := EmptyForm;
      errors := {};
      contacts := InitialList(store0);
      store := store0;
      open := open0;
    }

    /** `fetchAddressByCEP`: one request for `cep`; a reply without `erro`
        fills the four address fields; a not-found reply or a failed fetch
        changes nothing and does not escape. */
    method FetchAddressByCep(cep: string, viaCep: string -> AddressReply) returns (requests: seq<string>)
      modifies this`form
      ensures requests == [cep]
      ensures form == Filled(old(form), viaCep(cep))
    {
      requests := [cep];
      var reply := viaCep(cep);
      if reply.Found? {
        var f := reply.fields;
        form := Set(form, Street, OrEmpty(f.logradouro));
        form := Set(form, Neighborhood, OrEmpty(f.bairro));
        form := Set(form, City, OrEmpty(f.localidade));
        form := Set(form, State, OrEmpty(f.uf));
      }
    }

    /** `trigger(fs)`: re-validate the fields `fs` against the schema. */
    method Trigger(fs: set<Field>, isEmail: string -> bool)
      modifies this`errors
      ensures errors == Revalidated(old(errors), form, fs, isEmail)
    {
      errors := Revalidated(errors, form, fs, isEmail);
    }

    /** `handleChange` for input `name` now holding `value`; `requests`
        lists the postal codes looked up. */
    method HandleChange(name: string, value: string, viaCep: string -> AddressReply, isEmail: string -> bool)
      returns (requests: seq<string>)
      modifies this
      ensures name == "cep" ==>
                var c := Normalize(value);
                var typed := Set(old(form), Cep, c);
                if |c| == CepLength then
                  && requests == [c]
                  && form == Filled(typed, viaCep(c))
                  && errors == Revalidated(old(errors), form, LookupFields, isEmail)
                else
                  requests == [] && form == typed && errors == old(errors)
      ensures name != "cep" ==>
                && requests == [] && errors == old(errors)
                && form == (match FieldNamed(name)
                            case Some(g) => Set(old(form), g, value)
                            case None => old(form))
      ensures contacts == old(contacts) && store == old(store) && open == old(open)
    {
      requests := [];
      if name == "cep" {
        var numeric := Normalize(value);
        form := Set(form, Cep, numeric);
        if |numeric| == CepLength {
          requests := FetchAddressByCep(numeric, viaCep);
          Trigger(LookupFields, isEmail);
        }
      } else {
        match FieldNamed(name)
        case Some(g) =>
          form := Set(form, g, value);
        case None =>
      }
    }

    /** `handleSave`: stamp an identifier on `data`, append the record to
        the list, write the new list under the store key and close the
        modal. `freshId` is what the identifier source yields, or None when
        it throws; the error is caught, and then nothing is appended,
        nothing is stored and the modal stays as it is. */
    method HandleSave(data: ContactForm, freshId: Option<string>)
      modifies this
      ensures freshId.Some? ==>
                && contacts == Some(Appended(old(contacts), WithId(data, freshId.value)))
                && store == old(store)[StoreKey := contacts]
                && InitialList(store) == contacts
                && !open
      ensures freshId.None? ==> contacts == old(contacts) && store == old(store) && open == old(open)
      ensures form == old(form) && errors == old(errors)
      ensures freshId.Some? && UniqueIds(Listed(old(contacts))) && freshId.value !in Ids(Listed(old(contacts))) ==>
                UniqueIds(Listed(contacts))
    {
      match freshId
      case None =>
      case Some(id) =>
        var newContact := WithId(data, id);
        var updated := Appended(contacts, newContact);
        store := store[StoreKey := Some(updated)];
        contacts := Some(updated);
        open := false;
        if UniqueIds(Listed(old(contacts))) && id !in Ids(Listed(old(contacts))) {
          AppendFresh(old(contacts), newContact);
        }
    }

    /** The form's submit: the schema is checked first; a valid form is
        saved, an invalid one only shows its field errors. */
    method Submit(isEmail: string -> bool, freshId: Option<string>)
      modifies this
      ensures form == old(form)
      ensures Valid(old(form), isEmail) && freshId.Some? ==>
                && errors == {}
                && contacts == Some(Appended(old(contacts), WithId(old(form), freshId.value)))
                && store == old(store)[StoreKey := contacts] && !open
      ensures Valid(old(form), isEmail) && freshId.None? ==>
                && errors == {}
                && contacts == old(contacts) && store == old(store) && open == old(open)
      ensures !Valid(old(form), isEmail) ==>
                && errors == Errors(old(form), isEmail) && errors != {}
                && contacts == old(contacts) && store == old(store) && open == old(open)
    {
      ValidIffNoErrors(form, isEmail);
      if Valid(form, isEmail) {
        errors := {};
        HandleSave(form, freshId);
      } else {
        errors := Errors(form, isEmail);
      }
    }
  }
}
