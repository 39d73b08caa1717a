/**
 * The map-side lookup `searchCEP`: clean the typed postal code, ask the
 * address service, show the address, ask the geocoder, and move the map to
 * the first candidate.
 *
 * One run is described by the ordered trace of what it does to the outside
 * world (the two fetches and the calls to the three state setters it is
 * given). The trace depends only on the typed code and on the two services;
 * the display state afterwards is the replay of the setter calls over the
 * state before. Class MapView holds that state and runs the pipeline.
 */
module SearchCep {
  import opened Wrappers
  import opened CepText
  import opened ViaCep

  /** A map position. A geocoder (Nominatim) candidate is read only for its
      position; its `lat`/`lon` strings are taken as already parsed into
      numbers. */
  datatype Position = Position(lat: real, lon: real)

  /** The geocoder's query parameters, before URL escaping. */
  datatype GeoQuery = GeoQuery(street: string, city: string, state: string, country: string)

  /** The geocoder's reply: its list of candidates, or a fetch or decoding failure. */
  datatype GeoReply = Candidates(list: seq<Position>) | GeocoderError

  /** What the pipeline does to the outside world, in the order it does it. */
  datatype Effect =
    | FetchAddress(cep: string)
    | SetAddress(address: string)
    | FetchGeocode(query: GeoQuery)
    | SetPosition(position: Position)
    | SetZoom(zoom: int)

  /** The state the map shows: the address line, the marker position, the zoom. */
  datatype Display = Display(address: string, position: Position, zoom: int)

  /** The zoom level the map moves to once an address has been located. */
  const LocatedZoom := 17

  /** The fixed country of every geocoder query. */
  const Country := "Brazil"

  /** A possibly missing field as a template literal or encodeURIComponent
      renders it: a missing value becomes the text "undefined". */
  function Shown(v: Option<string>): string {
    match v
    case Some(s) => s
    case None => "undefined"
  }

  function AddressLine(f: AddressFields): string {
    Shown(f.logradouro) + ", " + Shown(f.bairro) + ", " + Shown(f.localidade) + " - " + Shown(f.uf)
  }

  function QueryFor(f: AddressFields): GeoQuery {
    GeoQuery(Shown(f.logradouro), Shown(f.localidade), Shown(f.uf), Country)
  }

  /** The geocoding step after the address was shown: where the map moves,
      if anywhere. */
  function GeocodeEffects(reply: GeoReply): seq<Effect> {
    match reply
    case Candidates(cs) =>
      if |cs| > 0 then [SetPosition(cs[0]), SetZoom(LocatedZoom)] else []
    case GeocoderError => []
  }

  /** The trace of one run of the pipeline for the typed text `cep`. */
  function Effects(cep: string, viaCep: string -> AddressReply, nominatim: GeoQuery -> GeoReply): (r: seq<Effect>)
    // nothing at all happens unless exactly eight digits remain after cleaning
    ensures r == [] <==> |Digits(cep)| != CepLength
    // the first thing done is asking the address service for the cleaned code
    ensures r != [] ==> r[0] == FetchAddress(Digits(cep))
    // the address service is asked once, the geocoder at most once
    ensures forall i :: 0 < i < |r| ==> !r[i].FetchAddress?
    ensures forall i, j :: 0 <= i < j < |r| && r[i].FetchGeocode? ==> !r[j].FetchGeocode?
  {
    var c := Digits(cep);
    if |c| != CepLength then []
    else
      match viaCep(c)
      case Found(f) =>
        [FetchAddress(c), SetAddress(AddressLine(f)), FetchGeocode(QueryFor(f))] + GeocodeEffects(nominatim(QueryFor(f)))
      case NotFound => [FetchAddress(c)]
      case NetworkError => [FetchAddress(c)]
  }

  /** The effect of one trace entry on the display: setter calls overwrite
      their part of the state, fetches leave it alone. */
  function Step(d: Display, e: Effect): Display {
    match e
    case SetAddress(a) => d.(address := a)
    case SetPosition(p) => d.(position := p)
    case SetZoom(z) => d.(zoom := z)
    case FetchAddress(_) => d
    case FetchGeocode(_) => d
  }

  /** The display after the setter calls of `es`, applied in order to `d`. */
  function Replay(d: Display, es: seq<Effect>): Display
    decreases |es|
  {
    if es == [] then d else Replay(Step(d, es[0]), es[1..])
  }

  lemma {:induction false} ReplayAppend(d: Display, a: seq<Effect>, b: seq<Effect>)
    ensures Replay(d, a + b) == Replay(Replay(d, a), b)
    decreases |a|
  {
    if a == [] {
      assert a + b == b;
    } else {
      assert (a + b)[0] == a[0];
      assert (a + b)[1..] == a[1..] + b;
      ReplayAppend(Step(d, a[0]), a[1..], b);
    }
  }

  lemma ReplaySnoc(d: Display, es: seq<Effect>, e: Effect)
    ensures Replay(d, es + [e]) == Step(Replay(d, es), e)
  {
    ReplayAppend(d, es, [e]);
    assert [e][1..] == [];
  }

  /** Only setter calls change the display: a trace without any is a no-op. */
  lemma {:induction false} ReplayFetchesOnly(d: Display, es: seq<Effect>)
    requires forall i :: 0 <= i < |es| ==> es[i].FetchAddress? || es[i].FetchGeocode?
    ensures Replay(d, es) == d
    decreases |es|
  {
    if es != [] {
      ReplayFetchesOnly(d, es[1..]);
    }
  }

  /** Replaying the geocoding step: the map moves to the first candidate at
      zoom 17, or stays where it is. */
  lemma ReplayGeocode(d: Display, reply: GeoReply)
    ensures Replay(d, GeocodeEffects(reply)) ==
              if reply.Candidates? && |reply.list| > 0
              then d.(position := reply.list[0], zoom := LocatedZoom)
              else d
  {
    var es := GeocodeEffects(reply);
    if es != [] {
      var moved := d.(position := reply.list[0]);
      assert es[1..] == [SetZoom(LocatedZoom)];
      assert es[1..][1..] == [];
      assert Replay(d, es) == Replay(moved, es[1..]);
      assert Replay(moved, es[1..]) == Replay(moved.(zoom := LocatedZoom), []);
    }
  }

  /** Replaying a found-address trace: the address line is shown, then the
      geocoding step decides the rest. */
  lemma ReplayFound(d: Display, cep: string, viaCep: string -> AddressReply, nominatim: GeoQuery -> GeoReply)
    requires |Digits(cep)| == CepLength && viaCep(Digits(cep)).Found?
    ensures var f := viaCep(Digits(cep)).fields;
            Replay(d, Effects(cep, viaCep, nominatim))
              == Replay(d.(address := AddressLine(f)), GeocodeEffects(nominatim(QueryFor(f))))
  {
    var c := Digits(cep);
    var f := viaCep(c).fields;
    var head := [FetchAddress(c), SetAddress(AddressLine(f)), FetchGeocode(QueryFor(f))];
    var tail := GeocodeEffects(nominatim(QueryFor(f)));
    ReplayAppend(d, head, tail);
    var shown := d.(address := AddressLine(f));
    assert head[1..] == [SetAddress(AddressLine(f)), FetchGeocode(QueryFor(f))];
    assert head[1..][1..] == [FetchGeocode(QueryFor(f))];
    assert head[1..][1..][1..] == [];
    assert Replay(d, head) == Replay(d, head[1..]);
    assert Replay(d, head[1..]) == Replay(shown, head[1..][1..]);
    assert Replay(shown, head[1..][1..]) == Replay(shown, []);
  }

  /** A code that does not clean to exactly eight digits (a short code, or
      one with nine or more digits, which is never truncated here) calls no
      service and changes nothing. */
  lemma SearchNeedsEightDigits(d: Display, cep: string, viaCep: string -> AddressReply, nominatim: GeoQuery -> GeoReply)
    requires |Digits(cep)| != CepLength
    ensures Effects(cep, viaCep, nominatim) == []
    ensures Replay(d, Effects(cep, viaCep, nominatim)) == d
  {
  }

  /** When the address service reports `erro`, or cannot be reached, the
      geocoder is not asked and the display is unchanged. */
  lemma SearchAddressNotFound(d: Display, cep: string, viaCep: string -> AddressReply, nominatim: GeoQuery -> GeoReply)
    requires |Digits(cep)| == CepLength && !viaCep(Digits(cep)).Found?
    ensures Effects(cep, viaCep, nominatim) == [FetchAddress(Digits(cep))]
    ensures Replay(d, Effects(cep, viaCep, nominatim)) == d
  {
    ReplayFetchesOnly(d, Effects(cep, viaCep, nominatim));
  }

  /** On a found address the address line is shown before the geocoder is
      asked, and the geocoder is asked for that street, city and state in
      Brazil. */
  lemma SearchAddressFound(d: Display, cep: string, viaCep: string -> AddressReply, nominatim: GeoQuery -> GeoReply)
    requires |Digits(cep)| == CepLength && viaCep(Digits(cep)).Found?
    ensures var f := viaCep(Digits(cep)).fields;
            var es := Effects(cep, viaCep, nominatim);
            && |es| >= 3
            && es[1] == SetAddress(Shown(f.logradouro) + ", " + Shown(f.bairro) + ", " + Shown(f.localidade) + " - " + Shown(f.uf))
            && es[2] == FetchGeocode(GeoQuery(Shown(f.logradouro), Shown(f.localidade), Shown(f.uf), "Brazil"))
            && Replay(d, es).address == es[1].address
  {
    var f := viaCep(Digits(cep)).fields;
    ReplayFound(d, cep, viaCep, nominatim);
    ReplayGeocode(d.(address := AddressLine(f)), nominatim(QueryFor(f)));
  }

  /** When the geocoder returns at least one candidate the map shows the
      found address at the first candidate's position, at zoom 17. */
  lemma SearchLocated(d: Display, cep: string, viaCep: string -> AddressReply, nominatim: GeoQuery -> GeoReply)
    requires |Digits(cep)| == CepLength && viaCep(Digits(cep)).Found?
    requires var reply := nominatim(QueryFor(viaCep(Digits(cep)).fields));
             reply.Candidates? && |reply.list| > 0
    ensures var f := viaCep(Digits(cep)).fields;
            var first := nominatim(QueryFor(f)).list[0];
            Replay(d, Effects(cep, viaCep, nominatim)) == Display(AddressLine(f), first, 17)
  {
    var f := viaCep(Digits(cep)).fields;
    ReplayFound(d, cep, viaCep, nominatim);
    ReplayGeocode(d.(address := AddressLine(f)), nominatim(QueryFor(f)));
  }

  /** When the geocoder finds nothing, or cannot be reached, the address set
      earlier stays while position and zoom are unchanged. */
  lemma SearchNotLocated(d: Display, cep: string, viaCep: string -> AddressReply, nominatim: GeoQuery -> GeoReply)
    requires |Digits(cep)| == CepLength && viaCep(Digits(cep)).Found?
    requires var reply := nominatim(QueryFor(viaCep(Digits(cep)).fields));
             !(reply.Candidates? && |reply.list| > 0)
    ensures Replay(d, Effects(cep, viaCep, nominatim)) == d.(address := AddressLine(viaCep(Digits(cep)).fields))
  {
    var f := viaCep(Digits(cep)).fields;
    ReplayFound(d, cep, viaCep, nominatim);
    ReplayGeocode(d.(address := AddressLine(f)), nominatim(QueryFor(f)));
  }

  /** The geocoder is asked only as the third step, after a found address
      was fetched and shown. */
  lemma GeocodeOnlyAfterAddress(cep: string, viaCep: string -> AddressReply, nominatim: GeoQuery -> GeoReply, i: int)
    requires 0 <= i < |Effects(cep, viaCep, nominatim)|
    requires Effects(cep, viaCep, nominatim)[i].FetchGeocode?
    ensures i == 2 && viaCep(Digits(cep)).Found?
    ensures Effects(cep, viaCep, nominatim)[1] == SetAddress(AddressLine(viaCep(Digits(cep)).fields))
  {
  }

  /** Position and zoom move together: either both stay, or the zoom
      becomes 17 and the position that of a geocoder candidate. */
  lemma SearchZoom(d: Display, cep: string, viaCep: string -> AddressReply, nominatim: GeoQuery -> GeoReply)
    ensures var es := Effects(cep, viaCep, nominatim);
            var after := Replay(d, es);
            || (after.position == d.position && after.zoom == d.zoom)
            || (after.zoom == LocatedZoom && SetPosition(after.position) in es)
  {
    var c := Digits(cep);
    if |c| == CepLength && viaCep(c).Found? {
      var f := viaCep(c).fields;
      var es := Effects(cep, viaCep, nominatim);
      ReplayFound(d, cep, viaCep, nominatim);
      ReplayGeocode(d.(address := AddressLine(f)), nominatim(QueryFor(f)));
      if |es| > 3 {
        assert es[3] == SetPosition(Replay(d, es).position);
      }
    } else if |c| == CepLength {
      SearchAddressNotFound(d, cep, viaCep, nominatim);
    }
  }

  /** Searching the same code twice against the same services leaves the
      map where one search left it. */
  lemma SearchIdempotent(d: Display, cep: string, viaCep: string -> AddressReply, nominatim: GeoQuery -> GeoReply)
    ensures var es := Effects(cep, viaCep, nominatim);
            Replay(Replay(d, es), es) == Replay(d, es)
  {
    var c := Digits(cep);
    var once := Replay(d, Effects(cep, viaCep, nominatim));
    if |c| == CepLength && viaCep(c).Found? {
      var f := viaCep(c).fields;
      var reply := nominatim(QueryFor(f));
      if reply.Candidates? && |reply.list| > 0 {
        SearchLocated(d, cep, viaCep, nominatim);
        SearchLocated(once, cep, viaCep, nominatim);
      } else {
        SearchNotLocated(d, cep, viaCep, nominatim);
        SearchNotLocated(once, cep, viaCep, nominatim);
      }
    } else if |c| == CepLength {
      SearchAddressNotFound(d, cep, viaCep, nominatim);
      SearchAddressNotFound(once, cep, viaCep, nominatim);
    }
  }

  /** A fully located search leaves a display that does not depend on what
      was shown before it: the last completed lookup decides the map. */
  lemma LocatedSearchOverwrites(d1: Display, d2: Display, cep: string, viaCep: string -> AddressReply, nominatim: GeoQuery -> GeoReply)
    requires |Digits(cep)| == CepLength && viaCep(Digits(cep)).Found?
    requires var reply := nominatim(QueryFor(viaCep(Digits(cep)).fields));
             reply.Candidates? && |reply.list| > 0
    ensures var es := Effects(cep, viaCep, nominatim);
            Replay(d1, es) == Replay(d2, es)
  {
    SearchLocated(d1, cep, viaCep, nominatim);
    SearchLocated(d2, cep, viaCep, nominatim);
  }

  /** Nine or more typed digits: the form side keeps the first eight and
      looks them up, while this pipeline does nothing at all. */
  lemma LongInputIgnoredHere(cep: string, viaCep: string -> AddressReply, nominatim: GeoQuery -> GeoReply)
    requires |Digits(cep)| > CepLength
    ensures |Normalize(cep)| == CepLength
    ensures Effects(cep, viaCep, nominatim) == []
  {
  }

  /** The state behind the map: what `setAddress`, `setPosition` and
      `setZoom` update. */
  class MapView {
    var address: string
    var position: Position
    var zoom: int

    constructor (address0: string, position0: Position, zoom0: int)
      ensures address == address0 && position == position0 && zoom == zoom0
    {
      address, position, zoom := address0, position0, zoom0;
    }

    function Shows(): Display
      reads this
    {
      Display(address, position, zoom)
    }

    /** Run the pipeline on the typed text `cep`; `effects` lists the
        fetches and setter calls made, in order. Failures of either service
        are swallowed: updates already made stay and later ones do not
        happen. */
    method Search(cep: string, viaCep: string -> AddressReply, nominatim: GeoQuery -> GeoReply)
      returns (effects: seq<Effect>)
      modifies this
      ensures effects == Effects(cep, viaCep, nominatim)
      ensures Shows() == Replay(old(Shows()), effects)
    {
      ghost var before := Shows();
      effects := [];
      var cleaned := Digits(cep);
      if |cleaned| != CepLength {
        return;
      }
      effects := [FetchAddress(cleaned)];
      var reply := viaCep(cleaned);
      if !reply.Found? {
        return;
      }
      var f := reply.fields;
      ReplaySnoc(before, effects, SetAddress(AddressLine(f)));
      effects := effects + [SetAddress(AddressLine(f))];
      address := AddressLine(f);
      var query := QueryFor(f);
      ReplaySnoc(before, effects, FetchGeocode(query));
      effects := effects + [FetchGeocode(query)];
      var located := nominatim(query);
      if located.Candidates? && |located.list| > 0 {
        var first := located.list[0];
        ReplaySnoc(before, effects, SetPosition(first));
        effects := effects + [SetPosition(first)];
        position := first;
        ReplaySnoc(before, effects, SetZoom(LocatedZoom));
        effects := effects + [SetZoom(LocatedZoom)];
        zoom := LocatedZoom;
      }
    }
  }
}
