/**
 * The payloads whose canonical text is hashed into the idempotency fingerprints, and that equal fingerprints mean
 * equal normalized requests for every comparator that tells their few ASCII keys apart.
 */
module RequestPayloads {
  import opened Wrappers
  import opened CanonicalJson
  import opened CanonicalOrder

  /** A passenger after normalizeInput: gender is always set, the optional fields may be undefined. */
  datatype Traveller = Traveller(
    fullName: Text, phone: Option<Text>, documentNumber: Option<Text>, boardingStationId: Option<Text>, gender: Text, seatId: Text)

  datatype Request =
    | PassengerBooking(tripId: Text, travellers: seq<Traveller>)
    | AgentBooking(company: Text, branch: Text, tripId: Text, travellers: seq<Traveller>)
    | OwnerPayment(actor: Text, bookingId: Text, tender: Text)
    | CompanyPayment(actor: Text, company: Text, bookingId: Text, tender: Text)

  function Ascii(s: string): (r: Text)
    ensures |r| == |s|
    ensures forall i :: 0 <= i < |s| && s[i] as int < 128 ==> r[i] == s[i] as int
  {
    seq(|s|, i requires 0 <= i < |s| => if s[i] as int < 128 then s[i] as int else 0)
  }

  // ---------------------------------------------------------------- the keys

  datatype Name =
    | Operation | Input | TripId | Passengers | FullName | Phone | DocumentNumber | BoardingStationId | Gender | SeatId
    | Company | Branch | Actor | BookingId | Method

  function Spelling(n: Name): string {
    match n
    case Operation => "operation"
    case Input => "input"
    case TripId => "tripId"
    case Passengers => "passengers"
    case FullName => "fullName"
    case Phone => "phone"
    case DocumentNumber => "documentNumber"
    case BoardingStationId => "boardingStationId"
    case Gender => "gender"
    case SeatId => "seatId"
    case Company => "company"
    case Branch => "branch"
    case Actor => "actor"
    case BookingId => "bookingId"
    case Method => "method"
  }

  function KeyOf(n: Name): Text {
    Ascii(Spelling(n))
  }

  const PAYLOAD_KEYS: set<Text> := set n: Name | true :: KeyOf(n)

  lemma KeysDiffer(a: Name, b: Name)
    ensures KeyOf(a) == KeyOf(b) <==> a == b
  {
    if |Spelling(a)| == |Spelling(b)| && a != b {
      assert KeyOf(a)[0] == Spelling(a)[0] as int && KeyOf(b)[0] == Spelling(b)[0] as int;
    }
  }

  // ---------------------------------------------------------------- objects by named parts

  datatype Part = Part(name: Name, value: Value)

  function FieldOf(p: Part): Field {
    Field(KeyOf(p.name), p.value)
  }

  function FieldsOf(parts: seq<Part>): (r: seq<Field>)
    ensures |r| == |parts| && forall i :: 0 <= i < |parts| ==> r[i] == FieldOf(parts[i])
  {
    seq(|parts|, i requires 0 <= i < |parts| => FieldOf(parts[i]))
  }

  function Build(parts: seq<Part>): Value {
    Obj(FieldsOf(parts))
  }

  ghost predicate GoodValue(v: Value) {
    WellFormed(v) && KeysWithin(v, PAYLOAD_KEYS)
  }

  ghost predicate GoodParts(parts: seq<Part>) {
    && (forall i :: 0 <= i < |parts| ==> GoodValue(parts[i].value))
    && (forall i, j :: 0 <= i < j < |parts| ==> parts[i].name != parts[j].name)
  }

  lemma BuildIsGood(parts: seq<Part>)
    requires GoodParts(parts)
    ensures GoodValue(Build(parts)) && KeysDistinct(FieldsOf(parts))
  {
    var fields := FieldsOf(parts);
    forall i, j | 0 <= i < j < |fields| ensures fields[i].key != fields[j].key {
      KeysDiffer(parts[i].name, parts[j].name);
    }
    forall i | 0 <= i < |fields|
      ensures fields[i].key in PAYLOAD_KEYS && WellFormed(fields[i].value) && KeysWithin(fields[i].value, PAYLOAD_KEYS)
    {
      assert fields[i] == FieldOf(parts[i]) && GoodValue(parts[i].value);
      assert KeyOf(parts[i].name) in PAYLOAD_KEYS;
    }
  }

  /** What an object's meaning holds under a name: nothing for an undefined field or a name it does not have. */
  function Held(v: Value, n: Name): Option<Json>
    requires v.Obj?
  {
    if KeyOf(n) in Meaning(v).entries then Some(Meaning(v).entries[KeyOf(n)]) else None
  }

  lemma HeldMember(v: Value, f: Field)
    requires v.Obj? && WellFormed(v) && f in DefinedOf(v)
    ensures f.key in Meaning(v).entries && Meaning(v).entries[f.key] == Meaning(f.value)
  {
    var d := DefinedOf(v);
    DefinedAreWellFormed(v);
    MeaningOfFieldsAt(d, v);
    ToMapExact(MeaningOfFields(d, v));
    var k :| 0 <= k < |d| && d[k] == f;
    assert MeaningOfFields(d, v)[k] in MeaningOfFields(d, v);
  }

  lemma HeldNowhere(v: Value, key: Text)
    requires v.Obj? && WellFormed(v) && forall k :: 0 <= k < |DefinedOf(v)| ==> DefinedOf(v)[k].key != key
    ensures key !in Meaning(v).entries
  {
    var d := DefinedOf(v);
    DefinedAreWellFormed(v);
    MeaningOfFieldsAt(d, v);
    ToMapExact(MeaningOfFields(d, v));
    forall e | e in MeaningOfFields(d, v) ensures e.key != key {
      var k :| 0 <= k < |d| && MeaningOfFields(d, v)[k] == e;
    }
  }

  /** A built object holds a part's meaning under its name, if the part is defined; and nothing under other names. */
  lemma PartIsHeld(parts: seq<Part>, i: nat)
    requires GoodParts(parts) && i < |parts|
    ensures Held(Build(parts), parts[i].name)
         == if parts[i].value.Undefined? then None else Some(Meaning(parts[i].value))
  {
    var v := Build(parts);
    BuildIsGood(parts);
    DefinedKeepsDistinct(v.fields);
    assert v.fields[i] == FieldOf(parts[i]);
    if parts[i].value.Undefined? {
      forall k | 0 <= k < |DefinedOf(v)| ensures DefinedOf(v)[k].key != KeyOf(parts[i].name) {
        var m :| 0 <= m < |v.fields| && v.fields[m] == DefinedOf(v)[k];
        assert DefinedOf(v)[k] in Defined(v.fields) && m != i;
      }
      HeldNowhere(v, KeyOf(parts[i].name));
    } else {
      HeldMember(v, v.fields[i]);
    }
  }

  lemma OtherNamesHoldNothing(parts: seq<Part>, n: Name)
    requires GoodParts(parts) && forall i :: 0 <= i < |parts| ==> parts[i].name != n
    ensures Held(Build(parts), n) == None
  {
    var v := Build(parts);
    BuildIsGood(parts);
    forall k | 0 <= k < |DefinedOf(v)| ensures DefinedOf(v)[k].key != KeyOf(n) {
      var m :| 0 <= m < |v.fields| && v.fields[m] == DefinedOf(v)[k];
      KeysDiffer(parts[m].name, n);
    }
    HeldNowhere(v, KeyOf(n));
  }

  /** Objects that mean the same agree on every name they share, and share every defined one. */
  lemma SameParts(ps: seq<Part>, qs: seq<Part>, i: nat, j: nat)
    requires GoodParts(ps) && GoodParts(qs) && Meaning(Build(ps)) == Meaning(Build(qs))
    requires i < |ps| && j < |qs| && ps[i].name == qs[j].name
    ensures ps[i].value.Undefined? <==> qs[j].value.Undefined?
    ensures !ps[i].value.Undefined? ==> Meaning(ps[i].value) == Meaning(qs[j].value)
  {
    PartIsHeld(ps, i);
    PartIsHeld(qs, j);
  }

  lemma MissingPart(ps: seq<Part>, qs: seq<Part>, i: nat)
    requires GoodParts(ps) && GoodParts(qs) && i < |ps| && !ps[i].value.Undefined?
    requires forall j :: 0 <= j < |qs| ==> qs[j].name != ps[i].name
    ensures Meaning(Build(ps)) != Meaning(Build(qs))
  {
    PartIsHeld(ps, i);
    OtherNamesHoldNothing(qs, ps[i].name);
  }

  // ---------------------------------------------------------------- the payloads

  function Optional(text: Option<Text>): Value {
    if text.Some? then Str(text.value) else Undefined
  }

  function TravellerParts(t: Traveller): seq<Part> {
    [Part(FullName, Str(t.fullName)), Part(Phone, Optional(t.phone)), Part(DocumentNumber, Optional(t.documentNumber)),
     Part(BoardingStationId, Optional(t.boardingStationId)), Part(Gender, Str(t.gender)), Part(SeatId, Str(t.seatId))]
  }

  function TravellerValues(ts: seq<Traveller>): (r: seq<Value>)
    ensures |r| == |ts| && forall i :: 0 <= i < |ts| ==> r[i] == Build(TravellerParts(ts[i]))
  {
    seq(|ts|, i requires 0 <= i < |ts| => Build(TravellerParts(ts[i])))
  }

  function InputParts(tripId: Text, ts: seq<Traveller>): seq<Part> {
    [Part(TripId, Str(tripId)), Part(Passengers, Arr(TravellerValues(ts)))]
  }

  function OperationText(r: Request): Text {
    match r
    case PassengerBooking(_, _) => Ascii("CREATE_PASSENGER_BOOKING")
    case AgentBooking(_, _, _, _) => Ascii("CREATE_AGENT_BOOKING")
    case _ => Ascii("CREATE_PAYMENT")
  }

  /** The properties of the object each service passes to fingerprint. */
  function PayloadParts(r: Request): seq<Part> {
    var operation := Part(Operation, Str(OperationText(r)));
    match r
    case PassengerBooking(tripId, ts) => [operation, Part(Input, Build(InputParts(tripId, ts)))]
    case AgentBooking(company, branch, tripId, ts) =>
      [operation, Part(Company, Str(company)), Part(Branch, Str(branch)), Part(Input, Build(InputParts(tripId, ts)))]
    case OwnerPayment(actor, bookingId, tender) =>
      [operation, Part(Actor, Str(actor)), Part(BookingId, Str(bookingId)), Part(Method, Str(tender))]
    case CompanyPayment(actor, company, bookingId, tender) =>
      [operation, Part(Actor, Str(actor)), Part(Company, Str(company)), Part(BookingId, Str(bookingId)), Part(Method, Str(tender))]
  }

  function Payload(r: Request): Value {
    Build(PayloadParts(r))
  }

  // ---------------------------------------------------------------- they are apart

  lemma TravellerIsGood(t: Traveller)
    ensures GoodParts(TravellerParts(t)) && GoodValue(Build(TravellerParts(t)))
  {
    BuildIsGood(TravellerParts(t));
  }

  lemma TravellersAreGood(ts: seq<Traveller>)
    ensures GoodValue(Arr(TravellerValues(ts)))
  {
    forall i | 0 <= i < |ts| ensures GoodValue(TravellerValues(ts)[i]) {
      TravellerIsGood(ts[i]);
    }
  }

  lemma InputIsGood(tripId: Text, ts: seq<Traveller>)
    ensures GoodParts(InputParts(tripId, ts)) && GoodValue(Build(InputParts(tripId, ts)))
  {
    TravellersAreGood(ts);
    BuildIsGood(InputParts(tripId, ts));
  }

  lemma PayloadIsGood(r: Request)
    ensures GoodParts(PayloadParts(r)) && GoodValue(Payload(r))
  {
    if r.PassengerBooking? || r.AgentBooking? {
      InputIsGood(r.tripId, r.travellers);
    }
    BuildIsGood(PayloadParts(r));
  }

  /** Every payload is apart for every comparator that tells the payload keys apart. */
  lemma PayloadIsApart(r: Request, compare: Comparator)
    requires Separates(compare, PAYLOAD_KEYS)
    ensures WellFormed(Payload(r)) && Apart(Payload(r), compare)
  {
    PayloadIsGood(r);
    SeparatedIsApart(Payload(r), PAYLOAD_KEYS, compare);
  }

  // ---------------------------------------------------------------- different requests mean different payloads

  /** Two values of one name in objects of the same meaning: both undefined, or of the same meaning. */
  ghost predicate Alike(v: Value, w: Value) {
    && (v.Undefined? <==> w.Undefined?)
    && (!v.Undefined? ==> Meaning(v) == Meaning(w))
  }

  /** The two part lists have alike values wherever they have the same name. */
  ghost predicate Agree(ps: seq<Part>, qs: seq<Part>) {
    forall i :: 0 <= i < |ps| && i < |qs| && ps[i].name == qs[i].name ==> Alike(ps[i].value, qs[i].value)
  }

  lemma SameMeaningAgrees(ps: seq<Part>, qs: seq<Part>)
    requires GoodParts(ps) && GoodParts(qs) && Meaning(Build(ps)) == Meaning(Build(qs))
    ensures Agree(ps, qs)
  {
    forall i | 0 <= i < |ps| && i < |qs| && ps[i].name == qs[i].name ensures Alike(ps[i].value, qs[i].value) {
      SameParts(ps, qs, i, i);
    }
  }

  lemma AlikeAt(ps: seq<Part>, qs: seq<Part>, i: nat, p: Part, q: Part)
    requires Agree(ps, qs) && i < |ps| && i < |qs| && ps[i] == p && qs[i] == q && p.name == q.name
    ensures Alike(p.value, q.value)
  {
  }

  lemma SameText(a: Text, b: Text)
    requires Alike(Str(a), Str(b))
    ensures a == b
  {
  }

  lemma SameOptional(a: Option<Text>, b: Option<Text>)
    requires Alike(Optional(a), Optional(b))
    ensures a == b
  {
  }

  lemma TravellersAgree(s: Traveller, t: Traveller)
    requires Meaning(Build(TravellerParts(s))) == Meaning(Build(TravellerParts(t)))
    ensures Agree(TravellerParts(s), TravellerParts(t))
  {
    TravellerIsGood(s);
    TravellerIsGood(t);
    SameMeaningAgrees(TravellerParts(s), TravellerParts(t));
  }

  lemma TravellerTexts(s: Traveller, t: Traveller, ps: seq<Part>, qs: seq<Part>)
    requires ps == TravellerParts(s) && qs == TravellerParts(t) && Agree(ps, qs)
    ensures Alike(Str(s.fullName), Str(t.fullName)) && Alike(Str(s.gender), Str(t.gender)) && Alike(Str(s.seatId), Str(t.seatId))
  {
    AlikeAt(ps, qs, 0, Part(FullName, Str(s.fullName)), Part(FullName, Str(t.fullName)));
    AlikeAt(ps, qs, 4, Part(Gender, Str(s.gender)), Part(Gender, Str(t.gender)));
    AlikeAt(ps, qs, 5, Part(SeatId, Str(s.seatId)), Part(SeatId, Str(t.seatId)));
  }

  lemma TravellerOptions(s: Traveller, t: Traveller, ps: seq<Part>, qs: seq<Part>)
    requires ps == TravellerParts(s) && qs == TravellerParts(t) && Agree(ps, qs)
    ensures Alike(Optional(s.phone), Optional(t.phone)) && Alike(Optional(s.documentNumber), Optional(t.documentNumber))
    ensures Alike(Optional(s.boardingStationId), Optional(t.boardingStationId))
  {
    AlikeAt(ps, qs, 1, Part(Phone, Optional(s.phone)), Part(Phone, Optional(t.phone)));
    AlikeAt(ps, qs, 2, Part(DocumentNumber, Optional(s.documentNumber)), Part(DocumentNumber, Optional(t.documentNumber)));
    AlikeAt(ps, qs, 3, Part(BoardingStationId, Optional(s.boardingStationId)), Part(BoardingStationId, Optional(t.boardingStationId)));
  }

  lemma SameTraveller(s: Traveller, t: Traveller)
    requires Meaning(Build(TravellerParts(s))) == Meaning(Build(TravellerParts(t)))
    ensures s == t
  {
    TravellersAgree(s, t);
    TravellerTexts(s, t, TravellerParts(s), TravellerParts(t));
    TravellerOptions(s, t, TravellerParts(s), TravellerParts(t));
    SameText(s.fullName, t.fullName);
    SameText(s.gender, t.gender);
    SameText(s.seatId, t.seatId);
    SameOptional(s.phone, t.phone);
    SameOptional(s.documentNumber, t.documentNumber);
    SameOptional(s.boardingStationId, t.boardingStationId);
  }

  lemma {:induction false} ItemMeanings(items: seq<Value>, v: Value)
    requires forall i :: 0 <= i < |items| ==> items[i] < v
    ensures forall i :: 0 <= i < |items| ==> MeaningOfItems(items, v)[i] == Meaning(items[i])
  {
    if items != [] { ItemMeanings(items[1..], v); }
  }

  lemma SameTravellers(ss: seq<Traveller>, ts: seq<Traveller>)
    requires Meaning(Arr(TravellerValues(ss))) == Meaning(Arr(TravellerValues(ts)))
    ensures ss == ts
  {
    var a, b := TravellerValues(ss), TravellerValues(ts);
    ItemMeanings(a, Arr(a));
    ItemMeanings(b, Arr(b));
    assert MeaningOfItems(a, Arr(a)) == MeaningOfItems(b, Arr(b));
    forall i | 0 <= i < |ss| ensures ss[i] == ts[i] {
      assert MeaningOfItems(a, Arr(a))[i] == MeaningOfItems(b, Arr(b))[i];
      SameTraveller(ss[i], ts[i]);
    }
  }

  lemma SameInput(tripId: Text, ts: seq<Traveller>, otherTrip: Text, others: seq<Traveller>)
    requires Meaning(Build(InputParts(tripId, ts))) == Meaning(Build(InputParts(otherTrip, others)))
    ensures tripId == otherTrip && ts == others
  {
    var ps, qs := InputParts(tripId, ts), InputParts(otherTrip, others);
    InputIsGood(tripId, ts);
    InputIsGood(otherTrip, others);
    SameMeaningAgrees(ps, qs);
    AlikeAt(ps, qs, 0, Part(TripId, Str(tripId)), Part(TripId, Str(otherTrip)));
    AlikeAt(ps, qs, 1, Part(Passengers, Arr(TravellerValues(ts))), Part(Passengers, Arr(TravellerValues(others))));
    SameText(tripId, otherTrip);
    SameTravellers(ts, others);
  }

  lemma OperationsDiffer()
    ensures Ascii("CREATE_PASSENGER_BOOKING") != Ascii("CREATE_AGENT_BOOKING")
    ensures Ascii("CREATE_PASSENGER_BOOKING") != Ascii("CREATE_PAYMENT")
    ensures Ascii("CREATE_AGENT_BOOKING") != Ascii("CREATE_PAYMENT")
  {
  }

  lemma PayloadsAgree(r: Request, s: Request)
    requires Meaning(Payload(r)) == Meaning(Payload(s))
    ensures Agree(PayloadParts(r), PayloadParts(s))
  {
    PayloadIsGood(r);
    PayloadIsGood(s);
    SameMeaningAgrees(PayloadParts(r), PayloadParts(s));
  }

  lemma SameOperation(r: Request, s: Request)
    requires Agree(PayloadParts(r), PayloadParts(s))
    ensures r.PassengerBooking? == s.PassengerBooking? && r.AgentBooking? == s.AgentBooking?
  {
    AlikeAt(PayloadParts(r), PayloadParts(s), 0, Part(Operation, Str(OperationText(r))), Part(Operation, Str(OperationText(s))));
    SameText(OperationText(r), OperationText(s));
    OperationsDiffer();
  }

  /** Only the company's payload names a company. */
  lemma OwnerIsNotCompany(r: Request, s: Request)
    requires r.OwnerPayment? && s.CompanyPayment?
    ensures Meaning(Payload(r)) != Meaning(Payload(s))
  {
    PayloadIsGood(r);
    PayloadIsGood(s);
    assert PayloadParts(s)[2].name == Company;
    MissingPart(PayloadParts(s), PayloadParts(r), 2);
  }

  lemma PassengerBookingParts(r: Request, s: Request, ps: seq<Part>, qs: seq<Part>)
    requires r.PassengerBooking? && s.PassengerBooking? && ps == PayloadParts(r) && qs == PayloadParts(s) && Agree(ps, qs)
    ensures Meaning(Build(InputParts(r.tripId, r.travellers))) == Meaning(Build(InputParts(s.tripId, s.travellers)))
  {
    AlikeAt(ps, qs, 1, Part(Input, Build(InputParts(r.tripId, r.travellers))), Part(Input, Build(InputParts(s.tripId, s.travellers))));
  }

  lemma AgentBookingParts(r: Request, s: Request, ps: seq<Part>, qs: seq<Part>)
    requires r.AgentBooking? && s.AgentBooking? && ps == PayloadParts(r) && qs == PayloadParts(s) && Agree(ps, qs)
    ensures Alike(Str(r.company), Str(s.company)) && Alike(Str(r.branch), Str(s.branch))
    ensures Meaning(Build(InputParts(r.tripId, r.travellers))) == Meaning(Build(InputParts(s.tripId, s.travellers)))
  {
    AlikeAt(ps, qs, 1, Part(Company, Str(r.company)), Part(Company, Str(s.company)));
    AlikeAt(ps, qs, 2, Part(Branch, Str(r.branch)), Part(Branch, Str(s.branch)));
    AlikeAt(ps, qs, 3, Part(Input, Build(InputParts(r.tripId, r.travellers))), Part(Input, Build(InputParts(s.tripId, s.travellers))));
  }

  lemma SameBooking(r: Request, s: Request)
    requires Agree(PayloadParts(r), PayloadParts(s)) && (r.PassengerBooking? || r.AgentBooking?)
    ensures r == s
  {
    SameOperation(r, s);
    if r.PassengerBooking? {
      PassengerBookingParts(r, s, PayloadParts(r), PayloadParts(s));
    } else {
      AgentBookingParts(r, s, PayloadParts(r), PayloadParts(s));
      SameText(r.company, s.company);
      SameText(r.branch, s.branch);
    }
    SameInput(r.tripId, r.travellers, s.tripId, s.travellers);
  }

  lemma OwnerPaymentParts(r: Request, s: Request, ps: seq<Part>, qs: seq<Part>)
    requires r.OwnerPayment? && s.OwnerPayment? && ps == PayloadParts(r) && qs == PayloadParts(s) && Agree(ps, qs)
    ensures Alike(Str(r.actor), Str(s.actor)) && Alike(Str(r.bookingId), Str(s.bookingId)) && Alike(Str(r.tender), Str(s.tender))
  {
    AlikeAt(ps, qs, 1, Part(Actor, Str(r.actor)), Part(Actor, Str(s.actor)));
    AlikeAt(ps, qs, 2, Part(BookingId, Str(r.bookingId)), Part(BookingId, Str(s.bookingId)));
    AlikeAt(ps, qs, 3, Part(Method, Str(r.tender)), Part(Method, Str(s.tender)));
  }

  lemma SameOwnerPayment(r: Request, s: Request)
    requires Agree(PayloadParts(r), PayloadParts(s)) && r.OwnerPayment? && s.OwnerPayment?
    ensures r == s
  {
    OwnerPaymentParts(r, s, PayloadParts(r), PayloadParts(s));
    SameText(r.actor, s.actor);
    SameText(r.bookingId, s.bookingId);
    SameText(r.tender, s.tender);
  }

  lemma CompanyPayerParts(r: Request, s: Request, ps: seq<Part>, qs: seq<Part>)
    requires r.CompanyPayment? && s.CompanyPayment? && ps == PayloadParts(r) && qs == PayloadParts(s) && Agree(ps, qs)
    ensures Alike(Str(r.actor), Str(s.actor)) && Alike(Str(r.company), Str(s.company))
  {
    AlikeAt(ps, qs, 1, Part(Actor, Str(r.actor)), Part(Actor, Str(s.actor)));
    AlikeAt(ps, qs, 2, Part(Company, Str(r.company)), Part(Company, Str(s.company)));
  }

  lemma CompanyPaidParts(r: Request, s: Request, ps: seq<Part>, qs: seq<Part>)
    requires r.CompanyPayment? && s.CompanyPayment? && ps == PayloadParts(r) && qs == PayloadParts(s) && Agree(ps, qs)
    ensures Alike(Str(r.bookingId), Str(s.bookingId)) && Alike(Str(r.tender), Str(s.tender))
  {
    AlikeAt(ps, qs, 3, Part(BookingId, Str(r.bookingId)), Part(BookingId, Str(s.bookingId)));
    AlikeAt(ps, qs, 4, Part(Method, Str(r.tender)), Part(Method, Str(s.tender)));
  }

  lemma SameCompanyPayment(r: Request, s: Request)
    requires Agree(PayloadParts(r), PayloadParts(s)) && r.CompanyPayment? && s.CompanyPayment?
    ensures r == s
  {
    CompanyPayerParts(r, s, PayloadParts(r), PayloadParts(s));
    CompanyPaidParts(r, s, PayloadParts(r), PayloadParts(s));
    SameText(r.actor, s.actor);
    SameText(r.company, s.company);
    SameText(r.bookingId, s.bookingId);
    SameText(r.tender, s.tender);
  }

  /** Two requests have payloads of the same meaning exactly when they are the same request. */
  lemma PayloadsIdentifyRequests(r: Request, s: Request)
    ensures Meaning(Payload(r)) == Meaning(Payload(s)) <==> r == s
  {
    if Meaning(Payload(r)) == Meaning(Payload(s)) {
      PayloadsAgree(r, s);
      SameOperation(r, s);
      if r.PassengerBooking? || r.AgentBooking? {
        SameBooking(r, s);
      } else if r.OwnerPayment? {
        if s.CompanyPayment? { OwnerIsNotCompany(r, s); } else { SameOwnerPayment(r, s); }
      } else {
        if s.OwnerPayment? { OwnerIsNotCompany(s, r); } else { SameCompanyPayment(r, s); }
      }
    }
  }

  /**
   * Whatever order and undefined fields the objects at hand have, two requests get the same fingerprint exactly when
   * they are the same normalized request; that different requests never share one needs nothing of the comparator.
   */
  lemma SameFingerprintIffSameRequest(r: Request, v: Value, s: Request, w: Value, compare: Comparator, hash: Text -> Text)
    requires forall a, b :: hash(a) == hash(b) ==> a == b
    requires WellFormed(v) && Meaning(v) == Meaning(Payload(r))
    requires WellFormed(w) && Meaning(w) == Meaning(Payload(s))
    ensures hash(Print(v, compare)) == hash(Print(w, compare)) ==> r == s
    ensures Consistent(compare) && Separates(compare, PAYLOAD_KEYS) ==>
      (hash(Print(v, compare)) == hash(Print(w, compare)) <==> r == s)
  {
    PayloadsIdentifyRequests(r, s);
    if Print(v, compare) == Print(w, compare) {
      EqualTextsMeanEqualValues(v, w, compare, compare);
    }
    if Consistent(compare) && Separates(compare, PAYLOAD_KEYS) && r == s {
      PayloadIsApart(r, compare);
      EqualValuesPrintEqually(Payload(r), v, compare);
      EqualValuesPrintEqually(Payload(r), w, compare);
    }
  }
}
