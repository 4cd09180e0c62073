/**
 * The listing wizard (frontend/src/pages/PropertyCreate/Wizard.tsx): the
 * draft every step edits, its mapping onto the create request, the step
 * checks, the eight-step navigation with its visited set, and the submit
 * sequence (one create, then one image upload per selected file).
 */
module Wizard {
  import opened Wrappers
  import opened Text
  import opened Js

  datatype Deal = Sale | Rent

  /** A file picked in the browser, known only by a handle. */
  type FileRef = nat

  /** The listing draft; `None` stands for a field that was never set (or was null). */
  datatype Draft = Draft(
    deal: Option<Deal>,
    kind: Option<string>,
    city: Option<string>,
    district: Option<string>,
    microdistrict: Option<string>,
    street: Option<string>,
    house: Option<string>,
    crossStreets: Option<string>,
    price: Option<string>,
    rentPrice: Option<string>,
    description: Option<string>,
    photos: Option<seq<string>>,
    photosFiles: Option<seq<FileRef>>,
    phone: Option<string>,
    name: Option<string>,
    rooms: Option<Num>,
    floor: Option<Num>,
    area: Option<Num>,
    condition: Option<string>,
    furniture: Option<bool>,
    documents: Option<seq<string>>,
    communications: Option<seq<string>>,
    offerType: Option<string>,
    offerCategory: Option<string>,
    status: Option<string>,
    planFile: Option<seq<FileRef>>)

  /** The wizard's first draft: no deal, no kind, no photos and no plans. */
  const Initial := Draft(None, None, None, None, None, None, None, None, None, None, None, Some([]), None,
                         None, None, None, None, None, None, None, None, None, None, None, None, Some([]))

  /** `Boolean(x)` for an optional string: set and non-empty. */
  predicate Given(s: Option<string>) { s.Some? && s.value != "" }

  /** `x || undefined` for an optional string. */
  function OrUndefined(s: Option<string>): (r: Option<string>)
    ensures r.Some? <==> Given(s)
    ensures r.Some? ==> r == s
  {
    if Given(s) then s else None
  }

  /** `list?.length ? list : undefined`. */
  function ListOrUndefined(list: Option<seq<string>>): (r: Option<seq<string>>)
    ensures r.Some? <==> list.Some? && list.value != []
    ensures r.Some? ==> r == list
  {
    if list.Some? && list.value != [] then list else None
  }

  /** The kinds the type picker offers. */
  const SelectableKinds: set<string> := {"apartment", "house", "land", "commercial", "business", "parking"}

  /** `KIND_LABEL`, keyed as written. */
  const KindLabels: map<string, string> := map[
    "elite" := "Элитка",
    "secondary" := "Вторичная",
    "commercial" := "Коммерческая",
    "house_land" := "Дом/участок",
    "club_house" := "Клубный дом",
    "parking" := "Парковка"]

  /** `d.kind ? KIND_LABEL[d.kind] : "Объект"` as written: a kind without a label reads "undefined". */
  function KindLabelAsWritten(kind: Option<string>): (shown: string)
    ensures !Given(kind) ==> shown == "Объект"
    ensures Given(kind) && kind.value in KindLabels ==> shown == KindLabels[kind.value]
    ensures Given(kind) && kind.value !in KindLabels ==> shown == "undefined"
  {
    if !Given(kind) then "Объект"
    else if kind.value in KindLabels then KindLabels[kind.value]
    else "undefined"
  }

  /** The title's label with a fallback for every kind without one. */
  function KindLabel(kind: Option<string>): (shown: string)
    ensures shown in KindLabels.Values || shown == "Объект"
    ensures Given(kind) && kind.value in KindLabels ==> shown == KindLabels[kind.value]
    ensures !(Given(kind) && kind.value in KindLabels) ==> shown == "Объект"
  {
    if Given(kind) && kind.value in KindLabels then KindLabels[kind.value] else "Объект"
  }

  /** `` ` в ${city}` `` when a city is set. */
  function CitySuffix(city: Option<string>): string {
    if Given(city) then " в " + city.value else ""
  }

  function TitleAsWritten(d: Draft): string {
    Trim(KindLabelAsWritten(d.kind) + CitySuffix(d.city))
  }

  function Title(d: Draft): string {
    Trim(KindLabel(d.kind) + CitySuffix(d.city))
  }

  /** The corrected title is the title as written whenever the kind is missing or has a label. */
  lemma TitlesAgreeOnLabelledKinds(d: Draft)
    requires !Given(d.kind) || d.kind.value in KindLabels
    ensures TitleAsWritten(d) == Title(d)
  {
  }

  /** Four of the six kinds the picker offers have no label, so their title reads "undefined". */
  lemma UnlabelledSelectableKinds()
    ensures forall k :: k in SelectableKinds && k !in {"commercial", "parking"} ==> KindLabelAsWritten(Some(k)) == "undefined"
  {
  }

  /** An apartment without a city is titled "undefined". */
  lemma ApartmentTitleAsWritten()
    ensures TitleAsWritten(Initial.(kind := Some("apartment"))) == "undefined"
  {
    assert KindLabelAsWritten(Some("apartment")) == "undefined";
    assert "undefined"[0] == 'u' && "undefined"[8] == 'd';
  }

  /** With the fallback, no title starts from "undefined": every kind gets a label of the table or "Объект". */
  lemma KindLabelNeverUndefined(kind: Option<string>)
    ensures KindLabel(kind) != "undefined"
  {
    var shown := KindLabel(kind);
    if shown in KindLabels.Values {
      var k :| k in KindLabels && KindLabels[k] == shown;
    }
  }

  /** `[city, district, microdistrict, street, house].filter(Boolean)`. */
  function Present(parts: seq<Option<string>>): (r: seq<string>)
    ensures |r| <= |parts|
    ensures forall i :: 0 <= i < |r| ==> r[i] != ""
    ensures r == [] <==> forall i :: 0 <= i < |parts| ==> !Given(parts[i])
  {
    if parts == [] then []
    else
      var rest := Present(parts[1..]);
      assert forall i :: 0 < i < |parts| ==> parts[i] == parts[1..][i - 1];
      if Given(parts[0]) then [parts[0].value] + rest else rest
  }

  /** The address: the set parts of the location, joined by ", ". */
  function AddressOf(d: Draft): string {
    Join(Present([d.city, d.district, d.microdistrict, d.street, d.house]), ", ")
  }

  /** Five given parts are all kept, in order. */
  lemma PresentFive(a: string, b: string, c: string, d: string, e: string)
    requires a != "" && b != "" && c != "" && d != "" && e != ""
    ensures Present([Some(a), Some(b), Some(c), Some(d), Some(e)]) == [a, b, c, d, e]
  {
    var parts := [Some(a), Some(b), Some(c), Some(d), Some(e)];
    assert Present(parts[4..]) == [e] by {
      assert parts[4..][1..] == [];
    }
    assert Present(parts[3..]) == [d, e] by {
      assert parts[3..][1..] == parts[4..];
    }
    assert Present(parts[2..]) == [c, d, e] by {
      assert parts[2..][1..] == parts[3..];
    }
    assert Present(parts[1..]) == [b, c, d, e] by {
      assert parts[1..][1..] == parts[2..];
    }
  }

  /** Joining five strings puts the separator between each two. */
  lemma JoinFive(a: string, b: string, c: string, d: string, e: string, sep: string)
    ensures Join([a, b, c, d, e], sep) == a + sep + b + sep + c + sep + d + sep + e
  {
    assert Join([d, e], sep) == d + sep + e by {
      JoinCons(d, [e], sep);
      assert [d] + [e] == [d, e];
    }
    assert Join([c, d, e], sep) == c + sep + (d + sep + e) by {
      JoinCons(c, [d, e], sep);
      assert [c] + [d, e] == [c, d, e];
    }
    assert Join([b, c, d, e], sep) == b + sep + (c + sep + (d + sep + e)) by {
      JoinCons(b, [c, d, e], sep);
      assert [b] + [c, d, e] == [b, c, d, e];
    }
    assert Join([a, b, c, d, e], sep) == a + sep + (b + sep + (c + sep + (d + sep + e))) by {
      JoinCons(a, [b, c, d, e], sep);
      assert [a] + [b, c, d, e] == [a, b, c, d, e];
    }
  }

  /** A fully given location reads "city, district, microdistrict, street, house". */
  lemma FullAddress(d: Draft)
    requires Given(d.city) && Given(d.district) && Given(d.microdistrict) && Given(d.street) && Given(d.house)
    ensures AddressOf(d) == d.city.value + ", " + d.district.value + ", " + d.microdistrict.value + ", "
                         + d.street.value + ", " + d.house.value
  {
    PresentFive(d.city.value, d.district.value, d.microdistrict.value, d.street.value, d.house.value);
    JoinFive(d.city.value, d.district.value, d.microdistrict.value, d.street.value, d.house.value, ", ");
  }

  /** Only the city and the street given: "city, street". */
  lemma CityAndStreetAddress(d: Draft)
    requires Given(d.city) && Given(d.street)
    requires !Given(d.district) && !Given(d.microdistrict) && !Given(d.house)
    ensures AddressOf(d) == d.city.value + ", " + d.street.value
  {
    var parts := [d.city, d.district, d.microdistrict, d.street, d.house];
    assert Present(parts[3..]) == [d.street.value] by {
      assert parts[3..][1..] == [d.house];
      assert Present(parts[3..][1..]) == [];
    }
    assert Present(parts[1..]) == [d.street.value] by {
      assert parts[1..][1..] == parts[2..];
      assert parts[2..][1..] == parts[3..];
    }
    assert Present(parts) == [d.city.value, d.street.value];
    JoinCons(d.city.value, [d.street.value], ", ");
    assert [d.city.value] + [d.street.value] == [d.city.value, d.street.value];
  }

  /** `Number(deal === "sale" ? price : rent_price) || 0`: the price of the deal, or 0. */
  function PriceOf(d: Draft, toNumber: string -> Num): (n: Num)
    ensures n.Truthy() || n == Fin(0.0)
    ensures var raw := if d.deal == Some(Sale) then d.price else d.rentPrice;
      (raw.None? ==> n == Fin(0.0))
      && (raw.Some? && toNumber(raw.value).Truthy() ==> n == toNumber(raw.value))
      && (raw.Some? && !toNumber(raw.value).Truthy() ==> n == Fin(0.0))
  {
    var raw := if d.deal == Some(Sale) then d.price else d.rentPrice;
    var n := if raw.None? then NaN else toNumber(raw.value);
    if n.Truthy() then n else Fin(0.0)
  }

  /** The body of the create request. */
  datatype Payload = Payload(
    title: string,
    description: string,
    address: string,
    dealType: string,
    status: string,
    district: Option<string>,
    rooms: Num,
    area: Num,
    price: Num,
    floor: Option<Num>,
    kind: Option<string>,
    phone: Option<string>,
    ownerName: Option<string>,
    crossStreets: Option<string>,
    condition: Option<string>,
    furniture: Option<bool>,
    documents: Option<seq<string>>,
    communications: Option<seq<string>>,
    offerType: Option<string>,
    offerCategory: Option<string>)

  /** `toApi`: the create request of a draft. */
  function ToApi(d: Draft, toNumber: string -> Num): Payload
  {
    Payload(
      Title(d),
      if Given(d.description) then d.description.value else "",
      AddressOf(d),
      if d.deal == Some(Sale) then "sale" else "rent",
      d.status.GetOr("active"),
      OrUndefined(d.district),
      d.rooms.GetOr(Fin(0.0)),
      d.area.GetOr(Fin(0.0)),
      PriceOf(d, toNumber),
      d.floor,
      d.kind,
      OrUndefined(d.phone),
      OrUndefined(d.name),
      OrUndefined(d.crossStreets),
      OrUndefined(d.condition),
      d.furniture,
      ListOrUndefined(d.documents),
      ListOrUndefined(d.communications),
      OrUndefined(d.offerType),
      OrUndefined(d.offerCategory))
  }

  /**
   * What `toApi` sends: the deal type is "sale" only for a sale (a missing
   * deal is a rental), the status defaults to "active", rooms and area to
   * 0, and the optional text fields and lists are left out when empty.
   */
  lemma ToApiFields(d: Draft, toNumber: string -> Num)
    ensures var p := ToApi(d, toNumber);
      && p.title == Title(d) && p.address == AddressOf(d) && p.price == PriceOf(d, toNumber)
      && (p.dealType == "sale" <==> d.deal == Some(Sale))
      && (p.dealType != "sale" ==> p.dealType == "rent")
      && p.status == (if d.status.Some? then d.status.value else "active")
      && p.description == (if Given(d.description) then d.description.value else "")
      && p.rooms == (if d.rooms.Some? then d.rooms.value else Fin(0.0))
      && p.area == (if d.area.Some? then d.area.value else Fin(0.0))
      && (p.district.Some? <==> Given(d.district))
      && (p.phone.Some? <==> Given(d.phone))
      && (p.documents.Some? <==> d.documents.Some? && d.documents.value != [])
      && (p.communications.Some? <==> d.communications.Some? && d.communications.value != [])
      && p.floor == d.floor && p.kind == d.kind && p.furniture == d.furniture
  {
  }

  datatype Step = Select | Address | Price | Details | Description | Photos | Documents | Contacts

  /** The linear flow of the wizard. */
  const AllSteps: seq<Step> := [Select, Address, Price, Details, Description, Photos, Documents, Contacts]

  /** `flow.indexOf(step)`. */
  function Index(s: Step): (i: nat)
    ensures i < |AllSteps| && AllSteps[i] == s
    ensures forall j :: 0 <= j < |AllSteps| && AllSteps[j] == s ==> j == i
  {
    match s
    case Select => 0
    case Address => 1
    case Price => 2
    case Details => 3
    case Description => 4
    case Photos => 5
    case Documents => 6
    case Contacts => 7
  }

  /** When each step counts as complete (`validators`). */
  predicate Complete(s: Step, d: Draft) {
    match s
    case Select => d.deal.Some? && Given(d.kind)
    case Address => Given(d.city) && Given(d.street)
    case Price => if d.deal == Some(Sale) then Given(d.price) else Given(d.rentPrice)
    case Details =>
      d.rooms.Some? && d.rooms.value.Truthy() && d.area.Some? && d.area.value.Truthy()
      && (d.kind != Some("parking") ==> d.floor.Some?)
    case Description => Given(d.description) && Trim(d.description.value) != ""
    case Photos => d.photos.Some? && exists i :: 0 <= i < |d.photos.value| && d.photos.value[i] != ""
    case Documents => true
    case Contacts => Given(d.phone) && Trim(d.phone.value) != ""
  }

  /** A rental's price step looks at the rent price only, a sale's at the sale price only. */
  lemma PriceStepFollowsDeal(d: Draft, price: string, rentPrice: string)
    ensures Complete(Price, d.(deal := Some(Sale), price := Some(price))) <==> price != ""
    ensures Complete(Price, d.(deal := Some(Rent), rentPrice := Some(rentPrice))) <==> rentPrice != ""
    ensures Complete(Price, d.(deal := None, rentPrice := Some(rentPrice))) <==> rentPrice != ""
  {
  }

  /** Parking needs no floor; every other kind needs one. */
  lemma DetailsFloorRule(d: Draft)
    requires d.rooms.Some? && d.rooms.value.Truthy() && d.area.Some? && d.area.value.Truthy()
    ensures Complete(Details, d.(kind := Some("parking"), floor := None))
    ensures d.kind != Some("parking") ==> !Complete(Details, d.(floor := None))
  {
  }

  /** A blank description or phone does not complete its step. */
  lemma BlankTextIncomplete(d: Draft)
    ensures !Complete(Description, d.(description := Some("  ")))
    ensures !Complete(Contacts, d.(phone := Some(" ")))
  {
    StripEmptyIff("  ", IsJsSpace);
    StripEmptyIff(" ", IsJsSpace);
  }

  /** A step's mark on the progress bar: documents once visited, the others by their check. */
  predicate Done(s: Step, d: Draft, visited: set<Step>) {
    if s == Documents then Documents in visited else Complete(s, d)
  }

  /** `doneByStep`: the mark of every step of the flow. */
  method DoneByStep(d: Draft, visited: set<Step>) returns (done: map<Step, bool>)
    ensures forall s :: s in done && done[s] == Done(s, d, visited)
  {
    done := map[];
    var i := 0;
    while i < |AllSteps|
      invariant 0 <= i <= |AllSteps|
      invariant forall j :: 0 <= j < i ==> AllSteps[j] in done
      invariant forall s :: s in done ==> done[s] == Done(s, d, visited)
    {
      var id := AllSteps[i];
      done := done[id := if id == Documents then Documents in visited else Complete(id, d)];
      i := i + 1;
    }
    forall s ensures s in done {
      assert AllSteps[Index(s)] == s;
    }
  }

  /** The step after `s`; the last step has none. */
  function Next(s: Step): (t: Step)
    ensures Index(t) == if Index(s) < |AllSteps| - 1 then Index(s) + 1 else Index(s)
  {
    if Index(s) < |AllSteps| - 1 then AllSteps[Index(s) + 1] else s
  }

  /** The step before `s`; the first step has none. */
  function Prev(s: Step): (t: Step)
    ensures Index(t) == if Index(s) > 0 then Index(s) - 1 else Index(s)
  {
    if Index(s) > 0 then AllSteps[Index(s) - 1] else s
  }

  /** Back undoes forward everywhere but on the last step, and forward undoes back everywhere but on the first. */
  lemma NextPrevInverse(s: Step)
    ensures s != Contacts ==> Prev(Next(s)) == s
    ensures s != Select ==> Next(Prev(s)) == s
  {
  }

  /** What the wizard asks of the server, in order. */
  datatype Call = Create(payload: Payload) | Upload(propertyId: int, file: FileRef)

  const SubmitFailed := "Не удалось создать объект"
  const AfterCreate := "/objects/my"

  /** `e?.message || "Не удалось создать объект"`. */
  function AlertText(message: string): (text: string)
    ensures text != ""
    ensures message != "" ==> text == message
    ensures message == "" ==> text == SubmitFailed
  {
    if message != "" then message else SubmitFailed
  }

  /**
   * The uploads of `files[i..]` to property `id`, one per file in order up
   * to and including the first that throws (`fails(j)` is its message), and
   * that message.
   */
  function UploadsFrom(id: int, files: seq<FileRef>, fails: nat -> Option<string>, i: nat): (seq<Call>, Option<string>)
    requires i <= |files|
    decreases |files| - i
  {
    if i == |files| then ([], None)
    else if fails(i).Some? then ([Upload(id, files[i])], fails(i))
    else
      var rest := UploadsFrom(id, files, fails, i + 1);
      ([Upload(id, files[i])] + rest.0, rest.1)
  }

  /**
   * The uploads go to `id`, one per file in order; the run stops with a
   * message exactly when some file throws, and then it is the message of the
   * last upload made; otherwise every file is uploaded.
   */
  lemma {:induction false} UploadsFromSpec(id: int, files: seq<FileRef>, fails: nat -> Option<string>, i: nat)
    requires i <= |files|
    ensures var r := UploadsFrom(id, files, fails, i);
      && |r.0| <= |files| - i
      && (forall j :: 0 <= j < |r.0| ==> r.0[j] == Upload(id, files[i + j]))
      && (r.1.None? <==> forall j :: i <= j < |files| ==> fails(j).None?)
      && (r.1.None? ==> |r.0| == |files| - i)
      && (r.1.Some? ==> 0 < |r.0| && r.1 == fails(i + |r.0| - 1))
    decreases |files| - i
  {
    if i < |files| && fails(i).None? {
      UploadsFromSpec(id, files, fails, i + 1);
    }
  }

  /** The files `handleSubmit` uploads: `data.photosFiles`, none when missing. */
  function PhotoFiles(d: Draft): seq<FileRef> {
    if d.photosFiles.Some? then d.photosFiles.value else []
  }

  /** The requests of one submit: the create, then the uploads if the create succeeded. */
  function SubmitCalls(d: Draft, create: Result<int, string>, fails: nat -> Option<string>, toNumber: string -> Num): seq<Call> {
    [Create(ToApi(d, toNumber))] + Uploads(create, PhotoFiles(d), fails)
  }

  /** The uploads that follow a create: none after a failed one. */
  function Uploads(create: Result<int, string>, files: seq<FileRef>, fails: nat -> Option<string>): seq<Call> {
    if create.Ok? then UploadsFrom(create.value, files, fails, 0).0 else []
  }

  /** The message of a failed create, or of the first upload that throws. */
  function UploadError(create: Result<int, string>, files: seq<FileRef>, fails: nat -> Option<string>): Option<string> {
    if create.Err? then Some(create.error) else UploadsFrom(create.value, files, fails, 0).1
  }

  /**
   * A submit starts with the create; a failed create is all it sends; a
   * successful one is followed by one upload of each file, in order, when
   * none throws, and ends with the page change exactly then.
   */
  lemma SubmitSequence(d: Draft, create: Result<int, string>, fails: nat -> Option<string>, toNumber: string -> Num)
    ensures var r := SubmitCalls(d, create, fails, toNumber);
      && |r| >= 1 && r[0] == Create(ToApi(d, toNumber))
      && (create.Err? ==> |r| == 1 && SubmitError(d, create, fails) == Some(create.error))
      && (create.Ok? && (forall j :: 0 <= j < |PhotoFiles(d)| ==> fails(j).None?) ==>
            SubmitError(d, create, fails).None?
            && |r| == 1 + |PhotoFiles(d)|
            && forall j :: 0 <= j < |PhotoFiles(d)| ==> r[1 + j] == Upload(create.value, PhotoFiles(d)[j]))
  {
    if create.Ok? {
      UploadsFromSpec(create.value, PhotoFiles(d), fails, 0);
    }
  }

  /** The message a submit ends with, if any step threw. */
  function SubmitError(d: Draft, create: Result<int, string>, fails: nat -> Option<string>): Option<string> {
    UploadError(create, PhotoFiles(d), fails)
  }

  /**
   * `for (const f of files) await uploadPropertyImage(id, f)`: the uploads
   * made, in order, until one throws, and its message.
   */
  method UploadAll(id: int, files: seq<FileRef>, fails: nat -> Option<string>) returns (made: seq<Call>, failed: Option<string>)
    ensures made == UploadsFrom(id, files, fails, 0).0
    ensures failed == UploadsFrom(id, files, fails, 0).1
  {
    var i := 0;
    made, failed := [], None;
    while i < |files| && failed.None?
      invariant 0 <= i <= |files|
      invariant failed.None? ==> UploadsFrom(id, files, fails, 0).0 == made + UploadsFrom(id, files, fails, i).0
      invariant failed.None? ==> UploadsFrom(id, files, fails, 0).1 == UploadsFrom(id, files, fails, i).1
      invariant failed.Some? ==> made == UploadsFrom(id, files, fails, 0).0
      invariant failed.Some? ==> failed == UploadsFrom(id, files, fails, 0).1
      decreases |files| - i, if failed.None? then 1 else 0
    {
      var rest := UploadsFrom(id, files, fails, i + 1);
      assert fails(i).None? ==> UploadsFrom(id, files, fails, i) == ([Upload(id, files[i])] + rest.0, rest.1);
      assert made + ([Upload(id, files[i])] + rest.0) == (made + [Upload(id, files[i])]) + rest.0;
      made := made + [Upload(id, files[i])];
      failed := fails(i);
      i := i + 1;
    }
  }

  /** The wizard page: the draft, the current step, the steps seen, and the effects of submitting. */
  class WizardPage {
    var data: Draft
    var step: Step
    var visited: set<Step>
    var submitting: bool
    var calls: seq<Call>
    var alerts: seq<string>
    var location: Option<string>

    /** The current step has been marked visited. */
    ghost predicate Valid()
      reads this
    {
      step in visited
    }

    constructor ()
      ensures Valid()
      ensures data == Initial && step == Select && visited == {Select} && !submitting
      ensures calls == [] && alerts == [] && location == None
    {
      data := Initial;
      step := Select;
      visited := {Select};
      submitting := false;
      calls := [];
      alerts := [];
      location := None;
    }

    /** `setStep(id)` followed by the effect that marks the new step visited. */
    method Show(id: Step)
      requires Valid()
      modifies this
      ensures step == id && visited == old(visited) + {id} && Valid()
      ensures old(step) in visited
      ensures data == old(data) && submitting == old(submitting)
      ensures calls == old(calls) && alerts == old(alerts) && location == old(location)
    {
      step := id;
      if id !in visited {
        visited := visited + {id};
      }
    }

    /** `goNext`: one step on, none past the last. */
    method GoNext()
      requires Valid()
      modifies this
      ensures step == Next(old(step)) && visited == old(visited) + {step} && Valid()
      ensures old(step) in visited
      ensures data == old(data) && submitting == old(submitting)
      ensures calls == old(calls) && alerts == old(alerts) && location == old(location)
    {
      var idx := Index(step);
      if idx < |AllSteps| - 1 {
        Show(AllSteps[idx + 1]);
      } else {
        Show(step);
      }
    }

    /** `goPrev`: one step back, none before the first. */
    method GoPrev()
      requires Valid()
      modifies this
      ensures step == Prev(old(step)) && visited == old(visited) + {step} && Valid()
      ensures old(step) in visited
      ensures data == old(data) && submitting == old(submitting)
      ensures calls == old(calls) && alerts == old(alerts) && location == old(location)
    {
      var idx := Index(step);
      if idx > 0 {
        Show(AllSteps[idx - 1]);
      } else {
        Show(step);
      }
    }

    /**
     * `handleSubmit`: nothing while a submit is under way; otherwise one
     * create with `toApi(data)`, then, if it succeeded, one upload per
     * selected file in order, stopping at the first that throws; then either
     * the "my objects" page or one alert. `create` is the created id or the
     * thrown message; `fails(j)` is the message of upload `j`, if it throws.
     */
    method HandleSubmit(create: Result<int, string>, fails: nat -> Option<string>, toNumber: string -> Num)
      modifies this`submitting, this`calls, this`alerts, this`location
      ensures old(submitting) ==> submitting && calls == old(calls) && alerts == old(alerts) && location == old(location)
      ensures !old(submitting) ==> !submitting
      ensures !old(submitting) ==>
        && calls == old(calls) + ([Create(ToApi(data, toNumber))] + Uploads(create, PhotoFiles(data), fails))
        && (UploadError(create, PhotoFiles(data), fails).None? ==> location == Some(AfterCreate) && alerts == old(alerts))
        && (UploadError(create, PhotoFiles(data), fails).Some? ==>
              location == old(location) && alerts == old(alerts) + [AlertText(UploadError(create, PhotoFiles(data), fails).value)])
      ensures data == old(data) && step == old(step) && visited == old(visited)
    {
      if submitting {
        return;
      }
      submitting := true;
      Run(ToApi(data, toNumber), create, PhotoFiles(data), fails);
      submitting := false;
    }

    /** The body of the `try` of `handleSubmit` and its `catch`, for the payload and files of the draft. */
    method Run(payload: Payload, create: Result<int, string>, files: seq<FileRef>, fails: nat -> Option<string>)
      modifies this`calls, this`alerts, this`location
      ensures calls == old(calls) + ([Create(payload)] + Uploads(create, files, fails))
      ensures UploadError(create, files, fails).None? ==> location == Some(AfterCreate) && alerts == old(alerts)
      ensures UploadError(create, files, fails).Some? ==>
        location == old(location) && alerts == old(alerts) + [AlertText(UploadError(create, files, fails).value)]
    {
      if create.Err? {
        calls := calls + [Create(payload)];
        alerts := alerts + [AlertText(create.error)];
      } else {
        Created(payload, create.value, files, fails);
      }
    }

    /** After a successful create: the uploads, then the "my objects" page or an alert. */
    method Created(payload: Payload, id: int, files: seq<FileRef>, fails: nat -> Option<string>)
      modifies this`calls, this`alerts, this`location
      ensures calls == old(calls) + ([Create(payload)] + UploadsFrom(id, files, fails, 0).0)
      ensures UploadsFrom(id, files, fails, 0).1.None? ==> location == Some(AfterCreate) && alerts == old(alerts)
      ensures UploadsFrom(id, files, fails, 0).1.Some? ==>
        location == old(location) && alerts == old(alerts) + [AlertText(UploadsFrom(id, files, fails, 0).1.value)]
    {
      var made, failed := UploadAll(id, files, fails);
      calls := calls + ([Create(payload)] + made);
      if failed.Some? {
        alerts := alerts + [AlertText(failed.value)];
      } else {
        location := Some(AfterCreate);
      }
    }

    /**
     * The footer button: disabled while the step is incomplete or a submit
     * is under way; "Далее" on every step but the last, where it submits.
     */
    method Primary(create: Result<int, string>, fails: nat -> Option<string>, toNumber: string -> Num)
      requires Valid()
      modifies this
      ensures Valid()
      ensures !Complete(old(step), old(data)) || old(submitting) ==>
        step == old(step) && visited == old(visited) && calls == old(calls) && alerts == old(alerts)
        && location == old(location) && submitting == old(submitting)
      ensures Complete(old(step), old(data)) && !old(submitting) && old(step) != Contacts ==>
        step == Next(old(step)) && visited == old(visited) + {step} && submitting == old(submitting)
        && calls == old(calls) && alerts == old(alerts) && location == old(location)
      ensures Complete(old(step), old(data)) && !old(submitting) && old(step) == Contacts ==>
        && step == Contacts && visited == old(visited) && !submitting
        && calls == old(calls) + ([Create(ToApi(old(data), toNumber))] + Uploads(create, PhotoFiles(old(data)), fails))
        && (UploadError(create, PhotoFiles(old(data)), fails).None? ==> location == Some(AfterCreate) && alerts == old(alerts))
        && (UploadError(create, PhotoFiles(old(data)), fails).Some? ==>
              location == old(location) && alerts == old(alerts) + [AlertText(UploadError(create, PhotoFiles(old(data)), fails).value)])
      ensures data == old(data)
    {
      if !Complete(step, data) || submitting {
        return;
      }
      if step == Contacts {
        HandleSubmit(create, fails, toNumber);
      } else {
        GoNext();
      }
    }
  }
}
