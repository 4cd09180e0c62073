/**
 * The property edit form (frontend/src/components/PropertyForm.tsx): the
 * decimal-comma conversion of the numeric fields, the field checks, and the
 * submit step that only calls the save callback on a clean form.
 */
module PropertyForm {
  import opened Wrappers
  import opened Text
  import opened Js
  import Api

  /** The position of the first `c` in `s`, if any. */
  function IndexOf(s: string, c: char): (r: Option<nat>)
    ensures r.None? <==> c !in s
    ensures r.Some? ==> r.value < |s| && s[r.value] == c && c !in s[..r.value]
  {
    if s == [] then None
    else if s[0] == c then Some(0)
    else
      var rest := IndexOf(s[1..], c);
      assert s == [s[0]] + s[1..];
      if rest.None? then None
      else
        assert s[..rest.value + 1] == [s[0]] + s[1..][..rest.value];
        Some(rest.value + 1)
  }

  /** `s.replace(",", ".")`: only the first comma becomes a point. */
  function ReplaceFirstComma(s: string): (r: string)
    ensures |r| == |s|
    ensures ',' !in s ==> r == s
    ensures ',' in s ==> var i := IndexOf(s, ',').value; r == s[..i] + "." + s[i + 1..]
  {
    match IndexOf(s, ',')
    case None => s
    case Some(i) => s[..i] + "." + s[i + 1..]
  }

  /** `toNum(v)`: `Number(String(v).replace(",", "."))`; printing and parsing numbers are parameters. */
  function ToNum(v: Value, showNumber: Num -> string, toNumber: string -> Num): Num {
    toNumber(ReplaceFirstComma(Api.StringOf(v, showNumber)))
  }

  /** Text without a comma is read as it stands. */
  lemma ToNumWithoutComma(s: string, showNumber: Num -> string, toNumber: string -> Num)
    requires ',' !in s
    ensures ToNum(Str(s), showNumber, toNumber) == toNumber(s)
  {
  }

  /** Text is read with its first comma, and only that one, taken as the decimal point. */
  lemma ToNumFirstCommaIsPoint(s: string, i: nat, showNumber: Num -> string, toNumber: string -> Num)
    requires i < |s| && s[i] == ',' && ',' !in s[..i]
    ensures ToNum(Str(s), showNumber, toNumber) == toNumber(s[..i] + "." + s[i + 1..])
  {
  }

  /** "12,5" is read as 12.5: the comma is a decimal separator. */
  lemma ToNumDecimalComma(showNumber: Num -> string, toNumber: string -> Num)
    ensures ToNum(Str("12,5"), showNumber, toNumber) == toNumber("12.5")
  {
    assert ReplaceFirstComma("12,5") == "12.5";
  }

  /** The form's values; the numeric fields hold whatever the inputs or the initial values put there. */
  datatype Values = Values(
    title: string,
    description: Option<string>,
    address: string,
    dealType: string,
    status: string,
    district: string,
    rooms: Value,
    area: Value,
    price: Value)

  /** One optional message per checked field; the description has none. */
  datatype Errors = Errors(
    title: Option<string>,
    address: Option<string>,
    district: Option<string>,
    dealType: Option<string>,
    status: Option<string>,
    rooms: Option<string>,
    area: Option<string>,
    price: Option<string>)
  {
    /** Some field has a message: the form is not sent. */
    predicate Any() {
      title.Some? || address.Some? || district.Some? || dealType.Some? || status.Some?
      || rooms.Some? || area.Some? || price.Some?
    }
  }

  const NoErrors := Errors(None, None, None, None, None, None, None, None)

  /** `rooms` must be a finite number of at least 1. */
  predicate RoomsOk(n: Num) { n.IsFinite() && n.r >= 1.0 }

  /** `area` and `price` must be finite and positive. */
  predicate PositiveOk(n: Num) { n.IsFinite() && n.r > 0.0 }

  /** The values `validate` accepts. */
  predicate Acceptable(v: Values, showNumber: Num -> string, toNumber: string -> Num) {
    Trim(v.title) != "" && Trim(v.address) != "" && Trim(v.district) != ""
    && v.dealType != "" && v.status != ""
    && RoomsOk(ToNum(v.rooms, showNumber, toNumber))
    && PositiveOk(ToNum(v.area, showNumber, toNumber))
    && PositiveOk(ToNum(v.price, showNumber, toNumber))
  }

  /** The message of a check that fails, nothing for one that passes. */
  function MessageIf(failed: bool, message: string): (r: Option<string>)
    ensures r.Some? <==> failed
  {
    if failed then Some(message) else None
  }

  /** The messages `validate` collects: none at all exactly when the values are acceptable. */
  function Messages(v: Values, showNumber: Num -> string, toNumber: string -> Num): (e: Errors)
    ensures !e.Any() <==> Acceptable(v, showNumber, toNumber)
  {
    Errors(
      MessageIf(Trim(v.title) == "", "Введите заголовок"),
      MessageIf(Trim(v.address) == "", "Укажите адрес"),
      MessageIf(Trim(v.district) == "", "Укажите район"),
      MessageIf(v.dealType == "", "Выберите тип сделки"),
      MessageIf(v.status == "", "Выберите статус"),
      MessageIf(!RoomsOk(ToNum(v.rooms, showNumber, toNumber)), "Комнат должно быть ≥ 1"),
      MessageIf(!PositiveOk(ToNum(v.area, showNumber, toNumber)), "Площадь должна быть > 0"),
      MessageIf(!PositiveOk(ToNum(v.price, showNumber, toNumber)), "Цена должна быть > 0"))
  }

  /** `validate(values)`: one message for each field that fails its check. */
  method Validate(v: Values, showNumber: Num -> string, toNumber: string -> Num) returns (e: Errors)
    ensures e == Messages(v, showNumber, toNumber)
    ensures e.title == (if Trim(v.title) == "" then Some("Введите заголовок") else None)
    ensures e.address == (if Trim(v.address) == "" then Some("Укажите адрес") else None)
    ensures e.district == (if Trim(v.district) == "" then Some("Укажите район") else None)
    ensures e.dealType == (if v.dealType == "" then Some("Выберите тип сделки") else None)
    ensures e.status == (if v.status == "" then Some("Выберите статус") else None)
    ensures e.rooms == (if !RoomsOk(ToNum(v.rooms, showNumber, toNumber)) then Some("Комнат должно быть ≥ 1") else None)
    ensures e.area == (if !PositiveOk(ToNum(v.area, showNumber, toNumber)) then Some("Площадь должна быть > 0") else None)
    ensures e.price == (if !PositiveOk(ToNum(v.price, showNumber, toNumber)) then Some("Цена должна быть > 0") else None)
    ensures !e.Any() <==> Acceptable(v, showNumber, toNumber)
  {
    var rooms := ToNum(v.rooms, showNumber, toNumber);
    var area := ToNum(v.area, showNumber, toNumber);
    var price := ToNum(v.price, showNumber, toNumber);
    e := Errors(
      MessageIf(Trim(v.title) == "", "Введите заголовок"),
      MessageIf(Trim(v.address) == "", "Укажите адрес"),
      MessageIf(Trim(v.district) == "", "Укажите район"),
      MessageIf(v.dealType == "", "Выберите тип сделки"),
      MessageIf(v.status == "", "Выберите статус"),
      MessageIf(!RoomsOk(rooms), "Комнат должно быть ≥ 1"),
      MessageIf(!PositiveOk(area), "Площадь должна быть > 0"),
      MessageIf(!PositiveOk(price), "Цена должна быть > 0"));
  }

  /** `cleaned`: the form with its numeric fields converted by `toNum`. */
  function Cleaned(form: Values, showNumber: Num -> string, toNumber: string -> Num): (c: Values)
    ensures c.rooms == Number(ToNum(form.rooms, showNumber, toNumber))
    ensures c.area == Number(ToNum(form.area, showNumber, toNumber))
    ensures c.price == Number(ToNum(form.price, showNumber, toNumber))
    ensures c.(rooms := form.rooms, area := form.area, price := form.price) == form
  {
    form.(rooms := Number(ToNum(form.rooms, showNumber, toNumber)),
          area := Number(ToNum(form.area, showNumber, toNumber)),
          price := Number(ToNum(form.price, showNumber, toNumber)))
  }

  /** The form's state: the edited values, the busy flag and the messages shown. */
  class FormState {
    var form: Values
    var saving: bool
    var errors: Errors

    constructor (initial: Values)
      ensures form == initial && !saving && !errors.Any()
    {
      form := initial;
      saving := false;
      errors := NoErrors;
    }

    /**
     * `submit`: the cleaned values are checked and the messages shown; only
     * a clean form is handed to `onSubmit` (whose failure, `fails`, is
     * passed on), and `saving` is false again after the call whether or not it
     * failed; a form with messages leaves `saving` as it was.
     */
    method Submit(fails: bool, showNumber: Num -> string, toNumber: string -> Num)
      returns (saved: Option<Values>, thrown: bool)
      modifies this`saving, this`errors
      ensures var cleaned := Cleaned(old(form), showNumber, toNumber);
        && (saved.Some? <==> Acceptable(cleaned, showNumber, toNumber))
        && (saved.Some? ==> saved.value == cleaned)
        && errors == Messages(cleaned, showNumber, toNumber)
        && (!errors.Any() <==> saved.Some?)
      ensures thrown <==> saved.Some? && fails
      ensures saving == (saved.None? && old(saving))
    {
      var cleaned := Cleaned(form, showNumber, toNumber);
      var v := Validate(cleaned, showNumber, toNumber);
      errors := v;
      if v.Any() {
        saved, thrown := None, false;
      } else {
        saving := true;
        saved, thrown := Some(cleaned), fails;
        saving := false;
      }
    }
  }
}
