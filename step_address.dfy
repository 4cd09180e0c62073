/**
 * The address step of the listing wizard
 * (frontend/src/pages/PropertyCreate/steps/StepAddress.tsx): the one city,
 * the four districts with their microdistricts, the three pickers and the
 * rule that a microdistrict never outlives a change to a district it does
 * not belong to.
 */
module StepAddress {
  import opened Wrappers
  import opened Wizard

  const Cities: seq<string> := ["Бишкек"]
  const Districts: seq<string> := ["Октябрьский", "Первомайский", "Свердловский", "Ленинский"]

  const MicroByDistrict: map<string, seq<string>> := map[
    "Октябрьский" := ["Солнечный", "12 мкр", "11 мкр", "Асанбай"],
    "Первомайский" := ["6 мкр", "7 мкр", "5 мкр", "4 мкр"],
    "Свердловский" := ["3 мкр", "8 мкр", "9 мкр", "10 мкр"],
    "Ленинский" := ["Улан", "Улан-2", "Кок-Жар", "Юг-2", "Восток-5", "Учкун"]]

  /** Which picker menu is open, if any. */
  datatype Menu = Closed | CityMenu | DistrictMenu | MicroMenu

  /** `microOptions`: the microdistricts of the chosen district; none for a missing or unknown one. */
  function MicroOptions(d: Draft): (r: seq<string>)
    ensures r != [] <==> Given(d.district) && d.district.value in MicroByDistrict
    ensures r != [] ==> r == MicroByDistrict[d.district.value]
  {
    if Given(d.district) && d.district.value in MicroByDistrict then MicroByDistrict[d.district.value] else []
  }

  /** Every district of the menu has microdistricts to offer. */
  lemma EveryDistrictHasOptions(d: Draft, i: nat)
    requires i < |Districts|
    ensures MicroOptions(d.(district := Some(Districts[i]))) != []
  {
  }

  /** The draft's microdistrict, if set, belongs to its district. */
  predicate MicroConsistent(d: Draft) {
    Given(d.microdistrict) ==> d.microdistrict.value in MicroOptions(d)
  }

  /**
   * `pickDistrict(d)`: the district is set; the microdistrict is kept only
   * if the new district lists it, and is cleared otherwise; the menu closes.
   */
  function PickDistrict(d: Draft, district: string): (r: (Draft, Menu))
    ensures r.1 == Closed
    ensures r.0.district == Some(district)
    ensures var micro := if d.microdistrict.Some? then d.microdistrict.value else "";
      if district in MicroByDistrict && micro in MicroByDistrict[district]
      then r.0.microdistrict == d.microdistrict
      else r.0.microdistrict == Some("")
    ensures r.0.(district := d.district, microdistrict := d.microdistrict) == d
  {
    var micro := if d.microdistrict.Some? then d.microdistrict.value else "";
    var next := d.(district := Some(district));
    if district in MicroByDistrict && micro in MicroByDistrict[district] then (next, Closed)
    else (next.(microdistrict := Some("")), Closed)
  }

  /** `pickCity(c)`: only the city changes; the menu closes. */
  function PickCity(d: Draft, city: string): (r: (Draft, Menu))
    ensures r.1 == Closed && r.0.city == Some(city)
    ensures r.0.(city := d.city) == d
  {
    (d.(city := Some(city)), Closed)
  }

  /** `pickMicro(m)`: only the microdistrict changes; the menu closes. */
  function PickMicro(d: Draft, micro: string): (r: (Draft, Menu))
    ensures r.1 == Closed && r.0.microdistrict == Some(micro)
    ensures r.0.(microdistrict := d.microdistrict) == d
  {
    (d.(microdistrict := Some(micro)), Closed)
  }

  /**
   * Picking a district, picking a city, or picking one of the offered
   * microdistricts always leaves the microdistrict consistent with the
   * district (a city pick keeps a consistent draft consistent).
   */
  lemma PicksKeepMicroConsistent(d: Draft, district: string, city: string, micro: string)
    ensures MicroConsistent(PickDistrict(d, district).0)
    ensures MicroConsistent(d) ==> MicroConsistent(PickCity(d, city).0)
    ensures micro in MicroOptions(d) ==> MicroConsistent(PickMicro(d, micro).0)
  {
  }

  /** A click on the city or district row: its menu opens, or closes if it was the open one. */
  function ToggleMenu(open: Menu, which: Menu): (r: Menu)
    requires which == CityMenu || which == DistrictMenu
    ensures r == Closed || r == which
    ensures r == which <==> open != which
  {
    if open == which then Closed else which
  }

  /**
   * A click on the microdistrict row: with no options nothing happens;
   * otherwise its menu opens, or closes if it was open.
   */
  function ToggleMicroMenu(open: Menu, d: Draft): (r: Menu)
    ensures MicroOptions(d) == [] ==> r == open
    ensures MicroOptions(d) != [] ==> (r == MicroMenu <==> open != MicroMenu) && (r == Closed || r == MicroMenu)
  {
    if |MicroOptions(d)| == 0 then open
    else if open == MicroMenu then Closed else MicroMenu
  }

  /** Starting closed, the microdistrict menu opens only for a district with options. */
  lemma MicroMenuNeedsOptions(d: Draft)
    ensures ToggleMicroMenu(Closed, d) == MicroMenu <==> Given(d.district) && d.district.value in MicroByDistrict
  {
  }
}
