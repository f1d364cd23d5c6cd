/**
 * The vehicle maintenance drawer: a list of vehicles, each owning its list of
 * maintenance records, the derived "miles remaining" and urgency views, and
 * the preset catalog that generates records relative to the odometer.
 */
module CarManager {
  import opened Wrappers
  import opened Strings
  import opened Lists

  /** A quick-add maintenance preset: a record type and its interval in miles. */
  datatype Preset = Preset(kind: string, interval: int)

  const Presets: seq<Preset> := [
    Preset("Oil Change", 5000),
    Preset("Tire Rotation", 6000),
    Preset("Brake Inspection", 12000)
  ]

  /** Remaining miles up to and including this many count as "due soon". */
  const DueSoonMiles := 500

  /** A maintenance record; `kind` is the source's `type` field. */
  datatype Maint = Maint(id: int, kind: string, dueMiles: int, lastDone: string, notes: string)

  /** The fields of a maintenance record before `addMaint` gives it an id. */
  datatype MaintItem = MaintItem(kind: string, dueMiles: int, lastDone: string, notes: string)

  /**
   * A vehicle. A field the stored data lacks is the empty string here, which
   * is what `|| ""` turns it into where the source reads it.
   */
  datatype Vehicle = Vehicle(
    id: int,
    make: string,
    model: string,
    year: string,
    vin: string,
    mileage: int,
    maintenance: seq<Maint>,
    createdAt: string)

  /** The add-vehicle form; `mileage` is `Number(draft.mileage)`, `None` for NaN. */
  datatype VehicleDraft = VehicleDraft(make: string, model: string, year: string, vin: string, mileage: Option<int>)

  /** The add-maintenance form; `dueMiles` is `Number(mDraft.dueMiles)`, `None` for NaN. */
  datatype MaintForm = MaintForm(kind: string, dueMiles: Option<int>, lastDone: string, notes: string)

  /** The urgency of a maintenance record, shown as a text colour. */
  datatype Urgency = Unknown | Overdue | DueSoon | Ok {

    function ClassName(): string {
      match this
      case Unknown => ""
      case Overdue => "text-red-700"
      case DueSoon => "text-yellow-700"
      case Ok => "text-ash-dark"
    }

    /** How pressing a known urgency is: Ok 0, DueSoon 1, Overdue 2. */
    function Severity(): nat {
      match this
      case Unknown => 0
      case Ok => 0
      case DueSoon => 1
      case Overdue => 2
    }
  }

  // ---------------------------------------------------------------------------
  // Derived views

  /**
   * Miles left until a record is due. Either reading being 0 means "not
   * enough data", which is `None` and distinct from `Some(0)`; a negative
   * value means overdue by that many miles.
   */
  function MilesRemaining(dueMiles: int, currentMiles: int): (r: Option<int>)
    ensures r.None? <==> dueMiles == 0 || currentMiles == 0
    ensures r.Some? ==> currentMiles + r.value == dueMiles
  {
    if dueMiles == 0 || currentMiles == 0 then None else Some(dueMiles - currentMiles)
  }

  /** The four urgency bands; every input falls in exactly one. */
  function ClsOverdue(rem: Option<int>): (u: Urgency)
    ensures u == Unknown <==> rem.None?
    ensures u == Overdue <==> rem.Some? && rem.value < 0
    ensures u == DueSoon <==> rem.Some? && 0 <= rem.value <= DueSoonMiles
    ensures u == Ok <==> rem.Some? && rem.value > DueSoonMiles
  {
    if rem.None? then Unknown
    else if rem.value < 0 then Overdue
    else if rem.value <= DueSoonMiles then DueSoon
    else Ok
  }

  /** Fewer miles remaining never makes a record look less urgent. */
  lemma UrgencyMonotone(a: int, b: int)
    requires a <= b
    ensures ClsOverdue(Some(b)).Severity() <= ClsOverdue(Some(a)).Severity()
  {
  }

  /** The urgency of a record in terms of the two odometer readings. */
  lemma RecordUrgency(dueMiles: int, currentMiles: int)
    ensures var u := ClsOverdue(MilesRemaining(dueMiles, currentMiles));
      && (u == Unknown <==> dueMiles == 0 || currentMiles == 0)
      && (u == Overdue <==> dueMiles != 0 && currentMiles != 0 && currentMiles > dueMiles)
      && (u == DueSoon <==> dueMiles != 0 && currentMiles != 0 && dueMiles - DueSoonMiles <= currentMiles <= dueMiles)
      && (u == Ok <==> dueMiles != 0 && currentMiles != 0 && currentMiles < dueMiles - DueSoonMiles)
  {
  }

  predicate CreatedNoOlder(a: Vehicle, b: Vehicle) {
    LexLe(b.createdAt, a.createdAt)
  }

  lemma CreatedNoOlderIsTotalPreorder()
    ensures TotalPreorder(CreatedNoOlder)
  {
    forall a: Vehicle, b: Vehicle ensures CreatedNoOlder(a, b) || CreatedNoOlder(b, a) {
      LexLeTotal(a.createdAt, b.createdAt);
    }
    forall a: Vehicle, b: Vehicle, c: Vehicle | CreatedNoOlder(a, b) && CreatedNoOlder(b, c)
      ensures CreatedNoOlder(a, c)
    {
      LexLeTransitive(c.createdAt, b.createdAt, a.createdAt);
    }
  }

  /** `sortedVehicles`: the vehicles, newest `createdAt` first. */
  function SortedVehicles(vs: seq<Vehicle>): (r: seq<Vehicle>)
    ensures multiset(r) == multiset(vs)
    ensures forall i, j :: 0 <= i < j < |r| ==> LexLe(r[j].createdAt, r[i].createdAt)
    ensures StableBy(r, vs, CreatedNoOlder)
  {
    CreatedNoOlderIsTotalPreorder();
    SortBySorted(vs, CreatedNoOlder);
    SortByStable(vs, CreatedNoOlder);
    SortBy(vs, CreatedNoOlder)
  }

  predicate DueNoLater(a: Maint, b: Maint) {
    a.dueMiles <= b.dueMiles
  }

  /** `maintSorted`: a vehicle's records, lowest due mileage first (untracked, 0, first). */
  function MaintSorted(v: Vehicle): (r: seq<Maint>)
    ensures multiset(r) == multiset(v.maintenance)
    ensures forall i, j :: 0 <= i < j < |r| ==> r[i].dueMiles <= r[j].dueMiles
    ensures StableBy(r, v.maintenance, DueNoLater)
  {
    SortBySorted(v.maintenance, DueNoLater);
    SortByStable(v.maintenance, DueNoLater);
    SortBy(v.maintenance, DueNoLater)
  }

  // ---------------------------------------------------------------------------
  // Records generated from the vehicle card

  /**
   * `addPreset`: a record due one preset interval past the vehicle's
   * mileage. `today` is the current ISO timestamp and `intervalText` the
   * locale rendering of the interval.
   */
  function PresetItem(mileage: int, p: Preset, today: string, intervalText: string): (m: MaintItem)
    ensures m.kind == p.kind
    ensures m.dueMiles - mileage == p.interval
    ensures |today| >= 10 ==> m.lastDone == today[..10]
    ensures |today| < 10 ==> m.lastDone == today
    ensures m.notes == "Preset interval " + intervalText + " mi"
  {
    MaintItem(p.kind, mileage + p.interval, Prefix(today, 10), "Preset interval " + intervalText + " mi")
  }

  /** On a vehicle with a recorded mileage a fresh preset record is not yet due soon. */
  lemma PresetRecordIsOk(mileage: int, p: Preset, today: string, intervalText: string)
    requires p in Presets && mileage > 0
    ensures ClsOverdue(MilesRemaining(PresetItem(mileage, p, today, intervalText).dueMiles, mileage)) == Ok
  {
  }

  /**
   * `addCustom`: the form as a record, or `None` when the source's guard
   * rejects it. The type defaults to "Maintenance" before the guard looks at
   * it, so the guard never rejects.
   */
  function CustomItem(f: MaintForm): (r: Option<MaintItem>)
    ensures r.Some?
    ensures r.value.kind != ""
    ensures IsBlank(f.kind) ==> r.value.kind == "Maintenance"
    ensures !IsBlank(f.kind) ==> r.value.kind == Trim(f.kind)
    ensures r.value.dueMiles == OrZero(f.dueMiles)
    ensures r.value.lastDone == f.lastDone && r.value.notes == Trim(f.notes)
  {
    var kind := Trim(f.kind);
    var item := MaintItem(if kind == "" then "Maintenance" else kind, OrZero(f.dueMiles), f.lastDone, Trim(f.notes));
    if item.dueMiles == 0 && item.kind == "" then None else Some(item)
  }

  // ---------------------------------------------------------------------------
  // State transitions of the vehicle list

  predicate HasVehicle(vs: seq<Vehicle>, id: int) {
    exists v :: v in vs && v.id == id
  }

  /** `addVehicle`: prepends the new vehicle unless make and model are both blank. */
  function WithVehicle(vs: seq<Vehicle>, d: VehicleDraft, id: int, createdAt: string): (r: seq<Vehicle>)
    ensures IsBlank(d.make) && IsBlank(d.model) ==> r == vs
    ensures !(IsBlank(d.make) && IsBlank(d.model)) ==>
      && |r| == |vs| + 1 && r[1..] == vs
      && r[0].id == id && r[0].createdAt == createdAt
      && r[0].make == Trim(d.make) && r[0].model == Trim(d.model)
      && r[0].year == Trim(d.year) && r[0].vin == Trim(d.vin)
      && r[0].maintenance == []
      && r[0].mileage == OrZero(d.mileage)
  {
    var v := Vehicle(id, Trim(d.make), Trim(d.model), Trim(d.year), Trim(d.vin), OrZero(d.mileage), [], createdAt);
    if v.make == "" && v.model == "" then vs else [v] + vs
  }

  /** `updateMileage`: the matching vehicles get the parsed mileage (0 for NaN), nothing else changes. */
  function WithMileage(vs: seq<Vehicle>, id: int, mileage: Option<int>): (r: seq<Vehicle>)
    ensures |r| == |vs|
    ensures forall i :: 0 <= i < |vs| ==> r[i].(mileage := vs[i].mileage) == vs[i]
    ensures forall i :: 0 <= i < |vs| ==> r[i].mileage == if vs[i].id == id then OrZero(mileage) else vs[i].mileage
    ensures !HasVehicle(vs, id) ==> r == vs
  {
    seq(|vs|, i requires 0 <= i < |vs| => if vs[i].id == id then vs[i].(mileage := OrZero(mileage)) else vs[i])
  }

  /** `removeVehicle`: drops every vehicle with the id, and its records with it. */
  function WithoutVehicle(vs: seq<Vehicle>, id: int): (r: seq<Vehicle>)
    ensures IsSubsequence(r, vs)
    ensures forall v :: multiset(r)[v] == if v.id != id then multiset(vs)[v] else 0
    ensures forall v :: v in r <==> v in vs && v.id != id
    ensures !HasVehicle(vs, id) ==> r == vs
  {
    var keep := (v: Vehicle) => v.id != id;
    FilterKeepsAll(vs, keep);
    Filter(vs, keep)
  }

  /** `{ id: Date.now(), ...item }` */
  function Stamp(item: MaintItem, id: int): (m: Maint)
    ensures m.id == id
    ensures MaintItem(m.kind, m.dueMiles, m.lastDone, m.notes) == item
  {
    Maint(id, item.kind, item.dueMiles, item.lastDone, item.notes)
  }

  /** `addMaint`: prepends the stamped record to the matching vehicles only. */
  function WithMaint(vs: seq<Vehicle>, id: int, item: MaintItem, maintId: int): (r: seq<Vehicle>)
    ensures |r| == |vs|
    ensures forall i :: 0 <= i < |vs| && vs[i].id != id ==> r[i] == vs[i]
    ensures forall i :: 0 <= i < |vs| && vs[i].id == id ==>
      && r[i].(maintenance := vs[i].maintenance) == vs[i]
      && |r[i].maintenance| == |vs[i].maintenance| + 1
      && r[i].maintenance[0] == Stamp(item, maintId)
      && r[i].maintenance[1..] == vs[i].maintenance
    ensures !HasVehicle(vs, id) ==> r == vs
  {
    seq(|vs|, i requires 0 <= i < |vs| =>
      if vs[i].id == id then vs[i].(maintenance := [Stamp(item, maintId)] + vs[i].maintenance) else vs[i])
  }

  /** `removeMaint`: drops the records with `maintId` from the vehicles with `vehId` only. */
  function WithoutMaint(vs: seq<Vehicle>, vehId: int, maintId: int): (r: seq<Vehicle>)
    ensures |r| == |vs|
    ensures forall i :: 0 <= i < |vs| && vs[i].id != vehId ==> r[i] == vs[i]
    ensures forall i :: 0 <= i < |vs| && vs[i].id == vehId ==>
      && r[i].(maintenance := vs[i].maintenance) == vs[i]
      && IsSubsequence(r[i].maintenance, vs[i].maintenance)
      && (forall m :: multiset(r[i].maintenance)[m] == if m.id != maintId then multiset(vs[i].maintenance)[m] else 0)
      && forall m :: m in r[i].maintenance <==> m in vs[i].maintenance && m.id != maintId
    ensures !HasVehicle(vs, vehId) ==> r == vs
  {
    seq(|vs|, i requires 0 <= i < |vs| =>
      if vs[i].id == vehId then vs[i].(maintenance := Filter(vs[i].maintenance, (m: Maint) => m.id != maintId)) else vs[i])
  }

  /** A vehicle added without a mileage starts at 0, and an oil change preset on it is due at 5000. */
  lemma NewVehicleOilChange(id: int, createdAt: string, today: string, text: string)
    ensures var vs := WithVehicle([], VehicleDraft("Honda", "Civic", "", "", None), id, createdAt);
      && |vs| == 1 && vs[0].mileage == 0
      && PresetItem(vs[0].mileage, Presets[0], today, text).dueMiles == 5000
  {
    var d := VehicleDraft("Honda", "Civic", "", "", None);
    assert !IsWhitespace(d.make[0]);
    var vs := WithVehicle([], d, id, createdAt);
    assert vs[0].mileage == 0;
  }

  // ---------------------------------------------------------------------------
  // The page's state

  /**
   * The page's `vehicles` state and the "car.vehicles" storage slot it is
   * written through to after every change.
   */
  class VehicleStore {
    var vehicles: seq<Vehicle>
    var saved: seq<Vehicle>

    ghost predicate Valid()
      reads this
    {
      saved == vehicles
    }

    /** Loads the stored list; an absent slot gives the empty list. */
    constructor (stored: Option<seq<Vehicle>>)
      ensures Valid()
      ensures vehicles == stored.GetOr([])
    {
      vehicles := stored.GetOr([]);
      saved := vehicles;
    }

    method AddVehicle(draft: VehicleDraft, now: int, nowIso: string)
      requires Valid()
      modifies this
      ensures Valid()
      ensures vehicles == WithVehicle(old(vehicles), draft, now, nowIso)
    {
      vehicles := WithVehicle(vehicles, draft, now, nowIso);
      saved := vehicles;
    }

    method UpdateMileage(id: int, mileage: Option<int>)
      requires Valid()
      modifies this
      ensures Valid()
      ensures vehicles == WithMileage(old(vehicles), id, mileage)
    {
      vehicles := WithMileage(vehicles, id, mileage);
      saved := vehicles;
    }

    method RemoveVehicle(id: int)
      requires Valid()
      modifies this
      ensures Valid()
      ensures vehicles == WithoutVehicle(old(vehicles), id)
    {
      vehicles := WithoutVehicle(vehicles, id);
      saved := vehicles;
    }

    method AddMaint(id: int, item: MaintItem, now: int)
      requires Valid()
      modifies this
      ensures Valid()
      ensures vehicles == WithMaint(old(vehicles), id, item, now)
    {
      vehicles := WithMaint(vehicles, id, item, now);
      saved := vehicles;
    }

    method RemoveMaint(vehId: int, maintId: int)
      requires Valid()
      modifies this
      ensures Valid()
      ensures vehicles == WithoutMaint(old(vehicles), vehId, maintId)
    {
      vehicles := WithoutMaint(vehicles, vehId, maintId);
      saved := vehicles;
    }

    /** The card's `addPreset` for the vehicle `v` it shows. */
    method AddPreset(v: Vehicle, p: Preset, now: int, nowIso: string, intervalText: string)
      requires Valid()
      modifies this
      ensures Valid()
      ensures vehicles == WithMaint(old(vehicles), v.id, PresetItem(v.mileage, p, nowIso, intervalText), now)
    {
      AddMaint(v.id, PresetItem(v.mileage, p, nowIso, intervalText), now);
    }

    /** The card's `addCustom` for the vehicle `v` it shows; its guard never rejects. */
    method AddCustom(v: Vehicle, form: MaintForm, now: int)
      requires Valid()
      modifies this
      ensures Valid()
      ensures vehicles == WithMaint(old(vehicles), v.id, CustomItem(form).value, now)
    {
      var item := CustomItem(form).value;
      AddMaint(v.id, item, now);
    }
  }
}
