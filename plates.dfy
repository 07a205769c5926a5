/**
 * Plate catalogue: role-gated creation, update and deletion that keep the
 * (model, specification) pair unique and never delete a plate that stock
 * or movements still refer to.
 */
module Plates {
  import opened Tables
  import opened Models
  import opened Store

  /** Only administrators and warehouse keepers may change the catalogue. */
  predicate CanMutatePlates(role: string)
  {
    role == "admin" || role == "warehouse"
  }

  /** The plate with the given (model, specification) pair. */
  function PairIndex(plates: seq<Plate>, model: string, specification: string): Option<nat>
  {
    FindFirst(plates, (p: Plate) => p.model == model && p.specification == specification)
  }

  /** A creation request; every field is None when absent or null. */
  datatype PlateRequest = PlateRequest(
    model: Option<string>,
    specification: Option<string>,
    unit: Option<string>,
    supplier: Option<string>,
    remark: Option<string>)

  /** The plate a request creates: the unit falls back to the column default "张" when not given. */
  function NewPlate(plates: seq<Plate>, req: PlateRequest): Plate
    requires StrictlyIncreasing(plates, PlateKey) && req.model.Some? && req.specification.Some?
  {
    Plate(NextKey(plates, PlateKey), req.model.value, req.specification.value,
          if req.unit.Some? then req.unit.value else DefaultUnit, req.supplier, req.remark)
  }

  /**
   * POST /api/plates: a permitted caller with a model and a specification
   * whose pair is not yet taken appends one plate; anything else changes
   * nothing.
   */
  method CreatePlate(w: Warehouse, role: string, req: PlateRequest) returns (o: Outcome)
    requires w.Valid()
    modifies w
    ensures w.Valid()
    ensures o in {Ok, Forbidden, Invalid, Conflict}
    ensures o == Forbidden <==> !CanMutatePlates(role)
    ensures o == Invalid <==> CanMutatePlates(role) && (!Truthy(req.model) || !Truthy(req.specification))
    ensures o == Conflict <==>
      && CanMutatePlates(role) && Truthy(req.model) && Truthy(req.specification)
      && PairIndex(old(w.plates), req.model.value, req.specification.value).Some?
    ensures o != Ok ==> w.State() == old(w.State())
    ensures o == Ok ==>
      && w.State() == old(w.State()).(plates := old(w.plates) + [NewPlate(old(w.plates), req)])
      && PairIndex(w.plates, req.model.value, req.specification.value) == Some(|old(w.plates)|)
  {
    if !(role == "admin" || role == "warehouse") {
      return Forbidden;
    }
    if !Truthy(req.model) || !Truthy(req.specification) {
      return Invalid;
    }
    if PairIndex(w.plates, req.model.value, req.specification.value).Some? {
      return Conflict;
    }
    var plate := NewPlate(w.plates, req);
    ValidAfterPlateAppend(w.State(), plate);
    w.plates := w.plates + [plate];
    assert w.plates[|w.plates| - 1] == plate;
    return Ok;
  }

  /**
   * An update request: model, specification and unit count only when
   * non-empty; supplier and remark whenever their key is present.
   */
  datatype PlatePatch = PlatePatch(
    model: Option<string>,
    specification: Option<string>,
    unit: Option<string>,
    supplier: Option<Option<string>>,
    remark: Option<Option<string>>)

  function PatchedPlate(p: Plate, patch: PlatePatch): Plate
  {
    p.(model := if Truthy(patch.model) then patch.model.value else p.model,
       specification := if Truthy(patch.specification) then patch.specification.value else p.specification,
       unit := if Truthy(patch.unit) then patch.unit.value else p.unit,
       supplier := if patch.supplier.Some? then patch.supplier.value else p.supplier,
       remark := if patch.remark.Some? then patch.remark.value else p.remark)
  }

  /** Another plate already carrying the pair the patched plate would have. */
  function PairClash(plates: seq<Plate>, plateId: int, model: string, specification: string): Option<nat>
  {
    FindFirst(plates, (p: Plate) => p.id != plateId && p.model == model && p.specification == specification)
  }

  /**
   * The handler only looks for a clash when the model or the specification
   * is sent: otherwise the pair is unchanged, so it cannot clash.
   */
  lemma PairUnchangedWithoutModelOrSpec(p: Plate, patch: PlatePatch)
    requires !Truthy(patch.model) && !Truthy(patch.specification)
    ensures PatchedPlate(p, patch).model == p.model
    ensures PatchedPlate(p, patch).specification == p.specification
    ensures PatchedPlate(p, patch).id == p.id
  {
  }

  /**
   * PUT /api/plates/<id>: a permitted caller updates an existing plate
   * unless the new pair is another plate's; refusals change nothing.
   */
  method UpdatePlate(w: Warehouse, role: string, plateId: int, patch: PlatePatch) returns (o: Outcome)
    requires w.Valid()
    modifies w
    ensures w.Valid()
    ensures o in {Ok, Forbidden, NotFound, Conflict}
    ensures o == Forbidden <==> !CanMutatePlates(role)
    ensures o == NotFound <==> CanMutatePlates(role) && PlateIndex(old(w.plates), plateId).None?
    ensures o == Conflict <==>
      && CanMutatePlates(role) && PlateIndex(old(w.plates), plateId).Some?
      && (Truthy(patch.model) || Truthy(patch.specification))
      && var q := PatchedPlate(old(w.plates)[PlateIndex(old(w.plates), plateId).value], patch);
         PairClash(old(w.plates), plateId, q.model, q.specification).Some?
    ensures o != Ok ==> w.State() == old(w.State())
    ensures o == Ok ==>
      var k := PlateIndex(old(w.plates), plateId).value;
      w.State() == old(w.State()).(plates := old(w.plates)[k := PatchedPlate(old(w.plates)[k], patch)])
  {
    if !(role == "admin" || role == "warehouse") {
      return Forbidden;
    }
    var found := PlateIndex(w.plates, plateId);
    if found.None? {
      return NotFound;
    }
    var k := found.value;
    var plate := PatchedPlate(w.plates[k], patch);
    if Truthy(patch.model) || Truthy(patch.specification) {
      if PairClash(w.plates, plateId, plate.model, plate.specification).Some? {
        return Conflict;
      }
    }
    forall i | 0 <= i < |w.plates| && i != k
      ensures (w.plates[i].model, w.plates[i].specification) != (plate.model, plate.specification)
    {
      if Truthy(patch.model) || Truthy(patch.specification) {
        assert w.plates[i].id != plateId by {
          if i < k { assert w.plates[i].id < w.plates[k].id; } else { assert w.plates[k].id < w.plates[i].id; }
        }
      } else {
        assert (plate.model, plate.specification) == (w.plates[k].model, w.plates[k].specification);
        if i < k {
          assert (w.plates[i].model, w.plates[i].specification) != (w.plates[k].model, w.plates[k].specification);
        } else {
          assert (w.plates[k].model, w.plates[k].specification) != (w.plates[i].model, w.plates[i].specification);
        }
      }
    }
    ValidAfterPlateUpdate(w.State(), k, plate);
    w.plates := w.plates[k := plate];
    return Ok;
  }

  /**
   * DELETE /api/plates/<id>: a permitted caller removes an existing plate
   * that no inventory line, inbound record or outbound record refers to;
   * otherwise nothing changes.
   */
  method DeletePlate(w: Warehouse, role: string, plateId: int) returns (o: Outcome)
    requires w.Valid()
    modifies w
    ensures w.Valid()
    ensures o in {Ok, Forbidden, NotFound, Conflict}
    ensures o == Forbidden <==> !CanMutatePlates(role)
    ensures o == NotFound <==> CanMutatePlates(role) && PlateIndex(old(w.plates), plateId).None?
    ensures o == Conflict <==>
      && CanMutatePlates(role) && PlateIndex(old(w.plates), plateId).Some?
      && (|| (exists i :: 0 <= i < |old(w.lines)| && old(w.lines)[i].plateId == plateId)
          || (exists i :: 0 <= i < |old(w.inbounds)| && old(w.inbounds)[i].plateId == plateId)
          || (exists i :: 0 <= i < |old(w.outbounds)| && old(w.outbounds)[i].plateId == plateId))
    ensures o != Ok ==> w.State() == old(w.State())
    ensures o == Ok ==>
      && w.State() == old(w.State()).(plates := RemoveAt(old(w.plates), PlateIndex(old(w.plates), plateId).value))
      && !PlateExists(w.plates, plateId)
  {
    if !(role == "admin" || role == "warehouse") {
      return Forbidden;
    }
    var found := PlateIndex(w.plates, plateId);
    if found.None? {
      return NotFound;
    }
    var line := FirstLineOfPlate(w.lines, plateId);
    if line.Some? {
      assert w.lines[line.value].plateId == plateId;
      return Conflict;
    }
    var inbound := FindFirst(w.inbounds, (r: InboundRecord) => r.plateId == plateId);
    if inbound.Some? {
      assert w.inbounds[inbound.value].plateId == plateId;
      return Conflict;
    }
    var outbound := FindFirst(w.outbounds, (r: OutboundRecord) => r.plateId == plateId);
    if outbound.Some? {
      assert w.outbounds[outbound.value].plateId == plateId;
      return Conflict;
    }
    var k := found.value;
    ghost var s := w.State();
    ValidAfterPlateRemove(s, k);
    w.plates := RemoveAt(w.plates, k);
    forall j | 0 <= j < |w.plates| ensures w.plates[j].id != plateId {
      if j < k {
        assert s.plates[j].id < s.plates[k].id;
      } else {
        assert w.plates[j] == s.plates[j + 1];
        assert s.plates[k].id < s.plates[j + 1].id;
      }
    }
    return Ok;
  }
}
