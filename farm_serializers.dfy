/** The farm serializers' field validators: each returns the value unchanged or rejects
    it with the serializer's message. */
module FarmSerializers {
  import opened Wrappers
  import opened Json
  import opened FarmModels

  /** The crops field must be a JSON list. */
  function ValidateCrops(value: Json): (r: Result<Json, string>)
    ensures r.Success? <==> value.JArray?
    ensures r.Success? ==> r.value == value
    ensures r.Failure? ==> r.error == "Crops must be a list"
  {
    if !value.JArray? then Failure("Crops must be a list") else Success(value)
  }

  function ValidateSizeAcres(value: real): (r: Result<real, string>)
    ensures r.Success? <==> value > 0.0
    ensures r.Success? ==> r.value == value
    ensures r.Failure? ==> r.error == "Farm size must be greater than 0"
  {
    if value <= 0.0 then Failure("Farm size must be greater than 0") else Success(value)
  }

  function ValidateQuantityKg(value: real): (r: Result<real, string>)
    ensures r.Success? <==> value > 0.0
    ensures r.Success? ==> r.value == value
    ensures r.Failure? ==> r.error == "Quantity must be greater than 0"
  {
    if value <= 0.0 then Failure("Quantity must be greater than 0") else Success(value)
  }

  /** A missing price is accepted; a present one must be positive. */
  function ValidatePricePerKg(value: Option<real>): (r: Result<Option<real>, string>)
    ensures r.Success? <==> value.None? || value.value > 0.0
    ensures r.Success? ==> r.value == value
    ensures r.Failure? ==> r.error == "Price must be greater than 0"
  {
    if value.Some? && value.value <= 0.0 then Failure("Price must be greater than 0") else Success(value)
  }

  function ValidateAmount(value: real): (r: Result<real, string>)
    ensures r.Success? <==> value > 0.0
    ensures r.Success? ==> r.value == value
    ensures r.Failure? ==> r.error == "Amount must be greater than 0"
  {
    if value <= 0.0 then Failure("Amount must be greater than 0") else Success(value)
  }

  /** The fields a client may write on a harvest, the farm among them; the estimated value
      is not. */
  datatype HarvestInput = HarvestInput(farmId: nat, crop: string, quantityKg: real, harvestDate: int, pricePerKg: Option<real>)

  /** An update from a client followed by the save: every writable field, the farm
      included, takes the client's value, and the stored estimated value is the derived
      one or the previous one, never one the client supplied. */
  function UpdateHarvest(h: HarvestRecord, u: HarvestInput): (r: HarvestRecord)
    ensures r.crop == u.crop && r.quantityKg == u.quantityKg && r.harvestDate == u.harvestDate
    ensures r.pricePerKg == u.pricePerKg && r.farmId == u.farmId
    ensures Truthy(u.pricePerKg) && u.quantityKg != 0.0 ==> r.estimatedValue == Some(u.pricePerKg.value * u.quantityKg)
    ensures !(Truthy(u.pricePerKg) && u.quantityKg != 0.0) ==> r.estimatedValue == h.estimatedValue
  {
    SaveHarvest(h.(farmId := u.farmId, crop := u.crop, quantityKg := u.quantityKg, harvestDate := u.harvestDate, pricePerKg := u.pricePerKg))
  }

  /** An update naming another farm moves the harvest out of its farm's records: next to
      the other stored harvests hs, it no longer counts towards its old farm's harvests and
      counts towards the named one. */
  lemma UpdateMovesHarvest(f: Farm, g: Farm, hs: seq<HarvestRecord>, h: HarvestRecord, u: HarvestInput)
    requires h.farmId == f.id && u.farmId == g.id && g.id != f.id
    ensures TotalHarvests(f, hs + [UpdateHarvest(h, u)]) == TotalHarvests(f, hs)
    ensures TotalHarvests(g, hs + [UpdateHarvest(h, u)]) == TotalHarvests(g, hs) + 1
  {
    TotalHarvestsSnoc(f, hs, UpdateHarvest(h, u));
    TotalHarvestsSnoc(g, hs, UpdateHarvest(h, u));
  }
}
