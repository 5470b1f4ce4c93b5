/** The market records: a crop's price on a date at a market, and a user's price alert. */
module MarketModels {
  import opened Domain

  datatype MarketPrice = MarketPrice(crop: string, market: string, pricePerKg: real, date: Day)

  datatype PriceAlert = PriceAlert(crop: string, market: string, targetPrice: real)

  /** The price's date as a sort key. */
  function DateKey(p: MarketPrice): real
  {
    p.date as real
  }

  /** The negated date: sorting by it, largest first, puts the earliest date first. */
  function EarliestFirst(p: MarketPrice): real
  {
    -(p.date as real)
  }

  function PriceOf(p: MarketPrice): real
  {
    p.pricePerKg
  }

  function CropOf(p: MarketPrice): string
  {
    p.crop
  }
}
