/**
 * The statistics of one asset held in a portfolio, as sent to clients: the
 * stored snapshot figures, plus the current value and the profit or loss at
 * a given market price.
 */
module PortfolioAssetDto {
  import opened Wrappers
  import opened Transactions
  import opened AssetIds

  /** A row of the portfolio-asset table: the snapshot figures are stored, not derived here. */
  datatype PortfolioAssetRow = PortfolioAssetRow(
    portfolioId: int,
    assetId: string,
    createdAt: Instant,
    updatedAt: Instant,
    holdingAmount: Decimal,
    totalCost: Decimal,
    avgBuyPrice: Decimal,
    soldAmount: Decimal,
    totalRevenue: Decimal,
    avgSellPrice: Decimal)

  datatype PortfolioAssetStat = PortfolioAssetStat(
    holdingAmount: Decimal,
    holdingValue: Decimal,
    totalCost: Decimal,
    avgBuyPrice: Decimal,
    totalRevenue: Decimal,
    avgSellPrice: Decimal,
    profitLoss: Decimal)

  /**
   * `PortfolioAssetStat::from_db_row`: the holding is valued at the current
   * price, and the profit or loss is that value plus the revenue from sales
   * minus the cost of purchases.
   */
  function StatFromDbRow(row: PortfolioAssetRow, currentPrice: Decimal): (s: PortfolioAssetStat)
    ensures s.holdingAmount == row.holdingAmount && s.totalCost == row.totalCost
    ensures s.avgBuyPrice == row.avgBuyPrice && s.totalRevenue == row.totalRevenue
    ensures s.avgSellPrice == row.avgSellPrice
    ensures s.holdingValue == row.holdingAmount * currentPrice
    ensures s.profitLoss == s.holdingValue + s.totalRevenue - s.totalCost
  {
    PortfolioAssetStat(
      row.holdingAmount,
      row.holdingAmount * currentPrice,
      row.totalCost,
      row.avgBuyPrice,
      row.totalRevenue,
      row.avgSellPrice,
      row.holdingAmount * currentPrice + row.totalRevenue - row.totalCost)
  }

  /** A closed position is worth nothing, and its result is revenue minus cost, at any price. */
  lemma ClosedPositionResult(row: PortfolioAssetRow, currentPrice: Decimal)
    requires row.holdingAmount == 0.0
    ensures StatFromDbRow(row, currentPrice).holdingValue == 0.0
    ensures StatFromDbRow(row, currentPrice).profitLoss == row.totalRevenue - row.totalCost
  {
  }

  /** A price move changes the profit or loss by the holding times the move. */
  lemma ProfitLossPriceSensitivity(row: PortfolioAssetRow, p1: Decimal, p2: Decimal)
    ensures StatFromDbRow(row, p2).profitLoss - StatFromDbRow(row, p1).profitLoss == row.holdingAmount * (p2 - p1)
  {
    assert row.holdingAmount * p2 - row.holdingAmount * p1 == row.holdingAmount * (p2 - p1);
  }

  /** A row of the asset table; the image and extension JSON columns are left out. */
  datatype AssetRow = AssetRow(
    id: string,
    assetType: string,
    externalId: string,
    source: string,
    symbol: string,
    name: string,
    createdAt: Instant,
    updatedAt: Instant)

  datatype PortfolioAssetResponse = PortfolioAssetResponse(
    id: string,
    assetType: AssetType,
    symbol: string,
    name: string,
    stats: PortfolioAssetStat)

  /**
   * `PortfolioAssetResponse::from_db_row`. The asset type column is parsed
   * with `unwrap`, so the source panics unless it is a display name.
   */
  function ResponseFromDbRow(asset: AssetRow, row: PortfolioAssetRow, currentPrice: Decimal): (r: PortfolioAssetResponse)
    requires ParseAssetType(asset.assetType).Some?
    ensures r.id == asset.id && r.symbol == asset.symbol && r.name == asset.name
    ensures DisplayName(r.assetType) == asset.assetType
    ensures r.stats == StatFromDbRow(row, currentPrice)
  {
    PortfolioAssetResponse(asset.id, ParseAssetType(asset.assetType).value, asset.symbol, asset.name,
                           StatFromDbRow(row, currentPrice))
  }
}
