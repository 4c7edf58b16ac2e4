/** The record shapes the core exchanges: a sale (or no-sale tour) entry and a commission tier.
    Their declarations live in src/types/sales, which is not part of this model; the fields
    here are the ones the modelled code reads and writes. */
module SalesTypes {
  import opened Calendar

  datatype SaleType = Deed | Trust

  datatype PointsInfo = PointsInfo(existingTrustPoints: real, newTrustPoints: real)

  /** A stored entry (without its database id). `date` is the resolved calendar day. */
  datatype Sale = Sale(
    projectId: int,
    date: CalendarDate,
    clientLastName: string,
    leadNumber: string,
    numberOfTours: int,
    managerName: string,
    saleAmount: real,
    commissionPercentage: real,
    commissionAmount: real,
    fdiPoints: real,
    fdiGivenPoints: real,
    fdiCost: real,
    dailyVPG: real,
    notes: string,
    saleType: SaleType,
    isCancelled: bool,
    rank: int,
    pointsInfo: PointsInfo,
    fdi: string)

  /** One volume tier: inclusive bounds on cumulative volume and the extra percentage it earns. */
  datatype CommissionLevel = CommissionLevel(
    level: int,
    minAmount: real,
    maxAmount: real,
    additionalCommission: real)

  /** The client last name that marks a tour without a sale. */
  const NoSaleName: string := "NO SALE"
}
