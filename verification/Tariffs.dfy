/** The rows of a hotel's price book: three stores feed the price of a night. */
module Tariffs {
  import opened Options

  /** Opaque identifiers (hotels, plans, categories, rooms, people). */
  type Id = int
  /** A calendar date, as a day number. */
  type Day = int
  /** A point in time, as milliseconds. */
  type Moment = int
  const DAY_MILLISECONDS: nat := 86_400_000

  /** The calendar date of a moment. */
  function DayAt(m: Moment): Day {
    m / DAY_MILLISECONDS
  }

  /** Money with two decimals, as a whole number of hundredths. */
  type Cents = int

  /** A price for one date (`rate`). */
  datatype DayRate = DayRate(plan: Id, room: Id, date: Day, occupancy: nat, price: Cents, currency: string)

  /** A price for an inclusive window of dates (`rate_season`); occupancy 0 is "any number". */
  datatype Season = Season(plan: Id, room: Id, dateFrom: Day, dateTo: Day, occupancy: nat,
                           price: Cents, currency: string, sortOrder: int)

  /** The price of a category on every other date (`standard_rate`); occupancy 0 is "any number". */
  datatype StandardRate = StandardRate(plan: Id, room: Id, occupancy: nat, price: Cents, currency: string)

  /** The three tables, each in the order the database returns it. */
  datatype PriceTables = PriceTables(days: seq<DayRate>, seasons: seq<Season>, standards: seq<StandardRate>)

  datatype GuestKind = CREW | DISRUPTION
  datatype ModifierType = PERCENT | ABSOLUTE

  /** A rate plan. `modifierValue` and `vatRate` carry two decimals, as hundredths. */
  datatype Plan = Plan(
    id: Id,
    code: string,
    name: string,
    mealPlan: string,
    occupancyPricing: bool,
    parent: Option<Id>,
    modifierType: ModifierType,
    modifierValue: int,
    isActive: bool,
    forOperator: bool,
    partner: Option<Id>,
    account: Option<Id>,
    customer: Option<Id>,
    guestKind: Option<GuestKind>,
    vatRate: Option<int>,
    operatorContract: Option<string>)
}
