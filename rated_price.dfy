/**
 * `RatedPriceDTO`: the resolved price returned to the caller, and the value
 * types it is made of.
 */
module RatedPrices {
  import opened Currencies

  /** A `UUID`, as an opaque identifier. */
  type Uuid = nat

  /**
   * A `BigDecimal` amount, `unscaled / 10^scale`; prices are copied, never
   * computed on, so no arithmetic is defined.
   */
  datatype Decimal = Decimal(unscaled: int, scale: int)

  /** A zone-naive stored timestamp (`Timestamp.toLocalDateTime()`), on an abstract ordered scale. */
  type LocalDateTime = int

  /**
   * `local.atZone(ZoneId.of(zone)).toOffsetDateTime()`, kept symbolic: the
   * wall-clock time and the zone it is read in. Time-zone rules are not modelled.
   */
  datatype OffsetDateTime = AtZone(local: LocalDateTime, zone: string)

  datatype RatedPrice = RatedPrice(
    id: Uuid,
    productId: int,
    brandId: int,
    rateListId: int,
    appliedStartAt: OffsetDateTime,
    appliedEndAt: OffsetDateTime,
    price: Decimal,
    currency: Currency)
}
