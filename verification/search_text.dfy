/** The literal SQL text `getAllProperties` writes around its criteria. */
module SearchText {
  /** The SELECT and JOIN written before any criterion. */
  const BaseText: string :=
    "\n    SELECT properties.*, avg(property_reviews.rating) as average_rating\n    FROM properties\n    JOIN property_reviews ON properties.id = property_id\n    "

  /** The GROUP BY clause that closes the FROM part of the query. */
  const GroupByText: string := "\n    GROUP BY properties.id"

  /** The ORDER BY clause written before the LIMIT clause. */
  const OrderText: string := "\n    ORDER BY cost_per_night\n    "

  /** Both clauses together, as the source writes them after its criteria. */
  const GroupOrderText: string := GroupByText + OrderText

  const EndText: string := ";\n    "
}
