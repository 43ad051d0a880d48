/** The stored prediction record of the hosted `Predictions` table. */
module Supabase {

  /** One row of the table; `created_at` is kept as the server's timestamp text. */
  datatype Prediction = Prediction(
    id: string,
    squareFeet: real,
    bedrooms: real,
    predictedPrice: real,
    createdAt: string)
}
