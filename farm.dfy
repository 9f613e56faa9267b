/** The records that cross the estimator's boundary. */
module Farm {
  /** One set of form values: three table keys (possibly empty) and the measured quantities. */
  datatype PredictionInput = PredictionInput(
    cropType: string,
    soilType: string,
    farmingSystem: string,
    area: real,
    temperature: real,
    humidity: real,
    rainfall: real,
    nitrogen: real,
    phosphorus: real,
    potassium: real,
    ph: real)

  /** The estimate handed back to the results page. The source calls the first field `yield`,
      which is a keyword in Dafny. */
  datatype PredictionOutput = PredictionOutput(
    yieldValue: real,
    confidence: int,
    recommendations: seq<string>)
}
