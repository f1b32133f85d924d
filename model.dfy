/** The records of src/model/weather.go and the HTTP status codes the controller sends. */
module Model {
  import opened Wrappers

  const StatusOK: int := 200
  const StatusNotFound: int := 404

  /** A normalised reading: whole degrees Celsius and whole km/h. */
  datatype Data = Data(temperature: int, windSpeed: int)

  /** The JSON payload of a response; `data` is omitted (None) when the location is unknown. */
  datatype Weather = Weather(status: int, message: string, data: Option<Data>)
}
