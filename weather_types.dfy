/** The records the dashboard passes between its fetching layer and its views. */
module WeatherTypes {

  datatype Option<+T> = None | Some(value: T)

  /** Current conditions for one place, already normalised. */
  datatype WeatherData = WeatherData(
    name: string,
    country: string,
    temperature: int,   // degrees Celsius, rounded
    description: string,
    humidity: int,      // percent
    windSpeed: real,    // metres per second
    pressure: int,      // hPa
    feelsLike: int,     // degrees Celsius, rounded
    visibility: real,   // kilometres
    icon: string,
    sunrise: int,       // unix seconds
    sunset: int)        // unix seconds

  datatype TemperatureRange = TemperatureRange(min: int, max: int)

  /** One day of the reduced forecast. */
  datatype ForecastDay = ForecastDay(
    date: string,
    temperature: TemperatureRange,
    description: string,
    icon: string,
    humidity: int)

  /** The single flat error record shown to the user. */
  datatype WeatherError = WeatherError(message: string, code: Option<string>)
}
