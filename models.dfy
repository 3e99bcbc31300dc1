/** The station record of models/station.go, read from the station directory. */
module Models {

  /** A base station: its id ("mnc-lac-cid") and its coordinates in degrees. */
  datatype Station = Station(id: string, lat: real, lng: real)
}
