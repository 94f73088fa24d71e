/** Telemetry documents as stored in every collection of the rollup chain
    (`data`, `daily_data`, `monthly_data`, `yearly_data`, `all_data`). */
module Telemetry {

  datatype Option<+T> = None | Some(value: T)

  datatype Result<+T, +E> = Ok(value: T) | Err(error: E)

  /** One telemetry document. `data` holds the device's numeric readings;
      `version` and `id` stand for MongoDB's own `__v` and `_id` fields. */
  datatype Record = Record(
    uuid: string,
    userId: string,
    devType: string,
    timestamp: int,
    offset: int,
    data: map<string, real>,
    version: Option<int>,
    id: Option<string>)

  /** The record without MongoDB's `__v` and `_id`. */
  function Strip(r: Record): Record
  {
    r.(version := None, id := None)
  }

  // Device type identifiers the reducers recognise. The names describe the
  // readings each type carries; the source knows them only by their ids.
  const TemperatureType := "050608070001"
  const MeterType := "040B08040004"
  const DirectionalType := "040B01000001"
  const StorageType := "040B01000005"
  const InverterType := "040B01000004"

  // Field names inside `data`.
  const DIS_TEMP := "dis_temp"
  const POWER := "power"
  const ENERGY_USED := "energyUsed"
  const ENERGY_SAVED := "energySaved"
  const EFFECTIVE_VOLT := "effectiveVolt"
  const EFFECTIVE_CURRENT := "effectiveCurrent"
  const DIRECT := "direct"
  const TO_GRID := "toGrid"
  const TO_USER := "toUser"
  const PAC_TO_GRID := "pacToGrid"
  const PAC_TO_USER := "pacToUser"
  const E_DISCHARGE_TOTAL := "eDisChargeTotal"
  const E_CHARGE_TOTAL := "eChargeTotal"
  const E_TO_GRID_TOTAL := "eToGridTotal"
  const CURRENT_POWER := "currentPower"
  const TOTAL_ENERGY := "totalEnergy"

  /** The report tiers, in the order the service runs them. */
  const REPORT_DATA_TYPE: seq<string> := ["dailyReport", "monthlyReport", "yearlyReport", "allReport"]
}
