/** Config entries, the records the registry keeps for each known device. */
module Entries {

  datatype ConfigEntry = ConfigEntry(title: string, data: map<string, string>)

  const DefaultDeviceName: string := "MQTT Media Player"

  /**
   * The entry the discovery flow creates from the data it was started with:
   * the title is the data's "name" (the device identity), the data is kept as
   * it is.
   */
  function EntryFromFlow(data: map<string, string>): (e: ConfigEntry)
    ensures e.data == data
    ensures "name" in data ==> e.title == data["name"]
    ensures "name" !in data ==> e.title == DefaultDeviceName
  {
    ConfigEntry(if "name" in data then data["name"] else DefaultDeviceName, data)
  }
}
