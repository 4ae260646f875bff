/** The piece of the Viam framework the discovery code produces and consumes: a
    component configuration. */
module Viam {
  import opened Values

  /** `ComponentConfig(name=..., api=..., model=..., attributes=...)`; the attributes struct is
      seen as the dict `struct_to_dict` gives back. */
  datatype ComponentConfig = ComponentConfig(name: string, api: string, model: string, attributes: Dict)

  /** `str(Sensor.API)` */
  const SENSOR_API := "rdk:component:sensor"

  /** The model every discovered device is configured as. */
  const SENSOR_MODEL := "hipsterbrown:lutron-bacnet:lutron-sensor"
}
