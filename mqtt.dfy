/** The MQTT topics the device and the server share, and the messages they
    publish. Publishing is modelled by appending a message to an outbox. */
module Mqtt {

  const LedTopic := "smart-home/led"
  const DhtTopic := "smart-home/dht-data"
  const FanModeTopic := "smart-home/fan/mode"
  const FanStateTopic := "smart-home/fan/state"
  const GasTopic := "smart-home/gas"
  const InitTopic := "smart-home/init"

  datatype Message = Message(topic: string, payload: string)
}
