/**
 * What the output handlers are given: the devices dict, MAC to a dict of
 * optional 'vlan' and 'port' entries, in insertion order.
 */
module HandlerInput {
  import opened Common

  /** The value stored under one MAC; either entry may be missing, and `info.get(key, default)` supplies the default. */
  datatype Info = Info(vlan: Option<string>, port: Option<string>)
}
