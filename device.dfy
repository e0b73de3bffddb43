/** The save type tag of a cartridge (device.rs). */
module SaveTypes {

  /** The closed set of save types a cartridge loader may ask for. Only None,
      SRAM and the two flash sizes have a device of their own; the two EEPROM
      kinds degrade to SRAM when a memory map installs them. */
  datatype SaveType = None | SRAM | Flash64K | Flash128K | EEPROM4K | EEPROM64K
}
