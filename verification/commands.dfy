/** The contractual numbers: command codes, acknowledgement results and the
    names of the CNC's states (src/contract/commands.py, src/machine/cnc.py). */
module Commands {

  const NONE := 0
  const START := 1
  const STOP := 2
  const CNC_START := 3
  const CNC_RESET := 4

  const OK := 0
  const RANGE := 1
  const STATE := 2
  const BUSY := 3

  datatype CncState = Idle | Homing | Loading | Running | Unloading | Fault

  /** The answer the scan gives to a command code, from the machine state in
      its input image. */
  function CommandResult(code: int, fault: bool, cnc: CncState): int {
    if code == START then
      if fault then STATE else OK
    else if code == STOP then
      OK
    else if code == CNC_START then
      if cnc == Idle then OK else STATE
    else if code == CNC_RESET then
      if cnc == Fault then OK else STATE
    else
      RANGE
  }
}
