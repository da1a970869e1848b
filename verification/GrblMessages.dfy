/** The messages a GRBL controller sends, as the rest of the proxy sees them.
    GrblProtocol says how a serial line becomes messages. */
module GrblMessages {
  import opened Options

  datatype Position = Position(x: real, y: real, z: real)

  /** One parsed status report; a field the line did not carry is None. */
  datatype StatusReport = StatusReport(
    state: string,
    mpos: Option<Position>,
    wpos: Option<Position>,
    wco: Option<Position>,
    fs: Option<(int, int)>,
    ov: Option<(int, int, int)>,
    pn: Option<string>,
    a: Option<string>,
    bf: Option<(int, int)>)

  /** BadStatus is a line between angle brackets that does not parse. */
  datatype Message =
    | Ok
    | VendorFault(text: string)
    | ErrorReply(code: int)
    | AlarmReply(alarm: Option<int>)
    | Status(report: StatusReport)
    | BadStatus
    | Feedback
    | Greeting
    | Unknown

  /** The position a report gives: machine coordinates, else work coordinates. */
  function ReportedPosition(r: StatusReport): Option<Position> {
    if r.mpos.Some? then r.mpos else r.wpos
  }

  /** True or false when the report shows laser power on or off, None when it does not say. */
  function LaserPower(r: StatusReport): Option<bool> {
    if r.fs.Some? then Some(r.fs.value.1 > 0)
    else if r.ov.Some? then Some(r.a.Some? && ('S' in r.a.value || 'C' in r.a.value))
    else None
  }

  predicate HoldLike(state: string) {
    "Hold" <= state || "Door" <= state
  }

  /** Stopped and holding; Hold:1 and Door:2, Door:3 are transitional. */
  predicate Held(state: string) {
    state in ["Hold:0", "Door:0", "Door:1", "Hold", "Door"]
  }

  /** The machine has left the hold, or is restoring after a door. */
  predicate LeavingHold(state: string) {
    !HoldLike(state) || state == "Door:3"
  }
}
