/**
 The probe of one DruidDataSource (`check`): open a connection through the raw driver,
 validate it, and release it whatever happened. The driver and the validation are
 foreign calls; each is reduced to the outcome it had.
 */
module Probe {

  /** What `driver.connect` did: returned a connection, returned null (a driver that does
      not accept the URL), or threw an SQLException. */
  datatype ConnectOutcome = Connected | NullConnection | ConnectFails

  /** What a call that may throw an SQLException did. */
  datatype Outcome = Passes | ThrowsSqlException

  /** The verdict of one probe, and whether the connection was released (`conn.close`
      attempted). An SQLException from connecting or validating is a failed probe; one
      from closing is only logged and does not change the verdict. */
  method Check(connect: ConnectOutcome, validate: Outcome, close: Outcome) returns (healthy: bool, released: bool)
    ensures healthy <==> connect != ConnectFails && validate == Passes
    ensures released <==> connect == Connected
  {
    healthy := true;
    var connection := false;
    if connect == ConnectFails {
      healthy := false;
    } else {
      connection := connect == Connected;
      if validate == ThrowsSqlException {
        healthy := false;
      }
    }
    released := false;
    if connection {
      // an SQLException from closing is only logged: `close` never reaches the verdict
      released := true;
    }
  }
}
