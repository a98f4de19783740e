/**
  The run-time aborts the conversions can reach. The converter functions
  are written in Rust as infallible functions that panic; here each panic
  site becomes an error value, so that a conversion either succeeds or
  names the site that aborted the process.
 */
module Panics {

  datatype Panic =
    | FloatNotFinite   // a NaN or infinite float reached `serde_json::Number::from_f64(..).expect(..)`
    | KeyNotString     // a YAML mapping key for which `as_str()` gave `None`, then `unwrap()`
    | IntegerAboveI64  // a JSON integer above i64::MAX for which `as_i64()` gave `None`, then `unwrap()`
}
