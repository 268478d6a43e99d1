/**
 * The browser globals the device checks read, turned into values:
 * `navigator` (which may be missing outside a browser) and `window`.
 * A property the browser does not provide is `None`.
 */
module Environment {
  import opened Wrappers

  /** The fields of `navigator` that are read. */
  datatype Navigator = Navigator(
    userAgent: Option<string>,
    vendor: Option<string>,
    hardwareConcurrency: Option<nat>,  // logical CPU cores
    deviceMemory: Option<real>         // approximate RAM in gigabytes
  )

  /** The fields of `window` that are read; `opera` is given by its string form. */
  datatype Window = Window(innerWidth: int, opera: Option<string>)

  /** A snapshot of the environment; `navigator` is `None` when it is undefined. */
  datatype Env = Env(navigator: Option<Navigator>, window: Window)

  /** What a regular expression test sees for a value: `undefined` becomes "undefined". */
  function AsText(v: Option<string>): string {
    v.GetOr("undefined")
  }

  /** A string is truthy when it is defined and not empty. */
  predicate IsTruthyText(v: Option<string>) {
    v.Some? && v.value != ""
  }

  /** A number is truthy when it is defined and not zero. */
  predicate IsTruthyCount(v: Option<nat>) {
    v.Some? && v.value != 0
  }

  predicate IsTruthyAmount(v: Option<real>) {
    v.Some? && v.value != 0.0
  }

  /** `v || 0` for a count. */
  function CountOrZero(v: Option<nat>): nat {
    v.GetOr(0)
  }

  /** `v || 0` for an amount. */
  function AmountOrZero(v: Option<real>): real {
    v.GetOr(0.0)
  }
}
