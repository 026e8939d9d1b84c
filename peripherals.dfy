/**
 * The `BluetoothPeripheral(name, address)` record and the invariant of the
 * roster of discovered peripherals that the view model publishes.
 */
module Peripherals {

  /** A discovered device. Equality is structural on (name, address), like a Kotlin data class. */
  datatype Peripheral = Peripheral(name: string, address: string)

  /** The scan callback only ever builds records whose name and address are both non-empty. */
  predicate Admissible(p: Peripheral) {
    p.name != [] && p.address != []
  }

  /** No two positions of the roster hold equal records. */
  predicate NoDuplicates(s: seq<Peripheral>) {
    forall i, j :: 0 <= i < j < |s| ==> s[i] != s[j]
  }

  /** The invariant of the published roster: duplicate-free and made of admissible records only. */
  predicate RosterValid(s: seq<Peripheral>) {
    NoDuplicates(s) && forall i :: 0 <= i < |s| ==> Admissible(s[i])
  }
}
