/**
 * Handle signals and the `{satisfied, satisfiable}` pair that a data pipe end reports
 * (Mojo's `MojoHandleSignals` bit mask and `HandleSignalsState`).
 */
module HandleSignals {

  /** A bit mask of the three signals a data pipe end can raise. */
  datatype Signals = Signals(readable: bool, writable: bool, peerClosed: bool) {

    /** The bitwise OR of two masks. */
    function Union(other: Signals): Signals {
      Signals(readable || other.readable, writable || other.writable, peerClosed || other.peerClosed)
    }

    /** The bitwise AND of two masks. */
    function Intersect(other: Signals): Signals {
      Signals(readable && other.readable, writable && other.writable, peerClosed && other.peerClosed)
    }

    predicate IsEmpty() {
      !readable && !writable && !peerClosed
    }

    predicate SubsetOf(other: Signals) {
      (readable ==> other.readable) && (writable ==> other.writable) && (peerClosed ==> other.peerClosed)
    }
  }

  const NoSignals := Signals(false, false, false)
  const Readable := Signals(true, false, false)
  const Writable := Signals(false, true, false)
  const PeerClosed := Signals(false, false, true)

  /** What holds now (`satisfied`) and what can still come to hold (`satisfiable`). */
  datatype HandleSignalsState = HandleSignalsState(satisfied: Signals, satisfiable: Signals) {

    /** A wait on `signals` is satisfied when ANY of its signals is satisfied. */
    predicate Satisfies(signals: Signals) {
      !signals.Intersect(satisfied).IsEmpty()
    }

    /** A wait on `signals` can still succeed when ANY of its signals is satisfiable. */
    predicate CanSatisfy(signals: Signals) {
      !signals.Intersect(satisfiable).IsEmpty()
    }

    /** Nothing is satisfied that is not also satisfiable. */
    predicate Consistent() {
      satisfied.SubsetOf(satisfiable)
    }
  }
}
