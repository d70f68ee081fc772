/**
 * The tunables of `PsychoConfig` as one immutable value. Loading overrides
 * from a JSON file is I/O and is replaced by passing a different value.
 */
module Config {
  datatype Config = Config(
    decayFast: real,              // panic decay per second
    decaySlow: real,              // malice (and 0.8 x for obsession) decay per second
    corruptionDrift: real,        // baseline corruption growth per second
    energyRecoveryRate: real,
    energyCostPerAction: real,
    transitionHysteresis: real,   // score margin a challenger mode needs
    transitionDelay: real,        // dwell time, in seconds, between mode changes
    weightThreat: real,
    weightSupport: real,
    weightBeliytoporik: real,
    maxEpisodeHistory: int,
    persistVersion: int)
  {
    /** The ranges every property of the model is stated for. */
    predicate WellFormed() {
      && decayFast >= 0.0 && decaySlow >= 0.0 && corruptionDrift >= 0.0
      && energyRecoveryRate >= 0.0 && energyCostPerAction >= 0.0
      && transitionHysteresis >= 0.0 && transitionDelay >= 0.0
      && maxEpisodeHistory > 0
    }
  }

  /** The values in the source. */
  const Default := Config(0.06, 0.008, 0.0005, 0.01, 0.06, 0.08, 6.0, 0.15, 0.06, 0.28, 1000, 3)

  lemma DefaultWellFormed()
    ensures Default.WellFormed()
  {
  }
}
