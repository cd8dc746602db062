/** The mining site: the range of a mining duration (include/Site.h). */
module Site {

  /** Shortest mining duration, in simulated minutes (one hour). */
  const kMinMiningMinutes: int := 60

  /** Longest mining duration, in simulated minutes (five hours). */
  const kMaxMiningMinutes: int := 300

  /**
   * The values `getRandomMinedDuration` may return. The generator itself is a
   * library call; the model takes its result as an input that satisfies this.
   */
  predicate IsMiningDuration(d: int) {
    kMinMiningMinutes <= d <= kMaxMiningMinutes
  }
}
