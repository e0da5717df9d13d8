/** The sizes the engine is built with. */
module Limits {
  const MAX_THREADS: nat := 20
  const TRANSITION_SLOTS: nat := 1500
  const DEPTH_LIMIT_DEFAULT: nat := 1500
  const CYCLE_LIMIT: nat := 5
}
