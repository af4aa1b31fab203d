/**
  The command-line flags gluppy.js reads through yargs, taken as booleans (an
  absent flag is false), and the four helpers that interpret them.
 */
module Flags {

  datatype Flags = Flags(
    distribution: bool,
    distro: bool,
    dist: bool,
    sourcemaps: bool,
    solo: bool)

  /** `isDist`: any of the three spellings selects a distribution build. */
  predicate IsDist(f: Flags) {
    f.distribution || f.distro || f.dist
  }

  /** `isDev`: every build that is not a distribution build. */
  predicate IsDev(f: Flags) {
    !IsDist(f)
  }

  /** `useSourcemaps`: the `--sourcemaps` flag. */
  predicate UseSourcemaps(f: Flags) {
    f.sourcemaps
  }

  /** `isRunningSolo`: the `--solo` flag, which leaves the bower files out. */
  predicate IsRunningSolo(f: Flags) {
    f.solo
  }

  /** No flags at all: a plain development build. */
  const NoFlags := Flags(false, false, false, false, false)
}
